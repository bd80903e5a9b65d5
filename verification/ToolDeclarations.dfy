/** Declaring a list of tools: keyword parameters rendered within a size budget, with the names of a
    discarded rendering released, and names unique across all tools. */
module ToolDeclarations {
  import opened Prelude
  import opened Declarations
  import opened DeclarationTheorems
  import opened SchemaRendering

  datatype Tool = Tool(name: string, input: Option<Schema>, output: Option<Schema>)

  datatype Parameter = Parameter(name: string, schema: Schema, required: bool)

  datatype Line = Line(name: string, annotation: Annotation, required: bool)

  /** Without `lines` the tool takes `**args: Any`. */
  datatype RenderedTool = RenderedTool(identifier: string, definitions: seq<Definition>, lines: Option<seq<Line>>,
                                       output: Annotation)

  /** What the rendering looks up: references against a root schema, identifiers and their PascalCase, and
      whether a rendering with or without constraint tags is within the budget. */
  datatype Config = Config(
    lookup: (Schema, string) -> Option<Schema>,
    pascal: string -> string,
    identify: string -> string,
    isIdentifier: string -> bool,
    fits: (bool, seq<Line>, seq<Definition>) -> bool)

  const RESERVED: set<string> :=
    {"Any", "Literal", "Mapping", "Never", "NotRequired", "TypedDict", "Tools", "tools",
     "ToolInfo", "ImageUrl", "ImageBlock", "SettledFulfilled", "SettledRejected", "ALL_TOOLS"}

  function EnvOf(c: Config, root: Schema): Env {
    Env(ref => c.lookup(root, ref), c.pascal)
  }

  function StartOf(taken: set<string>): Progress {
    Progress(taken, {}, 0, [])
  }

  // ---- Parameters ----

  /** The properties that are, or are not, required, in the schema's order. */
  function Group(ps: seq<Property>, required: set<string>, wanted: bool): seq<Parameter> {
    if ps == [] then []
    else Group(ps[..|ps| - 1], required, wanted)
         + (var p := ps[|ps| - 1]; if (p.key in required) == wanted then [Parameter(p.key, p.schema, wanted)] else [])
  }

  /** `input_parameters` */
  function InputParameters(c: Config, input: Option<Schema>): Option<seq<Parameter>> {
    if input.None? || !input.value.Object? then None
    else if !input.value.propertiesGiven || |input.value.properties| == 0 then
      if input.value.propertiesGiven && input.value.additional == Some(False) then Some([]) else None
    else if exists k :: 0 <= k < |input.value.properties| && !c.isIdentifier(input.value.properties[k].key) then None
    else
      var s := input.value;
      Some(Group(s.properties, s.required, true) + Group(s.properties, s.required, false))
  }

  // ---- One tool ----

  datatype RenderedLines = RenderedLines(lines: seq<Line>, progress: Progress)

  ghost function RenderLines(env: Env, ps: seq<Parameter>, i: nat, base: string, p: Progress): RenderedLines
    requires i <= |ps|
    decreases |ps| - i
  {
    if i == |ps| then RenderedLines([], p)
    else
      var first := Render(env, ps[i].schema, base + env.pascal(ps[i].name), p);
      var rest := RenderLines(env, ps, i + 1, base, first.progress);
      RenderedLines([Line(ps[i].name, first.annotation, ps[i].required)] + rest.lines, rest.progress)
  }

  datatype Input = Input(lines: Option<seq<Line>>, definitions: seq<Definition>, taken: set<string>)

  /** The input within the budget, with or without its tags; otherwise its names are released. */
  ghost function RenderInput(c: Config, t: Tool, base: string, taken: set<string>): Input {
    var parameters := InputParameters(c, t.input);
    if parameters.None? then Input(None, [], taken)
    else
      var r := RenderLines(EnvOf(c, t.input.value), parameters.value, 0, base, StartOf(taken));
      if c.fits(true, r.lines, r.progress.definitions) || c.fits(false, r.lines, r.progress.definitions)
      then Input(Some(r.lines), r.progress.definitions, r.progress.taken)
      else Input(None, [], taken)
  }

  ghost function RenderOutput(c: Config, t: Tool, base: string, taken: set<string>): Rendered {
    if t.output.None? then Rendered(ANY, StartOf(taken))
    else Render(EnvOf(c, t.output.value), t.output.value, base + "Result", StartOf(taken))
  }

  ghost function RenderTool(c: Config, t: Tool, identifier: string, taken: set<string>): (RenderedTool, set<string>) {
    var input := RenderInput(c, t, c.pascal(identifier), taken);
    var output := RenderOutput(c, t, c.pascal(identifier), input.taken);
    (RenderedTool(identifier, input.definitions + output.progress.definitions, input.lines, output.annotation),
     output.progress.taken)
  }

  // ---- All tools ----

  datatype Batch = Batch(rendered: seq<RenderedTool>, seen: set<string>, taken: set<string>)

  ghost function RenderOne(c: Config, b: Batch, t: Tool): Batch {
    var identifier := c.identify(t.name);
    if identifier in b.seen then b
    else
      var r := RenderTool(c, t, identifier, b.taken);
      Batch(b.rendered + [r.0], b.seen + {identifier}, r.1)
  }

  ghost function RenderTools(c: Config, tools: seq<Tool>, reserved: set<string>): Batch {
    if tools == [] then Batch([], {}, RESERVED + reserved)
    else RenderOne(c, RenderTools(c, tools[..|tools| - 1], reserved), tools[|tools| - 1])
  }

  // ---- One tool is sound ----

  ghost predicate ClosedLines(lines: seq<Line>, names: set<string>) {
    forall k :: 0 <= k < |lines| ==> Closed(lines[k].annotation, names)
  }

  lemma {:induction false} RenderLinesSound(env: Env, ps: seq<Parameter>, i: nat, base: string, p: Progress,
                                            before: set<string>)
    requires Sound(p, before) && i <= |ps|
    ensures var r := RenderLines(env, ps, i, base, p);
            Sound(r.progress, before) && Extends(p, r.progress)
              && ClosedLines(r.lines, DefNames(r.progress.definitions))
    decreases |ps| - i
  {
    if i < |ps| {
      var first := Render(env, ps[i].schema, base + env.pascal(ps[i].name), p);
      RenderSound(env, ps[i].schema, base + env.pascal(ps[i].name), p, before);
      RenderLinesSound(env, ps, i + 1, base, first.progress, before);
      var rest := RenderLines(env, ps, i + 1, base, first.progress);
      ExtendsClosed(first.annotation, first.progress, rest.progress);
    }
  }

  /** `more` defines names on top of `taken`: exactly those, each new, each definition after those it uses. */
  ghost predicate Adds(taken: set<string>, definitions: seq<Definition>, after: set<string>) {
    && after == taken + DefNames(definitions) && taken !! DefNames(definitions)
    && WellDefined(definitions)
  }

  lemma {:induction false} InputSound(c: Config, t: Tool, base: string, taken: set<string>)
    ensures var input := RenderInput(c, t, base, taken);
            && Adds(taken, input.definitions, input.taken)
            && (input.lines.Some? ==> ClosedLines(input.lines.value, DefNames(input.definitions)))
  {
    assert Sound(StartOf(taken), taken);
    var parameters := InputParameters(c, t.input);
    if parameters.Some? {
      RenderLinesSound(EnvOf(c, t.input.value), parameters.value, 0, base, StartOf(taken), taken);
    }
  }

  lemma {:induction false} OutputSound(c: Config, t: Tool, base: string, taken: set<string>)
    ensures var output := RenderOutput(c, t, base, taken);
            && Adds(taken, output.progress.definitions, output.progress.taken)
            && Closed(output.annotation, DefNames(output.progress.definitions))
  {
    assert Sound(StartOf(taken), taken);
    if t.output.Some? {
      RenderSound(EnvOf(c, t.output.value), t.output.value, base + "Result", StartOf(taken), taken);
    }
  }

  lemma {:induction false} DefNamesAppend(a: seq<Definition>, b: seq<Definition>)
    ensures DefNames(a + b) == DefNames(a) + DefNames(b)
  {
    forall n | n in DefNames(a) + DefNames(b) ensures n in DefNames(a + b) {
      if n in DefNames(a) {
        var d :| d in a && d.name == n;
        assert d in a + b;
      } else {
        var d :| d in b && d.name == n;
        assert d in a + b;
      }
    }
  }

  lemma {:induction false} ClosedDefinitionGrows(d: Definition, names: set<string>, more: set<string>)
    requires ClosedDefinition(d, names) && names <= more
    ensures ClosedDefinition(d, more)
  {
    forall k | 0 <= k < |d.members| ensures Closed(d.members[k].annotation, more) {
      ClosedGrows(d.members[k].annotation, names, more);
    }
    if d.extra.Some? { ClosedGrows(d.extra.value, names, more); }
  }

  lemma {:induction false} WellDefinedAppend(a: seq<Definition>, b: seq<Definition>)
    requires WellDefined(a) && WellDefined(b) && DefNames(a) !! DefNames(b)
    ensures WellDefined(a + b)
  {
    var all := a + b;
    forall k | 0 <= k < |all|
      ensures all[k].name !in DefNames(all[..k]) && ClosedDefinition(all[k], DefNames(all[..k]))
    {
      if k < |a| {
        assert all[..k] == a[..k];
      } else {
        var j := k - |a|;
        assert all[..k] == a + b[..j];
        DefNamesAppend(a, b[..j]);
        assert b[j] in b && b[j].name in DefNames(b);
        ClosedDefinitionGrows(b[j], DefNames(b[..j]), DefNames(all[..k]));
      }
    }
  }

  lemma {:induction false} AddsAppend(taken: set<string>, a: seq<Definition>, middle: set<string>, b: seq<Definition>,
                                      after: set<string>)
    requires Adds(taken, a, middle) && Adds(middle, b, after)
    ensures Adds(taken, a + b, after)
  {
    DefNamesAppend(a, b);
    WellDefinedAppend(a, b);
  }

  ghost predicate ClosedTool(r: RenderedTool) {
    && Closed(r.output, DefNames(r.definitions))
    && (r.lines.Some? ==> ClosedLines(r.lines.value, DefNames(r.definitions)))
  }

  lemma {:induction false} ClosedLinesGrow(lines: seq<Line>, names: set<string>, more: set<string>)
    requires ClosedLines(lines, names) && names <= more
    ensures ClosedLines(lines, more)
  {
    forall k | 0 <= k < |lines| ensures Closed(lines[k].annotation, more) {
      ClosedGrows(lines[k].annotation, names, more);
    }
  }

  lemma {:induction false} ToolSound(c: Config, t: Tool, identifier: string, taken: set<string>)
    ensures var r := RenderTool(c, t, identifier, taken);
            Adds(taken, r.0.definitions, r.1) && ClosedTool(r.0)
  {
    var base := c.pascal(identifier);
    var input := RenderInput(c, t, base, taken);
    var output := RenderOutput(c, t, base, input.taken);
    InputSound(c, t, base, taken);
    OutputSound(c, t, base, input.taken);
    AddsAppend(taken, input.definitions, input.taken, output.progress.definitions, output.progress.taken);
    DefNamesAppend(input.definitions, output.progress.definitions);
    var names := DefNames(input.definitions + output.progress.definitions);
    ClosedGrows(output.annotation, DefNames(output.progress.definitions), names);
    if input.lines.Some? { ClosedLinesGrow(input.lines.value, DefNames(input.definitions), names); }
  }

  // ---- All tools are sound ----

  function Definitions(rendered: seq<RenderedTool>): seq<Definition> {
    if rendered == [] then [] else Definitions(rendered[..|rendered| - 1]) + rendered[|rendered| - 1].definitions
  }

  ghost function Identifiers(rendered: seq<RenderedTool>): set<string> {
    set r | r in rendered :: r.identifier
  }

  ghost predicate BatchSound(b: Batch, reserved: set<string>) {
    && Adds(RESERVED + reserved, Definitions(b.rendered), b.taken)
    && (forall k :: 0 <= k < |b.rendered| ==> ClosedTool(b.rendered[k]))
  }

  /** One rendered tool per identifier seen. */
  ghost predicate OnePerIdentifier(b: Batch) {
    && b.seen == Identifiers(b.rendered)
    && (forall j, k :: 0 <= j < k < |b.rendered| ==> b.rendered[j].identifier != b.rendered[k].identifier)
  }

  lemma {:induction false} OneSound(c: Config, b: Batch, t: Tool, reserved: set<string>)
    requires BatchSound(b, reserved)
    ensures BatchSound(RenderOne(c, b, t), reserved)
  {
    var identifier := c.identify(t.name);
    if identifier !in b.seen {
      var r := RenderTool(c, t, identifier, b.taken);
      ToolSound(c, t, identifier, b.taken);
      AddsAppend(RESERVED + reserved, Definitions(b.rendered), b.taken, r.0.definitions, r.1);
      assert (b.rendered + [r.0])[..|b.rendered|] == b.rendered;
    }
  }

  lemma {:induction false} OneIdentified(c: Config, b: Batch, t: Tool)
    requires OnePerIdentifier(b)
    ensures OnePerIdentifier(RenderOne(c, b, t)) && c.identify(t.name) in RenderOne(c, b, t).seen
    ensures b.seen <= RenderOne(c, b, t).seen && b.rendered <= RenderOne(c, b, t).rendered
  {
    var identifier := c.identify(t.name);
    if identifier !in b.seen {
      var r := RenderTool(c, t, identifier, b.taken).0;
      assert r.identifier == identifier;
      assert forall k :: 0 <= k < |b.rendered| ==> b.rendered[k] in b.rendered && b.rendered[k].identifier in b.seen;
      assert Identifiers(b.rendered + [r]) == Identifiers(b.rendered) + {identifier} by {
        assert r in b.rendered + [r];
        forall x | x in b.rendered ensures x in b.rendered + [r] {}
      }
    }
  }

  /** Rendering any list of tools ends, and: every generated name is defined once and is not reserved, released
      names included; each definition mentions only names defined before it, each tool only its own; no other
      name stays taken; and every tool's identifier is rendered exactly once. */
  lemma {:induction false} ToolsSound(c: Config, tools: seq<Tool>, reserved: set<string>)
    ensures var b := RenderTools(c, tools, reserved);
            && BatchSound(b, reserved) && OnePerIdentifier(b)
            && (forall k :: 0 <= k < |tools| ==> c.identify(tools[k].name) in b.seen)
  {
    ToolsBatchSound(c, tools, reserved);
    ToolsIdentified(c, tools, reserved);
    ToolsSeen(c, tools, reserved);
  }

  lemma {:induction false} ToolsBatchSound(c: Config, tools: seq<Tool>, reserved: set<string>)
    ensures BatchSound(RenderTools(c, tools, reserved), reserved)
  {
    if tools != [] {
      ToolsBatchSound(c, tools[..|tools| - 1], reserved);
      OneSound(c, RenderTools(c, tools[..|tools| - 1], reserved), tools[|tools| - 1], reserved);
    }
  }

  lemma {:induction false} ToolsIdentified(c: Config, tools: seq<Tool>, reserved: set<string>)
    ensures OnePerIdentifier(RenderTools(c, tools, reserved))
  {
    if tools != [] {
      ToolsIdentified(c, tools[..|tools| - 1], reserved);
      OneIdentified(c, RenderTools(c, tools[..|tools| - 1], reserved), tools[|tools| - 1]);
    }
  }

  lemma {:induction false} ToolsSeen(c: Config, tools: seq<Tool>, reserved: set<string>)
    ensures forall k :: 0 <= k < |tools| ==> c.identify(tools[k].name) in RenderTools(c, tools, reserved).seen
  {
    if tools != [] {
      var front, t := tools[..|tools| - 1], tools[|tools| - 1];
      var b := RenderTools(c, front, reserved);
      ToolsSeen(c, front, reserved);
      ToolsIdentified(c, front, reserved);
      OneIdentified(c, b, t);
      assert forall k :: 0 <= k < |front| ==> front[k] == tools[k];
    }
  }

  // ---- The methods ----

  method SelectParameters(ps: seq<Property>, required: set<string>, wanted: bool) returns (r: seq<Parameter>)
    ensures r == Group(ps, required, wanted)
  {
    r := [];
    assert ps[..0] == [];
    for k := 0 to |ps|
      invariant r == Group(ps[..k], required, wanted)
    {
      assert ps[..k + 1][..k] == ps[..k];
      if (ps[k].key in required) == wanted {
        r := r + [Parameter(ps[k].key, ps[k].schema, wanted)];
      }
    }
    assert ps[..|ps|] == ps;
  }

  method FindParameters(c: Config, input: Option<Schema>) returns (r: Option<seq<Parameter>>)
    ensures r == InputParameters(c, input)
  {
    if input.None? || !input.value.Object? {
      return None;
    }
    var s := input.value;
    if !s.propertiesGiven || |s.properties| == 0 {
      return if s.propertiesGiven && s.additional == Some(False) then Some([]) else None;
    }
    for k := 0 to |s.properties|
      invariant forall j :: 0 <= j < k ==> c.isIdentifier(s.properties[j].key)
    {
      if !c.isIdentifier(s.properties[k].key) {
        return None;
      }
    }
    var first := SelectParameters(s.properties, s.required, true);
    var second := SelectParameters(s.properties, s.required, false);
    r := Some(first + second);
  }

  method RenderParameters(renderer: SchemaRenderer, ps: seq<Parameter>, base: string) returns (lines: seq<Line>)
    modifies renderer, renderer.names
    ensures RenderedLines(lines, renderer.State()) == RenderLines(renderer.env, ps, 0, base, old(renderer.State()))
  {
    lines := [];
    ghost var whole := RenderLines(renderer.env, ps, 0, base, renderer.State());
    for k := 0 to |ps|
      invariant var rest := RenderLines(renderer.env, ps, k, base, renderer.State());
                whole == RenderedLines(lines + rest.lines, rest.progress)
    {
      var a := renderer.RenderSchema(ps[k].schema, base + renderer.env.pascal(ps[k].name));
      var line := Line(ps[k].name, a, ps[k].required);
      Associative(lines, [line], RenderLines(renderer.env, ps, k + 1, base, renderer.State()).lines);
      lines := lines + [line];
    }
  }

  /** Tried with the constraint tags, then without; each rendering over the budget releases its names. */
  method RenderWithinBudget(c: Config, t: Tool, ps: seq<Parameter>, base: string, names: Names)
    returns (lines: Option<seq<Line>>, definitions: seq<Definition>)
    requires InputParameters(c, t.input) == Some(ps)
    modifies names
    ensures Input(lines, definitions, names.taken) == RenderInput(c, t, base, old(names.taken))
  {
    var checkpoint := names.Checkpoint();
    var tags := true;
    for round := 0 to 2
      invariant names.taken == checkpoint == old(names.taken) && tags == (round == 0)
      invariant var r := RenderLines(EnvOf(c, t.input.value), ps, 0, base, StartOf(checkpoint));
                && (round > 0 ==> !c.fits(true, r.lines, r.progress.definitions))
                && (round > 1 ==> !c.fits(false, r.lines, r.progress.definitions))
    {
      var renderer := new SchemaRenderer(names, EnvOf(c, t.input.value));
      var rendered := RenderParameters(renderer, ps, base);
      if c.fits(tags, rendered, renderer.definitions) {
        return Some(rendered), renderer.definitions;
      }
      names.Restore(checkpoint);
      tags := false;
    }
    return None, [];
  }

  method DeclareTool(c: Config, t: Tool, identifier: string, names: Names) returns (r: RenderedTool)
    modifies names
    ensures (r, names.taken) == RenderTool(c, t, identifier, old(names.taken))
  {
    var base := c.pascal(identifier);
    var parameters := FindParameters(c, t.input);
    var lines: Option<seq<Line>>, definitions := None, [];
    if parameters.Some? {
      lines, definitions := RenderWithinBudget(c, t, parameters.value, base, names);
    }
    var output := ANY;
    if t.output.Some? {
      var renderer := new SchemaRenderer(names, EnvOf(c, t.output.value));
      output := renderer.RenderSchema(t.output.value, base + "Result");
      definitions := definitions + renderer.definitions;
    } else {
      assert definitions + [] == definitions;
    }
    r := RenderedTool(identifier, definitions, lines, output);
  }

  /** `render_tools` */
  method DeclareTools(c: Config, tools: seq<Tool>, reserved: set<string>) returns (rendered: seq<RenderedTool>)
    ensures rendered == RenderTools(c, tools, reserved).rendered
    ensures WellDefined(Definitions(rendered)) && (RESERVED + reserved) !! DefNames(Definitions(rendered))
  {
    var names := new Names(RESERVED + reserved);
    var seen: set<string> := {};
    rendered := [];
    assert tools[..0] == [];
    for k := 0 to |tools|
      invariant Batch(rendered, seen, names.taken) == RenderTools(c, tools[..k], reserved)
      invariant fresh(names)
    {
      assert tools[..k + 1][..k] == tools[..k];
      var identifier := c.identify(tools[k].name);
      if identifier !in seen {
        seen := seen + {identifier};
        var r := DeclareTool(c, tools[k], identifier, names);
        rendered := rendered + [r];
      }
    }
    assert tools[..|tools|] == tools;
    ToolsSound(c, tools, reserved);
  }
}
