/** What a tool's declaration means: which calls its parameters and which values its output admit, and how far
    the renderer's reading of schemas is JSON Schema's own. */
module ToolMeaning {
  import opened Prelude
  import opened Declarations
  import opened DeclarationTheorems
  import opened DeclarationMeaning
  import opened ToolDeclarations

  // ---- The closed reading and the open one ----

  /** No untyped schema with keywords of objects or arrays, no tuple, and no `prefixItems` beside `items`. */
  ghost predicate Settled(s: Schema)
    decreases Size(s), 1
  {
    s.Object? ==>
      (ListsSmaller(s);
       WholeList(s.anyOf);
       WholeList(s.oneOf);
       && KindSettled(s, s.kind)
       && TupleItems(s).Missing?
       && (s.anyOf.Listed? ==> AllSettled(s.anyOf.list, 0))
       && (s.oneOf.Listed? ==> AllSettled(s.oneOf.list, 0))
       && (s.allOf.Listed? ==> AllSettled(s.allOf.list, 0))
       && (s.items.Single? ==> Settled(s.items.schema))
       && PropertiesSettled(s.properties, 0)
       && (s.additional.Some? ==> Settled(s.additional.value)))
  }

  ghost predicate AllSettled(ss: seq<Schema>, i: nat)
    requires i <= |ss|
    decreases SizeFrom(ss, i), 0
  {
    i < |ss| ==> Settled(ss[i]) && AllSettled(ss, i + 1)
  }

  ghost predicate PropertiesSettled(ps: seq<Property>, i: nat)
    requires i <= |ps|
    decreases SizePropertiesFrom(ps, i), 0
  {
    i < |ps| ==> Settled(ps[i].schema) && PropertiesSettled(ps, i + 1)
  }

  ghost predicate KindSettled(s: Schema, kind: Kind)
    requires s.Object?
    decreases kind
  {
    match kind
    case Untyped => !s.objectKeys && !s.arrayKeys
    case Many(kinds) => forall k :: 0 <= k < |kinds| ==> KindSettled(s, kinds[k])
    case _ => true
  }

  ghost predicate EnvSettled(env: Env) {
    forall ref: string {:trigger env.resolve(ref)} :: env.resolve(ref).Some? ==> Settled(env.resolve(ref).value)
  }

  function Opened(c: Reading): Reading {
    c.(closed := false)
  }

  lemma {:induction false} TypeOpen(c: Reading, s: Schema, kind: Kind, v: Json)
    requires s.Object? && KindSettled(s, kind) && TypeAccepts(Opened(c), s, kind, v)
    ensures TypeAccepts(c, s, kind, v)
    decreases kind
  {
    if kind.Many? {
      var k :| 0 <= k < |kind.kinds| && TypeAccepts(Opened(c), s, kind.kinds[k], v);
      TypeOpen(c, s, kind.kinds[k], v);
    }
  }

  /** On settled schemas the two readings agree as far as the renderer needs it. */
  lemma {:induction false} OpenIsClosed(c: Reading, s: Schema, v: Json, n: nat)
    requires Settled(s) && EnvSettled(c.env) && Accepts(Opened(c), s, v, n)
    ensures Accepts(c, s, v, n)
    decreases n, Size(s), 1
  {
    if s.Object? {
      ListsSmaller(s);
      WholeList(s.anyOf);
      WholeList(s.oneOf);
      if s.ref.Some? {
        if n > 0 && c.env.resolve(s.ref.value).Some? {
          OpenIsClosed(c, c.env.resolve(s.ref.value).value, v, n - 1);
        }
      } else {
        if s.anyOf.Listed? { SomeOpen(c, s.anyOf.list, 0, v, n); }
        if s.oneOf.Listed? { SomeOpen(c, s.oneOf.list, 0, v, n); }
        if s.allOf.Listed? { AllOpen(c, s.allOf.list, 0, v, n); }
        TypeOpen(c, s, s.kind, v);
        HoldsOpen(c, s, v, n);
      }
    }
  }

  lemma {:induction false} SomeOpen(c: Reading, ss: seq<Schema>, i: nat, v: Json, n: nat)
    requires i <= |ss| && AllSettled(ss, i) && EnvSettled(c.env) && AcceptsSome(Opened(c), ss, i, v, n)
    ensures AcceptsSome(c, ss, i, v, n)
    decreases n, SizeFrom(ss, i), 0
  {
    if Accepts(Opened(c), ss[i], v, n) {
      OpenIsClosed(c, ss[i], v, n);
    } else {
      SomeOpen(c, ss, i + 1, v, n);
    }
  }

  lemma {:induction false} AllOpen(c: Reading, ss: seq<Schema>, i: nat, v: Json, n: nat)
    requires i <= |ss| && AllSettled(ss, i) && EnvSettled(c.env) && AcceptsAll(Opened(c), ss, i, v, n)
    ensures AcceptsAll(c, ss, i, v, n)
    decreases n, SizeFrom(ss, i), 0
  {
    if i < |ss| {
      OpenIsClosed(c, ss[i], v, n);
      AllOpen(c, ss, i + 1, v, n);
    }
  }

  lemma {:induction false} PropertiesOpen(c: Reading, ps: seq<Property>, i: nat, fields: seq<Field>, n: nat)
    requires i <= |ps| && PropertiesSettled(ps, i) && EnvSettled(c.env)
    requires AcceptsProperties(Opened(c), ps, i, fields, n)
    ensures AcceptsProperties(c, ps, i, fields, n)
    decreases n, SizePropertiesFrom(ps, i), 0
  {
    if i < |ps| {
      forall k | 0 <= k < |fields| && fields[k].key == ps[i].key ensures Accepts(c, ps[i].schema, fields[k].value, n) {
        OpenIsClosed(c, ps[i].schema, fields[k].value, n);
      }
      PropertiesOpen(c, ps, i + 1, fields, n);
    }
  }

  lemma {:induction false} HoldsOpen(c: Reading, s: Schema, v: Json, n: nat)
    requires s.Object? && Settled(s) && EnvSettled(c.env) && Holds(Opened(c), s, v, n)
    ensures Holds(c, s, v, n)
    decreases n, Size(s), 0
  {
    ListsSmaller(s);
    if v.Array? && s.items.Single? {
      forall i | 0 <= i < |v.items| ensures Accepts(c, s.items.schema, v.items[i], n) {
        OpenIsClosed(c, s.items.schema, v.items[i], n);
      }
    }
    if v.Record? {
      PropertiesOpen(c, s.properties, 0, v.fields, n);
      forall i | 0 <= i < |v.fields| && s.additional.Some? && !HasProperty(s.properties, v.fields[i].key)
        ensures Accepts(c, s.additional.value, v.fields[i].value, n)
      {
        OpenIsClosed(c, s.additional.value, v.fields[i].value, n);
      }
    }
  }

  // ---- One schema ----

  lemma {:induction false} WellDefinedOneEach(definitions: seq<Definition>)
    requires WellDefined(definitions)
    ensures OneEach(definitions)
  {
    forall i, j | 0 <= i < j < |definitions| ensures definitions[i].name != definitions[j].name {
      assert definitions[..j][i] == definitions[i] && definitions[i] in definitions[..j];
    }
  }

  /** A whole schema, rendered with any names taken: the definitions give every generated name one meaning, and
      each value the schema accepts in the closed reading inhabits the annotation; in JSON Schema's own, open
      reading too when the schema and what it refers to are settled; and nothing else does if it is exact. */
  lemma {:induction false} SchemaMeans(c: Reading, s: Schema, hint: string, taken: set<string>, v: Json, n: nat)
    requires c.closed && n >= 32
    ensures var r := Render(c.env, s, hint, StartOf(taken));
            && OneEach(r.progress.definitions)
            && (Accepts(c, s, v, n) ==> Inhabits(c.repr, r.progress.definitions, r.annotation, v))
            && (Settled(s) && EnvSettled(c.env) && Accepts(Opened(c), s, v, n) ==>
                  Inhabits(c.repr, r.progress.definitions, r.annotation, v))
            && (Exact(s) && Inhabits(c.repr, r.progress.definitions, r.annotation, v) ==> Accepts(c, s, v, n))
  {
    var r := Render(c.env, s, hint, StartOf(taken));
    RenderSound(c.env, s, hint, StartOf(taken), taken);
    WellDefinedOneEach(r.progress.definitions);
    RenderMeans(c, s, hint, StartOf(taken), taken, r.progress.definitions, v, n);
    if Settled(s) && EnvSettled(c.env) && Accepts(Opened(c), s, v, n) {
      OpenIsClosed(c, s, v, n);
    }
  }

  const UNTYPED := Object(None, NoConst, None, Missing, Missing, Missing, Untyped, NoItems, Missing, false, [], None,
                          {}, false, false)

  /** `{"additionalProperties": true}` accepts 5, and renders as `dict[str, Any]`. */
  lemma {:induction false} UntypedObjectMissesOthers(env: Env, repr: Json -> Option<string>, hint: string,
                                                     taken: set<string>)
    ensures var s := UNTYPED.(additional := Some(True), objectKeys := true);
            var r := Render(env, s, hint, StartOf(taken));
            && Accepts(Reading(env, repr, false), s, Int(5), MAX_REF_EXPANSIONS)
            && !Inhabits(repr, r.progress.definitions, r.annotation, Int(5))
  {
    var s, p := UNTYPED.(additional := Some(True), objectKeys := true), StartOf(taken);
    assert RenderKind(env, s, Untyped, hint, p) == Rendered([DictOf(ANY)], p);
    OneAlternative(repr, [], DictOf(ANY), Int(5));
  }

  /** `{"items": true}` accepts 5, and renders as `list[Any]`. */
  lemma {:induction false} UntypedArrayMissesOthers(env: Env, repr: Json -> Option<string>, hint: string,
                                                    taken: set<string>)
    ensures var s := UNTYPED.(items := Single(True), arrayKeys := true);
            var r := Render(env, s, hint, StartOf(taken));
            && Accepts(Reading(env, repr, false), s, Int(5), MAX_REF_EXPANSIONS)
            && !Inhabits(repr, r.progress.definitions, r.annotation, Int(5))
  {
    var s, p := UNTYPED.(items := Single(True), arrayKeys := true), StartOf(taken);
    assert Render(env, True, hint + "Item", p) == Rendered(ANY, p);
    assert RenderKind(env, s, Untyped, hint, p) == Rendered([ListOf(ANY)], p);
    OneAlternative(repr, [], ListOf(ANY), Int(5));
  }

  lemma {:induction false} NotStrings(repr: Json -> Option<string>, defs: seq<Definition>, items: seq<Json>, i: nat)
    requires i < |items| && items[i].Int?
    ensures !Inhabits(repr, defs, [ListOf([Scalar("str")])], Array(items))
  {
    OneAlternative(repr, defs, ListOf([Scalar("str")]), Array(items));
    OneAlternative(repr, defs, Scalar("str"), items[i]);
    assert Array(items).items[i] == items[i];
  }

  lemma {:induction false} SingleUnion(a: Atom)
    requires a != AnyAtom
    ensures UnionOf([[a]]) == [a]
  {
    var types: seq<Annotation> := [[a]];
    assert types[..0] == [] && types[1..] == [];
    assert Unique(types) == [] + [types[0]] == types;
    assert types[0] == [a] && [a][0] != ANY[0];
    assert Flatten(types[1..]) == [];
    assert Flatten(types) == [a] + [];
  }

  /** A tuple of one string accepts a second element that is none, and renders as `list[str]`. */
  lemma {:induction false} TupleMissesFurther(env: Env, repr: Json -> Option<string>, hint: string, taken: set<string>)
    ensures var s := UNTYPED.(kind := Named("array"), prefixItems := Listed([UNTYPED.(kind := Named("string"))]),
                              arrayKeys := true);
            var v := Array([Text("a"), Int(5)]);
            var r := Render(env, s, hint, StartOf(taken));
            && Accepts(Reading(env, repr, false), s, v, MAX_REF_EXPANSIONS)
            && !Inhabits(repr, r.progress.definitions, r.annotation, v)
  {
    var text := UNTYPED.(kind := Named("string"));
    var s := UNTYPED.(kind := Named("array"), prefixItems := Listed([text]), arrayKeys := true);
    var c, items, p := Reading(env, repr, false), [Text("a"), Int(5)], StartOf(taken);
    assert Accepts(c, text, items[0], MAX_REF_EXPANSIONS);
    EachIs(c, [text], 0, items, MAX_REF_EXPANSIONS);
    assert Holds(c, s, Array(items), MAX_REF_EXPANSIONS);
    assert Render(env, text, hint + "Item", p) == Rendered([Scalar("str")], p);
    assert RenderAll(env, [text], 1, hint + "Item", p) == RenderedList([], p);
    assert RenderAll(env, [text], 0, hint + "Item", p) == RenderedList([[Scalar("str")]], p);
    SingleUnion(Scalar("str"));
    assert RenderArray(env, s, hint, p) == Rendered([ListOf([Scalar("str")])], p);
    assert RenderKind(env, s, s.kind, hint, p) == RenderArray(env, s, hint, p);
    NotStrings(repr, [], items, 1);
  }

  /** Strings behind a first element that is a number: rendered as `list[str]`. */
  lemma {:induction false} ItemsMissPrefix(env: Env, repr: Json -> Option<string>, hint: string, taken: set<string>)
    ensures var s := UNTYPED.(kind := Named("array"), prefixItems := Listed([UNTYPED.(kind := Named("integer"))]),
                              items := Single(UNTYPED.(kind := Named("string"))), arrayKeys := true);
            var v := Array([Int(5)]);
            var r := Render(env, s, hint, StartOf(taken));
            && Accepts(Reading(env, repr, false), s, v, MAX_REF_EXPANSIONS)
            && !Inhabits(repr, r.progress.definitions, r.annotation, v)
  {
    var text, number := UNTYPED.(kind := Named("string")), UNTYPED.(kind := Named("integer"));
    var s := UNTYPED.(kind := Named("array"), prefixItems := Listed([number]), items := Single(text),
                      arrayKeys := true);
    var c, items, p := Reading(env, repr, false), [Int(5)], StartOf(taken);
    assert Accepts(c, number, items[0], MAX_REF_EXPANSIONS);
    EachIs(c, [number], 0, items, MAX_REF_EXPANSIONS);
    assert Holds(c, s, Array(items), MAX_REF_EXPANSIONS);
    assert Render(env, text, hint + "Item", p) == Rendered([Scalar("str")], p);
    assert RenderArray(env, s, hint, p) == Rendered([ListOf([Scalar("str")])], p);
    assert RenderKind(env, s, s.kind, hint, p) == RenderArray(env, s, hint, p);
    NotStrings(repr, [], items, 0);
  }

  // ---- One tool ----

  /** Each property once, required ones first, each group in the schema's order. */
  ghost predicate OrderedAs(parameters: seq<Parameter>, ps: seq<Property>, required: set<string>, at: seq<nat>) {
    && |at| == |parameters|
    && (forall i :: 0 <= i < |at| ==>
          at[i] < |ps| && parameters[i] == Parameter(ps[at[i]].key, ps[at[i]].schema, ps[at[i]].key in required))
    && (forall k: nat :: k < |ps| ==> k in at)
    && (forall i, j :: 0 <= i < j < |at| ==>
          if parameters[i].required == parameters[j].required then at[i] < at[j] else parameters[i].required)
  }

  lemma {:induction false} GroupPicks(ps: seq<Property>, n: nat, required: set<string>, wanted: bool)
    returns (at: seq<nat>)
    requires n <= |ps|
    ensures |Group(ps[..n], required, wanted)| == |at|
    ensures forall i :: 0 <= i < |at| ==>
              && at[i] < n && (ps[at[i]].key in required) == wanted
              && Group(ps[..n], required, wanted)[i] == Parameter(ps[at[i]].key, ps[at[i]].schema, wanted)
    ensures forall k: nat :: k < n && (ps[k].key in required) == wanted ==> k in at
    ensures forall i, j :: 0 <= i < j < |at| ==> at[i] < at[j]
  {
    at := [];
    if n > 0 {
      at := GroupPicks(ps, n - 1, required, wanted);
      assert ps[..n][..n - 1] == ps[..n - 1];
      if (ps[n - 1].key in required) == wanted {
        at := at + [n - 1];
      }
    }
  }

  lemma {:induction false} GroupsOrdered(ps: seq<Property>, required: set<string>) returns (at: seq<nat>)
    ensures OrderedAs(Group(ps, required, true) + Group(ps, required, false), ps, required, at)
  {
    var first := GroupPicks(ps, |ps|, required, true);
    var second := GroupPicks(ps, |ps|, required, false);
    assert ps[..|ps|] == ps;
    at := first + second;
    forall k: nat | k < |ps| ensures k in at {
      assert k in first || k in second;
    }
  }

  // ---- The declaration of a tool ----

  /** A line has its parameter's name and flag, and its annotation describes the parameter's schema. */
  ghost predicate LineDescribes(c: Reading, defs: seq<Definition>, line: Line, parameter: Parameter, v: Json, n: nat) {
    && line.name == parameter.name && line.required == parameter.required
    && Describes(c, defs, line.annotation, parameter.schema, v, n)
  }

  ghost predicate LinesDescribe(c: Reading, defs: seq<Definition>, lines: seq<Line>, ps: seq<Parameter>, i: nat,
                                v: Json, n: nat)
  {
    && i <= |ps| && |lines| == |ps| - i
    && forall k :: 0 <= k < |lines| ==> LineDescribes(c, defs, lines[k], ps[i + k], v, n)
  }

  lemma {:induction false} LinesCons(c: Reading, defs: seq<Definition>, line: Line, rest: seq<Line>,
                                     ps: seq<Parameter>, i: nat, v: Json, n: nat)
    requires i < |ps| && LineDescribes(c, defs, line, ps[i], v, n) && LinesDescribe(c, defs, rest, ps, i + 1, v, n)
    ensures LinesDescribe(c, defs, [line] + rest, ps, i, v, n)
  {
    var all := [line] + rest;
    forall k | 0 <= k < |all| ensures LineDescribes(c, defs, all[k], ps[i + k], v, n) {
      if k > 0 {
        assert LineDescribes(c, defs, rest[k - 1], ps[i + 1 + (k - 1)], v, n);
      }
    }
  }

  lemma {:induction false} LinesMean(c: Reading, ps: seq<Parameter>, i: nat, base: string, p: Progress,
                                     before: set<string>, defs: seq<Definition>, v: Json, n: nat)
    requires c.closed && n >= Left(p) && Sound(p, before) && OneEach(defs) && i <= |ps|
    requires Within(RenderLines(c.env, ps, i, base, p).progress.definitions, defs)
    ensures LinesDescribe(c, defs, RenderLines(c.env, ps, i, base, p).lines, ps, i, v, n)
    decreases |ps| - i
  {
    if i < |ps| {
      var hint := base + c.env.pascal(ps[i].name);
      var first := Render(c.env, ps[i].schema, hint, p);
      var rest := RenderLines(c.env, ps, i + 1, base, first.progress);
      RenderSound(c.env, ps[i].schema, hint, p, before);
      RenderLinesSound(c.env, ps, i + 1, base, first.progress, before);
      WithinEarlier(first.progress, rest.progress, defs);
      RenderMeans(c, ps[i].schema, hint, p, before, defs, v, n);
      LinesMean(c, ps, i + 1, base, first.progress, before, defs, v, n);
      LinesCons(c, defs, Line(ps[i].name, first.annotation, ps[i].required), rest.lines, ps, i, v, n);
    }
  }

  function ReadingOf(c: Config, repr: Json -> Option<string>, root: Schema): Reading {
    Reading(EnvOf(c, root), repr, true)
  }

  /** The declared parameters are the input's properties, each once and required ones first, and each line
      describes its property; so does the declared result. `defs` may be the definitions of all tools. */
  lemma {:induction false} ToolMeans(c: Config, repr: Json -> Option<string>, t: Tool, identifier: string,
                                     taken: set<string>, defs: seq<Definition>, v: Json, n: nat)
    requires n >= 32 && OneEach(defs)
    requires Within(RenderTool(c, t, identifier, taken).0.definitions, defs)
    ensures var r := RenderTool(c, t, identifier, taken).0;
            && (r.lines.Some? ==>
                  && t.input.Some? && t.input.value.Object?
                  && exists at, parameters ::
                       && OrderedAs(parameters, t.input.value.properties, t.input.value.required, at)
                       && LinesDescribe(ReadingOf(c, repr, t.input.value), defs, r.lines.value, parameters, 0, v, n))
            && (t.output.Some? ==>
                  Describes(ReadingOf(c, repr, t.output.value), defs, r.output, t.output.value, v, n))
            && (t.output.None? ==> Inhabits(repr, defs, r.output, v))
  {
    var base := c.pascal(identifier);
    var input := RenderInput(c, t, base, taken);
    var output := RenderOutput(c, t, base, input.taken);
    WithinParts(input.definitions, output.progress.definitions, defs);
    AnyInhabited(repr, defs, v);
    if input.lines.Some? {
      InputMeans(c, repr, t, base, taken, defs, v, n);
    }
    if t.output.Some? {
      RenderMeans(ReadingOf(c, repr, t.output.value), t.output.value, base + "Result", StartOf(input.taken),
                  input.taken, defs, v, n);
    }
  }

  /** The parameters are declared when they fit the budget with or without tags; otherwise no line, no definition
      and no taken name is left of them. */
  lemma {:induction false} BudgetDecides(c: Config, t: Tool, base: string, taken: set<string>)
    requires InputParameters(c, t.input).Some?
    ensures var r := RenderLines(EnvOf(c, t.input.value), InputParameters(c, t.input).value, 0, base, StartOf(taken));
            var input := RenderInput(c, t, base, taken);
            if exists tags :: c.fits(tags, r.lines, r.progress.definitions) then
              input.lines == Some(r.lines) && input.definitions == r.progress.definitions
            else input.lines == None && input.definitions == [] && input.taken == taken
  {
    var r := RenderLines(EnvOf(c, t.input.value), InputParameters(c, t.input).value, 0, base, StartOf(taken));
    assert forall tags :: c.fits(tags, r.lines, r.progress.definitions) ==> tags == true || tags == false;
  }

  lemma {:induction false} WithinParts(a: seq<Definition>, b: seq<Definition>, defs: seq<Definition>)
    requires Within(a + b, defs)
    ensures Within(a, defs) && Within(b, defs)
  {
    assert forall d :: d in a ==> d in a + b;
    assert forall d :: d in b ==> d in a + b;
  }

  lemma {:induction false} InputMeans(c: Config, repr: Json -> Option<string>, t: Tool, base: string,
                                      taken: set<string>, defs: seq<Definition>, v: Json, n: nat)
    requires n >= 32 && OneEach(defs) && RenderInput(c, t, base, taken).lines.Some?
    requires Within(RenderInput(c, t, base, taken).definitions, defs)
    ensures t.input.Some? && t.input.value.Object?
    ensures exists at, parameters ::
              && OrderedAs(parameters, t.input.value.properties, t.input.value.required, at)
              && LinesDescribe(ReadingOf(c, repr, t.input.value), defs, RenderInput(c, t, base, taken).lines.value,
                               parameters, 0, v, n)
  {
    var s, parameters := t.input.value, InputParameters(c, t.input).value;
    LinesMean(ReadingOf(c, repr, s), parameters, 0, base, StartOf(taken), taken, defs, v, n);
    if s.properties == [] {
      assert OrderedAs(parameters, s.properties, s.required, []);
    } else {
      var at := GroupsOrdered(s.properties, s.required);
      assert OrderedAs(parameters, s.properties, s.required, at);
    }
  }
}
