/** Rendering JSON Schemas as Python annotations: the recursive renderer with its budget of reference
    expansions, the generated type names, and the typed dictionaries it defines on the way. */
module Declarations {
  import opened Prelude

  /** A `type` keyword: absent (or null), a name, a list of types, or some other value. */
  datatype Kind = Untyped | Named(name: string) | Many(kinds: seq<Kind>) | Odd

  /** `const`: a representable literal, or a value a literal cannot hold. */
  datatype Const = NoConst | Const(literal: Option<string>)

  datatype Items = NoItems | Single(schema: Schema) | Tuple(schemas: seq<Schema>)

  datatype Schemas = Missing | Listed(list: seq<Schema>)

  datatype Property = Property(key: string, schema: Schema)

  /** The keywords of a schema object, read as the renderer reads them: a value of the wrong JSON type is
      absent, `propertiesGiven` telling an empty `properties` object from none. `objectKeys` and `arrayKeys`
      say whether a keyword of an object or of an array is present at all. */
  datatype Schema =
    | True
    | False
    | Other
    | Object(
        ref: Option<string>,
        const_: Const,
        enum_: Option<seq<Option<string>>>,
        anyOf: Schemas,
        oneOf: Schemas,
        allOf: Schemas,
        kind: Kind,
        items: Items,
        prefixItems: Schemas,
        propertiesGiven: bool,
        properties: seq<Property>,
        additional: Option<Schema>,
        required: set<string>,
        objectKeys: bool,
        arrayKeys: bool)

  /** An annotation is a union, flattened: its alternatives in order. */
  type Annotation = seq<Atom>

  datatype Atom =
    | AnyAtom
    | NeverAtom
    | Scalar(name: string)
    | Literal(values: seq<string>)
    | Generated(name: string)
    | ListOf(item: seq<Atom>)
    | DictOf(value: seq<Atom>)

  datatype Member = Member(key: string, annotation: Annotation, required: bool)

  /** A generated `TypedDict`, open to other keys of type `extra`. */
  datatype Definition = Definition(name: string, members: seq<Member>, extra: Option<Annotation>)

  /** What is looked up outside the renderer: local references, and identifiers in PascalCase. */
  datatype Env = Env(resolve: string -> Option<Schema>, pascal: string -> string)

  /** The renderer's state; `taken` belongs to the names shared by all renderers. */
  datatype Progress = Progress(taken: set<string>, resolving: set<string>, expansions: nat,
                               definitions: seq<Definition>)

  datatype Rendered = Rendered(annotation: Annotation, progress: Progress)

  datatype RenderedList = RenderedList(annotations: seq<Annotation>, progress: Progress)

  datatype RenderedMembers = RenderedMembers(members: seq<Member>, progress: Progress)

  const MAX_REF_EXPANSIONS: nat := 32

  const ANY: Annotation := [AnyAtom]

  // ---- Sizes ----


  function Size(s: Schema): nat {
    match s
    case Object(_, _, _, anyOf, oneOf, allOf, _, items, prefixItems, _, properties, additional, _, _, _) =>
      1 + (if anyOf.Missing? then 0 else SizeAll(anyOf.list))
        + (if oneOf.Missing? then 0 else SizeAll(oneOf.list))
        + (if allOf.Missing? then 0 else SizeAll(allOf.list))
        + (match items case NoItems => 0 case Single(i) => Size(i) case Tuple(each) => SizeAll(each))
        + (if prefixItems.Missing? then 0 else SizeAll(prefixItems.list))
        + SizeProperties(properties)
        + (if additional.None? then 0 else Size(additional.value))
    case _ => 1
  }

  function SizeAll(ss: seq<Schema>): nat {
    if ss == [] then 0 else 1 + Size(ss[0]) + SizeAll(ss[1..])
  }

  function SizeProperties(ps: seq<Property>): nat {
    if ps == [] then 0 else 1 + Size(ps[0].schema) + SizeProperties(ps[1..])
  }

  function KindSize(k: Kind): nat {
    match k
    case Many(kinds) => 1 + KindSizeAll(kinds)
    case _ => 1
  }

  function KindSizeAll(ks: seq<Kind>): nat {
    if ks == [] then 0 else 1 + KindSize(ks[0]) + KindSizeAll(ks[1..])
  }

  function SizeFrom(ss: seq<Schema>, i: nat): nat
    requires i <= |ss|
    decreases |ss| - i
  {
    if i == |ss| then 0 else 1 + Size(ss[i]) + SizeFrom(ss, i + 1)
  }

  lemma {:induction false} SizeFromIs(ss: seq<Schema>, i: nat)
    requires i <= |ss|
    ensures SizeFrom(ss, i) == SizeAll(ss[i..])
    decreases |ss| - i
  {
    if i < |ss| {
      SizeFromIs(ss, i + 1);
      assert ss[i..][1..] == ss[i + 1..];
    }
  }

  function SizePropertiesFrom(ps: seq<Property>, i: nat): nat
    requires i <= |ps|
    decreases |ps| - i
  {
    if i == |ps| then 0 else 1 + Size(ps[i].schema) + SizePropertiesFrom(ps, i + 1)
  }

  lemma {:induction false} SizePropertiesFromIs(ps: seq<Property>, i: nat)
    requires i <= |ps|
    ensures SizePropertiesFrom(ps, i) == SizeProperties(ps[i..])
    decreases |ps| - i
  {
    if i < |ps| {
      SizePropertiesFromIs(ps, i + 1);
      assert ps[i..][1..] == ps[i + 1..];
    }
  }

  function KindSizeFrom(ks: seq<Kind>, i: nat): nat
    requires i <= |ks|
    decreases |ks| - i
  {
    if i == |ks| then 0 else 1 + KindSize(ks[i]) + KindSizeFrom(ks, i + 1)
  }

  lemma {:induction false} KindSizeFromIs(ks: seq<Kind>, i: nat)
    requires i <= |ks|
    ensures KindSizeFrom(ks, i) == KindSizeAll(ks[i..])
    decreases |ks| - i
  {
    if i < |ks| {
      KindSizeFromIs(ks, i + 1);
      assert ks[i..][1..] == ks[i + 1..];
    }
  }

  /** The lists of a schema are smaller than it. */
  lemma {:induction false} ListsSmaller(s: Schema)
    requires s.Object?
    ensures Variants(s).Listed? ==> SizeFrom(Variants(s).list, 0) < Size(s)
    ensures s.allOf.Listed? ==> SizeFrom(s.allOf.list, 0) < Size(s)
    ensures TupleItems(s).Listed? ==> SizeFrom(TupleItems(s).list, 0) < Size(s)
    ensures SizePropertiesFrom(s.properties, 0) < Size(s)
  {
    WholeProperties(s.properties);
    WholeList(Variants(s));
    WholeList(s.allOf);
    WholeList(TupleItems(s));
  }

  lemma {:induction false} WholeProperties(ps: seq<Property>)
    ensures SizePropertiesFrom(ps, 0) == SizeProperties(ps)
  {
    SizePropertiesFromIs(ps, 0);
    assert ps[0..] == ps;
  }

  lemma {:induction false} WholeList(l: Schemas)
    ensures l.Listed? ==> SizeFrom(l.list, 0) == SizeAll(l.list)
  {
    if l.Listed? {
      SizeFromIs(l.list, 0);
      assert l.list[0..] == l.list;
    }
  }

  // ---- Names ----

  function Decimal(n: nat): (r: string)
    ensures |r| > 0
    ensures forall k :: 0 <= k < |r| ==> '0' <= r[k] <= '9'
  {
    var digit := [('0' as int + n % 10) as char];
    if n < 10 then digit else Decimal(n / 10) + digit
  }

  lemma {:induction false} DecimalInjective(m: nat, n: nat)
    requires Decimal(m) == Decimal(n)
    ensures m == n
    decreases m + n
  {
    var a, b := Decimal(m), Decimal(n);
    assert a[|a| - 1] == ('0' as int + m % 10) as char;
    assert b[|b| - 1] == ('0' as int + n % 10) as char;
    assert m % 10 == n % 10;
    DecimalLength(m);
    DecimalLength(n);
    if m >= 10 {
      assert a[..|a| - 1] == Decimal(m / 10) && b[..|b| - 1] == Decimal(n / 10);
      DecimalInjective(m / 10, n / 10);
    }
  }

  lemma {:induction false} DecimalLength(n: nat)
    ensures |Decimal(n)| > 1 <==> n >= 10
  {
  }

  /** The names tried for `base`: itself, then with 2, 3, and so on appended. */
  function Candidate(base: string, i: nat): string {
    if i == 0 then base else base + Decimal(i + 1)
  }

  lemma {:induction false} CandidatesDiffer(base: string, i: nat, j: nat)
    requires i != j
    ensures Candidate(base, i) != Candidate(base, j)
  {
    if i > 0 && j > 0 && Candidate(base, i) == Candidate(base, j) {
      assert Candidate(base, i)[|base|..] == Decimal(i + 1);
      assert Candidate(base, j)[|base|..] == Decimal(j + 1);
      DecimalInjective(i + 1, j + 1);
    }
  }

  /** `left` still holds every later candidate that is taken. */
  ghost predicate Covers(base: string, taken: set<string>, i: nat, left: set<string>) {
    forall k: nat :: k >= i && Candidate(base, k) in taken ==> Candidate(base, k) in left
  }

  lemma {:induction false} CoversNext(base: string, taken: set<string>, i: nat, left: set<string>)
    requires Covers(base, taken, i, left)
    ensures Covers(base, taken, i + 1, left - {Candidate(base, i)})
  {
    forall k: nat | k >= i + 1 && Candidate(base, k) in taken
      ensures Candidate(base, k) in left - {Candidate(base, i)} {
      CandidatesDiffer(base, i, k);
    }
  }

  /** The first candidate from the `i`th on that is not taken. */
  ghost function FreeFrom(base: string, taken: set<string>, i: nat, left: set<string>): (r: nat)
    requires Covers(base, taken, i, left)
    ensures r >= i && Candidate(base, r) !in taken
    ensures forall k :: i <= k < r ==> Candidate(base, k) in taken
    decreases |left|
  {
    if Candidate(base, i) !in taken then i
    else
      CoversNext(base, taken, i, left);
      FreeFrom(base, taken, i + 1, left - {Candidate(base, i)})
  }

  /** `_Names.take` */
  ghost function Fresh(base: string, taken: set<string>): (r: string)
    ensures r !in taken
  {
    Candidate(base, FreeFrom(base, taken, 0, taken))
  }

  /** It is the first free candidate, whichever way it is found. */
  lemma {:induction false} FreshIsFirst(base: string, taken: set<string>, i: nat)
    requires Candidate(base, i) !in taken && forall k :: 0 <= k < i ==> Candidate(base, k) in taken
    ensures Fresh(base, taken) == Candidate(base, i)
  {
    assert FreeFrom(base, taken, 0, taken) == i;
  }

  // ---- Unions ----

  function Unique<T(==)>(s: seq<T>): seq<T> {
    if s == [] then []
    else
      var front := Unique(s[..|s| - 1]);
      if s[|s| - 1] in front then front else front + [s[|s| - 1]]
  }

  /** `_union` */
  function UnionOf(types: seq<Annotation>): Annotation {
    var unique := Unique(types);
    if ANY in unique then ANY else if |unique| == 0 then [NeverAtom] else Flatten(unique)
  }

  function NotAny(parts: seq<Annotation>): seq<Annotation> {
    if parts == [] then []
    else NotAny(parts[..|parts| - 1]) + (if parts[|parts| - 1] == ANY then [] else [parts[|parts| - 1]])
  }

  // ---- The renderer ----

  function Left(p: Progress): nat {
    if p.expansions < MAX_REF_EXPANSIONS then MAX_REF_EXPANSIONS - p.expansions else 0
  }

  function Variants(s: Schema): Schemas
    requires s.Object?
  {
    if s.anyOf.Listed? then s.anyOf else s.oneOf
  }

  /** The tuple forms of an array: `prefixItems`, or a list of `items`. */
  function TupleItems(s: Schema): Schemas
    requires s.Object?
  {
    if s.prefixItems.Listed? then s.prefixItems else if s.items.Tuple? then Listed(s.items.schemas) else Missing
  }

  function EnumLiteral(values: seq<Option<string>>): Annotation {
    if |values| == 0 || None in values then ANY
    else [Literal(Unique(seq(|values|, i requires 0 <= i < |values| => values[i].GetOr(""))))]
  }

  ghost function Render(env: Env, s: Schema, hint: string, p: Progress): (r: Rendered)
    ensures r.progress.expansions >= p.expansions
    decreases Left(p), Size(s), if s.Object? then KindSize(s.kind) + 1 else 0, 0
  {
    match s
    case True => Rendered(ANY, p)
    case False => Rendered([NeverAtom], p)
    case Other => Rendered(ANY, p)
    case Object(_, _, _, _, _, _, _, _, _, _, _, _, _, _, _) =>
      if s.ref.Some? then
        var ref := s.ref.value;
        if ref in p.resolving || p.expansions >= MAX_REF_EXPANSIONS || env.resolve(ref).None? then Rendered(ANY, p)
        else
          var r := Render(env, env.resolve(ref).value, hint,
                          p.(expansions := p.expansions + 1, resolving := p.resolving + {ref}));
          r.(progress := r.progress.(resolving := r.progress.resolving - {ref}))
      else if s.const_.Const? then
        Rendered(if s.const_.literal.Some? then [Literal([s.const_.literal.value])] else ANY, p)
      else if s.enum_.Some? then Rendered(EnumLiteral(s.enum_.value), p)
      else if Variants(s).Listed? then
        ListsSmaller(s);
        var all := RenderAll(env, Variants(s).list, 0, hint, p);
        Rendered(UnionOf(all.annotations), all.progress)
      else if s.allOf.Listed? then
        ListsSmaller(s);
        var all := RenderAll(env, s.allOf.list, 0, hint, p);
        var parts := NotAny(all.annotations);
        Rendered(if |parts| == 1 then parts[0] else ANY, all.progress)
      else RenderKind(env, s, s.kind, hint, p)
  }

  /** One schema after another, with the same hint. */
  ghost function RenderAll(env: Env, ss: seq<Schema>, i: nat, hint: string, p: Progress): (r: RenderedList)
    requires i <= |ss|
    ensures r.progress.expansions >= p.expansions
    decreases Left(p), SizeFrom(ss, i), 0, 0
  {
    if i == |ss| then RenderedList([], p)
    else
      var first := Render(env, ss[i], hint, p);
      var rest := RenderAll(env, ss, i + 1, hint, first.progress);
      RenderedList([first.annotation] + rest.annotations, rest.progress)
  }

  /** The schema with its `type` replaced by `kind`; no other keyword came first. */
  ghost function RenderKind(env: Env, s: Schema, kind: Kind, hint: string, p: Progress): (r: Rendered)
    requires s.Object?
    ensures r.progress.expansions >= p.expansions
    decreases Left(p), Size(s), KindSize(kind), 1
  {
    match kind
    case Many(kinds) =>
      KindSizeFromIs(kinds, 0);
      assert kinds[0..] == kinds;
      var all := RenderKinds(env, s, kinds, 0, hint, p);
      Rendered(UnionOf(all.annotations), all.progress)
    case Named(name) =>
      if name == "array" then RenderArray(env, s, hint, p)
      else if name == "object" then RenderObject(env, s, hint, p)
      else Rendered(Primitive(name), p)
    case Untyped =>
      if s.objectKeys then RenderObject(env, s, hint, p)
      else if s.arrayKeys then RenderArray(env, s, hint, p)
      else Rendered(ANY, p)
    case Odd => Rendered(ANY, p)
  }

  function Primitive(name: string): Annotation {
    if name == "string" then [Scalar("str")]
    else if name == "integer" then [Scalar("int")]
    else if name == "number" then [Scalar("float")]
    else if name == "boolean" then [Scalar("bool")]
    else if name == "null" then [Scalar("None")]
    else ANY
  }

  ghost function RenderKinds(env: Env, s: Schema, kinds: seq<Kind>, i: nat, hint: string,
                             p: Progress): (r: RenderedList)
    requires s.Object? && i <= |kinds|
    ensures r.progress.expansions >= p.expansions
    decreases Left(p), Size(s), KindSizeFrom(kinds, i), 2
  {
    if i == |kinds| then RenderedList([], p)
    else
      var first := RenderKind(env, s, kinds[i], hint, p);
      var rest := RenderKinds(env, s, kinds, i + 1, hint, first.progress);
      RenderedList([first.annotation] + rest.annotations, rest.progress)
  }

  ghost function RenderArray(env: Env, s: Schema, hint: string, p: Progress): (r: Rendered)
    requires s.Object?
    ensures r.progress.expansions >= p.expansions
    decreases Left(p), Size(s), 0, 1
  {
    if s.items.Single? then
      var item := Render(env, s.items.schema, hint + "Item", p);
      Rendered([ListOf(item.annotation)], item.progress)
    else if TupleItems(s).Listed? && |TupleItems(s).list| > 0 then
      ListsSmaller(s);
      var all := RenderAll(env, TupleItems(s).list, 0, hint + "Item", p);
      Rendered([ListOf(UnionOf(all.annotations))], all.progress)
    else Rendered([ListOf(ANY)], p)
  }

  ghost function RenderObject(env: Env, s: Schema, hint: string, p: Progress): (r: Rendered)
    requires s.Object?
    ensures r.progress.expansions >= p.expansions
    decreases Left(p), Size(s), 0, 1
  {
    if |s.properties| == 0 then
      if s.additional.Some? && s.additional.value.Object? then
        var value := Render(env, s.additional.value, hint + "Value", p);
        Rendered([DictOf(value.annotation)], value.progress)
      else Rendered([DictOf(ANY)], p)
    else
      ListsSmaller(s);
      var members := RenderMembers(env, s.properties, 0, s.required, hint, p);
      var extra := RenderExtra(env, s, hint, members.progress);
      var after := extra.1;
      var name := Fresh(hint, after.taken);
      Rendered([Generated(name)],
               after.(taken := after.taken + {name},
                      definitions := after.definitions + [Definition(name, members.members, extra.0)]))
  }

  /** The type of the keys that are not listed, if they are allowed. */
  ghost function RenderExtra(env: Env, s: Schema, hint: string, p: Progress): (r: (Option<Annotation>, Progress))
    requires s.Object?
    ensures r.1.expansions >= p.expansions
    decreases Left(p), Size(s), 0, 0
  {
    if s.additional.None? || s.additional.value.False? then (None, p)
    else if s.additional.value.True? then (Some(ANY), p)
    else
      var extra := Render(env, s.additional.value, hint + "Value", p);
      (Some(extra.annotation), extra.progress)
  }

  ghost function RenderMembers(env: Env, ps: seq<Property>, i: nat, required: set<string>, hint: string, p: Progress)
    : (r: RenderedMembers)
    requires i <= |ps|
    ensures r.progress.expansions >= p.expansions
    decreases Left(p), SizePropertiesFrom(ps, i), 0, 0
  {
    if i == |ps| then RenderedMembers([], p)
    else
      var first := Render(env, ps[i].schema, hint + env.pascal(ps[i].key), p);
      var rest := RenderMembers(env, ps, i + 1, required, hint, first.progress);
      RenderedMembers([Member(ps[i].key, first.annotation, ps[i].key in required)] + rest.members, rest.progress)
  }
}
