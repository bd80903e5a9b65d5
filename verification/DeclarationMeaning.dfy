/** What a rendered annotation means: which JSON values a schema accepts, which values inhabit an
    annotation, and that every value a schema accepts inhabits its rendering. */
module DeclarationMeaning {
  import opened Prelude
  import opened Declarations
  import opened DeclarationTheorems

  /** A JSON value; a number with an integral value is an `Int`. */
  datatype Json =
    | Null
    | Bool(b: bool)
    | Int(n: int)
    | Fraction(x: real)
    | Text(text: string)
    | Array(items: seq<Json>)
    | Record(fields: seq<Field>)

  datatype Field = Field(key: string, value: Json)

  /** How schemas are read: the references, the literal of a value if it has one, and whether the reading is
      closed. The closed reading takes an untyped schema with keywords of objects or arrays to describe those
      only, a tuple to have no further elements, and `items` to hold for every element. */
  datatype Reading = Reading(env: Env, repr: Json -> Option<string>, closed: bool)

  // ---- The values a schema accepts ----

  ghost predicate TypeAccepts(c: Reading, s: Schema, kind: Kind, v: Json)
    requires s.Object?
    decreases kind
  {
    match kind
    case Named(name) =>
      if name == "string" then v.Text?
      else if name == "integer" then v.Int?
      else if name == "number" then v.Int? || v.Fraction?
      else if name == "boolean" then v.Bool?
      else if name == "null" then v.Null?
      else if name == "array" then v.Array?
      else if name == "object" then v.Record?
      else true
    case Many(kinds) => exists k :: 0 <= k < |kinds| && TypeAccepts(c, s, kinds[k], v)
    case Untyped => c.closed ==> if s.objectKeys then v.Record? else if s.arrayKeys then v.Array? else true
    case Odd => true
  }

  predicate HasKey(fields: seq<Field>, key: string) {
    exists i :: 0 <= i < |fields| && fields[i].key == key
  }

  predicate HasProperty(ps: seq<Property>, key: string) {
    exists i :: 0 <= i < |ps| && ps[i].key == key
  }

  /** Every keyword the renderer knows holds of the value; `$ref` stands alone, and `n` references are
      followed in a row, further ones accepting anything. */
  ghost predicate Accepts(c: Reading, s: Schema, v: Json, n: nat)
    decreases n, Size(s), 1
  {
    match s
    case True => true
    case False => false
    case Other => true
    case Object(_, _, _, _, _, _, _, _, _, _, _, _, _, _, _) =>
      ListsSmaller(s);
      WholeList(s.anyOf);
      WholeList(s.oneOf);
      if s.ref.Some? then
        n > 0 && c.env.resolve(s.ref.value).Some? ==> Accepts(c, c.env.resolve(s.ref.value).value, v, n - 1)
      else
        && (s.const_.Const? && s.const_.literal.Some? ==> c.repr(v) == s.const_.literal)
        && (s.enum_.Some? ==> None in s.enum_.value || c.repr(v) in s.enum_.value)
        && (s.anyOf.Listed? ==> AcceptsSome(c, s.anyOf.list, 0, v, n))
        && (s.oneOf.Listed? ==> AcceptsSome(c, s.oneOf.list, 0, v, n))
        && (s.allOf.Listed? ==> AcceptsAll(c, s.allOf.list, 0, v, n))
        && TypeAccepts(c, s, s.kind, v)
        && Holds(c, s, v, n)
  }

  ghost predicate AcceptsSome(c: Reading, ss: seq<Schema>, i: nat, v: Json, n: nat)
    requires i <= |ss|
    decreases n, SizeFrom(ss, i), 0
  {
    i < |ss| && (Accepts(c, ss[i], v, n) || AcceptsSome(c, ss, i + 1, v, n))
  }

  ghost predicate AcceptsAll(c: Reading, ss: seq<Schema>, i: nat, v: Json, n: nat)
    requires i <= |ss|
    decreases n, SizeFrom(ss, i), 0
  {
    i < |ss| ==> Accepts(c, ss[i], v, n) && AcceptsAll(c, ss, i + 1, v, n)
  }

  /** Element by element, as far as there are schemas. */
  ghost predicate AcceptsEach(c: Reading, ss: seq<Schema>, i: nat, items: seq<Json>, n: nat)
    requires i <= |ss|
    decreases n, SizeFrom(ss, i), 0
  {
    i < |ss| && i < |items| ==> Accepts(c, ss[i], items[i], n) && AcceptsEach(c, ss, i + 1, items, n)
  }

  ghost predicate AcceptsProperties(c: Reading, ps: seq<Property>, i: nat, fields: seq<Field>, n: nat)
    requires i <= |ps|
    decreases n, SizePropertiesFrom(ps, i), 0
  {
    i < |ps| ==>
      && (forall k :: 0 <= k < |fields| && fields[k].key == ps[i].key ==> Accepts(c, ps[i].schema, fields[k].value, n))
      && AcceptsProperties(c, ps, i + 1, fields, n)
  }

  /** The elements of an array and the fields of an object. */
  ghost predicate Holds(c: Reading, s: Schema, v: Json, n: nat)
    requires s.Object?
    decreases n, Size(s), 0
  {
    ListsSmaller(s);
    var prefix := TupleItems(s);
    && (v.Array? ==>
          if s.items.Single? && (c.closed || !prefix.Listed?) then
            forall i :: 0 <= i < |v.items| ==> Accepts(c, s.items.schema, v.items[i], n)
          else if prefix.Listed? then
            && AcceptsEach(c, prefix.list, 0, v.items, n)
            && (c.closed && |prefix.list| > 0 ==> |v.items| <= |prefix.list|)
            && (s.items.Single? ==>
                  forall i :: |prefix.list| <= i < |v.items| ==> Accepts(c, s.items.schema, v.items[i], n))
          else true)
    && (v.Record? ==>
          && (forall key :: key in s.required ==> HasKey(v.fields, key))
          && AcceptsProperties(c, s.properties, 0, v.fields, n)
          && (s.additional.Some? ==>
                forall i :: 0 <= i < |v.fields| && !HasProperty(s.properties, v.fields[i].key) ==>
                  Accepts(c, s.additional.value, v.fields[i].value, n)))
  }

  // ---- The values of an annotation ----

  predicate HasMember(members: seq<Member>, key: string) {
    exists j :: 0 <= j < |members| && members[j].key == key
  }

  /** A value of one of the alternatives, the generated names being those of `defs`. */
  ghost predicate Inhabits(repr: Json -> Option<string>, defs: seq<Definition>, a: Annotation, v: Json)
    decreases v, 1, a
  {
    exists k :: 0 <= k < |a| && InhabitsAtom(repr, defs, a[k], v)
  }

  /** An `int` is a `float`. */
  ghost predicate InhabitsAtom(repr: Json -> Option<string>, defs: seq<Definition>, a: Atom, v: Json)
    decreases v, 1, a
  {
    match a
    case AnyAtom => true
    case NeverAtom => false
    case Scalar(name) =>
      || (name == "str" && v.Text?)
      || (name == "int" && v.Int?)
      || (name == "float" && (v.Int? || v.Fraction?))
      || (name == "bool" && v.Bool?)
      || (name == "None" && v.Null?)
    case Literal(values) => repr(v).Some? && repr(v).value in values
    case ListOf(item) => v.Array? && forall i :: 0 <= i < |v.items| ==> Inhabits(repr, defs, item, v.items[i])
    case DictOf(value) =>
      v.Record? && forall i :: 0 <= i < |v.fields| ==> Inhabits(repr, defs, value, v.fields[i].value)
    case Generated(name) => v.Record? && exists d :: d in defs && d.name == name && Fits(repr, defs, d, v)
  }

  /** A value of a typed dictionary: without a type for other keys, it lets any other key through. */
  ghost predicate Fits(repr: Json -> Option<string>, defs: seq<Definition>, d: Definition, v: Json)
    requires v.Record?
    decreases v, 0
  {
    && (forall j :: 0 <= j < |d.members| && d.members[j].required ==> HasKey(v.fields, d.members[j].key))
    && (forall j, i :: 0 <= j < |d.members| && 0 <= i < |v.fields| && v.fields[i].key == d.members[j].key ==>
          Inhabits(repr, defs, d.members[j].annotation, v.fields[i].value))
    && (d.extra.Some? ==>
          forall i :: 0 <= i < |v.fields| && !HasMember(d.members, v.fields[i].key) ==>
            Inhabits(repr, defs, d.extra.value, v.fields[i].value))
  }

  // ---- Unions ----

  lemma {:induction false} FlattenMembers(parts: seq<Annotation>)
    ensures forall a :: a in Flatten(parts) <==> exists p :: p in parts && a in p
  {
    if parts != [] {
      FlattenMembers(parts[1..]);
      assert parts == [parts[0]] + parts[1..];
    }
  }

  /** Some part is `Any`: the union is. No parts: nothing inhabits it. Otherwise its alternatives are exactly
      those of the parts. */
  lemma {:induction false} UnionAlternatives(types: seq<Annotation>)
    ensures ANY in types ==> UnionOf(types) == ANY
    ensures types == [] ==> UnionOf(types) == [NeverAtom]
    ensures ANY !in types && types != [] ==>
              forall a :: a in UnionOf(types) <==> exists p :: p in types && a in p
  {
    UniqueMembers(types);
    FlattenMembers(Unique(types));
    assert types != [] ==> types[0] in Unique(types);
  }

  /** The first of equal parts. */
  ghost predicate FirstAt(types: seq<Annotation>, k: nat) {
    k < |types| && forall j :: 0 <= j < k ==> types[j] != types[k]
  }

  ghost predicate FirstsAre(types: seq<Annotation>, at: seq<nat>) {
    && (forall i, j :: 0 <= i < j < |at| ==> at[i] < at[j])
    && (forall i :: 0 <= i < |at| ==> FirstAt(types, at[i]))
    && (forall k: nat {:trigger FirstAt(types, k)} :: FirstAt(types, k) ==> k in at)
  }

  function Picked(types: seq<Annotation>, at: seq<nat>): seq<Annotation>
    requires forall i :: 0 <= i < |at| ==> at[i] < |types|
  {
    seq(|at|, i requires 0 <= i < |at| => types[at[i]])
  }

  lemma {:induction false} FirstsNext(types: seq<Annotation>, n: nat, at: seq<nat>)
    requires n < |types| && FirstsAre(types[..n], at)
    ensures FirstsAre(types[..n + 1], if types[n] in types[..n] then at else at + [n])
  {
    var front, more := types[..n], types[..n + 1];
    assert forall k: nat :: k < n ==> front[k] == more[k];
    forall k: nat ensures FirstAt(more, k) <==> FirstAt(front, k) || (k == n && types[n] !in front) {
      assert k == n ==> (FirstAt(more, k) <==> forall j :: 0 <= j < n ==> front[j] != types[n]);
    }
  }

  lemma {:induction false} UniqueNext(types: seq<Annotation>, n: nat)
    requires n < |types|
    ensures Unique(types[..n + 1])
            == Unique(types[..n]) + if types[n] in types[..n] then [] else [types[n]]
  {
    assert types[..n + 1][..n] == types[..n];
    UniqueMembers(types[..n]);
    assert Unique(types[..n]) + [] == Unique(types[..n]);
  }

  lemma {:induction false} PickedNext(types: seq<Annotation>, at: seq<nat>, n: nat)
    requires n < |types| && forall i :: 0 <= i < |at| ==> at[i] < |types|
    ensures Picked(types, at + [n]) == Picked(types, at) + [types[n]]
  {
  }

  /** `at` picks what is unique among the first `n` parts. */
  ghost predicate Picks(types: seq<Annotation>, n: nat, at: seq<nat>) {
    && n <= |types| && FirstsAre(types[..n], at) && (forall i :: 0 <= i < |at| ==> at[i] < |types|)
    && Unique(types[..n]) == Picked(types, at)
  }

  function NextPicks(types: seq<Annotation>, n: nat, at: seq<nat>): seq<nat>
    requires n < |types|
  {
    if types[n] in types[..n] then at else at + [n]
  }

  lemma {:induction false} PicksNone(types: seq<Annotation>)
    ensures Picks(types, 0, [])
  {
    assert Picked(types, []) == [];
  }

  lemma {:induction false} PicksNext(types: seq<Annotation>, n: nat, at: seq<nat>)
    requires n < |types| && Picks(types, n, at)
    ensures Picks(types, n + 1, NextPicks(types, n, at))
  {
    UniqueNext(types, n);
    FirstsNext(types, n, at);
    PickedNext(types, at, n);
    assert Picked(types, at) + [] == Picked(types, at);
  }

  /** Whatever one part keeps, all parts keep. */
  lemma {:induction false} PicksInduct(types: seq<Annotation>, n: nat, holds: (nat, seq<nat>) -> bool)
    returns (at: seq<nat>)
    requires n <= |types| && holds(0, [])
    requires forall k: nat, a: seq<nat> {:trigger NextPicks(types, k, a)} ::
               k < |types| && holds(k, a) ==> holds(k + 1, NextPicks(types, k, a))
    ensures holds(n, at)
  {
    at := [];
    if n > 0 {
      var front := PicksInduct(types, n - 1, holds);
      at := NextPicks(types, n - 1, front);
    }
  }

  lemma {:induction false} UniquePicks(types: seq<Annotation>) returns (at: seq<nat>)
    ensures Picks(types, |types|, at)
  {
    PicksNone(types);
    forall k: nat, a: seq<nat> | k < |types| && Picks(types, k, a)
      ensures Picks(types, k + 1, NextPicks(types, k, a))
    {
      PicksNext(types, k, a);
    }
    at := PicksInduct(types, |types|, (k: nat, a: seq<nat>) => Picks(types, k, a));
  }

  /** Without `Any` the parts stand in the order of their first occurrences, equal parts once. */
  lemma {:induction false} UnionOrder(types: seq<Annotation>) returns (at: seq<nat>)
    requires ANY !in types && types != []
    ensures FirstsAre(types, at) && forall i :: 0 <= i < |at| ==> at[i] < |types|
    ensures UnionOf(types) == Flatten(Picked(types, at))
  {
    assert types[..|types|] == types;
    at := UniquePicks(types);
    UniqueMembers(types);
    assert types[0] in Unique(types);
  }

  /** Equal parts are merged, not equal alternatives of different parts: `str | int` and `int`. */
  lemma {:induction false} AlternativeTwice()
    ensures UnionOf([[Scalar("str"), Scalar("int")], [Scalar("int")]])
            == [Scalar("str"), Scalar("int"), Scalar("int")]
  {
    var a, b := [Scalar("str"), Scalar("int")], [Scalar("int")];
    assert [a, b][..1] == [a] && [a][..0] == [];
    assert Unique([a]) == [a];
    assert [b] + [] == [b];
    assert Unique([a, b]) == [a, b];
    assert [a, b][1..] == [b] && [b][1..] == [];
    assert Flatten([b]) == b + Flatten([]) == b;
    assert Flatten([a, b]) == a + Flatten([b]);
  }

  /** A value inhabits a union exactly when it inhabits a part. */
  lemma {:induction false} UnionInhabits(repr: Json -> Option<string>, defs: seq<Definition>, types: seq<Annotation>,
                                         v: Json)
    ensures Inhabits(repr, defs, UnionOf(types), v)
            <==> exists k :: 0 <= k < |types| && Inhabits(repr, defs, types[k], v)
  {
    UnionAlternatives(types);
    var union := UnionOf(types);
    if ANY in types {
      var k :| 0 <= k < |types| && types[k] == ANY;
      AnyInhabited(repr, defs, v);
    } else if types != [] {
      if Inhabits(repr, defs, union, v) {
        var j :| 0 <= j < |union| && InhabitsAtom(repr, defs, union[j], v);
        assert union[j] in union;
        var p :| p in types && union[j] in p;
        var k :| 0 <= k < |types| && types[k] == p;
        assert Inhabits(repr, defs, types[k], v);
      }
      if k :| 0 <= k < |types| && Inhabits(repr, defs, types[k], v) {
        var j :| 0 <= j < |types[k]| && InhabitsAtom(repr, defs, types[k][j], v);
        assert types[k] in types && types[k][j] in union;
      }
    }
  }

  lemma {:induction false} AnyInhabited(repr: Json -> Option<string>, defs: seq<Definition>, v: Json)
    ensures Inhabits(repr, defs, ANY, v)
  {
    assert InhabitsAtom(repr, defs, ANY[0], v);
  }

  lemma {:induction false} OneAlternative(repr: Json -> Option<string>, defs: seq<Definition>, a: Atom, v: Json)
    ensures Inhabits(repr, defs, [a], v) <==> InhabitsAtom(repr, defs, a, v)
  {
    assert InhabitsAtom(repr, defs, a, v) ==> InhabitsAtom(repr, defs, [a][0], v);
  }

  // ---- Schemas whose rendering says everything ----

  /** No keyword of objects or arrays. */
  ghost predicate Plain(s: Schema)
    requires s.Object?
  {
    && !s.objectKeys && !s.arrayKeys && s.items.NoItems? && s.prefixItems.Missing?
    && s.properties == [] && s.additional.None? && s.required == {}
  }

  /** One keyword at a time, every literal representable, no references, no `allOf`, no tuple, and no keyword
      a typed dictionary cannot express. */
  ghost predicate Exact(s: Schema)
    decreases Size(s), 2
  {
    match s
    case Object(_, _, _, _, _, _, _, _, _, _, _, _, _, _, _) =>
      ListsSmaller(s);
      && s.ref.None? && s.allOf.Missing?
      && if s.const_.Const? then
           s.const_.literal.Some? && s.enum_.None? && Variants(s).Missing? && s.kind == Untyped && Plain(s)
         else if s.enum_.Some? then
           None !in s.enum_.value && s.enum_.value != [] && Variants(s).Missing? && s.kind == Untyped && Plain(s)
         else if Variants(s).Listed? then
           && (s.anyOf.Missing? || s.oneOf.Missing?) && s.kind == Untyped && Plain(s)
           && ExactAll(Variants(s).list, 0)
         else ExactKind(s, s.kind)
    case _ => true
  }

  ghost predicate ExactAll(ss: seq<Schema>, i: nat)
    requires i <= |ss|
    decreases SizeFrom(ss, i), 0
  {
    i < |ss| ==> Exact(ss[i]) && ExactAll(ss, i + 1)
  }

  ghost predicate ExactProperties(ps: seq<Property>, i: nat)
    requires i <= |ps|
    decreases SizePropertiesFrom(ps, i), 0
  {
    i < |ps| ==> Exact(ps[i].schema) && ExactProperties(ps, i + 1)
  }

  ghost predicate ExactKind(s: Schema, kind: Kind)
    requires s.Object?
    decreases Size(s), 1, kind
  {
    match kind
    case Named(name) =>
      || name in {"string", "integer", "number", "boolean", "null"}
      || (name == "array" && ExactArray(s))
      || (name == "object" && ExactObject(s))
    case Many(kinds) => forall k :: 0 <= k < |kinds| ==> ExactKind(s, kinds[k])
    case Untyped => if s.objectKeys then ExactObject(s) else if s.arrayKeys then ExactArray(s) else Plain(s)
    case Odd => false
  }

  ghost predicate ExactArray(s: Schema)
    requires s.Object?
    decreases Size(s), 0
  {
    match s.items
    case Single(item) => Exact(item)
    case NoItems => s.prefixItems.Missing?
    case Tuple(_) => false
  }

  ghost predicate ExactObject(s: Schema)
    requires s.Object?
    decreases Size(s), 0
  {
    ListsSmaller(s);
    && (forall key :: key in s.required ==> HasProperty(s.properties, key))
    && ExactProperties(s.properties, 0)
    && (s.additional.Some? ==> !s.additional.value.False? && Exact(s.additional.value))
  }

  // ---- What a rendering means ----

  ghost predicate Within(a: seq<Definition>, defs: seq<Definition>) {
    forall d :: d in a ==> d in defs
  }

  ghost predicate OneEach(defs: seq<Definition>) {
    forall i, j :: 0 <= i < j < |defs| ==> defs[i].name != defs[j].name
  }

  /** What the schema accepts inhabits the annotation, and for an exact schema nothing else does. */
  ghost predicate Describes(c: Reading, defs: seq<Definition>, a: Annotation, s: Schema, v: Json, n: nat) {
    && (Accepts(c, s, v, n) ==> Inhabits(c.repr, defs, a, v))
    && (Exact(s) && Inhabits(c.repr, defs, a, v) ==> Accepts(c, s, v, n))
  }

  ghost predicate DescribesKind(c: Reading, defs: seq<Definition>, a: Annotation, s: Schema, kind: Kind, v: Json,
                                n: nat)
    requires s.Object?
  {
    && (TypeAccepts(c, s, kind, v) && Holds(c, s, v, n) ==> Inhabits(c.repr, defs, a, v))
    && (ExactKind(s, kind) && Inhabits(c.repr, defs, a, v) ==> TypeAccepts(c, s, kind, v) && Holds(c, s, v, n))
  }

  ghost predicate DescribesAll(c: Reading, defs: seq<Definition>, parts: seq<Annotation>, ss: seq<Schema>, i: nat,
                               v: Json, n: nat)
  {
    && i <= |ss| && |parts| == |ss| - i
    && forall k :: 0 <= k < |parts| ==> Describes(c, defs, parts[k], ss[i + k], v, n)
  }

  lemma {:induction false} DescribesCons(c: Reading, defs: seq<Definition>, a: Annotation, rest: seq<Annotation>,
                                         ss: seq<Schema>, i: nat, v: Json, n: nat)
    requires i < |ss| && Describes(c, defs, a, ss[i], v, n) && DescribesAll(c, defs, rest, ss, i + 1, v, n)
    ensures DescribesAll(c, defs, [a] + rest, ss, i, v, n)
  {
    var all := [a] + rest;
    forall k | 0 <= k < |all| ensures Describes(c, defs, all[k], ss[i + k], v, n) {
      if k > 0 {
        assert Describes(c, defs, rest[k - 1], ss[i + 1 + (k - 1)], v, n);
      }
    }
  }

  ghost predicate DescribesKinds(c: Reading, defs: seq<Definition>, parts: seq<Annotation>, s: Schema, kinds: seq<Kind>,
                                 i: nat, v: Json, n: nat)
    requires s.Object?
  {
    && i <= |kinds| && |parts| == |kinds| - i
    && forall k :: 0 <= k < |parts| ==> DescribesKind(c, defs, parts[k], s, kinds[i + k], v, n)
  }

  lemma {:induction false} KindsCons(c: Reading, defs: seq<Definition>, a: Annotation, rest: seq<Annotation>, s: Schema,
                                     kinds: seq<Kind>, i: nat, v: Json, n: nat)
    requires s.Object? && i < |kinds|
    requires DescribesKind(c, defs, a, s, kinds[i], v, n) && DescribesKinds(c, defs, rest, s, kinds, i + 1, v, n)
    ensures DescribesKinds(c, defs, [a] + rest, s, kinds, i, v, n)
  {
    var all := [a] + rest;
    forall k | 0 <= k < |all| ensures DescribesKind(c, defs, all[k], s, kinds[i + k], v, n) {
      if k > 0 {
        assert DescribesKind(c, defs, rest[k - 1], s, kinds[i + 1 + (k - 1)], v, n);
      }
    }
  }

  lemma {:induction false} KindsUnion(c: Reading, defs: seq<Definition>, parts: seq<Annotation>, s: Schema,
                                      kinds: seq<Kind>, v: Json, n: nat)
    requires s.Object? && DescribesKinds(c, defs, parts, s, kinds, 0, v, n)
    ensures DescribesKind(c, defs, UnionOf(parts), s, Many(kinds), v, n)
  {
    UnionInhabits(c.repr, defs, parts, v);
    forall k | 0 <= k < |kinds| ensures DescribesKind(c, defs, parts[k], s, kinds[k], v, n) {
      assert DescribesKind(c, defs, parts[k], s, kinds[0 + k], v, n);
    }
  }

  lemma {:induction false} WithinEarlier(p: Progress, q: Progress, defs: seq<Definition>)
    requires Extends(p, q) && Within(q.definitions, defs)
    ensures Within(p.definitions, defs)
  {
    forall d | d in p.definitions ensures d in defs {
      var k :| 0 <= k < |p.definitions| && p.definitions[k] == d;
      assert q.definitions[k] == d;
    }
  }

  lemma {:induction false} SomeIs(c: Reading, ss: seq<Schema>, i: nat, v: Json, n: nat)
    requires i <= |ss|
    ensures AcceptsSome(c, ss, i, v, n) <==> exists k :: i <= k < |ss| && Accepts(c, ss[k], v, n)
    decreases |ss| - i
  {
    if i < |ss| {
      SomeIs(c, ss, i + 1, v, n);
    }
  }

  lemma {:induction false} AllIs(c: Reading, ss: seq<Schema>, i: nat, v: Json, n: nat)
    requires i <= |ss|
    ensures AcceptsAll(c, ss, i, v, n) <==> forall k :: i <= k < |ss| ==> Accepts(c, ss[k], v, n)
    decreases |ss| - i
  {
    if i < |ss| {
      AllIs(c, ss, i + 1, v, n);
    }
  }

  lemma {:induction false} EachIs(c: Reading, ss: seq<Schema>, i: nat, items: seq<Json>, n: nat)
    requires i <= |ss|
    ensures AcceptsEach(c, ss, i, items, n)
            <==> forall k :: i <= k < |ss| && k < |items| ==> Accepts(c, ss[k], items[k], n)
    decreases |ss| - i
  {
    if i < |ss| {
      EachIs(c, ss, i + 1, items, n);
    }
  }

  lemma {:induction false} ExactAllIs(ss: seq<Schema>, i: nat)
    requires i <= |ss|
    ensures ExactAll(ss, i) <==> forall k :: i <= k < |ss| ==> Exact(ss[k])
    decreases |ss| - i
  {
    if i < |ss| {
      ExactAllIs(ss, i + 1);
    }
  }

  lemma {:induction false} VariantsMean(c: Reading, defs: seq<Definition>, parts: seq<Annotation>, ss: seq<Schema>,
                                        v: Json, n: nat)
    requires DescribesAll(c, defs, parts, ss, 0, v, n)
    ensures AcceptsSome(c, ss, 0, v, n) ==> Inhabits(c.repr, defs, UnionOf(parts), v)
    ensures ExactAll(ss, 0) && Inhabits(c.repr, defs, UnionOf(parts), v) ==> AcceptsSome(c, ss, 0, v, n)
  {
    UnionInhabits(c.repr, defs, parts, v);
    SomeIs(c, ss, 0, v, n);
    ExactAllIs(ss, 0);
    assert forall k :: 0 <= k < |parts| ==> Describes(c, defs, parts[k], ss[k], v, n);
  }

  lemma {:induction false} NotAnyAppend(a: seq<Annotation>, b: seq<Annotation>)
    ensures NotAny(a + b) == NotAny(a) + NotAny(b)
  {
    if b == [] {
      assert a + b == a;
    } else {
      assert (a + b)[..|a + b| - 1] == a + b[..|b| - 1];
      NotAnyAppend(a, b[..|b| - 1]);
    }
  }

  lemma {:induction false} AllAny(parts: seq<Annotation>)
    ensures NotAny(parts) == [] <==> forall k :: 0 <= k < |parts| ==> parts[k] == ANY
  {
    if parts != [] {
      AllAny(parts[..|parts| - 1]);
    }
  }

  /** The `k`th part is not `Any`, all others are. */
  ghost predicate OnlyAt(parts: seq<Annotation>, k: nat) {
    k < |parts| && parts[k] != ANY && forall j :: 0 <= j < |parts| && j != k ==> parts[j] == ANY
  }

  lemma {:induction false} OnlyPart(parts: seq<Annotation>, k: nat)
    requires OnlyAt(parts, k)
    ensures NotAny(parts) == [parts[k]]
  {
    var before, after := parts[..k], parts[k + 1..];
    AllAny(before);
    AllAny(after);
    assert parts == before + ([parts[k]] + after);
    NotAnyAppend(before, [parts[k]] + after);
    NotAnyAppend([parts[k]], after);
    NotAnyAppend([], [parts[k]]);
    assert [parts[k]][..0] == [];
  }

  lemma {:induction false} TwoParts(parts: seq<Annotation>, j: nat, k: nat)
    requires j < k < |parts| && parts[j] != ANY && parts[k] != ANY
    ensures |NotAny(parts)| > 1
  {
    var front, back := parts[..k], parts[k..];
    AllAny(front);
    AllAny(back);
    assert parts == front + back && front[j] == parts[j] && back[0] == parts[k];
    NotAnyAppend(front, back);
  }

  /** An `allOf` renders as the one part that is not `Any`, and as `Any` when there is none or another one. */
  lemma {:induction false} AllOfRenders(env: Env, s: Schema, hint: string, p: Progress)
    requires s.Object? && s.ref.None? && s.const_ == NoConst && s.enum_.None?
    requires Variants(s).Missing? && s.allOf.Listed?
    ensures var parts := RenderAll(env, s.allOf.list, 0, hint, p).annotations;
            var a := Render(env, s, hint, p).annotation;
            && (forall k: nat {:trigger OnlyAt(parts, k)} :: OnlyAt(parts, k) ==> a == parts[k])
            && (forall j: nat, k: nat {:trigger parts[j], parts[k]} ::
                  j < k < |parts| && parts[j] != ANY && parts[k] != ANY ==> a == ANY)
            && ((forall k :: 0 <= k < |parts| ==> parts[k] == ANY) ==> a == ANY)
  {
    ListsSmaller(s);
    var parts := RenderAll(env, s.allOf.list, 0, hint, p).annotations;
    AllAny(parts);
    forall k: nat | OnlyAt(parts, k) ensures NotAny(parts) == [parts[k]] {
      OnlyPart(parts, k);
    }
    forall j: nat, k: nat | j < k < |parts| && parts[j] != ANY && parts[k] != ANY ensures |NotAny(parts)| > 1 {
      TwoParts(parts, j, k);
    }
  }

  lemma {:induction false} AllOfMeans(c: Reading, defs: seq<Definition>, parts: seq<Annotation>, ss: seq<Schema>,
                                      v: Json, n: nat)
    requires DescribesAll(c, defs, parts, ss, 0, v, n) && AcceptsAll(c, ss, 0, v, n)
    ensures Inhabits(c.repr, defs, if |NotAny(parts)| == 1 then NotAny(parts)[0] else ANY, v)
  {
    AllIs(c, ss, 0, v, n);
    AnyInhabited(c.repr, defs, v);
    NotAnyMembers(parts);
    if |NotAny(parts)| == 1 {
      assert NotAny(parts)[0] in NotAny(parts);
      var k :| 0 <= k < |parts| && parts[k] == NotAny(parts)[0];
      assert Describes(c, defs, parts[k], ss[k], v, n);
    }
  }

  lemma {:induction false} RenderMeans(c: Reading, s: Schema, hint: string, p: Progress, base: set<string>,
                                       defs: seq<Definition>, v: Json, n: nat)
    requires c.closed && n >= Left(p) && Sound(p, base) && OneEach(defs)
    requires Within(Render(c.env, s, hint, p).progress.definitions, defs)
    ensures Describes(c, defs, Render(c.env, s, hint, p).annotation, s, v, n)
    decreases Left(p), Size(s), if s.Object? then KindSize(s.kind) + 1 else 0, 0
  {
    var r := Render(c.env, s, hint, p);
    AnyInhabited(c.repr, defs, v);
    if s.Object? {
      if s.ref.Some? {
        RefMeans(c, s, hint, p, base, defs, v, n);
      } else if s.const_.Const? || s.enum_.Some? {
        LiteralMeans(c, s, hint, p, defs, v, n);
      } else if Variants(s).Listed? {
        UnionMeans(c, s, hint, p, base, defs, v, n);
      } else if s.allOf.Listed? {
        IntersectionMeans(c, s, hint, p, base, defs, v, n);
      } else {
        KindMeans(c, s, s.kind, hint, p, base, defs, v, n);
      }
    } else {
      OneAlternative(c.repr, defs, NeverAtom, v);
    }
  }

  lemma {:induction false} UnionMeans(c: Reading, s: Schema, hint: string, p: Progress, base: set<string>,
                                      defs: seq<Definition>, v: Json, n: nat)
    requires c.closed && n >= Left(p) && Sound(p, base) && OneEach(defs)
    requires s.Object? && s.ref.None? && s.const_ == NoConst && s.enum_.None? && Variants(s).Listed?
    requires Within(Render(c.env, s, hint, p).progress.definitions, defs)
    ensures Describes(c, defs, Render(c.env, s, hint, p).annotation, s, v, n)
    decreases Left(p), Size(s), KindSize(s.kind), 3
  {
    ListsSmaller(s);
    AllMean(c, Variants(s).list, 0, hint, p, base, defs, v, n);
    VariantsMean(c, defs, RenderAll(c.env, Variants(s).list, 0, hint, p).annotations, Variants(s).list, v, n);
    UnionAccepts(c, s, v, n);
  }

  lemma {:induction false} UnionAccepts(c: Reading, s: Schema, v: Json, n: nat)
    requires s.Object? && s.ref.None? && s.const_ == NoConst && s.enum_.None? && Variants(s).Listed?
    ensures Accepts(c, s, v, n) ==> AcceptsSome(c, Variants(s).list, 0, v, n)
    ensures Exact(s) ==> ExactAll(Variants(s).list, 0)
    ensures Exact(s) && AcceptsSome(c, Variants(s).list, 0, v, n) ==> Accepts(c, s, v, n)
  {
    ListsSmaller(s);
    WholeList(s.anyOf);
    WholeList(s.oneOf);
  }

  lemma {:induction false} IntersectionMeans(c: Reading, s: Schema, hint: string, p: Progress, base: set<string>,
                                             defs: seq<Definition>, v: Json, n: nat)
    requires c.closed && n >= Left(p) && Sound(p, base) && OneEach(defs)
    requires s.Object? && s.ref.None? && s.const_ == NoConst && s.enum_.None?
    requires Variants(s).Missing? && s.allOf.Listed?
    requires Within(Render(c.env, s, hint, p).progress.definitions, defs)
    ensures Describes(c, defs, Render(c.env, s, hint, p).annotation, s, v, n)
    decreases Left(p), Size(s), KindSize(s.kind), 3
  {
    ListsSmaller(s);
    AllMean(c, s.allOf.list, 0, hint, p, base, defs, v, n);
    if Accepts(c, s, v, n) {
      AllOfMeans(c, defs, RenderAll(c.env, s.allOf.list, 0, hint, p).annotations, s.allOf.list, v, n);
    }
  }

  lemma {:induction false} RefMeans(c: Reading, s: Schema, hint: string, p: Progress, base: set<string>,
                                    defs: seq<Definition>, v: Json, n: nat)
    requires c.closed && n >= Left(p) && Sound(p, base) && OneEach(defs) && s.Object? && s.ref.Some?
    requires Within(Render(c.env, s, hint, p).progress.definitions, defs)
    ensures Describes(c, defs, Render(c.env, s, hint, p).annotation, s, v, n)
    decreases Left(p), Size(s), KindSize(s.kind), 3
  {
    var ref := s.ref.value;
    AnyInhabited(c.repr, defs, v);
    if !(ref in p.resolving || p.expansions >= MAX_REF_EXPANSIONS || c.env.resolve(ref).None?) {
      var q := p.(expansions := p.expansions + 1, resolving := p.resolving + {ref});
      RenderMeans(c, c.env.resolve(ref).value, hint, q, base, defs, v, n - 1);
    }
  }

  lemma {:induction false} LiteralMeans(c: Reading, s: Schema, hint: string, p: Progress, defs: seq<Definition>,
                                        v: Json, n: nat)
    requires s.Object? && s.ref.None? && (s.const_.Const? || s.enum_.Some?)
    ensures Describes(c, defs, Render(c.env, s, hint, p).annotation, s, v, n)
  {
    AnyInhabited(c.repr, defs, v);
    if s.const_.Const? {
      if s.const_.literal.Some? {
        OneAlternative(c.repr, defs, Literal([s.const_.literal.value]), v);
      }
    } else {
      EnumMeans(c.repr, defs, s.enum_.value, v);
    }
  }

  lemma {:induction false} EnumMeans(repr: Json -> Option<string>, defs: seq<Definition>, values: seq<Option<string>>,
                                     v: Json)
    ensures values != [] && None !in values ==>
              (Inhabits(repr, defs, EnumLiteral(values), v) <==> repr(v) in values)
    ensures values == [] || None in values ==> Inhabits(repr, defs, EnumLiteral(values), v)
  {
    AnyInhabited(repr, defs, v);
    if values != [] && None !in values {
      var texts := seq(|values|, i requires 0 <= i < |values| => values[i].GetOr(""));
      UniqueMembers(texts);
      OneAlternative(repr, defs, Literal(Unique(texts)), v);
      TextsAre(values, texts, repr(v));
    }
  }

  lemma {:induction false} TextsAre(values: seq<Option<string>>, texts: seq<string>, o: Option<string>)
    requires None !in values && |texts| == |values|
    requires forall i :: 0 <= i < |values| ==> texts[i] == values[i].GetOr("")
    ensures o in values <==> o.Some? && o.value in texts
  {
    forall i | 0 <= i < |values| ensures values[i] == Some(texts[i]) {
      assert values[i] in values;
    }
  }

  lemma {:induction false} AllMean(c: Reading, ss: seq<Schema>, i: nat, hint: string, p: Progress, base: set<string>,
                                   defs: seq<Definition>, v: Json, n: nat)
    requires c.closed && n >= Left(p) && Sound(p, base) && OneEach(defs) && i <= |ss|
    requires Within(RenderAll(c.env, ss, i, hint, p).progress.definitions, defs)
    ensures DescribesAll(c, defs, RenderAll(c.env, ss, i, hint, p).annotations, ss, i, v, n)
    decreases Left(p), SizeFrom(ss, i), 0, 0
  {
    if i < |ss| {
      var first := Render(c.env, ss[i], hint, p);
      var rest := RenderAll(c.env, ss, i + 1, hint, first.progress);
      RenderSound(c.env, ss[i], hint, p, base);
      RenderAllSound(c.env, ss, i + 1, hint, first.progress, base);
      WithinEarlier(first.progress, rest.progress, defs);
      RenderMeans(c, ss[i], hint, p, base, defs, v, n);
      AllMean(c, ss, i + 1, hint, first.progress, base, defs, v, n);
      DescribesCons(c, defs, first.annotation, rest.annotations, ss, i, v, n);
    }
  }

  lemma {:induction false} KindMeans(c: Reading, s: Schema, kind: Kind, hint: string, p: Progress, base: set<string>,
                                     defs: seq<Definition>, v: Json, n: nat)
    requires c.closed && n >= Left(p) && Sound(p, base) && OneEach(defs) && s.Object?
    requires Within(RenderKind(c.env, s, kind, hint, p).progress.definitions, defs)
    ensures DescribesKind(c, defs, RenderKind(c.env, s, kind, hint, p).annotation, s, kind, v, n)
    decreases Left(p), Size(s), KindSize(kind), 1
  {
    AnyInhabited(c.repr, defs, v);
    match kind
    case Many(kinds) =>
      KindSizeFromIs(kinds, 0);
      assert kinds[0..] == kinds;
      KindsMean(c, s, kinds, 0, hint, p, base, defs, v, n);
      KindsUnion(c, defs, RenderKinds(c.env, s, kinds, 0, hint, p).annotations, s, kinds, v, n);
    case Named(name) =>
      if name == "array" { ArrayMeans(c, s, hint, p, base, defs, v, n); }
      else if name == "object" { ObjectMeans(c, s, hint, p, base, defs, v, n); }
      else { PrimitiveMeans(c, defs, s, name, v, n); }
    case Untyped =>
      if s.objectKeys { ObjectMeans(c, s, hint, p, base, defs, v, n); }
      else if s.arrayKeys { ArrayMeans(c, s, hint, p, base, defs, v, n); }
    case Odd =>
  }

  lemma {:induction false} PrimitiveMeans(c: Reading, defs: seq<Definition>, s: Schema, name: string, v: Json, n: nat)
    requires s.Object? && name != "array" && name != "object"
    ensures DescribesKind(c, defs, Primitive(name), s, Named(name), v, n)
  {
    AnyInhabited(c.repr, defs, v);
    assert |Primitive(name)| == 1;
    OneAlternative(c.repr, defs, Primitive(name)[0], v);
  }

  lemma {:induction false} KindsMean(c: Reading, s: Schema, kinds: seq<Kind>, i: nat, hint: string, p: Progress,
                                     base: set<string>, defs: seq<Definition>, v: Json, n: nat)
    requires c.closed && n >= Left(p) && Sound(p, base) && OneEach(defs) && s.Object? && i <= |kinds|
    requires Within(RenderKinds(c.env, s, kinds, i, hint, p).progress.definitions, defs)
    ensures DescribesKinds(c, defs, RenderKinds(c.env, s, kinds, i, hint, p).annotations, s, kinds, i, v, n)
    decreases Left(p), Size(s), KindSizeFrom(kinds, i), 2
  {
    if i < |kinds| {
      var first := RenderKind(c.env, s, kinds[i], hint, p);
      var rest := RenderKinds(c.env, s, kinds, i + 1, hint, first.progress);
      RenderKindSound(c.env, s, kinds[i], hint, p, base);
      RenderKindsSound(c.env, s, kinds, i + 1, hint, first.progress, base);
      WithinEarlier(first.progress, rest.progress, defs);
      KindMeans(c, s, kinds[i], hint, p, base, defs, v, n);
      KindsMean(c, s, kinds, i + 1, hint, first.progress, base, defs, v, n);
      KindsCons(c, defs, first.annotation, rest.annotations, s, kinds, i, v, n);
    }
  }

  ghost predicate DescribesArray(c: Reading, defs: seq<Definition>, a: Annotation, s: Schema, v: Json, n: nat)
    requires s.Object?
  {
    && (v.Array? && Holds(c, s, v, n) ==> Inhabits(c.repr, defs, a, v))
    && (ExactArray(s) && Inhabits(c.repr, defs, a, v) ==> v.Array? && Holds(c, s, v, n))
  }

  lemma {:induction false} ArrayMeans(c: Reading, s: Schema, hint: string, p: Progress, base: set<string>,
                                      defs: seq<Definition>, v: Json, n: nat)
    requires c.closed && n >= Left(p) && Sound(p, base) && OneEach(defs) && s.Object?
    requires Within(RenderArray(c.env, s, hint, p).progress.definitions, defs)
    ensures DescribesArray(c, defs, RenderArray(c.env, s, hint, p).annotation, s, v, n)
    decreases Left(p), Size(s), 0, 1
  {
    var a := RenderArray(c.env, s, hint, p).annotation;
    OneAlternative(c.repr, defs, a[0], v);
    if v.Array? {
      if s.items.Single? {
        var item := Render(c.env, s.items.schema, hint + "Item", p).annotation;
        forall i | 0 <= i < |v.items| ensures Describes(c, defs, item, s.items.schema, v.items[i], n) {
          RenderMeans(c, s.items.schema, hint + "Item", p, base, defs, v.items[i], n);
        }
      } else if TupleItems(s).Listed? && |TupleItems(s).list| > 0 {
        ListsSmaller(s);
        var ss := TupleItems(s).list;
        var parts := RenderAll(c.env, ss, 0, hint + "Item", p).annotations;
        EachIs(c, ss, 0, v.items, n);
        forall i | 0 <= i < |v.items| && i < |ss| && Accepts(c, ss[i], v.items[i], n)
          ensures Inhabits(c.repr, defs, UnionOf(parts), v.items[i])
        {
          AllMean(c, ss, 0, hint + "Item", p, base, defs, v.items[i], n);
          SomeIs(c, ss, 0, v.items[i], n);
          VariantsMean(c, defs, parts, ss, v.items[i], n);
        }
      } else {
        forall i | 0 <= i < |v.items| ensures Inhabits(c.repr, defs, ANY, v.items[i]) {
          AnyInhabited(c.repr, defs, v.items[i]);
        }
      }
    }
  }

  ghost predicate DescribesObject(c: Reading, defs: seq<Definition>, a: Annotation, s: Schema, v: Json, n: nat)
    requires s.Object?
  {
    && (v.Record? && Holds(c, s, v, n) ==> Inhabits(c.repr, defs, a, v))
    && (ExactObject(s) && Inhabits(c.repr, defs, a, v) ==> v.Record? && Holds(c, s, v, n))
  }

  lemma {:induction false} PropertiesIs(c: Reading, ps: seq<Property>, i: nat, fields: seq<Field>, n: nat)
    requires i <= |ps|
    ensures AcceptsProperties(c, ps, i, fields, n)
            <==> forall k, f :: i <= k < |ps| && 0 <= f < |fields| && fields[f].key == ps[k].key ==>
                   Accepts(c, ps[k].schema, fields[f].value, n)
    decreases |ps| - i
  {
    if i < |ps| {
      PropertiesIs(c, ps, i + 1, fields, n);
    }
  }

  lemma {:induction false} ExactPropertiesIs(ps: seq<Property>, i: nat)
    requires i <= |ps|
    ensures ExactProperties(ps, i) <==> forall k :: i <= k < |ps| ==> Exact(ps[k].schema)
    decreases |ps| - i
  {
    if i < |ps| {
      ExactPropertiesIs(ps, i + 1);
    }
  }

  lemma {:induction false} GeneratedIs(repr: Json -> Option<string>, defs: seq<Definition>, d: Definition, v: Json)
    requires OneEach(defs) && d in defs
    ensures InhabitsAtom(repr, defs, Generated(d.name), v) <==> v.Record? && Fits(repr, defs, d, v)
  {
  }

  /** Each member describes its property's schema for each field's value. */
  ghost predicate MembersDescribe(c: Reading, defs: seq<Definition>, members: seq<Member>, ps: seq<Property>, i: nat,
                                  v: Json, n: nat)
  {
    && i <= |ps| && |members| == |ps| - i
    && forall k :: 0 <= k < |members| ==> Describes(c, defs, members[k].annotation, ps[i + k].schema, v, n)
  }

  lemma {:induction false} MembersCons(c: Reading, defs: seq<Definition>, m: Member, rest: seq<Member>,
                                       ps: seq<Property>, i: nat, v: Json, n: nat)
    requires i < |ps| && Describes(c, defs, m.annotation, ps[i].schema, v, n)
    requires MembersDescribe(c, defs, rest, ps, i + 1, v, n)
    ensures MembersDescribe(c, defs, [m] + rest, ps, i, v, n)
  {
    var all := [m] + rest;
    forall k | 0 <= k < |all| ensures Describes(c, defs, all[k].annotation, ps[i + k].schema, v, n) {
      if k > 0 {
        assert Describes(c, defs, rest[k - 1].annotation, ps[i + 1 + (k - 1)].schema, v, n);
      }
    }
  }

  ghost predicate SameMembers(members: seq<Member>, ps: seq<Property>, required: set<string>) {
    && |members| == |ps|
    && forall k :: 0 <= k < |members| ==>
         members[k].key == ps[k].key && (members[k].required <==> ps[k].key in required)
  }

  lemma {:induction false} SameKeys(members: seq<Member>, ps: seq<Property>, required: set<string>, key: string)
    requires SameMembers(members, ps, required)
    ensures HasMember(members, key) <==> HasProperty(ps, key)
  {
    if j :| 0 <= j < |members| && members[j].key == key {
      assert ps[j].key == key;
    }
    if j :| 0 <= j < |ps| && ps[j].key == key {
      assert members[j].key == key;
    }
  }

  /** What ties a definition to its schema, for the fields of one value. */
  ghost predicate Ties(c: Reading, defs: seq<Definition>, d: Definition, s: Schema, fields: seq<Field>, n: nat)
    requires s.Object?
  {
    && SameMembers(d.members, s.properties, s.required)
    && (forall f :: 0 <= f < |fields| ==> MembersDescribe(c, defs, d.members, s.properties, 0, fields[f].value, n))
    && (d.extra.Some? <==> s.additional.Some? && !s.additional.value.False?)
    && (d.extra.Some? ==>
          forall f :: 0 <= f < |fields| ==>
            Describes(c, defs, d.extra.value, s.additional.value, fields[f].value, n))
  }

  lemma {:induction false} HoldsFits(c: Reading, defs: seq<Definition>, d: Definition, s: Schema, v: Json, n: nat)
    requires s.Object? && v.Record? && Ties(c, defs, d, s, v.fields, n) && Holds(c, s, v, n)
    ensures Fits(c.repr, defs, d, v)
  {
    PropertiesIs(c, s.properties, 0, v.fields, n);
    forall j, i | 0 <= j < |d.members| && 0 <= i < |v.fields| && v.fields[i].key == d.members[j].key
      ensures Inhabits(c.repr, defs, d.members[j].annotation, v.fields[i].value)
    {
      assert MembersDescribe(c, defs, d.members, s.properties, 0, v.fields[i].value, n);
      assert Describes(c, defs, d.members[j].annotation, s.properties[0 + j].schema, v.fields[i].value, n);
    }
    forall i | 0 <= i < |v.fields| && d.extra.Some? && !HasMember(d.members, v.fields[i].key)
      ensures Inhabits(c.repr, defs, d.extra.value, v.fields[i].value)
    {
      SameKeys(d.members, s.properties, s.required, v.fields[i].key);
    }
  }

  lemma {:induction false} FitsHolds(c: Reading, defs: seq<Definition>, d: Definition, s: Schema, v: Json, n: nat)
    requires s.Object? && v.Record? && Ties(c, defs, d, s, v.fields, n) && ExactObject(s)
    requires Fits(c.repr, defs, d, v)
    ensures Holds(c, s, v, n)
  {
    PropertiesIs(c, s.properties, 0, v.fields, n);
    ExactPropertiesIs(s.properties, 0);
    forall key | key in s.required ensures HasKey(v.fields, key) {
      var j :| 0 <= j < |s.properties| && s.properties[j].key == key;
      assert d.members[j].required;
    }
    forall j, i | 0 <= j < |s.properties| && 0 <= i < |v.fields| && v.fields[i].key == s.properties[j].key
      ensures Accepts(c, s.properties[j].schema, v.fields[i].value, n)
    {
      assert MembersDescribe(c, defs, d.members, s.properties, 0, v.fields[i].value, n);
      assert Describes(c, defs, d.members[j].annotation, s.properties[0 + j].schema, v.fields[i].value, n);
    }
    forall i | 0 <= i < |v.fields| && s.additional.Some? && !HasProperty(s.properties, v.fields[i].key)
      ensures Accepts(c, s.additional.value, v.fields[i].value, n)
    {
      SameKeys(d.members, s.properties, s.required, v.fields[i].key);
      assert Describes(c, defs, d.extra.value, s.additional.value, v.fields[i].value, n);
    }
  }

  lemma {:induction false} ObjectMeans(c: Reading, s: Schema, hint: string, p: Progress, base: set<string>,
                                       defs: seq<Definition>, v: Json, n: nat)
    requires c.closed && n >= Left(p) && Sound(p, base) && OneEach(defs) && s.Object?
    requires Within(RenderObject(c.env, s, hint, p).progress.definitions, defs)
    ensures DescribesObject(c, defs, RenderObject(c.env, s, hint, p).annotation, s, v, n)
    decreases Left(p), Size(s), 0, 2
  {
    if |s.properties| == 0 {
      DictMeans(c, s, hint, p, base, defs, v, n);
    } else {
      TypedMeans(c, s, hint, p, base, defs, v, n);
    }
  }

  lemma {:induction false} DictMeans(c: Reading, s: Schema, hint: string, p: Progress, base: set<string>,
                                     defs: seq<Definition>, v: Json, n: nat)
    requires c.closed && n >= Left(p) && Sound(p, base) && OneEach(defs) && s.Object? && |s.properties| == 0
    requires Within(RenderObject(c.env, s, hint, p).progress.definitions, defs)
    ensures DescribesObject(c, defs, RenderObject(c.env, s, hint, p).annotation, s, v, n)
    decreases Left(p), Size(s), 0, 1
  {
    var typed := s.additional.Some? && s.additional.value.Object?;
    var a := RenderObject(c.env, s, hint, p).annotation;
    OneAlternative(c.repr, defs, a[0], v);
    if v.Record? {
      forall i | 0 <= i < |v.fields|
        ensures if typed then Describes(c, defs, a[0].value, s.additional.value, v.fields[i].value, n)
                else Inhabits(c.repr, defs, a[0].value, v.fields[i].value)
      {
        AnyInhabited(c.repr, defs, v.fields[i].value);
        if typed {
          RenderMeans(c, s.additional.value, hint + "Value", p, base, defs, v.fields[i].value, n);
        }
      }
    }
  }

  lemma {:induction false} TypedMeans(c: Reading, s: Schema, hint: string, p: Progress, base: set<string>,
                                      defs: seq<Definition>, v: Json, n: nat)
    requires c.closed && n >= Left(p) && Sound(p, base) && OneEach(defs) && s.Object? && |s.properties| > 0
    requires Within(RenderObject(c.env, s, hint, p).progress.definitions, defs)
    ensures DescribesObject(c, defs, RenderObject(c.env, s, hint, p).annotation, s, v, n)
    decreases Left(p), Size(s), 0, 1
  {
    ListsSmaller(s);
    var r := RenderObject(c.env, s, hint, p);
    var members := RenderMembers(c.env, s.properties, 0, s.required, hint, p);
    var extra := RenderExtra(c.env, s, hint, members.progress);
    var d := Definition(Fresh(hint, extra.1.taken), members.members, extra.0);
    RenderMembersSound(c.env, s.properties, 0, s.required, hint, p, base);
    RenderExtraSound(c.env, s, hint, members.progress, base);
    assert r.progress.definitions == extra.1.definitions + [d] && d in r.progress.definitions;
    WithinEarlier(members.progress, extra.1, defs);
    MembersMatch(c.env, s.properties, 0, s.required, hint, p);
    OneAlternative(c.repr, defs, Generated(d.name), v);
    GeneratedIs(c.repr, defs, d, v);
    if v.Record? {
      forall f | 0 <= f < |v.fields|
        ensures MembersDescribe(c, defs, d.members, s.properties, 0, v.fields[f].value, n)
        ensures d.extra.Some? ==> Describes(c, defs, d.extra.value, s.additional.value, v.fields[f].value, n)
      {
        MembersMean(c, s.properties, 0, s.required, hint, p, base, defs, v.fields[f].value, n);
        ExtraMeans(c, s, hint, members.progress, base, defs, v.fields[f].value, n);
      }
      assert Ties(c, defs, d, s, v.fields, n);
      if Holds(c, s, v, n) {
        HoldsFits(c, defs, d, s, v, n);
      }
      if ExactObject(s) && Fits(c.repr, defs, d, v) {
        FitsHolds(c, defs, d, s, v, n);
      }
    }
  }

  lemma {:induction false} ExtraMeans(c: Reading, s: Schema, hint: string, p: Progress, base: set<string>,
                                      defs: seq<Definition>, v: Json, n: nat)
    requires c.closed && n >= Left(p) && Sound(p, base) && OneEach(defs) && s.Object?
    requires Within(RenderExtra(c.env, s, hint, p).1.definitions, defs)
    ensures var extra := RenderExtra(c.env, s, hint, p).0;
            extra.Some? ==> Describes(c, defs, extra.value, s.additional.value, v, n)
    decreases Left(p), Size(s), 0, 0
  {
    AnyInhabited(c.repr, defs, v);
    if !(s.additional.None? || s.additional.value.False? || s.additional.value.True?) {
      RenderMeans(c, s.additional.value, hint + "Value", p, base, defs, v, n);
    }
  }

  lemma {:induction false} MembersMean(c: Reading, ps: seq<Property>, i: nat, required: set<string>, hint: string,
                                       p: Progress, base: set<string>, defs: seq<Definition>, v: Json, n: nat)
    requires c.closed && n >= Left(p) && Sound(p, base) && OneEach(defs) && i <= |ps|
    requires Within(RenderMembers(c.env, ps, i, required, hint, p).progress.definitions, defs)
    ensures MembersDescribe(c, defs, RenderMembers(c.env, ps, i, required, hint, p).members, ps, i, v, n)
    decreases Left(p), SizePropertiesFrom(ps, i), 0, 0
  {
    if i < |ps| {
      var first := Render(c.env, ps[i].schema, hint + c.env.pascal(ps[i].key), p);
      var rest := RenderMembers(c.env, ps, i + 1, required, hint, first.progress);
      RenderSound(c.env, ps[i].schema, hint + c.env.pascal(ps[i].key), p, base);
      RenderMembersSound(c.env, ps, i + 1, required, hint, first.progress, base);
      WithinEarlier(first.progress, rest.progress, defs);
      RenderMeans(c, ps[i].schema, hint + c.env.pascal(ps[i].key), p, base, defs, v, n);
      MembersMean(c, ps, i + 1, required, hint, first.progress, base, defs, v, n);
      MembersCons(c, defs, Member(ps[i].key, first.annotation, ps[i].key in required), rest.members, ps, i, v, n);
    }
  }
}
