/** What every rendering gives: fresh names, definitions that mention only earlier ones, and an annotation
    that mentions only defined names. */
module DeclarationTheorems {
  import opened Prelude
  import opened Declarations

  // ---- The names an annotation mentions ----

  predicate ClosedAtom(a: Atom, names: set<string>) {
    match a
    case Generated(name) => name in names
    case ListOf(item) => Closed(item, names)
    case DictOf(value) => Closed(value, names)
    case _ => true
  }

  predicate Closed(a: Annotation, names: set<string>) {
    forall k :: 0 <= k < |a| ==> ClosedAtom(a[k], names)
  }

  predicate AllClosed(parts: seq<Annotation>, names: set<string>) {
    forall k :: 0 <= k < |parts| ==> Closed(parts[k], names)
  }

  lemma {:induction false} ClosedGrows(a: Annotation, names: set<string>, more: set<string>)
    requires Closed(a, names) && names <= more
    ensures Closed(a, more)
    decreases a
  {
    forall k | 0 <= k < |a| ensures ClosedAtom(a[k], more) {
      ClosedAtomGrows(a[k], names, more);
    }
  }

  lemma {:induction false} ClosedAtomGrows(a: Atom, names: set<string>, more: set<string>)
    requires ClosedAtom(a, names) && names <= more
    ensures ClosedAtom(a, more)
    decreases a
  {
    match a
    case ListOf(item) => ClosedGrows(item, names, more);
    case DictOf(value) => ClosedGrows(value, names, more);
    case _ =>
  }

  lemma {:induction false} ClosedFlatten(parts: seq<Annotation>, names: set<string>)
    requires AllClosed(parts, names)
    ensures Closed(Flatten(parts), names)
  {
    if parts != [] {
      ClosedFlatten(parts[1..], names);
    }
  }

  lemma {:induction false} UniqueMembers<T>(s: seq<T>)
    ensures forall x :: x in Unique(s) <==> x in s
    ensures Distinct(Unique(s))
  {
    if s != [] {
      UniqueMembers(s[..|s| - 1]);
      assert s == s[..|s| - 1] + [s[|s| - 1]];
    }
  }

  lemma {:induction false} ClosedUnion(types: seq<Annotation>, names: set<string>)
    requires AllClosed(types, names)
    ensures Closed(UnionOf(types), names)
  {
    var unique := Unique(types);
    UniqueMembers(types);
    forall k | 0 <= k < |unique| ensures Closed(unique[k], names) {
      assert unique[k] in types;
    }
    ClosedFlatten(unique, names);
  }

  lemma {:induction false} NotAnyMembers(parts: seq<Annotation>)
    ensures forall a :: a in NotAny(parts) ==> a in parts
  {
    if parts != [] {
      NotAnyMembers(parts[..|parts| - 1]);
    }
  }

  // ---- Definitions ----

  ghost function DefNames(definitions: seq<Definition>): set<string> {
    set d | d in definitions :: d.name
  }

  ghost predicate ClosedMembers(members: seq<Member>, names: set<string>) {
    forall k :: 0 <= k < |members| ==> Closed(members[k].annotation, names)
  }

  ghost predicate ClosedDefinition(d: Definition, names: set<string>) {
    ClosedMembers(d.members, names) && (d.extra.Some? ==> Closed(d.extra.value, names))
  }

  /** Names are distinct, and each definition mentions only names defined before it. */
  ghost predicate WellDefined(definitions: seq<Definition>) {
    forall k :: 0 <= k < |definitions| ==>
      definitions[k].name !in DefNames(definitions[..k]) && ClosedDefinition(definitions[k], DefNames(definitions[..k]))
  }

  lemma {:induction false} DefineOne(definitions: seq<Definition>, d: Definition)
    requires WellDefined(definitions) && d.name !in DefNames(definitions) && ClosedDefinition(d, DefNames(definitions))
    ensures WellDefined(definitions + [d])
    ensures DefNames(definitions + [d]) == DefNames(definitions) + {d.name}
  {
    var more := definitions + [d];
    forall k | 0 <= k < |more|
      ensures more[k].name !in DefNames(more[..k]) && ClosedDefinition(more[k], DefNames(more[..k]))
    {
      assert more[..k] == if k < |definitions| then definitions[..k] else definitions;
    }
  }

  lemma {:induction false} DefNamesGrow(a: seq<Definition>, b: seq<Definition>)
    requires a <= b
    ensures DefNames(a) <= DefNames(b)
  {
    forall d | d in a ensures d in b {
      var k :| 0 <= k < |a| && a[k] == d;
      assert b[k] == d;
    }
  }

  // ---- Every rendering is sound ----

  /** The names taken are those taken before this renderer and those it defined. */
  ghost predicate Sound(p: Progress, base: set<string>) {
    && p.taken == base + DefNames(p.definitions) && base !! DefNames(p.definitions)
    && WellDefined(p.definitions)
  }

  /** From `p` to `q` definitions were only appended, and no reference is left being resolved. */
  ghost predicate Extends(p: Progress, q: Progress) {
    && p.definitions <= q.definitions && q.resolving == p.resolving
    && (p.expansions <= MAX_REF_EXPANSIONS ==> q.expansions <= MAX_REF_EXPANSIONS)
  }

  lemma {:induction false} ExtendsClosed(a: Annotation, p: Progress, q: Progress)
    requires Extends(p, q) && Closed(a, DefNames(p.definitions))
    ensures Closed(a, DefNames(q.definitions))
  {
    DefNamesGrow(p.definitions, q.definitions);
    ClosedGrows(a, DefNames(p.definitions), DefNames(q.definitions));
  }

  ghost predicate SoundResult(a: Annotation, p: Progress, q: Progress, base: set<string>) {
    Sound(q, base) && Extends(p, q) && Closed(a, DefNames(q.definitions))
  }

  ghost predicate SoundResults(parts: seq<Annotation>, p: Progress, q: Progress, base: set<string>) {
    Sound(q, base) && Extends(p, q) && AllClosed(parts, DefNames(q.definitions))
  }

  lemma {:induction false} SoundCons(a: Annotation, p: Progress, q: Progress, rest: seq<Annotation>, r: Progress,
                                     base: set<string>)
    requires SoundResult(a, p, q, base) && SoundResults(rest, q, r, base)
    ensures SoundResults([a] + rest, p, r, base)
  {
    ExtendsClosed(a, q, r);
  }

  lemma {:induction false} RenderSound(env: Env, s: Schema, hint: string, p: Progress, base: set<string>)
    requires Sound(p, base)
    ensures SoundResult(Render(env, s, hint, p).annotation, p, Render(env, s, hint, p).progress, base)
    decreases Left(p), Size(s), if s.Object? then KindSize(s.kind) + 1 else 0, 0
  {
    var names := DefNames(p.definitions);
    if s.Object? {
      if s.ref.Some? {
        RefSound(env, s, hint, p, base);
      } else if s.const_.Const? || s.enum_.Some? {
      } else if Variants(s).Listed? {
        ListsSmaller(s);
        RenderAllSound(env, Variants(s).list, 0, hint, p, base);
        var all := RenderAll(env, Variants(s).list, 0, hint, p);
        ClosedUnion(all.annotations, DefNames(all.progress.definitions));
      } else if s.allOf.Listed? {
        ListsSmaller(s);
        RenderAllSound(env, s.allOf.list, 0, hint, p, base);
        NotAnyMembers(RenderAll(env, s.allOf.list, 0, hint, p).annotations);
        var parts := NotAny(RenderAll(env, s.allOf.list, 0, hint, p).annotations);
        if |parts| == 1 { assert parts[0] in parts; }
      } else {
        RenderKindSound(env, s, s.kind, hint, p, base);
      }
    }
  }

  lemma {:induction false} RefSound(env: Env, s: Schema, hint: string, p: Progress, base: set<string>)
    requires Sound(p, base) && s.Object? && s.ref.Some?
    ensures SoundResult(Render(env, s, hint, p).annotation, p, Render(env, s, hint, p).progress, base)
    decreases Left(p), Size(s), KindSize(s.kind), 3
  {
    var ref := s.ref.value;
    if !(ref in p.resolving || p.expansions >= MAX_REF_EXPANSIONS || env.resolve(ref).None?) {
      var q := p.(expansions := p.expansions + 1, resolving := p.resolving + {ref});
      RenderSound(env, env.resolve(ref).value, hint, q, base);
      assert p.resolving + {ref} - {ref} == p.resolving;
    }
  }

  lemma {:induction false} RenderAllSound(env: Env, ss: seq<Schema>, i: nat, hint: string, p: Progress,
                                          base: set<string>)
    requires Sound(p, base) && i <= |ss|
    ensures SoundResults(RenderAll(env, ss, i, hint, p).annotations, p, RenderAll(env, ss, i, hint, p).progress, base)
    decreases Left(p), SizeFrom(ss, i), 0, 0
  {
    if i < |ss| {
      var first := Render(env, ss[i], hint, p);
      RenderSound(env, ss[i], hint, p, base);
      RenderAllSound(env, ss, i + 1, hint, first.progress, base);
      var rest := RenderAll(env, ss, i + 1, hint, first.progress);
      SoundCons(first.annotation, p, first.progress, rest.annotations, rest.progress, base);
    }
  }

  lemma {:induction false} RenderKindSound(env: Env, s: Schema, kind: Kind, hint: string, p: Progress,
                                           base: set<string>)
    requires Sound(p, base) && s.Object?
    ensures SoundResult(RenderKind(env, s, kind, hint, p).annotation, p, RenderKind(env, s, kind, hint, p).progress,
                        base)
    decreases Left(p), Size(s), KindSize(kind), 1
  {
    match kind
    case Many(kinds) =>
      KindSizeFromIs(kinds, 0);
      assert kinds[0..] == kinds;
      RenderKindsSound(env, s, kinds, 0, hint, p, base);
      var all := RenderKinds(env, s, kinds, 0, hint, p);
      ClosedUnion(all.annotations, DefNames(all.progress.definitions));
    case Named(name) =>
      if name == "array" { RenderArraySound(env, s, hint, p, base); }
      else if name == "object" { RenderObjectSound(env, s, hint, p, base); }
    case Untyped =>
      if s.objectKeys { RenderObjectSound(env, s, hint, p, base); }
      else if s.arrayKeys { RenderArraySound(env, s, hint, p, base); }
    case Odd =>
  }

  lemma {:induction false} RenderKindsSound(env: Env, s: Schema, kinds: seq<Kind>, i: nat, hint: string, p: Progress,
                                            base: set<string>)
    requires Sound(p, base) && s.Object? && i <= |kinds|
    ensures SoundResults(RenderKinds(env, s, kinds, i, hint, p).annotations, p,
                         RenderKinds(env, s, kinds, i, hint, p).progress, base)
    decreases Left(p), Size(s), KindSizeFrom(kinds, i), 2
  {
    if i < |kinds| {
      var first := RenderKind(env, s, kinds[i], hint, p);
      RenderKindSound(env, s, kinds[i], hint, p, base);
      RenderKindsSound(env, s, kinds, i + 1, hint, first.progress, base);
      var rest := RenderKinds(env, s, kinds, i + 1, hint, first.progress);
      SoundCons(first.annotation, p, first.progress, rest.annotations, rest.progress, base);
    }
  }

  lemma {:induction false} ClosedAnyOf(names: set<string>)
    ensures Closed([ListOf(ANY)], names) && Closed([DictOf(ANY)], names)
  {
    assert Closed(ANY, names);
    assert ClosedAtom(ListOf(ANY), names) && ClosedAtom(DictOf(ANY), names);
  }

  lemma {:induction false} RenderArraySound(env: Env, s: Schema, hint: string, p: Progress, base: set<string>)
    requires Sound(p, base) && s.Object?
    ensures SoundResult(RenderArray(env, s, hint, p).annotation, p, RenderArray(env, s, hint, p).progress, base)
    decreases Left(p), Size(s), 0, 1
  {
    ClosedAnyOf(DefNames(p.definitions));
    if s.items.Single? {
      RenderSound(env, s.items.schema, hint + "Item", p, base);
    } else if TupleItems(s).Listed? && |TupleItems(s).list| > 0 {
      ListsSmaller(s);
      RenderAllSound(env, TupleItems(s).list, 0, hint + "Item", p, base);
      var all := RenderAll(env, TupleItems(s).list, 0, hint + "Item", p);
      ClosedUnion(all.annotations, DefNames(all.progress.definitions));
    }
  }

  lemma {:induction false} RenderObjectSound(env: Env, s: Schema, hint: string, p: Progress, base: set<string>)
    requires Sound(p, base) && s.Object?
    ensures SoundResult(RenderObject(env, s, hint, p).annotation, p, RenderObject(env, s, hint, p).progress, base)
    decreases Left(p), Size(s), 0, 1
  {
    ClosedAnyOf(DefNames(p.definitions));
    if |s.properties| == 0 {
      if s.additional.Some? && s.additional.value.Object? {
        RenderSound(env, s.additional.value, hint + "Value", p, base);
      }
    } else {
      ListsSmaller(s);
      RenderMembersSound(env, s.properties, 0, s.required, hint, p, base);
      var members := RenderMembers(env, s.properties, 0, s.required, hint, p);
      RenderExtraSound(env, s, hint, members.progress, base);
      var extra := RenderExtra(env, s, hint, members.progress);
      MembersGrow(members.members, members.progress, extra.1);
      DefineSound(extra.1, Definition(Fresh(hint, extra.1.taken), members.members, extra.0), base);
    }
  }

  lemma {:induction false} MembersGrow(members: seq<Member>, p: Progress, q: Progress)
    requires Extends(p, q) && ClosedMembers(members, DefNames(p.definitions))
    ensures ClosedMembers(members, DefNames(q.definitions))
  {
    forall k | 0 <= k < |members| ensures Closed(members[k].annotation, DefNames(q.definitions)) {
      ExtendsClosed(members[k].annotation, p, q);
    }
  }

  /** A new definition with a fresh name keeps the state sound. */
  lemma {:induction false} DefineSound(p: Progress, d: Definition, base: set<string>)
    requires Sound(p, base) && d.name !in p.taken && ClosedDefinition(d, DefNames(p.definitions))
    ensures var q := p.(taken := p.taken + {d.name}, definitions := p.definitions + [d]);
            SoundResult([Generated(d.name)], p, q, base)
  {
    DefineOne(p.definitions, d);
    var q := p.(taken := p.taken + {d.name}, definitions := p.definitions + [d]);
    assert d.name in DefNames(q.definitions);
    assert ClosedAtom([Generated(d.name)][0], DefNames(q.definitions));
  }

  lemma {:induction false} RenderExtraSound(env: Env, s: Schema, hint: string, p: Progress, base: set<string>)
    requires Sound(p, base) && s.Object?
    ensures var extra := RenderExtra(env, s, hint, p);
            && Sound(extra.1, base) && Extends(p, extra.1)
            && (extra.0.Some? ==> Closed(extra.0.value, DefNames(extra.1.definitions)))
    decreases Left(p), Size(s), 0, 0
  {
    if !(s.additional.None? || s.additional.value.False? || s.additional.value.True?) {
      RenderSound(env, s.additional.value, hint + "Value", p, base);
    }
  }

  lemma {:induction false} RenderMembersSound(env: Env, ps: seq<Property>, i: nat, required: set<string>,
                                              hint: string, p: Progress, base: set<string>)
    requires Sound(p, base) && i <= |ps|
    ensures var r := RenderMembers(env, ps, i, required, hint, p);
            Sound(r.progress, base) && Extends(p, r.progress)
              && ClosedMembers(r.members, DefNames(r.progress.definitions))
    decreases Left(p), SizePropertiesFrom(ps, i), 0, 0
  {
    if i < |ps| {
      var first := Render(env, ps[i].schema, hint + env.pascal(ps[i].key), p);
      RenderSound(env, ps[i].schema, hint + env.pascal(ps[i].key), p, base);
      RenderMembersSound(env, ps, i + 1, required, hint, first.progress, base);
      var rest := RenderMembers(env, ps, i + 1, required, hint, first.progress);
      ExtendsClosed(first.annotation, first.progress, rest.progress);
    }
  }

  /** A rendered object has one member per property, in the schema's order, required as the schema says. */
  lemma {:induction false} MembersMatch(env: Env, ps: seq<Property>, i: nat, required: set<string>, hint: string,
                                        p: Progress)
    requires i <= |ps|
    ensures var members := RenderMembers(env, ps, i, required, hint, p).members;
            && |members| == |ps| - i
            && forall k :: 0 <= k < |members| ==>
                 members[k].key == ps[i + k].key && (members[k].required <==> ps[i + k].key in required)
    decreases |ps| - i
  {
    if i < |ps| {
      var first := Render(env, ps[i].schema, hint + env.pascal(ps[i].key), p);
      MembersMatch(env, ps, i + 1, required, hint, first.progress);
    }
  }
}
