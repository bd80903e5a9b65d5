/** What the generated names are: the hint of the schema they stand for, followed by the path to the object
    they were generated for. */
module DeclarationNames {
  import opened Declarations

  /** From `p` to `q` definitions were only added, each with a name that starts with the hint. */
  ghost predicate NamesFrom(p: Progress, q: Progress, hint: string) {
    && p.definitions <= q.definitions
    && forall k :: |p.definitions| <= k < |q.definitions| ==> hint <= q.definitions[k].name
  }

  lemma {:induction false} NamesThen(p: Progress, q: Progress, r: Progress, hint: string)
    requires NamesFrom(p, q, hint) && NamesFrom(q, r, hint)
    ensures NamesFrom(p, r, hint)
  {
  }

  lemma {:induction false} NamesShorter(p: Progress, q: Progress, hint: string, more: string)
    requires NamesFrom(p, q, hint + more)
    ensures NamesFrom(p, q, hint)
  {
    forall k | |p.definitions| <= k < |q.definitions| ensures hint <= q.definitions[k].name {
      assert hint + more <= q.definitions[k].name;
      assert hint == (hint + more)[..|hint|];
    }
  }

  /** Every name a rendering generates starts with its hint. */
  lemma {:induction false} RenderNames(env: Env, s: Schema, hint: string, p: Progress)
    ensures NamesFrom(p, Render(env, s, hint, p).progress, hint)
    decreases Left(p), Size(s), if s.Object? then KindSize(s.kind) + 1 else 0, 0
  {
    if s.Object? {
      if s.ref.Some? {
        var ref := s.ref.value;
        if !(ref in p.resolving || p.expansions >= MAX_REF_EXPANSIONS || env.resolve(ref).None?) {
          RenderNames(env, env.resolve(ref).value, hint,
                      p.(expansions := p.expansions + 1, resolving := p.resolving + {ref}));
        }
      } else if s.const_.Const? || s.enum_.Some? {
      } else if Variants(s).Listed? {
        ListsSmaller(s);
        AllNames(env, Variants(s).list, 0, hint, p);
      } else if s.allOf.Listed? {
        ListsSmaller(s);
        AllNames(env, s.allOf.list, 0, hint, p);
      } else {
        KindNames(env, s, s.kind, hint, p);
      }
    }
  }

  lemma {:induction false} AllNames(env: Env, ss: seq<Schema>, i: nat, hint: string, p: Progress)
    requires i <= |ss|
    ensures NamesFrom(p, RenderAll(env, ss, i, hint, p).progress, hint)
    decreases Left(p), SizeFrom(ss, i), 0, 0
  {
    if i < |ss| {
      var first := Render(env, ss[i], hint, p);
      RenderNames(env, ss[i], hint, p);
      AllNames(env, ss, i + 1, hint, first.progress);
      NamesThen(p, first.progress, RenderAll(env, ss, i + 1, hint, first.progress).progress, hint);
    }
  }

  lemma {:induction false} KindNames(env: Env, s: Schema, kind: Kind, hint: string, p: Progress)
    requires s.Object?
    ensures NamesFrom(p, RenderKind(env, s, kind, hint, p).progress, hint)
    decreases Left(p), Size(s), KindSize(kind), 1
  {
    match kind
    case Many(kinds) =>
      KindSizeFromIs(kinds, 0);
      assert kinds[0..] == kinds;
      KindsNames(env, s, kinds, 0, hint, p);
    case Named(name) =>
      if name == "array" { ArrayNames(env, s, hint, p); }
      else if name == "object" { ObjectNames(env, s, hint, p); }
    case Untyped =>
      if s.objectKeys { ObjectNames(env, s, hint, p); }
      else if s.arrayKeys { ArrayNames(env, s, hint, p); }
    case Odd =>
  }

  lemma {:induction false} KindsNames(env: Env, s: Schema, kinds: seq<Kind>, i: nat, hint: string, p: Progress)
    requires s.Object? && i <= |kinds|
    ensures NamesFrom(p, RenderKinds(env, s, kinds, i, hint, p).progress, hint)
    decreases Left(p), Size(s), KindSizeFrom(kinds, i), 2
  {
    if i < |kinds| {
      var first := RenderKind(env, s, kinds[i], hint, p);
      KindNames(env, s, kinds[i], hint, p);
      KindsNames(env, s, kinds, i + 1, hint, first.progress);
      NamesThen(p, first.progress, RenderKinds(env, s, kinds, i + 1, hint, first.progress).progress, hint);
    }
  }

  /** The elements of an array are named for the array, with `Item`. */
  lemma {:induction false} ArrayNames(env: Env, s: Schema, hint: string, p: Progress)
    requires s.Object?
    ensures NamesFrom(p, RenderArray(env, s, hint, p).progress, hint + "Item")
    ensures NamesFrom(p, RenderArray(env, s, hint, p).progress, hint)
    decreases Left(p), Size(s), 0, 1
  {
    if s.items.Single? {
      RenderNames(env, s.items.schema, hint + "Item", p);
    } else if TupleItems(s).Listed? && |TupleItems(s).list| > 0 {
      ListsSmaller(s);
      AllNames(env, TupleItems(s).list, 0, hint + "Item", p);
    }
    NamesShorter(p, RenderArray(env, s, hint, p).progress, hint, "Item");
  }

  /** An object with properties is named by the hint itself, with a number when that is taken; what its members
      need is defined before it. Without properties the values are named with `Value`. */
  lemma {:induction false} ObjectNames(env: Env, s: Schema, hint: string, p: Progress)
    requires s.Object?
    ensures var q := RenderObject(env, s, hint, p).progress;
            && NamesFrom(p, q, hint)
            && (s.properties == [] ==> NamesFrom(p, q, hint + "Value"))
            && (s.properties != [] ==>
                  && |q.definitions| > |p.definitions|
                  && RenderObject(env, s, hint, p).annotation == [Generated(q.definitions[|q.definitions| - 1].name)]
                  && exists i: nat :: q.definitions[|q.definitions| - 1].name == Candidate(hint, i))
    decreases Left(p), Size(s), 0, 1
  {
    var q := RenderObject(env, s, hint, p).progress;
    if s.properties == [] {
      if s.additional.Some? && s.additional.value.Object? {
        RenderNames(env, s.additional.value, hint + "Value", p);
      }
      NamesShorter(p, q, hint, "Value");
    } else {
      ListsSmaller(s);
      var members := RenderMembers(env, s.properties, 0, s.required, hint, p).progress;
      var extra := RenderExtra(env, s, hint, members).1;
      MembersNames(env, s.properties, 0, s.required, hint, p);
      ExtraNames(env, s, hint, members);
      NamesShorter(members, extra, hint, "Value");
      NamesThen(p, members, extra, hint);
      assert q.definitions[..|extra.definitions|] == extra.definitions;
      assert exists i: nat :: Fresh(hint, extra.taken) == Candidate(hint, i);
    }
  }

  lemma {:induction false} ExtraNames(env: Env, s: Schema, hint: string, p: Progress)
    requires s.Object?
    ensures NamesFrom(p, RenderExtra(env, s, hint, p).1, hint + "Value")
    decreases Left(p), Size(s), 0, 0
  {
    if !(s.additional.None? || s.additional.value.False? || s.additional.value.True?) {
      RenderNames(env, s.additional.value, hint + "Value", p);
    }
  }

  /** Each name generated for a member starts with the object's hint and the member's key in PascalCase. */
  lemma {:induction false} MembersNames(env: Env, ps: seq<Property>, i: nat, required: set<string>, hint: string,
                                        p: Progress)
    requires i <= |ps|
    ensures var q := RenderMembers(env, ps, i, required, hint, p).progress;
            && NamesFrom(p, q, hint)
            && forall k :: |p.definitions| <= k < |q.definitions| ==>
                 exists j :: i <= j < |ps| && hint + env.pascal(ps[j].key) <= q.definitions[k].name
    decreases Left(p), SizePropertiesFrom(ps, i), 0, 0
  {
    if i < |ps| {
      var first := Render(env, ps[i].schema, hint + env.pascal(ps[i].key), p).progress;
      var rest := RenderMembers(env, ps, i + 1, required, hint, first).progress;
      RenderNames(env, ps[i].schema, hint + env.pascal(ps[i].key), p);
      MembersNames(env, ps, i + 1, required, hint, first);
      NamesShorter(p, first, hint, env.pascal(ps[i].key));
      NamesThen(p, first, rest, hint);
      forall k | |p.definitions| <= k < |rest.definitions|
        ensures exists j :: i <= j < |ps| && hint + env.pascal(ps[j].key) <= rest.definitions[k].name
      {
        assert k < |first.definitions| ==> rest.definitions[k] == first.definitions[k];
      }
    }
  }
}
