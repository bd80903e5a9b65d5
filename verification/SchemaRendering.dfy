/** The renderer as objects: the set of taken names, and the renderer that mutates it, its own
    bookkeeping and its definitions while it recurs over a schema. */
module SchemaRendering {
  import opened Prelude
  import opened Declarations

  class Names {
    var taken: set<string>

    constructor (reserved: set<string>)
      ensures taken == reserved
    {
      taken := reserved;
    }

    method Take(base: string) returns (name: string)
      modifies this
      ensures name == Fresh(base, old(taken))
      ensures taken == old(taken) + {name} && name !in old(taken)
    {
      name := base;
      var suffix := 2;
      ghost var i: nat, left := 0, taken;
      while name in taken
        invariant taken == old(taken) && suffix == i + 2 && name == Candidate(base, i)
        invariant Covers(base, taken, i, left)
        invariant forall k: nat :: k < i ==> Candidate(base, k) in taken
        decreases |left|
      {
        CoversNext(base, taken, i, left);
        assert name in left;
        left := left - {name};
        name := base + Decimal(suffix);
        suffix := suffix + 1;
        i := i + 1;
      }
      FreshIsFirst(base, taken, i);
      taken := taken + {name};
    }

    method Checkpoint() returns (checkpoint: set<string>)
      ensures checkpoint == taken
    {
      checkpoint := taken;
    }

    method Restore(checkpoint: set<string>)
      modifies this
      ensures taken == checkpoint
    {
      taken := checkpoint;
    }
  }

  // A member of a list is smaller than any part of the list that holds it.

  lemma {:induction false} SizeAt(ss: seq<Schema>, i: nat, k: nat)
    requires i <= k < |ss|
    ensures Size(ss[k]) < SizeFrom(ss, i)
    decreases k - i
  {
    if i < k { SizeAt(ss, i + 1, k); }
  }

  lemma {:induction false} KindSizeAt(ks: seq<Kind>, i: nat, k: nat)
    requires i <= k < |ks|
    ensures KindSize(ks[k]) < KindSizeFrom(ks, i)
    decreases k - i
  {
    if i < k { KindSizeAt(ks, i + 1, k); }
  }

  lemma {:induction false} SizePropertyAt(ps: seq<Property>, i: nat, k: nat)
    requires i <= k < |ps|
    ensures Size(ps[k].schema) < SizePropertiesFrom(ps, i)
    decreases k - i
  {
    if i < k { SizePropertyAt(ps, i + 1, k); }
  }

  method Unite(types: seq<Annotation>) returns (r: Annotation)
    ensures r == UnionOf(types)
  {
    var unique: seq<Annotation> := [];
    assert types[..0] == [];
    for k := 0 to |types|
      invariant unique == Unique(types[..k])
    {
      assert types[..k + 1][..k] == types[..k];
      if types[k] !in unique {
        unique := unique + [types[k]];
      }
    }
    assert types[..|types|] == types;
    r := if ANY in unique then ANY else if |unique| == 0 then [NeverAtom] else Flatten(unique);
  }

  class SchemaRenderer {
    const names: Names
    const env: Env
    var resolving: set<string>
    var expansions: nat
    var definitions: seq<Definition>

    function State(): Progress
      reads this, names
    {
      Progress(names.taken, resolving, expansions, definitions)
    }

    constructor (names: Names, env: Env)
      ensures this.names == names && this.env == env
      ensures State() == Progress(names.taken, {}, 0, [])
    {
      this.names, this.env := names, env;
      resolving, expansions, definitions := {}, 0, [];
    }

    method RenderSchema(s: Schema, hint: string) returns (a: Annotation)
      modifies this, names
      ensures Rendered(a, State()) == Render(env, s, hint, old(State()))
      decreases Left(State()), Size(s), if s.Object? then KindSize(s.kind) + 1 else 0, 0
    {
      match s {
        case True => return ANY;
        case False => return [NeverAtom];
        case Other => return ANY;
        case _ =>
      }
      if s.ref.Some? {
        a := ExpandRef(s, s.ref.value, hint);
      } else if s.const_.Const? {
        a := if s.const_.literal.Some? then [Literal([s.const_.literal.value])] else ANY;
      } else if s.enum_.Some? {
        a := EnumLiteral(s.enum_.value);
      } else if Variants(s).Listed? {
        ListsSmaller(s);
        var variants := RenderEach(Variants(s).list, hint);
        a := Unite(variants);
      } else if s.allOf.Listed? {
        ListsSmaller(s);
        var all := RenderEach(s.allOf.list, hint);
        var parts := NotAny(all);
        a := if |parts| == 1 then parts[0] else ANY;
      } else {
        a := RenderOfKind(s, s.kind, hint);
      }
    }

    method ExpandRef(s: Schema, ref: string, hint: string) returns (a: Annotation)
      requires s.Object? && s.ref == Some(ref)
      modifies this, names
      ensures Rendered(a, State()) == Render(env, s, hint, old(State()))
      decreases Left(State()), Size(s), KindSize(s.kind), 3
    {
      if ref in resolving || expansions >= MAX_REF_EXPANSIONS {
        return ANY;
      }
      var target := env.resolve(ref);
      if target.None? {
        return ANY;
      }
      expansions := expansions + 1;
      resolving := resolving + {ref};
      a := RenderSchema(target.value, hint);
      resolving := resolving - {ref};
    }

    method RenderEach(ss: seq<Schema>, hint: string) returns (annotations: seq<Annotation>)
      modifies this, names
      ensures RenderedList(annotations, State()) == RenderAll(env, ss, 0, hint, old(State()))
      decreases Left(State()), SizeFrom(ss, 0), 0, 0
    {
      annotations := [];
      ghost var whole := RenderAll(env, ss, 0, hint, State());
      for k := 0 to |ss|
        invariant expansions >= old(expansions)
        invariant var rest := RenderAll(env, ss, k, hint, State());
                  whole == RenderedList(annotations + rest.annotations, rest.progress)
      {
        SizeAt(ss, 0, k);
        var a := RenderSchema(ss[k], hint);
        Associative(annotations, [a], RenderAll(env, ss, k + 1, hint, State()).annotations);
        annotations := annotations + [a];
      }
    }

    method RenderOfKind(s: Schema, kind: Kind, hint: string) returns (a: Annotation)
      requires s.Object?
      modifies this, names
      ensures Rendered(a, State()) == RenderKind(env, s, kind, hint, old(State()))
      decreases Left(State()), Size(s), KindSize(kind), 1
    {
      match kind {
        case Many(kinds) =>
          KindSizeFromIs(kinds, 0);
          assert kinds[0..] == kinds;
          var types := RenderEachKind(s, kinds, hint);
          a := Unite(types);
        case Named(name) =>
          if name == "array" {
            a := RenderAsArray(s, hint);
          } else if name == "object" {
            a := RenderAsObject(s, hint);
          } else {
            a := Primitive(name);
          }
        case Untyped =>
          if s.objectKeys {
            a := RenderAsObject(s, hint);
          } else if s.arrayKeys {
            a := RenderAsArray(s, hint);
          } else {
            a := ANY;
          }
        case Odd => a := ANY;
      }
    }

    method RenderEachKind(s: Schema, kinds: seq<Kind>, hint: string) returns (annotations: seq<Annotation>)
      requires s.Object?
      modifies this, names
      ensures RenderedList(annotations, State()) == RenderKinds(env, s, kinds, 0, hint, old(State()))
      decreases Left(State()), Size(s), KindSizeFrom(kinds, 0), 2
    {
      annotations := [];
      ghost var whole := RenderKinds(env, s, kinds, 0, hint, State());
      for k := 0 to |kinds|
        invariant expansions >= old(expansions)
        invariant var rest := RenderKinds(env, s, kinds, k, hint, State());
                  whole == RenderedList(annotations + rest.annotations, rest.progress)
      {
        KindSizeAt(kinds, 0, k);
        var a := RenderOfKind(s, kinds[k], hint);
        Associative(annotations, [a], RenderKinds(env, s, kinds, k + 1, hint, State()).annotations);
        annotations := annotations + [a];
      }
    }

    method RenderAsArray(s: Schema, hint: string) returns (a: Annotation)
      requires s.Object?
      modifies this, names
      ensures Rendered(a, State()) == RenderArray(env, s, hint, old(State()))
      decreases Left(State()), Size(s), 0, 1
    {
      if s.items.Single? {
        var item := RenderSchema(s.items.schema, hint + "Item");
        return [ListOf(item)];
      }
      var tuple := TupleItems(s);
      if tuple.Listed? && |tuple.list| > 0 {
        ListsSmaller(s);
        var each := RenderEach(tuple.list, hint + "Item");
        var item := Unite(each);
        return [ListOf(item)];
      }
      a := [ListOf(ANY)];
    }

    method RenderAsObject(s: Schema, hint: string) returns (a: Annotation)
      requires s.Object?
      modifies this, names
      ensures Rendered(a, State()) == RenderObject(env, s, hint, old(State()))
      decreases Left(State()), Size(s), 0, 1
    {
      if |s.properties| == 0 {
        if s.additional.Some? && s.additional.value.Object? {
          var value := RenderSchema(s.additional.value, hint + "Value");
          return [DictOf(value)];
        }
        return [DictOf(ANY)];
      }
      ListsSmaller(s);
      var members := RenderEachMember(s.properties, s.required, hint);
      var extra: Option<Annotation> := None;
      if s.additional.Some? && s.additional.value != False {
        if s.additional.value == True {
          extra := Some(ANY);
        } else {
          var x := RenderSchema(s.additional.value, hint + "Value");
          extra := Some(x);
        }
      }
      var name := names.Take(hint);
      definitions := definitions + [Definition(name, members, extra)];
      a := [Generated(name)];
    }

    method RenderEachMember(ps: seq<Property>, required: set<string>, hint: string) returns (members: seq<Member>)
      modifies this, names
      ensures RenderedMembers(members, State()) == RenderMembers(env, ps, 0, required, hint, old(State()))
      decreases Left(State()), SizePropertiesFrom(ps, 0), 0, 0
    {
      members := [];
      ghost var whole := RenderMembers(env, ps, 0, required, hint, State());
      for k := 0 to |ps|
        invariant expansions >= old(expansions)
        invariant var rest := RenderMembers(env, ps, k, required, hint, State());
                  whole == RenderedMembers(members + rest.members, rest.progress)
      {
        SizePropertyAt(ps, 0, k);
        var a := RenderSchema(ps[k].schema, hint + env.pascal(ps[k].key));
        var member := Member(ps[k].key, a, ps[k].key in required);
        Associative(members, [member], RenderMembers(env, ps, k + 1, required, hint, State()).members);
        members := members + [member];
      }
    }
  }
}
