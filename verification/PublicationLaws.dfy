/** What the publication lock, the generations and the cancellations mean, said over the steps taken. */
module PublicationLaws {
  import opened Prelude
  import opened Publication

  lemma {:induction false} ExecAppend(s: Provider, a: seq<Step>, b: seq<Step>)
    ensures Exec(s, a + b) == Exec(Exec(s, a), b)
    decreases |a|
  {
    if a == [] {
      assert a + b == b;
    } else {
      assert (a + b)[1..] == a[1..] + b;
      ExecAppend(Next(s, a[0]), a[1..], b);
    }
  }

  lemma {:induction false} OneStep(s: Provider, a: Step)
    ensures Exec(s, [a]) == Next(s, a)
  {
    assert [a][1..] == [];
  }

  // ---- A publication that nothing supersedes ----

  /** A current publication that goes through undisturbed stores, updates and reports true. */
  lemma {:induction false} CurrentPublishes(s: Provider, r: nat, mutates: bool)
    requires s.holder == Some(r) && r < |s.pubs| && s.pubs[r].phase == Locked
    requires s.pubs[r].refresh !in s.cancelled && s.pubs[r].generation == s.generation
    ensures var p := s.pubs[r];
            var t := Exec(s, [Check, StoreOperation(mutates, false), Recheck, Update]);
            && t.pubs == s.pubs[r := p.(phase := Done(true, true))] && t.holder == None
            && t.log == s.log + (if mutates && p.persist != Keep then [StoreMutation(r, p.generation)] else [])
                        + (if p.updates then [MemoryUpdate(r, p.generation)] else [])
  {
    var a, b, c, d := Check, StoreOperation(mutates, false), Recheck, Update;
    var s1 := Next(s, a);
    var s2 := Next(s1, b);
    var s3 := Next(s2, c);
    FourSteps(s, a, b, c, d);
    assert s1 == s.(pubs := s.pubs[r := s.pubs[r].(phase := Passed)]);
    var p := s.pubs[r];
    var stored := s.log + (if mutates && p.persist != Keep then [StoreMutation(r, p.generation)] else []);
    assert s2 == s1.(pubs := s.pubs[r := s.pubs[r].(phase := Stored)], log := stored);
    assert s3 == s2.(pubs := s.pubs[r := s.pubs[r].(phase := Confirmed)]);
    assert stored + [] == stored;
  }

  lemma {:induction false} FourSteps(s: Provider, a: Step, b: Step, c: Step, d: Step)
    ensures Exec(s, [a, b, c, d]) == Next(Next(Next(Next(s, a), b), c), d)
  {
    assert [a, b, c, d][1..] == [b, c, d] && [b, c, d][1..] == [c, d] && [c, d][1..] == [d];
    OneStep(Next(Next(Next(s, a), b), c), d);
    assert Exec(Next(Next(s, a), b), [c, d]) == Exec(Next(Next(Next(s, a), b), c), [d]);
    assert Exec(Next(s, a), [b, c, d]) == Exec(Next(Next(s, a), b), [c, d]);
  }

  // ---- Generations and cancellations ----

  /** How often a provider's refreshes were superseded, by a new refresh or otherwise. */
  function Supersessions(steps: seq<Step>): nat {
    if steps == [] then 0
    else (if steps[0].Supersede? || steps[0].Begin? then 1 else 0) + Supersessions(steps[1..])
  }

  lemma {:induction false} GenerationCounts(s: Provider, steps: seq<Step>)
    ensures Exec(s, steps).generation == s.generation + Supersessions(steps)
    decreases |steps|
  {
    if steps != [] {
      GenerationCounts(Next(s, steps[0]), steps[1..]);
    }
  }

  lemma {:induction false} CancelledAre(s: Provider, steps: seq<Step>, r: nat)
    ensures r in Exec(s, steps).cancelled <==> r in s.cancelled || Cancel(r) in steps
    decreases |steps|
  {
    if steps != [] {
      CancelledAre(Next(s, steps[0]), steps[1..], r);
      assert steps == [steps[0]] + steps[1..];
    }
  }

  lemma {:induction false} RefreshesStay(s: Provider, steps: seq<Step>, r: nat)
    requires r < |s.refreshes|
    ensures r < |Exec(s, steps).refreshes| && Exec(s, steps).refreshes[r].generation == s.refreshes[r].generation
    decreases |steps|
  {
    if steps != [] {
      RefreshesStay(Next(s, steps[0]), steps[1..], r);
    }
  }

  /** A refresh has the generation its beginning made, and is superseded by any later supersession. */
  lemma {:induction false} RefreshGeneration(before: seq<Step>, after: seq<Step>)
    ensures var r := |Exec(IDLE, before).refreshes|;
            var t := Exec(IDLE, before + [Begin] + after);
            && r < |t.refreshes| && t.refreshes[r].generation == Supersessions(before) + 1
            && t.generation == Supersessions(before) + 1 + Supersessions(after)
  {
    var s := Exec(IDLE, before);
    ExecAppend(IDLE, before, [Begin]);
    ExecAppend(IDLE, before + [Begin], after);
    OneStep(s, Begin);
    GenerationCounts(IDLE, before);
    GenerationCounts(Next(s, Begin), after);
    RefreshesStay(Next(s, Begin), after, |s.refreshes|);
  }

  // ---- The queue for the lock ----

  /** The last publications wait, in the order they were asked for; each carries its refresh's generation. */
  ghost predicate Fifo(s: Provider) {
    && |s.waiting| <= |s.pubs|
    && (forall k :: 0 <= k < |s.waiting| ==> s.waiting[k] == |s.pubs| - |s.waiting| + k)
    && (forall r :: 0 <= r < |s.pubs| ==> (s.pubs[r].phase == Queued <==> r >= |s.pubs| - |s.waiting|))
    && (forall r :: 0 <= r < |s.pubs| ==>
          && s.pubs[r].refresh < |s.refreshes|
          && s.pubs[r].generation == s.refreshes[s.pubs[r].refresh].generation)
    && (s.holder.Some? ==> s.holder.value == |s.pubs| - |s.waiting| - 1)
  }

  lemma {:induction false} AcquireFifo(s: Provider)
    requires Fifo(s)
    ensures Fifo(Next(s, Acquire))
  {
  }

  lemma {:induction false} PublishFifo(s: Provider, a: Step)
    requires Fifo(s) && a.Publish?
    ensures Fifo(Next(s, a))
  {
  }

  predicate InsideLock(a: Step) {
    a.Check? || a.StoreOperation? || a.Recheck? || a.Update?
  }

  /** A step inside the lock leaves the queue alone and no publication becomes queued. */
  lemma {:induction false} LockFifo(s: Provider, a: Step)
    requires Fifo(s) && InsideLock(a)
    ensures Fifo(Next(s, a))
  {
  }

  lemma {:induction false} OutsideFifo(s: Provider, a: Step)
    requires Fifo(s) && !a.Acquire? && !a.Publish? && !InsideLock(a)
    ensures Fifo(Next(s, a))
  {
  }

  lemma {:induction false} NextFifo(s: Provider, a: Step)
    requires Fifo(s)
    ensures Fifo(Next(s, a))
  {
    match a {
      case Acquire => AcquireFifo(s);
      case Publish(_, _, _) => PublishFifo(s, a);
      case _ => if InsideLock(a) { LockFifo(s, a); } else { OutsideFifo(s, a); }
    }
  }

  lemma {:induction false} FifoRun(s: Provider, steps: seq<Step>)
    requires Fifo(s)
    ensures Fifo(Exec(s, steps))
    decreases |steps|
  {
    if steps != [] {
      NextFifo(s, steps[0]);
      FifoRun(Next(s, steps[0]), steps[1..]);
    }
  }

  /** Publications get the lock in the order they were asked for: while one is still queued, every later one
      is; and each publishes for the generation of its refresh. */
  lemma {:induction false} FirstAskedFirstServed(steps: seq<Step>)
    ensures var s := Exec(IDLE, steps);
            && (forall q, r :: 0 <= q < r < |s.pubs| && s.pubs[q].phase == Queued ==> s.pubs[r].phase == Queued)
            && (s.holder.Some? ==>
                  forall r :: s.holder.value < r < |s.pubs| ==> s.pubs[r].phase == Queued)
            && (forall r :: 0 <= r < |s.pubs| ==>
                  && s.pubs[r].refresh < |s.refreshes|
                  && s.pubs[r].generation == s.refreshes[s.pubs[r].refresh].generation)
  {
    FifoRun(IDLE, steps);
  }
}
