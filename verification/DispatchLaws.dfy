/** What the dispatcher's run means to its senders and listeners, said over the steps taken: which
    tickets there are, who hears them, and what the published streaming message is. */
module DispatchLaws {
  import opened Prelude
  import opened Transcript
  import ToolBatch
  import opened Dispatcher

  type Event = ToolBatch.Event

  lemma {:induction false} ExecAppend(s: State, a: seq<Step>, b: seq<Step>)
    ensures Exec(s, a + b) == Exec(Exec(s, a), b)
    decreases |a|
  {
    if a == [] {
      assert a + b == b;
    } else {
      assert (a + b)[1..] == a[1..] + b;
      ExecAppend(Next(s, a[0]), a[1..], b);
    }
  }

  // ---- The streaming message ----

  /** Events that set or clear the streaming message. */
  predicate TouchesStreaming(e: Event) {
    e.MessageStart? || e.MessageUpdate? || e.MessageEnd? || e.AgentEnd?
  }

  lemma {:induction false} StreamingMeans(p: Published, events: seq<Event>, k: nat)
    requires k <= |events| && forall j :: k <= j < |events| ==> !TouchesStreaming(events[j])
    requires k > 0 ==> TouchesStreaming(events[k - 1])
    ensures ReduceAll(p, events).streaming
            == if k == 0 then p.streaming
               else if events[k - 1].MessageStart? || events[k - 1].MessageUpdate? then Some(events[k - 1].message)
               else None
  {
    if k < |events| {
      StreamingMeans(p, events[..|events| - 1], k);
    }
  }

  /** In every reachable state the streaming message is the payload of the last message_start or
      message_update among the reduced events taken, and there is none once a message_end or an
      agent_end follows it. */
  lemma {:induction false} StreamingIs(messages: seq<Message>, listeners: seq<nat>, steps: seq<Step>, k: nat)
    requires var s := Exec(Start(messages, listeners), steps);
             && |s.observed| + |Handled(s.phase)| <= |s.sent|
             && var events := Reduced(Taken(s));
                && k <= |events| && (forall j :: k <= j < |events| ==> !TouchesStreaming(events[j]))
                && (k > 0 ==> TouchesStreaming(events[k - 1]))
    ensures var s := Exec(Start(messages, listeners), steps);
            var events := Reduced(Taken(s));
            s.published.streaming
            == if k == 0 then None
               else if events[k - 1].MessageStart? || events[k - 1].MessageUpdate? then Some(events[k - 1].message)
               else None
  {
    PublishedIsReduced(messages, listeners, steps);
    StreamingMeans(Published(messages, None), Reduced(Taken(Exec(Start(messages, listeners), steps))), k);
  }

  // ---- The tickets ----

  /** The tickets of these steps while the feed is open, numbered from `n`: an emitter's is reduced, an
      observer's is not. */
  function TicketsOf(steps: seq<Step>, n: nat): seq<Ticket>
    decreases |steps|
  {
    if steps == [] then []
    else
      match steps[0]
      case Emit(e) => [Ticket(n, e, true)] + TicketsOf(steps[1..], n + 1)
      case Observe(e) => [Ticket(n, e, false)] + TicketsOf(steps[1..], n + 1)
      case _ => TicketsOf(steps[1..], n)
  }

  /** The events of the steps' loop emitters. */
  function EmitsOf(steps: seq<Step>): seq<Event> {
    if steps == [] then []
    else (if steps[0].Emit? then [steps[0].event] else []) + EmitsOf(steps[1..])
  }

  lemma {:induction false} OpenFeedSends(s: State, steps: seq<Step>)
    requires !Exec(s, steps).closed
    ensures !s.closed && Exec(s, steps).sent == s.sent + TicketsOf(steps, |s.sent|)
    decreases |steps|
  {
    if steps == [] {
      assert s.sent + [] == s.sent;
    } else {
      OpenFeedSends(Next(s, steps[0]), steps[1..]);
      var rest := TicketsOf(steps[1..], |Next(s, steps[0]).sent|);
      match steps[0]
      case Emit(e) => Associative(s.sent, [Ticket(|s.sent|, e, true)], rest);
      case Observe(e) => Associative(s.sent, [Ticket(|s.sent|, e, false)], rest);
      case _ =>
    }
  }

  lemma {:induction false} ClosedFeedKeeps(s: State, steps: seq<Step>)
    requires s.closed
    ensures Exec(s, steps).closed && Exec(s, steps).sent == s.sent
    decreases |steps|
  {
    if steps != [] {
      ClosedFeedKeeps(Next(s, steps[0]), steps[1..]);
    }
  }

  lemma {:induction false} ReducedEmits(steps: seq<Step>, n: nat, before: seq<Ticket>)
    ensures Reduced(before + TicketsOf(steps, n)) == Reduced(before) + EmitsOf(steps)
    decreases |steps|
  {
    if steps == [] {
      assert before + TicketsOf(steps, n) == before;
      assert Reduced(before) + [] == Reduced(before);
    } else {
      match steps[0]
      case Emit(e) =>
        var t := Ticket(n, e, true);
        Associative(before, [t], TicketsOf(steps[1..], n + 1));
        ReducedSnoc(before, t, Published([], None));
        ReducedEmits(steps[1..], n + 1, before + [t]);
        Associative(Reduced(before), [e], EmitsOf(steps[1..]));
      case Observe(e) =>
        var t := Ticket(n, e, false);
        Associative(before, [t], TicketsOf(steps[1..], n + 1));
        ReducedSnoc(before, t, Published([], None));
        ReducedEmits(steps[1..], n + 1, before + [t]);
        assert Reduced(before) + [] == Reduced(before);
        assert EmitsOf(steps) == EmitsOf(steps[1..]);
      case _ =>
        ReducedEmits(steps[1..], n, before);
        assert EmitsOf(steps) == EmitsOf(steps[1..]);
    }
  }

  lemma {:induction false} OpenSent(messages: seq<Message>, listeners: seq<nat>, open: seq<Step>)
    requires !Exec(Start(messages, listeners), open).closed
    ensures var s := Exec(Start(messages, listeners), open);
            s.sent == TicketsOf(open, 0) && Reduced(s.sent) == EmitsOf(open)
  {
    OpenFeedSends(Start(messages, listeners), open);
    assert [] + TicketsOf(open, 0) == TicketsOf(open, 0);
    ReducedEmits(open, 0, []);
    assert [] + EmitsOf(open) == EmitsOf(open);
  }

  /** The step that closes the feed sends no ticket, and none follows. */
  lemma {:induction false} ClosingSends(s: State, after: seq<Step>)
    requires !s.closed && after != [] && Exec(s, after[..1]).closed
    ensures Exec(s, after).sent == s.sent
  {
    assert after[..1] == [after[0]];
    assert Exec(s, [after[0]]) == Next(s, after[0]);
    ClosedFeedKeeps(Next(s, after[0]), after[1..]);
  }

  /** Up to the close every send adds its ticket, after it none does; and what the published state is
      reduced by are exactly the events of the loop's emitters. */
  lemma {:induction false} SentAre(messages: seq<Message>, listeners: seq<nat>, open: seq<Step>, after: seq<Step>)
    requires !Exec(Start(messages, listeners), open).closed
    requires after != [] ==> Exec(Start(messages, listeners), open + after[..1]).closed
    ensures var s := Exec(Start(messages, listeners), open + after);
            s.sent == TicketsOf(open, 0) && Reduced(s.sent) == EmitsOf(open)
  {
    var start := Start(messages, listeners);
    OpenSent(messages, listeners, open);
    ExecAppend(start, open, after);
    if after != [] {
      ExecAppend(start, open, after[..1]);
      ClosingSends(Exec(start, open), after);
    }
  }

  // ---- The audiences ----

  /** Unsubscribing takes out the first registration of a listener and nothing else. */
  lemma {:induction false} WithoutFirstIs(listeners: seq<nat>, l: nat, k: nat)
    requires k <= |listeners| && (forall j :: 0 <= j < k ==> listeners[j] != l)
    requires k < |listeners| ==> listeners[k] == l
    ensures WithoutFirst(listeners, l)
            == if k < |listeners| then listeners[..k] + listeners[k + 1..] else listeners
  {
    if listeners != [] && k > 0 {
      WithoutFirstIs(listeners[1..], l, k - 1);
      if k < |listeners| {
        assert listeners[..k] + listeners[k + 1..]
               == [listeners[0]] + (listeners[1..][..k - 1] + listeners[1..][k..]);
      }
    }
  }

  /** `audience` are the listeners registered when the `k`th ticket was received. */
  ghost predicate Captured(start: State, steps: seq<Step>, audience: seq<nat>, k: nat) {
    exists n: nat {:trigger steps[..n]} ::
      && n < |steps| && steps[n] == Receive
      && |Exec(start, steps[..n]).observed| == k && Exec(start, steps[..n]).listeners == audience
  }

  ghost predicate AllCaptured(start: State, steps: seq<Step>) {
    var s := Exec(start, steps);
    && (forall k :: 0 <= k < |s.observed| ==> Captured(start, steps, s.observed[k].audience, k))
    && (s.phase.Handling? ==> Captured(start, steps, s.phase.audience, |s.observed|))
  }

  lemma {:induction false} CapturedLater(start: State, steps: seq<Step>, a: Step, audience: seq<nat>, k: nat)
    requires Captured(start, steps, audience, k)
    ensures Captured(start, steps + [a], audience, k)
  {
    var n: nat :| && n < |steps| && steps[n] == Receive
                  && |Exec(start, steps[..n]).observed| == k && Exec(start, steps[..n]).listeners == audience;
    assert (steps + [a])[..n] == steps[..n];
  }

  lemma {:induction false} CapturedNow(start: State, steps: seq<Step>)
    ensures Captured(start, steps + [Receive], Exec(start, steps).listeners, |Exec(start, steps).observed|)
  {
    assert (steps + [Receive])[..|steps|] == steps;
  }

  lemma {:induction false} CaptureStep(start: State, steps: seq<Step>, a: Step)
    requires AllCaptured(start, steps)
    ensures AllCaptured(start, steps + [a])
  {
    var s, t := Exec(start, steps), Exec(start, steps + [a]);
    ExecAppend(start, steps, [a]);
    assert t == Next(s, a);
    CapturedNow(start, steps);
    forall k | 0 <= k < |t.observed| ensures Captured(start, steps + [a], t.observed[k].audience, k) {
      if k < |s.observed| {
        CapturedLater(start, steps, a, s.observed[k].audience, k);
      } else {
        CapturedLater(start, steps, a, s.phase.audience, k);
      }
    }
    if s.phase.Handling? {
      CapturedLater(start, steps, a, s.phase.audience, |s.observed|);
    }
  }

  /** Every ticket is meant for the listeners registered at the moment it was received, whatever is
      subscribed or unsubscribed while it is handled. */
  lemma {:induction false} AudienceIs(messages: seq<Message>, listeners: seq<nat>, steps: seq<Step>)
    ensures AllCaptured(Start(messages, listeners), steps)
  {
    if steps != [] {
      var n := |steps| - 1;
      AudienceIs(messages, listeners, steps[..n]);
      CaptureStep(Start(messages, listeners), steps[..n], steps[n]);
      assert steps == steps[..n] + [steps[n]];
    }
  }

  // ---- The calls ----

  /** Who heard the ticket `id`, in call order. */
  function HeardBy(calls: seq<Call>, id: nat): seq<nat> {
    if calls == [] then []
    else HeardBy(calls[..|calls| - 1], id)
         + (if calls[|calls| - 1].ticket == id then [calls[|calls| - 1].listener] else [])
  }

  lemma {:induction false} HeardByAppend(a: seq<Call>, b: seq<Call>, id: nat)
    ensures HeardBy(a + b, id) == HeardBy(a, id) + HeardBy(b, id)
  {
    if b == [] {
      assert a + b == a;
    } else {
      assert (a + b)[..|a + b| - 1] == a + b[..|b| - 1];
      HeardByAppend(a, b[..|b| - 1], id);
    }
  }

  lemma {:induction false} OneMoreHears(calls: seq<Call>, c: Call, all: seq<Call>, id: nat)
    requires all == calls + [c]
    ensures HeardBy(all, id) == HeardBy(calls, id) + (if c.ticket == id then [c.listener] else [])
  {
    assert all[..|calls|] == calls;
  }

  lemma {:induction false} OneMoreOf(t: Ticket, audience: seq<nat>, heard: nat)
    requires heard < |audience|
    ensures CallsOf(t, audience, heard + 1) == CallsOf(t, audience, heard) + [Call(t.id, audience[heard])]
    ensures audience[..heard + 1] == audience[..heard] + [audience[heard]]
  {
  }

  lemma {:induction false} OwnCalls(t: Ticket, audience: seq<nat>, heard: nat, id: nat)
    requires heard <= |audience|
    ensures HeardBy(CallsOf(t, audience, heard), id) == if t.id == id then audience[..heard] else []
  {
    if heard == 0 {
      assert CallsOf(t, audience, 0) == [];
    } else {
      OwnCalls(t, audience, heard - 1, id);
      OneMoreOf(t, audience, heard - 1);
      OneMoreHears(CallsOf(t, audience, heard - 1), Call(t.id, audience[heard - 1]), CallsOf(t, audience, heard), id);
    }
  }

  lemma {:induction false} OneMoreObserved(before: seq<Call>, last: Observation, id: nat)
    requires last.heard <= |last.audience|
    ensures HeardBy(before + CallsOf(last.ticket, last.audience, last.heard), id)
            == HeardBy(before, id) + if last.ticket.id == id then last.audience[..last.heard] else []
  {
    HeardByAppend(before, CallsOf(last.ticket, last.audience, last.heard), id);
    OwnCalls(last.ticket, last.audience, last.heard, id);
  }

  lemma {:induction false} ObservedCalls(observed: seq<Observation>, id: nat)
    requires forall k :: 0 <= k < |observed| ==> observed[k].heard <= |observed[k].audience|
    requires forall k :: 0 <= k < |observed| ==> observed[k].ticket.id == k
    ensures HeardBy(AllCalls(observed), id)
            == if id < |observed| then observed[id].audience[..observed[id].heard] else []
  {
    if observed != [] {
      var n := |observed| - 1;
      ObservedCalls(observed[..n], id);
      OneMoreObserved(AllCalls(observed[..n]), observed[n], id);
    }
  }

  /** An observed ticket was heard by its audience in registration order, by all of it or up to and
      including the first listener that failed. */
  lemma {:induction false} ListenersHear(messages: seq<Message>, listeners: seq<nat>, steps: seq<Step>, k: nat)
    requires k < |Exec(Start(messages, listeners), steps).observed|
    ensures var s := Exec(Start(messages, listeners), steps);
            var o := s.observed[k];
            && o.heard <= |o.audience| && HeardBy(s.calls, k) == o.audience[..o.heard]
            && (!o.failed ==> o.heard == |o.audience|) && (o.failed ==> o.heard > 0)
  {
    DispatcherStory(messages, listeners, steps);
    var s := Exec(Start(messages, listeners), steps);
    ObservedCalls(s.observed, k);
    var now := if s.phase.Handling? then CallsOf(s.phase.ticket, s.phase.audience, s.phase.heard) else [];
    HeardByAppend(AllCalls(s.observed), now, k);
    if s.phase.Handling? {
      OwnCalls(s.phase.ticket, s.phase.audience, s.phase.heard, k);
    }
  }
}
