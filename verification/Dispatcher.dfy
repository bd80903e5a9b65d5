/** One run's event dispatcher: emitters send tickets into a channel, one task reduces each ticket
    into the agent's state and lets the listeners hear it, and a sentinel sent under a guard ends it.
    A run is any interleaving of loop emitters, observers, (un)subscriptions and the dispatcher. */
module Dispatcher {
  import opened Prelude
  import opened Transcript
  import opened ToolBatch
  import AgentLoop
  import Loop = AgentLoopTheorems

  /** `reduce` is false for observe-only events. */
  datatype Ticket = Ticket(id: nat, event: Event, reduce: bool)

  /** What a listener was called with. */
  datatype Call = Call(ticket: nat, listener: nat)

  /** An observed ticket: the listeners it was meant for, those that heard it, and whether the last
      of them failed. */
  datatype Observation = Observation(ticket: Ticket, audience: seq<nat>, heard: nat, failed: bool)

  datatype Phase = Idle | Handling(ticket: Ticket, audience: seq<nat>, heard: nat) | Stopped

  datatype Published = Published(messages: seq<Message>, streaming: Option<Message>)

  datatype State = State(
    feed: seq<Option<Ticket>>,
    closed: bool,
    phase: Phase,
    listeners: seq<nat>,
    published: Published,
    sent: seq<Ticket>,
    observed: seq<Observation>,
    calls: seq<Call>)

  function Start(messages: seq<Message>, listeners: seq<nat>): State {
    State([], false, Idle, listeners, Published(messages, None), [], [], [])
  }

  /** `_reduce`, on the message fields. */
  function Reduce(p: Published, e: Event): Published {
    match e
    case MessageStart(m) => p.(streaming := Some(m))
    case MessageUpdate(m) => p.(streaming := Some(m))
    case MessageEnd(m) => Published(p.messages + [m], None)
    case AgentEnd(_) => p.(streaming := None)
    case _ => p
  }

  function WithoutFirst(listeners: seq<nat>, l: nat): seq<nat> {
    if listeners == [] then []
    else if listeners[0] == l then listeners[1..]
    else [listeners[0]] + WithoutFirst(listeners[1..], l)
  }

  /** Every ticket the loop's own emitters sent has been observed: each emitter awaits its ticket, and the
      emitters are joined before the executor returns. */
  ghost predicate EmittersJoined(s: State) {
    && !(s.phase.Handling? && s.phase.ticket.reduce)
    && forall k :: 0 <= k < |s.feed| ==> !(s.feed[k].Some? && s.feed[k].value.reduce)
  }

  datatype Step =
    | Emit(event: Event)
    | Observe(event: Event)
    | Close
    | Receive
    | Listen(ok: bool)
    | Settle
    | Subscribe(listener: nat)
    | Unsubscribe(listener: nat)

  function Send(s: State, e: Event, reduce: bool): State {
    var t := Ticket(|s.sent|, e, reduce);
    s.(feed := s.feed + [Some(t)], sent := s.sent + [t])
  }

  function Received(s: State): State {
    if s.phase != Idle || s.feed == [] then s
    else
      match s.feed[0]
      case None => s.(feed := s.feed[1..], phase := Stopped)
      case Some(t) =>
        s.(feed := s.feed[1..],
           published := if t.reduce then Reduce(s.published, t.event) else s.published,
           phase := Handling(t, s.listeners, 0))
  }

  function Heard(s: State, ok: bool): State {
    if !s.phase.Handling? || s.phase.heard >= |s.phase.audience| then s
    else
      var p := s.phase;
      var called := s.(calls := s.calls + [Call(p.ticket.id, p.audience[p.heard])]);
      if ok then called.(phase := p.(heard := p.heard + 1))
      else called.(phase := Idle, observed := s.observed + [Observation(p.ticket, p.audience, p.heard + 1, true)])
  }

  function Settled(s: State): State {
    if !s.phase.Handling? || s.phase.heard < |s.phase.audience| then s
    else s.(phase := Idle,
            observed := s.observed + [Observation(s.phase.ticket, s.phase.audience, s.phase.heard, false)])
  }

  ghost function Next(s: State, a: Step): State {
    match a
    case Emit(e) => if s.closed then s else Send(s, e, true)
    case Observe(e) => if s.closed then s else Send(s, e, false)
    case Close => if s.closed || !EmittersJoined(s) then s else s.(closed := true, feed := s.feed + [None])
    case Receive => Received(s)
    case Listen(ok) => Heard(s, ok)
    case Settle => Settled(s)
    case Subscribe(l) => s.(listeners := s.listeners + [l])
    case Unsubscribe(l) => s.(listeners := WithoutFirst(s.listeners, l))
  }

  ghost function Exec(s: State, steps: seq<Step>): State
    decreases |steps|
  {
    if steps == [] then s else Exec(Next(s, steps[0]), steps[1..])
  }

  // ---- The invariant ----

  function Tickets(observed: seq<Observation>): seq<Ticket> {
    seq(|observed|, i requires 0 <= i < |observed| => observed[i].ticket)
  }

  function Handled(p: Phase): seq<Ticket> {
    if p.Handling? then [p.ticket] else []
  }

  function Somes(tickets: seq<Ticket>): seq<Option<Ticket>> {
    seq(|tickets|, i requires 0 <= i < |tickets| => Some(tickets[i]))
  }

  /** The tickets not taken yet: those sent after the observed ones and the one being handled. */
  function Waiting(s: State): seq<Ticket>
    requires |s.observed| + |Handled(s.phase)| <= |s.sent|
  {
    s.sent[|s.observed| + |Handled(s.phase)|..]
  }

  /** The channel holds the waiting tickets in send order, then the sentinel once closed. */
  ghost predicate Channel(s: State) {
    && |s.observed| + |Handled(s.phase)| <= |s.sent|
    && s.feed == Somes(Waiting(s)) + (if s.closed && s.phase != Stopped then [None] else [])
    && (s.phase == Stopped ==> s.closed && |s.observed| == |s.sent|)
  }

  /** Tickets are numbered in send order, and observed in that order. */
  ghost predicate InOrder(s: State) {
    && (forall k :: 0 <= k < |s.sent| ==> s.sent[k].id == k)
    && |s.observed| <= |s.sent|
    && (forall k :: 0 <= k < |s.observed| ==> s.observed[k].ticket == s.sent[k])
    && (s.phase.Handling? ==> |s.observed| < |s.sent| && s.phase.ticket == s.sent[|s.observed|])
  }

  /** The reduced events of a list of tickets. */
  function Reduced(tickets: seq<Ticket>): seq<Event> {
    if tickets == [] then []
    else Reduced(tickets[..|tickets| - 1])
         + (if tickets[|tickets| - 1].reduce then [tickets[|tickets| - 1].event] else [])
  }

  /** The published state is the initial one reduced by every taken ticket, in order. */
  function ReduceAll(p: Published, events: seq<Event>): Published {
    if events == [] then p else Reduce(ReduceAll(p, events[..|events| - 1]), events[|events| - 1])
  }

  function Taken(s: State): seq<Ticket>
    requires |s.observed| + |Handled(s.phase)| <= |s.sent|
  {
    s.sent[..|s.observed| + |Handled(s.phase)|]
  }

  ghost predicate Publishes(s: State, initial: Published) {
    |s.observed| + |Handled(s.phase)| <= |s.sent| && s.published == ReduceAll(initial, Reduced(Taken(s)))
  }

  function CallsOf(t: Ticket, audience: seq<nat>, heard: nat): seq<Call>
    requires heard <= |audience|
  {
    seq(heard, i requires 0 <= i < heard => Call(t.id, audience[i]))
  }

  ghost predicate Counted(s: State) {
    && (forall k :: 0 <= k < |s.observed| ==>
          && s.observed[k].heard <= |s.observed[k].audience|
          && (s.observed[k].failed ==> s.observed[k].heard > 0)
          && (!s.observed[k].failed ==> s.observed[k].heard == |s.observed[k].audience|))
    && (s.phase.Handling? ==> s.phase.heard <= |s.phase.audience|)
  }

  function AllCalls(observed: seq<Observation>): seq<Call>
    requires forall k :: 0 <= k < |observed| ==> observed[k].heard <= |observed[k].audience|
  {
    if observed == [] then []
    else
      var last := observed[|observed| - 1];
      AllCalls(observed[..|observed| - 1]) + CallsOf(last.ticket, last.audience, last.heard)
  }

  /** Listener calls never overlap: ticket by ticket, in registration order, up to the first failure. */
  ghost predicate Serialized(s: State) {
    && Counted(s)
    && s.calls == AllCalls(s.observed)
                  + (if s.phase.Handling? then CallsOf(s.phase.ticket, s.phase.audience, s.phase.heard) else [])
  }

  ghost predicate Inv(s: State, initial: Published) {
    Channel(s) && InOrder(s) && Publishes(s, initial) && Serialized(s)
  }

  // ---- Each step keeps it ----

  lemma {:induction false} SendKeeps(s: State, e: Event, reduce: bool, initial: Published)
    requires Inv(s, initial) && !s.closed
    ensures Inv(Send(s, e, reduce), initial)
  {
    var t := Send(s, e, reduce);
    assert Waiting(t) == Waiting(s) + [Ticket(|s.sent|, e, reduce)];
    assert Somes(Waiting(t)) == Somes(Waiting(s)) + [Some(Ticket(|s.sent|, e, reduce))];
    assert Taken(t) == Taken(s);
  }

  lemma {:induction false} CloseKeeps(s: State, initial: Published)
    requires Inv(s, initial) && !s.closed
    ensures Inv(s.(closed := true, feed := s.feed + [None]), initial)
  {
    var t := s.(closed := true, feed := s.feed + [None]);
    assert Waiting(t) == Waiting(s) && Taken(t) == Taken(s);
    assert Somes(Waiting(s)) + [] == Somes(Waiting(s));
  }

  lemma {:induction false} FirstWaits(waiting: seq<Ticket>, tail: seq<Option<Ticket>>)
    ensures |waiting| > 0 ==> (Somes(waiting) + tail)[0] == Some(waiting[0])
  {
  }

  lemma {:induction false} StopKeeps(s: State, initial: Published)
    requires Inv(s, initial) && s.phase == Idle && s.feed != [] && s.feed[0].None?
    ensures Inv(Received(s), initial)
  {
    FirstWaits(Waiting(s), if s.closed && s.phase != Stopped then [None] else []);
    var t := Received(s);
    assert Waiting(t) == [] && Taken(t) == Taken(s);
  }

  lemma {:induction false} TakeChannel(s: State)
    requires Channel(s) && InOrder(s) && s.phase == Idle && s.feed != [] && s.feed[0].Some?
    ensures |s.observed| < |s.sent| && s.feed[0] == Some(s.sent[|s.observed|])
    ensures Channel(Received(s)) && InOrder(Received(s))
  {
    var t := Received(s);
    var n := |s.observed|;
    assert |Waiting(s)| > 0;
    assert s.feed[0] == Somes(Waiting(s))[0] == Some(s.sent[n]);
    assert Waiting(t) == Waiting(s)[1..];
    assert Somes(Waiting(t)) == Somes(Waiting(s))[1..];
  }

  lemma {:induction false} TakeKeeps(s: State, initial: Published)
    requires Inv(s, initial) && s.phase == Idle && s.feed != [] && s.feed[0].Some?
    ensures Inv(Received(s), initial)
  {
    var t := Received(s);
    var n := |s.observed|;
    TakeChannel(s);
    assert Taken(t) == Taken(s) + [s.sent[n]];
    ReducedSnoc(Taken(s), s.sent[n], initial);
    assert CallsOf(t.phase.ticket, t.phase.audience, 0) == [];
  }

  lemma {:induction false} ReducedSnoc(tickets: seq<Ticket>, t: Ticket, p: Published)
    ensures Reduced(tickets + [t]) == Reduced(tickets) + (if t.reduce then [t.event] else [])
    ensures ReduceAll(p, Reduced(tickets + [t]))
            == if t.reduce then Reduce(ReduceAll(p, Reduced(tickets)), t.event) else ReduceAll(p, Reduced(tickets))
  {
    assert (tickets + [t])[..|tickets|] == tickets;
    if t.reduce {
      assert (Reduced(tickets) + [t.event])[..|Reduced(tickets)|] == Reduced(tickets);
    } else {
      assert Reduced(tickets) + [] == Reduced(tickets);
    }
  }

  /** The dispatcher is done with its ticket. */
  lemma {:induction false} ObservedKeeps(s: State, initial: Published, o: Observation)
    requires Channel(s) && InOrder(s) && Publishes(s, initial) && s.phase.Handling? && o.ticket == s.phase.ticket
    ensures var t := s.(phase := Idle, observed := s.observed + [o]);
            Channel(t) && InOrder(t) && Publishes(t, initial)
  {
    var t := s.(phase := Idle, observed := s.observed + [o]);
    assert Waiting(t) == Waiting(s) && Taken(t) == Taken(s);
  }

  lemma {:induction false} CallsSnoc(observed: seq<Observation>, o: Observation)
    requires forall k :: 0 <= k < |observed| ==> observed[k].heard <= |observed[k].audience|
    requires o.heard <= |o.audience|
    ensures AllCalls(observed + [o]) == AllCalls(observed) + CallsOf(o.ticket, o.audience, o.heard)
  {
    assert (observed + [o])[..|observed|] == observed;
  }

  lemma {:induction false} OneMoreCall(s: State)
    requires Serialized(s) && s.phase.Handling? && s.phase.heard < |s.phase.audience|
    ensures var p := s.phase;
            s.calls + [Call(p.ticket.id, p.audience[p.heard])]
            == AllCalls(s.observed) + CallsOf(p.ticket, p.audience, p.heard + 1)
  {
    var p := s.phase;
    var c := Call(p.ticket.id, p.audience[p.heard]);
    assert CallsOf(p.ticket, p.audience, p.heard + 1) == CallsOf(p.ticket, p.audience, p.heard) + [c];
    Associative(AllCalls(s.observed), CallsOf(p.ticket, p.audience, p.heard), [c]);
  }

  lemma {:induction false} HeardWell(s: State, initial: Published)
    requires Inv(s, initial) && s.phase.Handling? && s.phase.heard < |s.phase.audience|
    ensures Inv(Heard(s, true), initial)
  {
    OneMoreCall(s);
    var t := Heard(s, true);
    assert Waiting(t) == Waiting(s) && Taken(t) == Taken(s);
  }

  lemma {:induction false} HeardFailing(s: State, initial: Published)
    requires Inv(s, initial) && s.phase.Handling? && s.phase.heard < |s.phase.audience|
    ensures Inv(Heard(s, false), initial)
  {
    var p := s.phase;
    var o := Observation(p.ticket, p.audience, p.heard + 1, true);
    var called := s.(calls := s.calls + [Call(p.ticket.id, p.audience[p.heard])]);
    OneMoreCall(s);
    SameTickets(s, called, initial);
    ObservedKeeps(called, initial, o);
    FinishSerialized(called, o);
  }

  lemma {:induction false} SameTickets(s: State, t: State, initial: Published)
    requires Channel(s) && InOrder(s) && Publishes(s, initial) && t == s.(calls := t.calls)
    ensures Channel(t) && InOrder(t) && Publishes(t, initial)
  {
    assert Waiting(t) == Waiting(s) && Taken(t) == Taken(s);
  }

  lemma {:induction false} HeardKeeps(s: State, ok: bool, initial: Published)
    requires Inv(s, initial)
    ensures Inv(Heard(s, ok), initial)
  {
    if s.phase.Handling? && s.phase.heard < |s.phase.audience| {
      if ok { HeardWell(s, initial); } else { HeardFailing(s, initial); }
    }
  }

  lemma {:induction false} FinishSerialized(s: State, o: Observation)
    requires Counted(s) && o.heard <= |o.audience|
    requires o.failed ==> o.heard > 0
    requires !o.failed ==> o.heard == |o.audience|
    requires s.calls == AllCalls(s.observed) + CallsOf(o.ticket, o.audience, o.heard)
    ensures Serialized(s.(phase := Idle, observed := s.observed + [o]))
  {
    var t := s.(phase := Idle, observed := s.observed + [o]);
    assert Counted(t);
    CallsSnoc(s.observed, o);
    assert AllCalls(t.observed) + [] == AllCalls(t.observed);
  }

  lemma {:induction false} SettledKeeps(s: State, initial: Published)
    requires Inv(s, initial)
    ensures Inv(Settled(s), initial)
  {
    if s.phase.Handling? && s.phase.heard >= |s.phase.audience| {
      var o := Observation(s.phase.ticket, s.phase.audience, s.phase.heard, false);
      ObservedKeeps(s, initial, o);
      FinishSerialized(s, o);
    }
  }

  lemma {:induction false} NextKeeps(s: State, a: Step, initial: Published)
    requires Inv(s, initial)
    ensures Inv(Next(s, a), initial)
  {
    match a {
      case Emit(e) => if !s.closed { SendKeeps(s, e, true, initial); }
      case Observe(e) => if !s.closed { SendKeeps(s, e, false, initial); }
      case Close => if !s.closed { CloseKeeps(s, initial); }
      case Receive => ReceivedKeeps(s, initial);
      case Listen(ok) => HeardKeeps(s, ok, initial);
      case Settle => SettledKeeps(s, initial);
      case Subscribe(l) => ListenersKeep(s, s.listeners + [l], initial);
      case Unsubscribe(l) => ListenersKeep(s, WithoutFirst(s.listeners, l), initial);
    }
  }

  lemma {:induction false} ListenersKeep(s: State, listeners: seq<nat>, initial: Published)
    requires Inv(s, initial)
    ensures Inv(s.(listeners := listeners), initial)
  {
    assert Waiting(s.(listeners := listeners)) == Waiting(s) && Taken(s.(listeners := listeners)) == Taken(s);
  }

  lemma {:induction false} ReceivedKeeps(s: State, initial: Published)
    requires Inv(s, initial)
    ensures Inv(Received(s), initial)
  {
    if s.phase == Idle && s.feed != [] {
      if s.feed[0].None? { StopKeeps(s, initial); } else { TakeKeeps(s, initial); }
    }
  }

  lemma {:induction false} RunSafe(s: State, steps: seq<Step>, initial: Published)
    requires Inv(s, initial)
    ensures Inv(Exec(s, steps), initial)
    decreases |steps|
  {
    if steps != [] {
      NextKeeps(s, steps[0], initial);
      RunSafe(Next(s, steps[0]), steps[1..], initial);
    }
  }

  lemma {:induction false} StartHolds(messages: seq<Message>, listeners: seq<nat>)
    ensures Inv(Start(messages, listeners), Published(messages, None))
  {
  }

  // ---- What the invariant means ----

  lemma {:induction false} ReducedMessages(p: Published, events: seq<Event>)
    ensures ReduceAll(p, events).messages == p.messages + Ends(events)
  {
    if events != [] {
      var front, last := events[..|events| - 1], events[|events| - 1];
      ReducedMessages(p, front);
      assert events == front + [last];
      EndsAppend(front, [last]);
      assert Ends([last]) == if last.MessageEnd? then [last.message] else [];
      if last.MessageEnd? {
        Associative(p.messages, Ends(front), [last.message]);
      } else {
        assert Ends(front) + [] == Ends(front);
      }
    }
  }

  /** In every reachable state: tickets are taken in send order, each once, and before the sentinel; the
      published messages are the initial ones followed by the message_end payloads of the reduced
      tickets taken so far. */
  lemma {:induction false} DispatcherStory(messages: seq<Message>, listeners: seq<nat>, steps: seq<Step>)
    ensures var s := Exec(Start(messages, listeners), steps);
            && InOrder(s) && Serialized(s)
            && (forall k :: 0 <= k < |s.feed| && s.feed[k].None? ==> k == |s.feed| - 1 && s.closed)
            && (s.phase == Stopped ==> s.feed == [] && Tickets(s.observed) == s.sent)
            && |s.observed| + |Handled(s.phase)| <= |s.sent|
            && s.published.messages == messages + Ends(Reduced(Taken(s)))
  {
    StartHolds(messages, listeners);
    RunSafe(Start(messages, listeners), steps, Published(messages, None));
    var s := Exec(Start(messages, listeners), steps);
    ReducedMessages(Published(messages, None), Reduced(Taken(s)));
  }

  /** In every reachable state the published state, the streaming message included, is the initial one reduced
      by the reduced tickets taken so far and by nothing else. */
  lemma {:induction false} PublishedIsReduced(messages: seq<Message>, listeners: seq<nat>, steps: seq<Step>)
    ensures var s := Exec(Start(messages, listeners), steps);
            && |s.observed| + |Handled(s.phase)| <= |s.sent|
            && s.published == ReduceAll(Published(messages, None), Reduced(Taken(s)))
  {
    StartHolds(messages, listeners);
    RunSafe(Start(messages, listeners), steps, Published(messages, None));
  }

  /** Observe-only tickets, listeners and interleaving leave no trace in the published state: two runs from the
      same messages that have taken the same reduced events publish the same state. */
  lemma {:induction false} ObserversInvisible(messages: seq<Message>, one: seq<nat>, left: seq<Step>,
                                              two: seq<nat>, right: seq<Step>)
    requires var s, t := Exec(Start(messages, one), left), Exec(Start(messages, two), right);
             && |s.observed| + |Handled(s.phase)| <= |s.sent| && |t.observed| + |Handled(t.phase)| <= |t.sent|
             && Reduced(Taken(s)) == Reduced(Taken(t))
    ensures Exec(Start(messages, one), left).published == Exec(Start(messages, two), right).published
  {
    PublishedIsReduced(messages, one, left);
    PublishedIsReduced(messages, two, right);
  }

  /** Once the dispatcher has stopped, every ticket sent has been taken. */
  lemma {:induction false} StoppedTookAll(messages: seq<Message>, listeners: seq<nat>, steps: seq<Step>)
    requires Exec(Start(messages, listeners), steps).phase == Stopped
    ensures var s := Exec(Start(messages, listeners), steps);
            s.published.messages == messages + Ends(Reduced(s.sent))
  {
    DispatcherStory(messages, listeners, steps);
    var s := Exec(Start(messages, listeners), steps);
    assert |Tickets(s.observed)| == |s.observed|;
    assert Taken(s) == s.sent;
  }

  /** The events a finished run's loop emitted, through whatever interleaving with observers: once the
      dispatcher has stopped, the agent's messages are the initial ones and the run's new messages. */
  lemma {:induction false} RunPublishes(messages: seq<Message>, listeners: seq<nat>, steps: seq<Step>, context: Context,
                                        prompts: seq<Message>, poll: seq<Message>, script: seq<AgentLoop.Turn>)
    requires Loop.StartOnce(script)
    requires AgentLoop.Flat(script, 0, Loop.StartState(context, prompts, poll), true).next == AgentLoop.Finished
    requires var s := Exec(Start(messages, listeners), steps);
             var loop := AgentLoop.Flat(script, 0, Loop.StartState(context, prompts, poll), true).state;
             s.phase == Stopped && Reduced(s.sent) == Loop.Emitted(loop.log)
    ensures var s := Exec(Start(messages, listeners), steps);
            var loop := AgentLoop.Flat(script, 0, Loop.StartState(context, prompts, poll), true).state;
            && s.published.messages == messages + loop.newMessages
            && (messages == context.messages && (forall i :: 0 <= i < |script| ==> Loop.NoSwap(script[i])) ==>
                  s.published.messages == loop.context.messages)
  {
    StoppedTookAll(messages, listeners, steps);
    Loop.RunTrace(context, prompts, poll, script);
  }

  /** The same for a finished run that continues a context. */
  lemma {:induction false} ContinuePublishes(messages: seq<Message>, listeners: seq<nat>, steps: seq<Step>,
                                             context: Context, poll: seq<Message>, script: seq<AgentLoop.Turn>)
    requires Loop.StartOnce(script)
    requires AgentLoop.Flat(script, 0, Loop.ContinueState(context, poll), true).next == AgentLoop.Finished
    requires var s := Exec(Start(messages, listeners), steps);
             var loop := AgentLoop.Flat(script, 0, Loop.ContinueState(context, poll), true).state;
             s.phase == Stopped && Reduced(s.sent) == Loop.Emitted(loop.log)
    ensures var s := Exec(Start(messages, listeners), steps);
            var loop := AgentLoop.Flat(script, 0, Loop.ContinueState(context, poll), true).state;
            && s.published.messages == messages + loop.newMessages
            && (messages == context.messages && (forall i :: 0 <= i < |script| ==> Loop.NoSwap(script[i])) ==>
                  s.published.messages == loop.context.messages)
  {
    StoppedTookAll(messages, listeners, steps);
    Loop.ContinueTrace(context, poll, script);
  }

  lemma {:induction false} SentinelLast(s: State)
    requires Channel(s) && s.closed && s.phase != Stopped
    ensures |s.feed| > 0 && s.feed[|s.feed| - 1].None?
  {
  }

  // ---- The join ends: a closed feed is served to its last ticket ----

  /** The dispatcher alone, from a closed feed on; `fails` says which listener calls fail. */
  ghost function Serve(s: State, fails: Call -> bool): State
    requires s.closed
    decreases |s.feed|, if s.phase.Handling? then 1 + |s.phase.audience| - s.phase.heard else 0
  {
    match s.phase
    case Stopped => s
    case Idle => if s.feed == [] then s else Serve(Received(s), fails)
    case Handling(t, audience, heard) =>
      if heard < |audience| then Serve(Heard(s, !fails(Call(t.id, audience[heard]))), fails)
      else if heard == |audience| then Serve(Settled(s), fails)
      else s
  }

  /** The sentinel was reached with every ticket sent observed, in order. */
  ghost predicate Served(t: State, sent: seq<Ticket>, initial: Published) {
    t.phase == Stopped && Inv(t, initial) && Tickets(t.observed) == sent == t.sent
  }

  lemma {:induction false} StoppedServed(s: State, initial: Published)
    requires Inv(s, initial) && s.phase == Stopped
    ensures Served(s, s.sent, initial)
  {
  }

  /** After the close no observer is left waiting, whatever the listeners do: the dispatcher reaches its
      sentinel with every ticket observed. */
  lemma {:induction false} ServeStops(s: State, initial: Published, fails: Call -> bool)
    requires Inv(s, initial) && s.closed
    ensures Served(Serve(s, fails), s.sent, initial)
    decreases |s.feed|, if s.phase.Handling? then 1 + |s.phase.audience| - s.phase.heard else 0
  {
    match s.phase {
      case Stopped => StoppedServed(s, initial);
      case Idle =>
        ReceivedKeeps(s, initial);
        ServeStops(Received(s), initial, fails);
      case Handling(t, audience, heard) =>
        if heard < |audience| {
          var ok := !fails(Call(t.id, audience[heard]));
          HeardKeeps(s, ok, initial);
          ServeStops(Heard(s, ok), initial, fails);
        } else {
          SettledKeeps(s, initial);
          ServeStops(Settled(s), initial, fails);
        }
    }
  }

  // ---- One ticket's listeners ----

  /** The first listener from the `i`th on whose call fails, or their number. */
  function FirstFailure(id: nat, audience: seq<nat>, i: nat, fails: Call -> bool): (r: nat)
    requires i <= |audience|
    ensures i <= r <= |audience|
    ensures r < |audience| ==> fails(Call(id, audience[r]))
    ensures forall k :: i <= k < r ==> !fails(Call(id, audience[k]))
    decreases |audience| - i
  {
    if i == |audience| || fails(Call(id, audience[i])) then i else FirstFailure(id, audience, i + 1, fails)
  }

  /** How many listeners of the audience are called: all of them, or up to the first that fails. */
  function Reached(id: nat, audience: seq<nat>, fails: Call -> bool): (r: nat)
    ensures r <= |audience|
  {
    var f := FirstFailure(id, audience, 0, fails);
    if f < |audience| then f + 1 else f
  }

  /** The dispatcher when it is done with its ticket. */
  function AfterTicket(s: State, fails: Call -> bool): State
    requires s.phase.Handling? && s.phase.heard == 0
  {
    var p := s.phase;
    var heard := Reached(p.ticket.id, p.audience, fails);
    s.(phase := Idle,
       calls := s.calls + CallsOf(p.ticket, p.audience, heard),
       observed := s.observed + [Observation(p.ticket, p.audience, heard,
                                             FirstFailure(p.ticket.id, p.audience, 0, fails) < |p.audience|)])
  }

  /** The ticket with its first `i` listeners called, none of which failed. */
  function Calling(s: State, i: nat): State
    requires s.phase.Handling? && i <= |s.phase.audience|
  {
    s.(phase := s.phase.(heard := i), calls := s.calls + CallsOf(s.phase.ticket, s.phase.audience, i))
  }

  lemma {:induction false} NoneCalled(s: State)
    requires s.phase.Handling? && s.phase.heard == 0
    ensures Calling(s, 0) == s
  {
    assert CallsOf(s.phase.ticket, s.phase.audience, 0) == [];
  }

  lemma {:induction false} CallsOfSnoc(t: Ticket, audience: seq<nat>, i: nat, calls: seq<Call>)
    requires i < |audience|
    ensures calls + CallsOf(t, audience, i + 1) == calls + CallsOf(t, audience, i) + [Call(t.id, audience[i])]
  {
  }

  /** Serving a closed feed goes through each ticket as a whole. */
  lemma {:induction false} ServeTicket(s: State, fails: Call -> bool, i: nat)
    requires s.closed && s.phase.Handling? && s.phase.heard == 0 && i <= |s.phase.audience|
    requires FirstFailure(s.phase.ticket.id, s.phase.audience, 0, fails)
             == FirstFailure(s.phase.ticket.id, s.phase.audience, i, fails)
    ensures Serve(Calling(s, i), fails) == Serve(AfterTicket(s, fails), fails)
    decreases |s.phase.audience| - i
  {
    var p, now := s.phase, Calling(s, i);
    if i == |p.audience| {
      assert Settled(now) == AfterTicket(s, fails);
    } else {
      CallsOfSnoc(p.ticket, p.audience, i, s.calls);
      if fails(Call(p.ticket.id, p.audience[i])) {
        assert Heard(now, false) == AfterTicket(s, fails);
      } else {
        assert Heard(now, true) == Calling(s, i + 1);
        ServeTicket(s, fails, i + 1);
      }
    }
  }
}
