/** The dispatcher task as objects: the agent state it reduces into, and its loop over the run's
    channel. */
module MessageDispatch {
  import opened Prelude
  import opened Transcript
  import opened ToolBatch
  import opened Dispatcher

  class AgentState {
    var messages: seq<Message>
    var streamingMessage: Option<Message>

    function State(): Published
      reads this
    {
      Published(messages, streamingMessage)
    }

    constructor (messages: seq<Message>)
      ensures State() == Published(messages, None)
    {
      this.messages, streamingMessage := messages, None;
    }

    method ReduceEvent(e: Event)
      modifies this
      ensures State() == Reduce(old(State()), e)
    {
      match e {
        case MessageStart(m) => streamingMessage := Some(m);
        case MessageUpdate(m) => streamingMessage := Some(m);
        case MessageEnd(m) =>
          streamingMessage := None;
          messages := messages + [m];
        case AgentEnd(_) => streamingMessage := None;
        case _ =>
      }
    }
  }

  class RunDispatcher {
    const agent: AgentState
    var feed: seq<Option<Ticket>>
    var eventsClosed: bool
    var phase: Phase
    var listeners: seq<nat>
    var sent: seq<Ticket>
    var observed: seq<Observation>
    var calls: seq<Call>

    function State(): Dispatcher.State
      reads this, agent
    {
      Dispatcher.State(feed, eventsClosed, phase, listeners, agent.State(), sent, observed, calls)
    }

    constructor (agent: AgentState, listeners: seq<nat>)
      requires agent.streamingMessage == None
      ensures this.agent == agent
      ensures State() == Dispatcher.Start(agent.messages, listeners)
    {
      this.agent := agent;
      feed, eventsClosed, phase, this.listeners := [], false, Phase.Idle, listeners;
      sent, observed, calls := [], [], [];
    }

    /** The loop's emitters only send while the feed is open. */
    method EnqueueEvent(e: Event)
      requires !eventsClosed
      modifies this
      ensures State() == Next(old(State()), Emit(e))
    {
      var ticket := Ticket(|sent|, e, true);
      feed := feed + [Some(ticket)];
      sent := sent + [ticket];
    }

    /** "Still open? then send" is one step under the guard; on a closed feed the event is dropped. */
    method ObserveEvent(e: Event) returns (accepted: bool)
      modifies this
      ensures State() == Next(old(State()), Observe(e))
      ensures accepted <==> !old(eventsClosed)
    {
      if eventsClosed {
        return false;
      }
      var ticket := Ticket(|sent|, e, false);
      feed := feed + [Some(ticket)];
      sent := sent + [ticket];
      accepted := true;
    }

    method CloseFeed()
      requires !eventsClosed && EmittersJoined(State())
      modifies this
      ensures State() == Next(old(State()), Close)
    {
      eventsClosed := true;
      feed := feed + [None];
    }

    method SubscribeListener(l: nat)
      modifies this
      ensures State() == Next(old(State()), Subscribe(l))
    {
      listeners := listeners + [l];
    }

    method UnsubscribeListener(l: nat)
      modifies this
      ensures State() == Next(old(State()), Unsubscribe(l))
    {
      var i := 0;
      while i < |listeners| && listeners[i] != l
        invariant 0 <= i <= |listeners|
        invariant State() == old(State())
        invariant WithoutFirst(listeners, l) == listeners[..i] + WithoutFirst(listeners[i..], l)
      {
        assert listeners[i..][1..] == listeners[i + 1..];
        assert listeners[..i + 1] == listeners[..i] + [listeners[i]];
        Associative(listeners[..i], [listeners[i]], WithoutFirst(listeners[i + 1..], l));
        i := i + 1;
      }
      if i < |listeners| {
        assert listeners[i..][1..] == listeners[i + 1..];
        listeners := listeners[..i] + listeners[i + 1..];
      } else {
        assert listeners[i..] == [] && listeners[..i] == listeners;
      }
    }

    /** The listeners captured for one ticket are called in order, up to the first that fails. */
    method CallListeners(fails: Call -> bool)
      requires phase.Handling? && phase.heard == 0
      modifies this
      ensures State() == AfterTicket(old(State()), fails)
    {
      ghost var s := State();
      var ticket, audience := phase.ticket, phase.audience;
      var i := 0;
      assert CallsOf(ticket, audience, 0) == [];
      while i < |audience|
        invariant 0 <= i <= |audience|
        invariant State() == Calling(s, i)
        invariant FirstFailure(ticket.id, audience, 0, fails) == FirstFailure(ticket.id, audience, i, fails)
      {
        var call := Call(ticket.id, audience[i]);
        CallsOfSnoc(ticket, audience, i, s.calls);
        calls := calls + [call];
        if fails(call) {
          phase := Phase.Idle;
          observed := observed + [Observation(ticket, audience, i + 1, true)];
          return;
        }
        i := i + 1;
        phase := Handling(ticket, audience, i);
      }
      phase := Phase.Idle;
      observed := observed + [Observation(ticket, audience, i, false)];
    }

    /** `_dispatch_events` on a closed feed: every ticket, then the sentinel. */
    method ServeFeed(fails: Call -> bool)
      requires eventsClosed && phase == Phase.Idle && |feed| > 0 && feed[|feed| - 1].None?
      modifies this, agent
      ensures State() == Serve(old(State()), fails)
    {
      while true
        invariant phase == Phase.Idle && eventsClosed && |feed| > 0 && feed[|feed| - 1].None?
        invariant Serve(State(), fails) == Serve(old(State()), fails)
        decreases |feed|
      {
        var pending := feed[0];
        feed := feed[1..];
        if pending.None? {
          phase := Stopped;
          return;
        }
        if pending.value.reduce {
          agent.ReduceEvent(pending.value.event);
        }
        phase := Handling(pending.value, listeners, 0);
        ghost var handling := State();
        ServeTicket(handling, fails, 0);
        NoneCalled(handling);
        CallListeners(fails);
      }
    }

    /** Joining the dispatcher after the close: it ends, with every ticket observed. */
    method JoinDispatcher(fails: Call -> bool, ghost initial: Published)
      requires Inv(State(), initial) && eventsClosed && phase == Phase.Idle
      modifies this, agent
      ensures phase == Stopped && Tickets(observed) == sent == old(sent)
      ensures Inv(State(), initial)
    {
      ServeStops(State(), initial, fails);
      SentinelLast(State());
      ServeFeed(fails);
    }
  }
}
