/** The agent loop: `run_agent_loop`, `run_agent_loop_continue`, `_run_loop` and
    `_stream_assistant_response`. The provider, the hooks and the queue polls are arbitrary: a
    script lists what each turn's environment answers. A script that runs out leaves a run
    unfinished, so the theorems cover every prefix of every run. */
module AgentLoop {
  import opened Prelude
  import opened Transcript
  import opened ToolBatch

  // ---- Streaming one response ----

  datatype StreamEvent = Started(partial: Message) | Delta(partial: Message) | Terminal | Other

  /** What streaming emits; `open` once a start event has been seen. */
  function StreamEmits(events: seq<StreamEvent>, open: bool, final: Message): seq<Event> {
    if events == [] || events[0].Terminal? then (if open then [] else [MessageStart(final)]) + [MessageEnd(final)]
    else match events[0]
      case Started(p) => [MessageStart(p)] + StreamEmits(events[1..], true, final)
      case Delta(p) => (if open then [MessageUpdate(p)] else []) + StreamEmits(events[1..], open, final)
      case Other => StreamEmits(events[1..], open, final)
  }

  /** The context's messages afterwards: a start appends, later events replace the last entry. */
  function StreamMessages(events: seq<StreamEvent>, open: bool, messages: seq<Message>, final: Message): seq<Message>
    requires open ==> messages != []
    decreases |events|
  {
    if events == [] || events[0].Terminal? then (if open then messages[..|messages| - 1] else messages) + [final]
    else match events[0]
      case Started(p) => StreamMessages(events[1..], true, messages + [p], final)
      case Delta(p) =>
        StreamMessages(events[1..], open, if open then messages[..|messages| - 1] + [p] else messages, final)
      case Other => StreamMessages(events[1..], open, messages, final)
  }

  /** The number of start events before the terminal one. */
  function Starts(events: seq<StreamEvent>): nat {
    if events == [] || events[0].Terminal? then 0
    else (if events[0].Started? then 1 else 0) + Starts(events[1..])
  }

  method StreamAssistantResponse(context: seq<Message>, events: seq<StreamEvent>, final: Message)
    returns (messages: seq<Message>, emitted: seq<Event>)
    ensures messages == StreamMessages(events, false, context, final)
    ensures emitted == StreamEmits(events, false, final)
  {
    messages, emitted := context, [];
    var added := false;
    var i := 0;
    while i < |events| && !events[i].Terminal?
      invariant 0 <= i <= |events| && (added ==> messages != [])
      invariant StreamMessages(events, false, context, final) == StreamMessages(events[i..], added, messages, final)
      invariant StreamEmits(events, false, final) == emitted + StreamEmits(events[i..], added, final)
    {
      assert events[i..][1..] == events[i + 1..];
      match events[i] {
        case Started(p) =>
          messages := messages + [p];
          added := true;
          emitted := emitted + [MessageStart(p)];
        case Delta(p) =>
          if added {
            messages := messages[..|messages| - 1] + [p];
            emitted := emitted + [MessageUpdate(p)];
          }
        case Other =>
      }
      i := i + 1;
    }
    if added {
      messages := messages[..|messages| - 1] + [final];
    } else {
      messages := messages + [final];
      emitted := emitted + [MessageStart(final)];
    }
    emitted := emitted + [MessageEnd(final)];
  }

  // ---- One turn ----

  datatype Decision = Proceed | Continue | End

  /** The environment of one turn, in the order the loop consults it. An absent hook or queue
      answers with `None` or the empty list. */
  datatype Turn = Turn(
    nextContext: Option<Context>,
    prepared: seq<Message>,
    preparePoll: seq<Message>,
    requestContext: Option<Context>,
    stream: seq<StreamEvent>,
    text: string,
    calls: seq<ToolCall>,
    stop: StopReason,
    sequential: bool,
    script: seq<CallScript>,
    schedule: seq<Step>,
    decision: Decision,
    steeringPoll: seq<Message>,
    followUpPoll: seq<Message>)

  function Answer(t: Turn): Message {
    Assistant(t.text, t.calls, t.stop)
  }

  /** The run's observable history: emitted events, queue polls, deliveries and provider requests. */
  datatype Entry =
    | Emit(event: Event)
    | Steering(polled: seq<Message>)
    | FollowUp(polled: seq<Message>)
    | Deliver(prepared: seq<Message>, pending: seq<Message>, declared: seq<Message>)
    | Request(messages: seq<Message>)

  datatype State = State(context: Context, newMessages: seq<Message>, log: seq<Entry>, pending: seq<Message>)

  datatype Next = Again | Finished | Unfinished

  datatype After = After(state: State, next: Next)

  function Emits(events: seq<Event>): seq<Entry> {
    seq(|events|, i requires 0 <= i < |events| => Emit(events[i]))
  }

  /** Preparation of a later turn: queued steering is polled again only if the earlier poll was empty. */
  function Open(s: State, t: Turn, first: bool): State {
    if first then s
    else
      var empty := |s.pending| == 0;
      State(t.nextContext.GetOr(s.context), s.newMessages,
            s.log + (if empty then [Steering(t.preparePoll)] else []) + [Emit(TurnStart)],
            if empty then t.preparePoll else s.pending)
  }

  function DeliverPending(s: State, prepared: seq<Message>): State {
    var declared := DeclareToolChanges(s.context, prepared + s.pending);
    State(s.context.(messages := s.context.messages + declared), s.newMessages + declared,
          s.log + [Deliver(prepared, s.pending, declared)] + Emits(MessageEvents(declared)), [])
  }

  function Ask(s: State, t: Turn): State {
    var context := t.requestContext.GetOr(s.context);
    State(context.(messages := StreamMessages(t.stream, false, context.messages, Answer(t))),
          s.newMessages + [Answer(t)],
          s.log + [Request(context.messages)] + Emits(StreamEmits(t.stream, false, Answer(t))), s.pending)
  }

  function ExecuteBatch(t: Turn): Executed {
    if |t.calls| == 0 then Executed([], [], true, true)
    else if t.stop == Length then Sequential(t.calls, TruncatedScript(t.calls))
    else if t.sequential then Sequential(t.calls, t.script)
    else Parallel(t.calls, t.script, t.schedule)
  }

  predicate HardStop(t: Turn) {
    t.stop == Error || t.stop == Aborted
  }

  function RunBatch(s: State, e: Executed): State {
    s.(context := s.context.(messages := s.context.messages + e.results),
       newMessages := s.newMessages + e.results,
       log := s.log + Emits(e.log))
  }

  function CloseTurn(s: State, t: Turn, results: seq<Message>): State {
    s.(log := s.log + [Emit(TurnEnd(Answer(t), results))])
  }

  function EndRun(s: State): After {
    After(s.(log := s.log + [Emit(AgentEnd(s.newMessages))]), Finished)
  }

  function PollSteering(s: State, t: Turn): State {
    s.(log := s.log + [Steering(t.steeringPoll)], pending := t.steeringPoll)
  }

  /** No natural request was selected: follow-ups, then an explicit continuation, then the end. */
  function Idle(s: State, t: Turn): After {
    var polled := s.(log := s.log + [FollowUp(t.followUpPoll)], pending := t.followUpPoll);
    if |t.followUpPoll| > 0 || t.decision == Continue then After(polled, Again) else EndRun(polled)
  }

  function Settle(s: State, t: Turn, e: Executed): After {
    var closed := CloseTurn(RunBatch(s, e), t, e.results);
    if t.decision == End then EndRun(closed)
    else
      var polled := PollSteering(closed, t);
      if !e.terminate || |polled.pending| > 0 then After(polled, Again) else Idle(polled, t)
  }

  /** The turn up to the assistant's answer. */
  function Asked(s: State, t: Turn, first: bool): State {
    Ask(DeliverPending(Open(s, t, first), if first then [] else t.prepared), t)
  }

  /** The turn after the answer: a hard stop, an unfinished batch, or the batch and what follows it. */
  function Respond(asked: State, t: Turn): After {
    if HardStop(t) then EndRun(CloseTurn(asked, t, []))
    else
      var e := ExecuteBatch(t);
      if !e.finished then After(asked.(log := asked.log + Emits(e.log)), Unfinished) else Settle(asked, t, e)
  }

  function TurnStep(s: State, t: Turn, first: bool): After {
    Respond(Asked(s, t, first), t)
  }

  /** The flat machine, from turn `i` on: one turn after another while the turn asks for another request. */
  function Flat(script: seq<Turn>, i: nat, s: State, first: bool): After
    requires i <= |script|
    decreases |script| - i
  {
    if i == |script| then After(s, Unfinished)
    else
      var a := TurnStep(s, script[i], first);
      if a.next == Again then Flat(script, i + 1, a.state, false) else a
  }

  // ---- The nested loops of _run_loop ----

  /** Emits each message and appends it to the context and to the run's new messages. */
  method EmitMessages(s: State, declared: seq<Message>) returns (r: State)
    ensures r == s.(context := s.context.(messages := s.context.messages + declared),
                    newMessages := s.newMessages + declared,
                    log := s.log + Emits(MessageEvents(declared)))
  {
    r := s;
    var k := 0;
    assert declared[..0] == [];
    while k < |declared|
      invariant 0 <= k <= |declared|
      invariant r == s.(context := s.context.(messages := s.context.messages + declared[..k]),
                        newMessages := s.newMessages + declared[..k],
                        log := s.log + Emits(MessageEvents(declared[..k])))
    {
      var message := declared[k];
      MessageEventsAppend(declared[..k], [message]);
      assert declared[..k + 1] == declared[..k] + [message];
      assert MessageEvents([message]) == [MessageStart(message), MessageEnd(message)];
      r := r.(log := r.log + [Emit(MessageStart(message)), Emit(MessageEnd(message))]);
      r := r.(context := r.context.(messages := r.context.messages + [message]),
              newMessages := r.newMessages + [message]);
      k := k + 1;
    }
    assert declared[..k] == declared;
  }

  method BeginTurn(s: State, t: Turn, first: bool) returns (r: State)
    ensures r == DeliverPending(Open(s, t, first), if first then [] else t.prepared)
  {
    r := s;
    var preparedMessages: seq<Message> := [];
    if !first {
      if t.nextContext.Some? {
        r := r.(context := t.nextContext.value);
      }
      preparedMessages := t.prepared;
      if |r.pending| == 0 {
        r := r.(log := r.log + [Steering(t.preparePoll)], pending := t.preparePoll);
      }
      r := r.(log := r.log + [Emit(TurnStart)]);
    }
    assert r == Open(s, t, first);
    var declared := DeclareToolChanges(r.context, preparedMessages + r.pending);
    r := r.(log := r.log + [Deliver(preparedMessages, r.pending, declared)]);
    r := EmitMessages(r, declared);
    r := r.(pending := []);
  }

  method RequestAnswer(s: State, t: Turn) returns (r: State)
    ensures r == Ask(s, t)
  {
    var context := if t.requestContext.Some? then t.requestContext.value else s.context;
    var messages, emitted := StreamAssistantResponse(context.messages, t.stream, Answer(t));
    r := State(context.(messages := messages), s.newMessages + [Answer(t)],
               s.log + [Request(context.messages)] + Emits(emitted), s.pending);
  }

  method ExecuteToolCalls(t: Turn) returns (e: Executed)
    requires |t.calls| > 0
    ensures e == ExecuteBatch(t)
  {
    if t.stop == Length {
      e := FailTruncated(t.calls);
    } else if t.sequential {
      e := ExecuteSequential(t.calls, t.script);
    } else {
      e := ExecuteParallel(t.calls, t.script, t.schedule);
    }
  }

  method RunTools(s: State, t: Turn) returns (r: State, results: seq<Message>, more: bool, finished: bool)
    ensures var e := ExecuteBatch(t);
            && finished == e.finished
            && (finished ==> r == RunBatch(s, e) && results == e.results && more == !e.terminate)
            && (!finished ==> r == s.(log := s.log + Emits(e.log)))
  {
    r, results, more, finished := s, [], false, true;
    if |t.calls| > 0 {
      var batch := ExecuteToolCalls(t);
      finished := batch.finished;
      r := r.(log := r.log + Emits(batch.log));
      if finished {
        results := batch.results;
        more := !batch.terminate;
        r := r.(context := r.context.(messages := r.context.messages + results),
                newMessages := r.newMessages + results);
      }
    }
  }

  /** The body of the inner loop up to its closing poll. `next` is `Again` while neither a hard stop,
      an end decision nor the end of the script has left the loop. */
  method RunTurn(s: State, t: Turn, first: bool) returns (r: State, more: bool, next: Next)
    ensures next != Again ==> TurnStep(s, t, first) == After(r, next)
    ensures next == Again ==>
              TurnStep(s, t, first) == if more || |r.pending| > 0 then After(r, Again) else Idle(r, t)
  {
    more := false;
    var begun := BeginTurn(s, t, first);
    var asked := RequestAnswer(begun, t);
    if t.stop == Error || t.stop == Aborted {
      r := CloseTurn(asked, t, []);
      r := r.(log := r.log + [Emit(AgentEnd(r.newMessages))]);
      return r, false, Finished;
    }
    var ran, toolResults, goesOn, finished := RunTools(asked, t);
    if !finished {
      return ran, false, Unfinished;
    }
    more := goesOn;
    r := CloseTurn(ran, t, toolResults);
    if t.decision == End {
      r := r.(log := r.log + [Emit(AgentEnd(r.newMessages))]);
      return r, more, Finished;
    }
    r := r.(log := r.log + [Steering(t.steeringPoll)], pending := t.steeringPoll);
    next := Again;
  }

  // The loops are proved against any `step` that agrees with `TurnStep`, so that their proof does
  // not look into the turn.

  ghost predicate IsTurnStep(step: (State, Turn, bool) -> After) {
    forall s, t, first {:trigger TurnStep(s, t, first)} :: step(s, t, first) == TurnStep(s, t, first)
  }

  ghost function FlatBy(step: (State, Turn, bool) -> After, script: seq<Turn>, i: nat, s: State, first: bool): After
    requires i <= |script|
    decreases |script| - i
  {
    if i == |script| then After(s, Unfinished)
    else
      var a := step(s, script[i], first);
      if a.next == Again then FlatBy(step, script, i + 1, a.state, false) else a
  }

  lemma {:induction false} FlatByIsFlat(step: (State, Turn, bool) -> After, script: seq<Turn>, i: nat, s: State,
                                        first: bool)
    requires IsTurnStep(step) && i <= |script|
    ensures FlatBy(step, script, i, s, first) == Flat(script, i, s, first)
    decreases |script| - i
  {
    if i < |script| {
      var a := TurnStep(s, script[i], first);
      if a.next == Again {
        FlatByIsFlat(step, script, i + 1, a.state, false);
      }
    }
  }

  /** What remains of the flat machine after turn `i - 1` selected no natural request. */
  ghost function AfterIdle(step: (State, Turn, bool) -> After, script: seq<Turn>, i: nat, s: State): After
    requires 0 < i <= |script|
  {
    var a := Idle(s, script[i - 1]);
    if a.next == Again then FlatBy(step, script, i, a.state, false) else a
  }

  method NextTurn(ghost step: (State, Turn, bool) -> After, script: seq<Turn>, i: nat, s: State, first: bool)
    returns (r: State, more: bool, next: Next)
    requires IsTurnStep(step) && i < |script|
    ensures FlatBy(step, script, i, s, first)
            == if next != Again then After(r, next)
               else if more || |r.pending| > 0 then FlatBy(step, script, i + 1, r, false)
               else AfterIdle(step, script, i + 1, r)
  {
    r, more, next := RunTurn(s, script[i], first);
  }

  /** The nested loops of the source: the inner one runs turns while there are tool results to answer
      or messages pending, the outer one starts it again for follow-ups or an explicit continuation. */
  method RunNested(ghost step: (State, Turn, bool) -> After, script: seq<Turn>, initial: State) returns (r: After)
    requires IsTurnStep(step)
    ensures r == FlatBy(step, script, 0, initial, true)
  {
    var s := initial;
    var first := true;
    var explicitContinuation := false;
    var i := 0;
    while true
      invariant 0 <= i <= |script|
      invariant FlatBy(step, script, 0, initial, true) == FlatBy(step, script, i, s, first)
      decreases |script| - i
    {
      var hasMoreToolCalls := true;
      ghost var entered := i;
      while hasMoreToolCalls || |s.pending| > 0
        invariant entered <= i <= |script| && (i == entered ==> hasMoreToolCalls)
        invariant FlatBy(step, script, 0, initial, true)
                  == if hasMoreToolCalls || |s.pending| > 0 then FlatBy(step, script, i, s, first)
                     else AfterIdle(step, script, i, s)
        invariant !hasMoreToolCalls && |s.pending| == 0 ==>
                    !first && explicitContinuation == (script[i - 1].decision == Continue)
        decreases |script| - i
      {
        if i == |script| {
          return After(s, Unfinished);
        }
        var turn, more, next := NextTurn(step, script, i, s, first);
        s := turn;
        if next != Again {
          return After(s, next);
        }
        hasMoreToolCalls, first := more, false;
        explicitContinuation := script[i].decision == Continue;
        i := i + 1;
        if hasMoreToolCalls || |s.pending| > 0 {
          explicitContinuation := false;
        }
      }

      var followUpMessages := script[i - 1].followUpPoll;
      s := s.(log := s.log + [FollowUp(followUpMessages)], pending := followUpMessages);
      if |followUpMessages| > 0 {
        explicitContinuation := false;
        continue;
      }
      if explicitContinuation {
        explicitContinuation := false;
        continue;
      }
      break;
    }
    r := After(s.(log := s.log + [Emit(AgentEnd(s.newMessages))]), Finished);
  }

  /** The nested loops compute the flat machine. */
  method RunLoop(initial: State, script: seq<Turn>) returns (r: After)
    ensures r == Flat(script, 0, initial, true)
  {
    ghost var step := (s, t, first) => TurnStep(s, t, first);
    FlatByIsFlat(step, script, 0, initial, true);
    r := RunNested(step, script, initial);
  }
}
