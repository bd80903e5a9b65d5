/** What every run of the agent loop keeps: the shape of its trace, the agreement of trace, new
    messages and context, and the delivery of every polled message. */
module AgentLoopTheorems {
  import opened Prelude
  import opened Transcript
  import opened ToolBatch
  import opened AgentLoop

  // ---- The trace as a language ----

  /** Where a listener stands in the documented event sequence. */
  datatype Mode = Fresh | Between | InTurn | InMessage | Ended | Broken

  function Track(m: Mode, e: Event): Mode {
    match e
    case AgentStart => if m == Fresh then Between else Broken
    case TurnStart => if m == Between then InTurn else Broken
    case MessageStart(_) => if m == InTurn then InMessage else Broken
    case MessageUpdate(_) => if m == InMessage then InMessage else Broken
    case MessageEnd(_) => if m == InMessage then InTurn else Broken
    case TurnEnd(_, _) => if m == InTurn then Between else Broken
    case AgentEnd(_) => if m == Between then Ended else Broken
    case ToolStart(_, _) => if m == InTurn then InTurn else Broken
    case ToolUpdate(_, _) => if m == InTurn then InTurn else Broken
    case ToolEnd(_, _) => if m == InTurn then InTurn else Broken
  }

  function TrackAll(m: Mode, events: seq<Event>): Mode
    decreases |events|
  {
    if events == [] then m else TrackAll(Track(m, events[0]), events[1..])
  }

  function Emitted(log: seq<Entry>): seq<Event> {
    if log == [] then []
    else (if log[0].Emit? then [log[0].event] else []) + Emitted(log[1..])
  }

  lemma {:induction false} TrackAppend(m: Mode, a: seq<Event>, b: seq<Event>)
    ensures TrackAll(m, a + b) == TrackAll(TrackAll(m, a), b)
    decreases |a|
  {
    if a == [] {
      assert a + b == b;
    } else {
      assert (a + b)[1..] == a[1..] + b;
      TrackAppend(Track(m, a[0]), a[1..], b);
    }
  }

  lemma {:induction false} EmittedAppend(a: seq<Entry>, b: seq<Entry>)
    ensures Emitted(a + b) == Emitted(a) + Emitted(b)
  {
    if a == [] {
      assert a + b == b;
    } else {
      assert (a + b)[1..] == a[1..] + b;
      EmittedAppend(a[1..], b);
      Associative(if a[0].Emit? then [a[0].event] else [], Emitted(a[1..]), Emitted(b));
    }
  }

  lemma {:induction false} EmittedEmits(events: seq<Event>)
    ensures Emitted(Emits(events)) == events
  {
    if events != [] {
      assert Emits(events)[1..] == Emits(events[1..]);
      EmittedEmits(events[1..]);
    }
  }

  // ---- What each part of a turn emits, from inside a turn ----

  /** A piece of trace that starts and ends inside a turn and completes exactly `messages`. */
  ghost predicate Piece(events: seq<Event>, messages: seq<Message>) {
    TrackAll(InTurn, events) == InTurn && Ends(events) == messages
  }

  lemma {:induction false} PieceAppend(a: seq<Event>, b: seq<Event>, m: seq<Message>, n: seq<Message>)
    requires Piece(a, m) && Piece(b, n)
    ensures Piece(a + b, m + n)
  {
    TrackAppend(InTurn, a, b);
    EndsAppend(a, b);
  }

  lemma {:induction false} MessagesPiece(messages: seq<Message>)
    ensures Piece(MessageEvents(messages), messages)
  {
    MessageEventsEnds(messages);
    if messages != [] {
      MessagesPiece(messages[1..]);
      var all := MessageEvents(messages);
      assert all[1..][1..] == MessageEvents(messages[1..]);
    }
  }

  lemma {:induction false} ToolsTrack(events: seq<Event>)
    requires AllTool(events)
    ensures TrackAll(InTurn, events) == InTurn
    ensures Ends(events) == []
  {
    if events != [] {
      var k := |events| - 1;
      ToolsTrack(events[..k]);
      TrackAppend(InTurn, events[..k], [events[k]]);
      assert events == events[..k] + [events[k]];
      assert [events[k]][1..] == [];
    }
  }

  lemma {:induction false} HistoryIsTool(log: seq<Event>, i: nat)
    ensures AllTool(History(log, i))
  {
    if log != [] {
      HistoryIsTool(log[..|log| - 1], i);
    }
  }

  lemma {:induction false} SequentialTracks(calls: seq<ToolCall>, tasks: seq<Task>, log: seq<Event>)
    requires |tasks| <= |calls| && AllDone(tasks)
    ensures TrackAll(InTurn, SequentialLog(calls, tasks, log)) == InTurn
  {
    if tasks != [] {
      var n := |tasks| - 1;
      var before, history := SequentialLog(calls, tasks[..n], log), History(log, n);
      var message := MessageEvents([ResultMessage(calls[n], tasks[n].outcome)]);
      SequentialTracks(calls, tasks[..n], log);
      HistoryIsTool(log, n);
      ToolsTrack(history);
      MessagesPiece([ResultMessage(calls[n], tasks[n].outcome)]);
      TrackAppend(InTurn, before + history, message);
      TrackAppend(InTurn, before, history);
    }
  }

  lemma {:induction false} BatchPiece(t: Turn)
    requires ExecuteBatch(t).finished
    ensures Piece(ExecuteBatch(t).log, ExecuteBatch(t).results)
  {
    var e := ExecuteBatch(t);
    if t.calls == [] {
    } else if t.stop == Length {
      SequentialPiece(t.calls, TruncatedScript(t.calls));
    } else if t.sequential {
      SequentialPiece(t.calls, t.script);
    } else {
      ParallelPiece(t.calls, t.script, t.schedule);
    }
  }

  lemma {:induction false} SequentialPiece(calls: seq<ToolCall>, script: seq<CallScript>)
    requires Sequential(calls, script).finished
    ensures Piece(Sequential(calls, script).log, Sequential(calls, script).results)
  {
    SequentialComplete(calls, script);
    var e := Sequential(calls, script);
    var tasks :| Complete(calls, tasks, e) && Cut(calls, script, |tasks|)
                 && e.log == SequentialLog(calls, tasks, e.log);
    SequentialTracks(calls, tasks, e.log);
  }

  lemma {:induction false} ParallelPiece(calls: seq<ToolCall>, script: seq<CallScript>, schedule: seq<Step>)
    requires Parallel(calls, script, schedule).finished
    ensures Piece(Parallel(calls, script, schedule).log, Parallel(calls, script, schedule).results)
  {
    ParallelComplete(calls, script, schedule);
    var e := Parallel(calls, script, schedule);
    var tasks, toolLog :| Complete(calls, tasks, e) && Cut(calls, script, |tasks|)
                          && AllTool(toolLog) && e.log == toolLog + MessageEvents(e.results);
    ToolsTrack(toolLog);
    MessagesPiece(e.results);
    PieceAppend(toolLog, MessageEvents(e.results), [], e.results);
    assert [] + e.results == e.results;
  }

  lemma {:induction false} BrokenStays(events: seq<Event>)
    ensures TrackAll(Broken, events) == Broken
  {
    if events != [] {
      BrokenStays(events[1..]);
    }
  }

  lemma {:induction false} TrackOne(m: Mode, e: Event, rest: seq<Event>)
    ensures TrackAll(m, [e] + rest) == TrackAll(Track(m, e), rest)
    ensures Ends([e] + rest) == (if e.MessageEnd? then [e.message] else []) + Ends(rest)
  {
    assert ([e] + rest)[1..] == rest;
    EndsAppend([e], rest);
    EndsOne([], e);
    assert [] + [e] == [e];
  }

  lemma {:induction false} FinalPiece(open: bool, final: Message)
    ensures var all := (if open then [] else [MessageStart(final)]) + [MessageEnd(final)];
            Ends(all) == [final] && TrackAll(if open then InMessage else InTurn, all) == InTurn
  {
    var all := (if open then [] else [MessageStart(final)]) + [MessageEnd(final)];
    TrackOne(InMessage, MessageEnd(final), []);
    assert [MessageEnd(final)] + [] == [MessageEnd(final)];
    if open {
      assert all == [MessageEnd(final)];
    } else {
      TrackOne(InTurn, MessageStart(final), [MessageEnd(final)]);
      assert all == [MessageStart(final)] + [MessageEnd(final)];
    }
  }

  /** Where the trace of a response stands: `open` messages so far and `starts` still to come. */
  function StreamMode(starts: nat, open: bool): Mode {
    if starts + (if open then 1 else 0) <= 1 then InTurn else Broken
  }

  /** What `StreamPiece` says of one stream. */
  ghost predicate StreamTracked(events: seq<StreamEvent>, open: bool, final: Message) {
    && Ends(StreamEmits(events, open, final)) == [final]
    && TrackAll(if open then InMessage else InTurn, StreamEmits(events, open, final))
         == StreamMode(Starts(events), open)
  }

  lemma {:induction false} StartedNext(events: seq<StreamEvent>, open: bool, final: Message)
    requires events != [] && events[0].Started? && StreamTracked(events[1..], true, final)
    ensures StreamTracked(events, open, final)
  {
    var start, rest := MessageStart(events[0].partial), StreamEmits(events[1..], true, final);
    TrackOne(if open then InMessage else InTurn, start, rest);
    BrokenStays(rest);
    assert StreamEmits(events, open, final) == [start] + rest;
    assert [] + Ends(rest) == Ends(rest);
  }

  lemma {:induction false} DeltaNext(events: seq<StreamEvent>, open: bool, final: Message)
    requires events != [] && events[0].Delta? && StreamTracked(events[1..], open, final)
    ensures StreamTracked(events, open, final)
  {
    var update, rest := MessageUpdate(events[0].partial), StreamEmits(events[1..], open, final);
    if open {
      TrackOne(InMessage, update, rest);
      assert StreamEmits(events, open, final) == [update] + rest;
      assert [] + Ends(rest) == Ends(rest);
    } else {
      assert StreamEmits(events, open, final) == [] + rest == rest;
    }
  }

  lemma {:induction false} OtherNext(events: seq<StreamEvent>, open: bool, final: Message)
    requires events != [] && events[0].Other? && StreamTracked(events[1..], open, final)
    ensures StreamTracked(events, open, final)
  {
    assert StreamEmits(events, open, final) == StreamEmits(events[1..], open, final);
  }

  /** One streamed response is a well-formed piece exactly when at most one start event comes
      before its terminal event; it always completes the final message and nothing else. */
  lemma {:induction false} StreamPiece(events: seq<StreamEvent>, open: bool, final: Message)
    ensures Ends(StreamEmits(events, open, final)) == [final]
    ensures TrackAll(if open then InMessage else InTurn, StreamEmits(events, open, final))
            == StreamMode(Starts(events), open)
  {
    StreamTracks(events, open, final);
  }

  lemma {:induction false} StreamTracks(events: seq<StreamEvent>, open: bool, final: Message)
    ensures StreamTracked(events, open, final)
  {
    if events == [] || events[0].Terminal? {
      FinalPiece(open, final);
    } else {
      StreamTracks(events[1..], open || events[0].Started?, final);
      match events[0] {
        case Started(_) => StartedNext(events, open, final);
        case Delta(_) => DeltaNext(events, open, final);
        case Other => OtherNext(events, open, final);
      }
    }
  }

  lemma {:induction false} StreamAppends(events: seq<StreamEvent>, open: bool, messages: seq<Message>, final: Message)
    requires open ==> messages != []
    requires Starts(events) + (if open then 1 else 0) <= 1
    ensures StreamMessages(events, open, messages, final)
            == (if open then messages[..|messages| - 1] else messages) + [final]
    decreases |events|
  {
    if events != [] && !events[0].Terminal? {
      match events[0] {
        case Started(p) => StreamAppends(events[1..], true, messages + [p], final);
        case Delta(p) =>
          StreamAppends(events[1..], open, if open then messages[..|messages| - 1] + [p] else messages, final);
        case Other => StreamAppends(events[1..], open, messages, final);
      }
    }
  }

  // ---- The invariant of every run ----

  /** The trace stands in `m` and has completed exactly the run's new messages. */
  ghost predicate Consistent(s: State, m: Mode) {
    TrackAll(Fresh, Emitted(s.log)) == m && Ends(Emitted(s.log)) == s.newMessages
  }

  lemma {:induction false} AddPiece(s: State, before: seq<Entry>, events: seq<Event>, messages: seq<Message>)
    requires Consistent(s, InTurn) && Piece(events, messages) && Emitted(before) == []
    ensures Emitted(s.log + before + Emits(events)) == Emitted(s.log) + events
    ensures TrackAll(Fresh, Emitted(s.log + before + Emits(events))) == InTurn
    ensures Ends(Emitted(s.log + before + Emits(events))) == s.newMessages + messages
  {
    EmittedAppend(s.log + before, Emits(events));
    EmittedAppend(s.log, before);
    EmittedEmits(events);
    assert Emitted(s.log) + [] == Emitted(s.log);
    TrackAppend(Fresh, Emitted(s.log), events);
    EndsAppend(Emitted(s.log), events);
  }

  lemma {:induction false} AddEvent(log: seq<Entry>, e: Event)
    ensures Emitted(log + [Emit(e)]) == Emitted(log) + [e]
    ensures TrackAll(Fresh, Emitted(log + [Emit(e)])) == Track(TrackAll(Fresh, Emitted(log)), e)
    ensures Ends(Emitted(log + [Emit(e)])) == Ends(Emitted(log)) + (if e.MessageEnd? then [e.message] else [])
  {
    EmittedAppend(log, [Emit(e)]);
    assert Emitted([Emit(e)]) == [e] by { assert [Emit(e)][1..] == []; }
    TrackAppend(Fresh, Emitted(log), [e]);
    assert [e][1..] == [];
    EndsOne(Emitted(log), e);
  }

  lemma {:induction false} AddSilent(log: seq<Entry>, entry: Entry)
    requires !entry.Emit?
    ensures Emitted(log + [entry]) == Emitted(log)
  {
    EmittedAppend(log, [entry]);
    assert [entry][1..] == [];
    assert Emitted(log) + [] == Emitted(log);
  }

  lemma {:induction false} OpenConsistent(s: State, t: Turn, first: bool)
    requires Consistent(s, if first then InTurn else Between)
    ensures Consistent(Open(s, t, first), InTurn)
  {
    if !first {
      AddSilent(s.log, Steering(t.preparePoll));
      var log := s.log + (if s.pending == [] then [Steering(t.preparePoll)] else []);
      assert s.log + [] == s.log;
      AddEvent(log, TurnStart);
    }
  }

  lemma {:induction false} DeliverConsistent(s: State, prepared: seq<Message>)
    requires Consistent(s, InTurn)
    ensures Consistent(DeliverPending(s, prepared), InTurn)
  {
    var declared := DeclareToolChanges(s.context, prepared + s.pending);
    var entry := Deliver(prepared, s.pending, declared);
    MessagesPiece(declared);
    AddSilent([], entry);
    assert [] + [entry] == [entry];
    AddPiece(s, [entry], MessageEvents(declared), declared);
  }

  lemma {:induction false} AskConsistent(s: State, t: Turn)
    requires Consistent(s, InTurn) && Starts(t.stream) <= 1
    ensures Consistent(Ask(s, t), InTurn)
  {
    var entry := Request(t.requestContext.GetOr(s.context).messages);
    StreamPiece(t.stream, false, Answer(t));
    AddSilent([], entry);
    assert [] + [entry] == [entry];
    AddPiece(s, [entry], StreamEmits(t.stream, false, Answer(t)), [Answer(t)]);
  }

  lemma {:induction false} RunBatchConsistent(s: State, t: Turn)
    requires Consistent(s, InTurn) && ExecuteBatch(t).finished
    ensures Consistent(RunBatch(s, ExecuteBatch(t)), InTurn)
  {
    var e := ExecuteBatch(t);
    BatchPiece(t);
    assert s.log + [] == s.log;
    AddPiece(s, [], e.log, e.results);
  }

  lemma {:induction false} EndConsistent(s: State)
    requires Consistent(s, Between)
    ensures Consistent(EndRun(s).state, Ended)
  {
    AddEvent(s.log, AgentEnd(s.newMessages));
  }

  lemma {:induction false} IdleConsistent(s: State, t: Turn)
    requires Consistent(s, Between)
    ensures Consistent(Idle(s, t).state, if Idle(s, t).next == Again then Between else Ended)
  {
    AddSilent(s.log, FollowUp(t.followUpPoll));
    EndConsistent(s.(log := s.log + [FollowUp(t.followUpPoll)], pending := t.followUpPoll));
  }

  lemma {:induction false} ClosedConsistent(s: State, t: Turn, results: seq<Message>)
    requires Consistent(s, InTurn)
    ensures Consistent(CloseTurn(s, t, results), Between)
    ensures Consistent(PollSteering(CloseTurn(s, t, results), t), Between)
  {
    AddEvent(s.log, TurnEnd(Answer(t), results));
    AddSilent(CloseTurn(s, t, results).log, Steering(t.steeringPoll));
  }

  lemma {:induction false} SettleConsistent(s: State, t: Turn)
    requires Consistent(s, InTurn) && ExecuteBatch(t).finished
    ensures var a := Settle(s, t, ExecuteBatch(t));
            Consistent(a.state, if a.next == Again then Between else Ended)
  {
    var ran, results := RunBatch(s, ExecuteBatch(t)), ExecuteBatch(t).results;
    RunBatchConsistent(s, t);
    ClosedConsistent(ran, t, results);
    EndConsistent(CloseTurn(ran, t, results));
    IdleConsistent(PollSteering(CloseTurn(ran, t, results), t), t);
  }

  lemma {:induction false} AskedConsistent(s: State, t: Turn, first: bool)
    requires Consistent(s, if first then InTurn else Between) && Starts(t.stream) <= 1
    ensures Consistent(Asked(s, t, first), InTurn)
  {
    var prepared := if first then [] else t.prepared;
    OpenConsistent(s, t, first);
    DeliverConsistent(Open(s, t, first), prepared);
    AskConsistent(DeliverPending(Open(s, t, first), prepared), t);
  }

  lemma {:induction false} RespondConsistent(asked: State, t: Turn)
    requires Consistent(asked, InTurn)
    ensures var a := Respond(asked, t);
            a.next != Unfinished ==> Consistent(a.state, if a.next == Again then Between else Ended)
  {
    if HardStop(t) {
      ClosedConsistent(asked, t, []);
      EndConsistent(CloseTurn(asked, t, []));
    } else if ExecuteBatch(t).finished {
      SettleConsistent(asked, t);
    }
  }

  lemma {:induction false} TurnConsistent(s: State, t: Turn, first: bool)
    requires Consistent(s, if first then InTurn else Between) && Starts(t.stream) <= 1
    ensures var a := TurnStep(s, t, first);
            a.next != Unfinished ==> Consistent(a.state, if a.next == Again then Between else Ended)
  {
    AskedConsistent(s, t, first);
    RespondConsistent(Asked(s, t, first), t);
  }

  // ---- A run that has not finished ----

  /** The messages answer the first calls, in order. */
  ghost predicate Answers(calls: seq<ToolCall>, done: seq<Message>) {
    && |done| <= |calls|
    && forall k :: 0 <= k < |done| ==>
         done[k].ToolResult? && done[k].callId == calls[k].id && done[k].toolName == calls[k].name
  }

  /** A sequential batch between two calls: one answer per finished call, and nothing else completed. */
  ghost predicate Answering(calls: seq<ToolCall>, b: Batch) {
    && |b.tasks| <= |calls| && AllDone(b.tasks)
    && TrackAll(InTurn, b.log) == InTurn
    && |Ends(b.log)| == |b.tasks| && Answers(calls, Ends(b.log))
  }

  /** A call that is running, or stopped half way, adds tool events only. */
  lemma {:induction false} RunCallTracks(calls: seq<ToolCall>, c: CallScript, b: Batch)
    requires Answering(calls, b) && |b.tasks| < |calls|
    ensures var ran := RunCall(calls, c, b);
            && ran.tasks[..|b.tasks|] == b.tasks
            && TrackAll(InTurn, ran.log) == InTurn && Ends(ran.log) == Ends(b.log)
  {
    var ran := RunCall(calls, c, b);
    RunCallExtends(calls, c, b);
    var more := ran.log[|b.log|..];
    assert ran.log == b.log + more;
    ToolsTrack(more);
    TrackAppend(InTurn, b.log, more);
    EndsAppend(b.log, more);
    assert Ends(b.log) + [] == Ends(b.log);
  }

  lemma {:induction false} EmitAnswers(calls: seq<ToolCall>, before: Batch, ran: Batch)
    requires Answering(calls, before) && |ran.tasks| == |before.tasks| + 1 <= |calls|
    requires ran.tasks[..|before.tasks|] == before.tasks && ran.tasks[|before.tasks|].Done?
    requires TrackAll(InTurn, ran.log) == InTurn && Ends(ran.log) == Ends(before.log)
    ensures Answering(calls, EmitResult(calls, ran))
  {
    var n := |before.tasks|;
    var result := ResultMessage(calls[n], ran.tasks[n].outcome);
    MessagesPiece([result]);
    TrackAppend(InTurn, ran.log, MessageEvents([result]));
    EndsAppend(ran.log, MessageEvents([result]));
    assert ran.tasks == before.tasks + [ran.tasks[n]];
  }

  lemma {:induction false} SequentialAnswers(calls: seq<ToolCall>, script: seq<CallScript>, b: Batch)
    requires Answering(calls, b)
    ensures var p := SequentialFrom(calls, script, b);
            TrackAll(InTurn, p.batch.log) == InTurn && Answers(calls, Ends(p.batch.log))
    decreases |calls| - |b.tasks|
  {
    var n := |b.tasks|;
    if n < |calls| && n < |script| {
      var ran := RunCall(calls, script[n], b);
      SequentialUnfold(calls, script, b);
      RunCallTracks(calls, script[n], b);
      if ran.tasks[n].Done? {
        EmitAnswers(calls, b, ran);
        SequentialAnswers(calls, script, EmitResult(calls, ran));
      }
    }
  }

  lemma {:induction false} ParallelUnanswered(calls: seq<ToolCall>, script: seq<CallScript>, schedule: seq<Step>)
    requires !Parallel(calls, script, schedule).finished
    ensures var log := Parallel(calls, script, schedule).log; TrackAll(InTurn, log) == InTurn && Ends(log) == []
  {
    var p := PrepareFrom(calls, script, Batch([], []));
    PrepareKeepsShape(calls, script, Batch([], []));
    RunKeepsShape(calls, p.batch, schedule);
    ToolsTrack(Parallel(calls, script, schedule).log);
  }

  /** A batch that has not returned: still inside the turn, with the first calls answered at most. */
  lemma {:induction false} BatchUnderway(t: Turn)
    requires !ExecuteBatch(t).finished
    ensures TrackAll(InTurn, ExecuteBatch(t).log) == InTurn && Answers(t.calls, Ends(ExecuteBatch(t).log))
  {
    if t.stop == Length {
      SequentialAnswers(t.calls, TruncatedScript(t.calls), Batch([], []));
    } else if t.sequential {
      SequentialAnswers(t.calls, t.script, Batch([], []));
    } else {
      ParallelUnanswered(t.calls, t.script, t.schedule);
    }
  }

  /** The batch of turn `t` is under way: the run's completed messages are its new ones and the answers to the
      turn's first calls, which the batch has not returned yet. */
  ghost predicate Underway(t: Turn, s: State) {
    && TrackAll(Fresh, Emitted(s.log)) == InTurn
    && s.newMessages <= Ends(Emitted(s.log))
    && Answers(t.calls, Ends(Emitted(s.log))[|s.newMessages|..])
  }

  /** A run that has not finished stands inside a turn, between two, or in a batch under way. */
  ghost predicate Interrupted(script: seq<Turn>, s: State) {
    || Consistent(s, InTurn)
    || Consistent(s, Between)
    || exists k :: 0 <= k < |script| && Underway(script[k], s)
  }

  lemma {:induction false} TurnUnderway(s: State, t: Turn, first: bool)
    requires Consistent(s, if first then InTurn else Between) && Starts(t.stream) <= 1
    requires TurnStep(s, t, first).next == Unfinished
    ensures Underway(t, TurnStep(s, t, first).state)
  {
    var asked := Asked(s, t, first);
    AskedConsistent(s, t, first);
    BatchInterrupts(asked, t, ExecuteBatch(t).log);
    BatchUnderway(t);
  }

  lemma {:induction false} BatchInterrupts(asked: State, t: Turn, events: seq<Event>)
    requires Consistent(asked, InTurn)
    ensures TrackAll(InTurn, events) == InTurn && Answers(t.calls, Ends(events)) ==>
              Underway(t, asked.(log := asked.log + Emits(events)))
  {
    EmittedAppend(asked.log, Emits(events));
    EmittedEmits(events);
    TrackAppend(Fresh, Emitted(asked.log), events);
    EndsAppend(Emitted(asked.log), events);
    assert (asked.newMessages + Ends(events))[|asked.newMessages|..] == Ends(events);
  }

  ghost predicate StartOnce(script: seq<Turn>) {
    forall i :: 0 <= i < |script| ==> Starts(script[i].stream) <= 1
  }

  lemma {:induction false} FlatConsistent(script: seq<Turn>, i: nat, s: State, first: bool)
    requires i <= |script| && StartOnce(script) && Consistent(s, if first then InTurn else Between)
    ensures var a := Flat(script, i, s, first);
            && a.next != Again
            && (a.next == Finished ==> Consistent(a.state, Ended))
            && (a.next == Unfinished ==> Interrupted(script, a.state))
    decreases |script| - i
  {
    if i < |script| {
      TurnConsistent(s, script[i], first);
      var a := TurnStep(s, script[i], first);
      if a.next == Again {
        FlatConsistent(script, i + 1, a.state, false);
      } else if a.next == Unfinished {
        TurnUnderway(s, script[i], first);
      }
    }
  }

  /** A trace that is not broken never was. */
  lemma {:induction false} PrefixUnbroken(m: Mode, events: seq<Event>, n: nat)
    requires n <= |events| && TrackAll(m, events) != Broken
    ensures TrackAll(m, events[..n]) != Broken
  {
    assert events == events[..n] + events[n..];
    TrackAppend(m, events[..n], events[n..]);
    BrokenStays(events[n..]);
  }

  /** At no moment of any run of a start-once script, finished or not, is the trace outside the grammar. */
  lemma {:induction false} FlatUnbroken(script: seq<Turn>, s: State, n: nat)
    requires StartOnce(script) && Consistent(s, InTurn)
    requires n <= |Emitted(Flat(script, 0, s, true).state.log)|
    ensures TrackAll(Fresh, Emitted(Flat(script, 0, s, true).state.log)[..n]) != Broken
  {
    FlatConsistent(script, 0, s, true);
    PrefixUnbroken(Fresh, Emitted(Flat(script, 0, s, true).state.log), n);
  }

  // ---- No hook swaps the context ----

  ghost predicate NoSwap(t: Turn) {
    t.nextContext.None? && t.requestContext.None? && Starts(t.stream) <= 1
  }

  /** The context is `base` followed by the run's new messages. */
  ghost predicate Grown(base: seq<Message>, s: State) {
    s.context.messages == base + s.newMessages
  }

  lemma {:induction false} AskGrows(base: seq<Message>, s: State, t: Turn)
    requires Grown(base, s) && NoSwap(t)
    ensures Grown(base, Ask(s, t))
  {
    StreamAppends(t.stream, false, s.context.messages, Answer(t));
  }

  lemma {:induction false} SettleGrows(base: seq<Message>, s: State, t: Turn, e: Executed)
    requires Grown(base, s)
    ensures Grown(base, Settle(s, t, e).state)
  {
    assert Grown(base, RunBatch(s, e));
  }

  lemma {:induction false} TurnGrows(base: seq<Message>, s: State, t: Turn, first: bool)
    requires Grown(base, s) && NoSwap(t)
    ensures Grown(base, TurnStep(s, t, first).state)
  {
    var prepared := if first then [] else t.prepared;
    assert Grown(base, Open(s, t, first));
    DeliverGrows(base, Open(s, t, first), prepared);
    AskGrows(base, DeliverPending(Open(s, t, first), prepared), t);
    assert Grown(base, Asked(s, t, first));
    SettleGrows(base, Asked(s, t, first), t, ExecuteBatch(t));
  }

  lemma {:induction false} DeliverGrows(base: seq<Message>, s: State, prepared: seq<Message>)
    requires Grown(base, s)
    ensures Grown(base, DeliverPending(s, prepared))
  {
    GrowsBy(base, s, DeclareToolChanges(s.context, prepared + s.pending));
  }

  lemma {:induction false} GrowsBy(base: seq<Message>, s: State, more: seq<Message>)
    requires Grown(base, s)
    ensures s.context.messages + more == base + (s.newMessages + more)
  {
    Associative(base, s.newMessages, more);
  }

  lemma {:induction false} FlatGrows(base: seq<Message>, script: seq<Turn>, i: nat, s: State, first: bool)
    requires i <= |script| && Grown(base, s) && forall k :: 0 <= k < |script| ==> NoSwap(script[k])
    ensures Grown(base, Flat(script, i, s, first).state)
    decreases |script| - i
  {
    if i < |script| {
      TurnGrows(base, s, script[i], first);
      FlatGrows(base, script, i + 1, TurnStep(s, script[i], first).state, false);
    }
  }

  // ---- Every polled message is delivered, once and in order ----

  function Polled(log: seq<Entry>): seq<Message> {
    if log == [] then []
    else (if log[0].Steering? || log[0].FollowUp? then log[0].polled else []) + Polled(log[1..])
  }

  function Delivered(log: seq<Entry>): seq<Message> {
    if log == [] then []
    else (if log[0].Deliver? then log[0].pending else []) + Delivered(log[1..])
  }

  lemma {:induction false} PolledAppend(a: seq<Entry>, b: seq<Entry>)
    ensures Polled(a + b) == Polled(a) + Polled(b)
    ensures Delivered(a + b) == Delivered(a) + Delivered(b)
  {
    if a == [] {
      assert a + b == b;
    } else {
      assert (a + b)[1..] == a[1..] + b;
      PolledAppend(a[1..], b);
      Associative(if a[0].Steering? || a[0].FollowUp? then a[0].polled else [], Polled(a[1..]), Polled(b));
      Associative(if a[0].Deliver? then a[0].pending else [], Delivered(a[1..]), Delivered(b));
    }
  }

  lemma {:induction false} EmitsPollNothing(events: seq<Event>)
    ensures Polled(Emits(events)) == [] && Delivered(Emits(events)) == []
  {
    if events != [] {
      assert Emits(events)[1..] == Emits(events[1..]);
      EmitsPollNothing(events[1..]);
    }
  }

  lemma {:induction false} PolledOne(log: seq<Entry>, e: Entry)
    ensures Polled(log + [e]) == Polled(log) + (if e.Steering? || e.FollowUp? then e.polled else [])
    ensures Delivered(log + [e]) == Delivered(log) + (if e.Deliver? then e.pending else [])
  {
    PolledAppend(log, [e]);
    assert [e][1..] == [];
  }

  lemma {:induction false} PolledEmits(log: seq<Entry>, events: seq<Event>)
    ensures Polled(log + Emits(events)) == Polled(log)
    ensures Delivered(log + Emits(events)) == Delivered(log)
  {
    PolledAppend(log, Emits(events));
    EmitsPollNothing(events);
  }

  /** What was polled is what was delivered, then what is still pending. */
  ghost predicate Conserved(s: State) {
    Polled(s.log) == Delivered(s.log) + s.pending
  }

  lemma {:induction false} OpenConserves(s: State, t: Turn, first: bool)
    requires Conserved(s)
    ensures Conserved(Open(s, t, first))
  {
    if !first {
      PolledOne(s.log, Steering(t.preparePoll));
      assert s.log + [] == s.log;
      PolledOne(s.log + (if s.pending == [] then [Steering(t.preparePoll)] else []), Emit(TurnStart));
    }
  }

  lemma {:induction false} DeliverConserves(s: State, prepared: seq<Message>)
    requires Conserved(s)
    ensures Conserved(DeliverPending(s, prepared))
  {
    var declared := DeclareToolChanges(s.context, prepared + s.pending);
    var entry := Deliver(prepared, s.pending, declared);
    PolledOne(s.log, entry);
    PolledEmits(s.log + [entry], MessageEvents(declared));
    assert Delivered(s.log) + s.pending + [] == Delivered(s.log) + s.pending;
  }

  lemma {:induction false} AskConserves(s: State, t: Turn)
    requires Conserved(s)
    ensures Conserved(Ask(s, t))
  {
    var entry := Request(t.requestContext.GetOr(s.context).messages);
    PolledOne(s.log, entry);
    PolledEmits(s.log + [entry], StreamEmits(t.stream, false, Answer(t)));
  }

  lemma {:induction false} CloseConserves(s: State, t: Turn, results: seq<Message>)
    requires Conserved(s)
    ensures Conserved(CloseTurn(s, t, results)) && Conserved(EndRun(s).state)
    ensures s.pending == [] ==> Conserved(PollSteering(s, t)) && Conserved(Idle(s, t).state)
  {
    PolledOne(s.log, Emit(TurnEnd(Answer(t), results)));
    PolledOne(s.log, Emit(AgentEnd(s.newMessages)));
    PolledOne(s.log, Steering(t.steeringPoll));
    PolledOne(s.log, FollowUp(t.followUpPoll));
    PolledOne(s.log + [FollowUp(t.followUpPoll)], Emit(AgentEnd(s.newMessages)));
  }

  lemma {:induction false} AskedConserves(s: State, t: Turn, first: bool)
    requires Conserved(s)
    ensures Conserved(Asked(s, t, first)) && Asked(s, t, first).pending == []
  {
    var prepared := if first then [] else t.prepared;
    OpenConserves(s, t, first);
    DeliverConserves(Open(s, t, first), prepared);
    AskConserves(DeliverPending(Open(s, t, first), prepared), t);
  }

  lemma {:induction false} RespondConserves(asked: State, t: Turn)
    requires Conserved(asked) && asked.pending == []
    ensures Conserved(Respond(asked, t).state)
    ensures Respond(asked, t).next == Finished ==> Respond(asked, t).state.pending == []
  {
    var e := ExecuteBatch(t);
    if HardStop(t) {
      CloseConserves(asked, t, []);
      CloseConserves(CloseTurn(asked, t, []), t, []);
    } else if e.finished {
      SettleConserves(asked, t, e);
    } else {
      PolledEmits(asked.log, e.log);
    }
  }

  /** A finished run has nothing pending: whatever was polled has been delivered. */
  lemma {:induction false} TurnConserves(s: State, t: Turn, first: bool)
    requires Conserved(s)
    ensures Conserved(TurnStep(s, t, first).state)
    ensures TurnStep(s, t, first).next == Finished ==> TurnStep(s, t, first).state.pending == []
  {
    AskedConserves(s, t, first);
    RespondConserves(Asked(s, t, first), t);
  }

  lemma {:induction false} SettleConserves(s: State, t: Turn, e: Executed)
    requires Conserved(s) && s.pending == []
    ensures Conserved(Settle(s, t, e).state)
    ensures Settle(s, t, e).next == Finished ==> Settle(s, t, e).state.pending == []
  {
    PolledEmits(s.log, e.log);
    var ran := RunBatch(s, e);
    CloseConserves(ran, t, e.results);
    var closed := CloseTurn(ran, t, e.results);
    CloseConserves(closed, t, []);
    CloseConserves(PollSteering(closed, t), t, []);
  }

  lemma {:induction false} FlatByConserves(step: (State, Turn, bool) -> After, script: seq<Turn>, i: nat, s: State,
                                           first: bool)
    requires i <= |script| && Conserved(s)
    requires forall c, t, f {:trigger step(c, t, f)} :: Conserved(c) ==>
               Conserved(step(c, t, f).state) && (step(c, t, f).next == Finished ==> step(c, t, f).state.pending == [])
    ensures var a := FlatBy(step, script, i, s, first);
            Conserved(a.state) && (a.next == Finished ==> a.state.pending == [])
    decreases |script| - i
  {
    if i < |script| {
      FlatByConserves(step, script, i + 1, step(s, script[i], first).state, false);
    }
  }

  lemma {:induction false} FlatConserves(script: seq<Turn>, i: nat, s: State, first: bool)
    requires i <= |script| && Conserved(s)
    ensures Conserved(Flat(script, i, s, first).state)
    ensures Flat(script, i, s, first).next == Finished ==> Flat(script, i, s, first).state.pending == []
  {
    var step := (c: State, t: Turn, f: bool) => TurnStep(c, t, f);
    forall c: State, t: Turn, f: bool | Conserved(c)
      ensures Conserved(step(c, t, f).state) && (step(c, t, f).next == Finished ==> step(c, t, f).state.pending == [])
    {
      TurnConserves(c, t, f);
    }
    FlatByIsFlat(step, script, i, s, first);
    FlatByConserves(step, script, i, s, first);
  }

  // ---- Deliveries are emitted on the spot ----

  /** Every delivery is followed at once by the events of the messages it declared, and these are
      the prepared and pending messages, up to tool fields and one inserted tool declaration. */
  ghost predicate Delivering(log: seq<Entry>) {
    forall k {:trigger log[k]} :: 0 <= k < |log| && log[k].Deliver? ==>
      && Emits(MessageEvents(log[k].declared)) <= log[k + 1..]
      && Carries(log[k].declared, log[k].prepared + log[k].pending)
  }

  ghost predicate Carries(declared: seq<Message>, given: seq<Message>) {
    || EraseAll(declared) == EraseAll(given)
    || (declared != [] && declared[0].System? && declared[1..] == given)
  }

  lemma {:induction false} DeliveringAppend(a: seq<Entry>, b: seq<Entry>)
    requires Delivering(a) && forall k :: 0 <= k < |b| ==> !b[k].Deliver?
    ensures Delivering(a + b)
  {
    forall k | 0 <= k < |a + b| && (a + b)[k].Deliver?
      ensures Emits(MessageEvents((a + b)[k].declared)) <= (a + b)[k + 1..]
           && Carries((a + b)[k].declared, (a + b)[k].prepared + (a + b)[k].pending)
    {
      assert k < |a| && (a + b)[k] == a[k];
      assert (a + b)[k + 1..] == a[k + 1..] + b;
    }
  }

  lemma {:induction false} DeliveringOne(log: seq<Entry>, entry: Entry)
    requires Delivering(log) && entry.Deliver? && Carries(entry.declared, entry.prepared + entry.pending)
    ensures Delivering(log + [entry] + Emits(MessageEvents(entry.declared)))
  {
    var events := Emits(MessageEvents(entry.declared));
    var all := log + [entry] + events;
    assert all[|log| + 1..] == events;
    forall k | 0 <= k < |all| && all[k].Deliver?
      ensures Emits(MessageEvents(all[k].declared)) <= all[k + 1..]
              && Carries(all[k].declared, all[k].prepared + all[k].pending)
    {
      if k < |log| {
        assert all[k] == log[k];
        assert all[k + 1..] == log[k + 1..] + ([entry] + events);
      }
    }
  }

  lemma {:induction false} DeliverEmits(s: State, prepared: seq<Message>)
    requires Delivering(s.log)
    ensures Delivering(DeliverPending(s, prepared).log)
  {
    var given := prepared + s.pending;
    DeclareKeepsMessages(s.context, given);
    DeliveringOne(s.log, Deliver(prepared, s.pending, DeclareToolChanges(s.context, given)));
  }

  /** The log of `after` is that of `before` and further entries, none of them a delivery. */
  ghost predicate Undelivering(before: State, after: State) {
    before.log <= after.log && forall k :: |before.log| <= k < |after.log| ==> !after.log[k].Deliver?
  }

  lemma {:induction false} UndeliveringKeeps(before: State, after: State)
    requires Delivering(before.log) && Undelivering(before, after)
    ensures Delivering(after.log)
  {
    assert after.log == before.log + after.log[|before.log|..];
    DeliveringAppend(before.log, after.log[|before.log|..]);
  }

  lemma {:induction false} AskedDelivers(s: State, t: Turn, first: bool)
    requires Delivering(s.log)
    ensures Delivering(Asked(s, t, first).log)
  {
    var prepared := if first then [] else t.prepared;
    assert Undelivering(s, Open(s, t, first));
    UndeliveringKeeps(s, Open(s, t, first));
    DeliverEmits(Open(s, t, first), prepared);
    var given := DeliverPending(Open(s, t, first), prepared);
    AskUndelivering(given, t);
    UndeliveringKeeps(given, Ask(given, t));
  }

  lemma {:induction false} AskUndelivering(s: State, t: Turn)
    ensures Undelivering(s, Ask(s, t))
  {
  }

  lemma {:induction false} SettleUndelivering(s: State, t: Turn, e: Executed)
    ensures Undelivering(s, Settle(s, t, e).state)
  {
  }

  lemma {:induction false} TurnDelivers(s: State, t: Turn, first: bool)
    requires Delivering(s.log)
    ensures Delivering(TurnStep(s, t, first).state.log)
  {
    AskedDelivers(s, t, first);
    var asked := Asked(s, t, first);
    RespondUndelivering(asked, t, ExecuteBatch(t));
    UndeliveringKeeps(asked, Respond(asked, t).state);
  }

  /** The whole answer to a turn, its batch being `e`. */
  lemma {:induction false} RespondUndelivering(asked: State, t: Turn, e: Executed)
    requires e == ExecuteBatch(t)
    ensures Undelivering(asked, Respond(asked, t).state)
  {
    SettleUndelivering(asked, t, e);
    if !HardStop(t) && !e.finished {
      assert Respond(asked, t).state == asked.(log := asked.log + Emits(e.log));
    }
  }

  lemma {:induction false} FlatDelivers(script: seq<Turn>, i: nat, s: State, first: bool)
    requires i <= |script| && Delivering(s.log)
    ensures Delivering(Flat(script, i, s, first).state.log)
    decreases |script| - i
  {
    if i < |script| {
      TurnDelivers(s, script[i], first);
      FlatDelivers(script, i + 1, TurnStep(s, script[i], first).state, false);
    }
  }

  // ---- One-at-a-time queues ----

  /** How many messages have been polled since the last provider request. */
  function Burst(log: seq<Entry>): nat {
    if log == [] then 0
    else
      var k := |log| - 1;
      if log[k].Request? then 0
      else Burst(log[..k]) + (if log[k].Steering? || log[k].FollowUp? then |log[k].polled| else 0)
  }

  /** Each request is preceded by at most one newly polled message. */
  ghost predicate Paced(log: seq<Entry>) {
    forall k :: 0 <= k < |log| && log[k].Request? ==> Burst(log[..k]) <= 1
  }

  ghost predicate OneAtATime(t: Turn) {
    |t.preparePoll| <= 1 && |t.steeringPoll| <= 1 && |t.followUpPoll| <= 1
  }

  ghost predicate PacedState(s: State) {
    Paced(s.log) && Burst(s.log) <= |s.pending| <= 1
  }

  lemma {:induction false} BurstOne(log: seq<Entry>, e: Entry)
    ensures Burst(log + [e]) == if e.Request? then 0
                                else Burst(log) + (if e.Steering? || e.FollowUp? then |e.polled| else 0)
    ensures Paced(log) && (e.Request? ==> Burst(log) <= 1) ==> Paced(log + [e])
  {
    var all := log + [e];
    assert all[..|log|] == log;
    if Paced(log) && (e.Request? ==> Burst(log) <= 1) {
      forall k | 0 <= k < |all| && all[k].Request? ensures Burst(all[..k]) <= 1 {
        if k < |log| {
          assert all[..k] == log[..k];
        }
      }
    }
  }

  lemma {:induction false} BurstEmits(log: seq<Entry>, events: seq<Event>)
    ensures Burst(log + Emits(events)) == Burst(log)
    ensures Paced(log) ==> Paced(log + Emits(events))
  {
    if events == [] {
      assert log + Emits(events) == log;
    } else {
      var k := |events| - 1;
      BurstEmits(log, events[..k]);
      assert log + Emits(events) == (log + Emits(events[..k])) + [Emit(events[k])];
      BurstOne(log + Emits(events[..k]), Emit(events[k]));
    }
  }

  lemma {:induction false} OpenPaced(s: State, t: Turn, first: bool)
    requires PacedState(s) && OneAtATime(t)
    ensures PacedState(Open(s, t, first))
  {
    if !first {
      BurstOne(s.log, Steering(t.preparePoll));
      assert s.log + [] == s.log;
      BurstOne(s.log + (if s.pending == [] then [Steering(t.preparePoll)] else []), Emit(TurnStart));
    }
  }

  lemma {:induction false} AskedPaced(s: State, t: Turn, prepared: seq<Message>)
    requires PacedState(s)
    ensures var asked := Ask(DeliverPending(s, prepared), t);
            Paced(asked.log) && Burst(asked.log) == 0 && asked.pending == []
  {
    var given := DeliverPending(s, prepared);
    var declared := DeclareToolChanges(s.context, prepared + s.pending);
    BurstOne(s.log, Deliver(prepared, s.pending, declared));
    BurstEmits(s.log + [Deliver(prepared, s.pending, declared)], MessageEvents(declared));
    var entry := Request(t.requestContext.GetOr(given.context).messages);
    BurstOne(given.log, entry);
    BurstEmits(given.log + [entry], StreamEmits(t.stream, false, Answer(t)));
  }

  lemma {:induction false} SettlePaced(s: State, t: Turn, e: Executed)
    requires Paced(s.log) && Burst(s.log) == 0 && s.pending == [] && OneAtATime(t)
    ensures PacedState(Settle(s, t, e).state)
  {
    BurstEmits(s.log, e.log);
    var ran := RunBatch(s, e);
    BurstOne(ran.log, Emit(TurnEnd(Answer(t), e.results)));
    var closed := CloseTurn(ran, t, e.results);
    BurstOne(closed.log, Emit(AgentEnd(closed.newMessages)));
    BurstOne(closed.log, Steering(t.steeringPoll));
    var polled := PollSteering(closed, t);
    BurstOne(polled.log, FollowUp(t.followUpPoll));
    BurstOne(polled.log + [FollowUp(t.followUpPoll)], Emit(AgentEnd(closed.newMessages)));
  }

  lemma {:induction false} RespondPaced(s: State, t: Turn)
    requires Paced(s.log) && Burst(s.log) == 0 && s.pending == [] && OneAtATime(t)
    ensures PacedState(Respond(s, t).state)
  {
    BurstOne(s.log, Emit(TurnEnd(Answer(t), [])));
    BurstOne(s.log + [Emit(TurnEnd(Answer(t), []))], Emit(AgentEnd(s.newMessages)));
    BurstEmits(s.log, ExecuteBatch(t).log);
    SettlePaced(s, t, ExecuteBatch(t));
  }

  lemma {:induction false} TurnPaced(s: State, t: Turn, first: bool)
    requires PacedState(s) && OneAtATime(t)
    ensures PacedState(TurnStep(s, t, first).state)
  {
    OpenPaced(s, t, first);
    AskedPaced(Open(s, t, first), t, if first then [] else t.prepared);
    RespondPaced(Asked(s, t, first), t);
  }

  lemma {:induction false} FlatPaced(script: seq<Turn>, i: nat, s: State, first: bool)
    requires i <= |script| && PacedState(s) && forall k :: 0 <= k < |script| ==> OneAtATime(script[k])
    ensures PacedState(Flat(script, i, s, first).state)
    decreases |script| - i
  {
    if i < |script| {
      TurnPaced(s, script[i], first);
      FlatPaced(script, i + 1, TurnStep(s, script[i], first).state, false);
    }
  }

  // ---- The entry points ----

  datatype Failure = NoMessages | LastIsAssistant

  datatype RunResult = Ran(after: After) | Raised(error: Failure)

  /** The state in which `_run_loop` starts a run with new prompts, its initial poll included. */
  function StartState(context: Context, prompts: seq<Message>, poll: seq<Message>): State {
    var initial := DeclareToolChanges(context, prompts);
    State(context.(messages := context.messages + initial), initial,
          [Emit(AgentStart), Emit(TurnStart)] + Emits(MessageEvents(initial)) + [Steering(poll)], poll)
  }

  method RunAgentLoop(prompts: seq<Message>, context: Context, poll: seq<Message>, script: seq<Turn>)
    returns (r: RunResult)
    ensures r == Ran(Flat(script, 0, StartState(context, prompts, poll), true))
  {
    var initialMessages := DeclareToolChanges(context, prompts);
    var s := State(context, [], [Emit(AgentStart)], []);
    s := s.(log := s.log + [Emit(TurnStart)]);
    s := EmitMessages(s, initialMessages);
    s := s.(log := s.log + [Steering(poll)], pending := poll);
    assert [] + initialMessages == initialMessages;
    assert [Emit(AgentStart)] + [Emit(TurnStart)] == [Emit(AgentStart), Emit(TurnStart)];
    assert s == StartState(context, prompts, poll);
    var after := RunLoop(s, script);
    r := Ran(after);
  }

  /** The state in which `_run_loop` continues from the context as it is. */
  function ContinueState(context: Context, poll: seq<Message>): State {
    State(context, [], [Emit(AgentStart), Emit(TurnStart), Steering(poll)], poll)
  }

  method RunAgentLoopContinue(context: Context, poll: seq<Message>, script: seq<Turn>) returns (r: RunResult)
    ensures r == if context.messages == [] then Raised(NoMessages)
                 else if context.messages[|context.messages| - 1].Assistant? then Raised(LastIsAssistant)
                 else Ran(Flat(script, 0, ContinueState(context, poll), true))
  {
    if |context.messages| == 0 {
      return Raised(NoMessages);
    }
    if context.messages[|context.messages| - 1].Assistant? {
      return Raised(LastIsAssistant);
    }
    var log := [Emit(AgentStart)] + [Emit(TurnStart)];
    log := log + [Steering(poll)];
    assert log == [Emit(AgentStart), Emit(TurnStart), Steering(poll)];
    var after := RunLoop(State(context, [], log, poll), script);
    r := Ran(after);
  }

  lemma {:induction false} StartConsistent(context: Context, prompts: seq<Message>, poll: seq<Message>)
    ensures Consistent(StartState(context, prompts, poll), InTurn)
    ensures Grown(context.messages, StartState(context, prompts, poll))
  {
    var initial := DeclareToolChanges(context, prompts);
    var opening := [Emit(AgentStart), Emit(TurnStart)];
    OpeningConsistent(context);
    MessagesPiece(initial);
    assert opening + [] == opening && [] + initial == initial;
    AddPiece(State(context, [], opening, []), [], MessageEvents(initial), initial);
    AddSilent(opening + Emits(MessageEvents(initial)), Steering(poll));
  }

  lemma {:induction false} StartConserves(context: Context, prompts: seq<Message>, poll: seq<Message>)
    ensures Conserved(StartState(context, prompts, poll)) && Delivering(StartState(context, prompts, poll).log)
  {
    var initial := DeclareToolChanges(context, prompts);
    var opening := [Emit(AgentStart), Emit(TurnStart)];
    OpeningConsistent(context);
    PolledEmits(opening, MessageEvents(initial));
    PolledOne(opening + Emits(MessageEvents(initial)), Steering(poll));
  }

  lemma {:induction false} StartPaced(context: Context, prompts: seq<Message>, poll: seq<Message>)
    requires |poll| <= 1
    ensures PacedState(StartState(context, prompts, poll))
  {
    var initial := DeclareToolChanges(context, prompts);
    var opening := [Emit(AgentStart), Emit(TurnStart)];
    OpeningConsistent(context);
    BurstEmits(opening, MessageEvents(initial));
    BurstOne(opening + Emits(MessageEvents(initial)), Steering(poll));
  }

  lemma {:induction false} OpeningConsistent(context: Context)
    ensures Consistent(State(context, [], [Emit(AgentStart), Emit(TurnStart)], []), InTurn)
    ensures Polled([Emit(AgentStart), Emit(TurnStart)]) == [] && Delivered([Emit(AgentStart), Emit(TurnStart)]) == []
    ensures Burst([Emit(AgentStart), Emit(TurnStart)]) == 0
  {
    var one := [Emit(AgentStart)];
    assert [] + one == one && one + [Emit(TurnStart)] == [Emit(AgentStart), Emit(TurnStart)];
    AddEvent([], AgentStart);
    AddEvent(one, TurnStart);
    PolledOne([], Emit(AgentStart));
    PolledOne(one, Emit(TurnStart));
    BurstOne([], Emit(AgentStart));
    BurstOne(one, Emit(TurnStart));
  }

  /** Every finished run with new prompts: a well-formed trace whose message_end payloads are the
      run's new messages. */
  lemma {:induction false} RunTrace(context: Context, prompts: seq<Message>, poll: seq<Message>, script: seq<Turn>)
    requires StartOnce(script)
    requires Flat(script, 0, StartState(context, prompts, poll), true).next == Finished
    ensures var s := Flat(script, 0, StartState(context, prompts, poll), true).state;
            && TrackAll(Fresh, Emitted(s.log)) == Ended
            && Ends(Emitted(s.log)) == s.newMessages
            && ((forall i :: 0 <= i < |script| ==> NoSwap(script[i])) ==>
                  s.context.messages == context.messages + s.newMessages)
  {
    var start := StartState(context, prompts, poll);
    StartConsistent(context, prompts, poll);
    FlatConsistent(script, 0, start, true);
    if forall i :: 0 <= i < |script| ==> NoSwap(script[i]) {
      FlatGrows(context.messages, script, 0, start, true);
    }
  }

  /** Every run with new prompts at every moment, whether or not it finishes: the trace so far is in the grammar,
      and an unfinished run has completed its new messages and at most the answers of the batch under way. */
  lemma {:induction false} RunTraceSoFar(context: Context, prompts: seq<Message>, poll: seq<Message>,
                                         script: seq<Turn>, n: nat)
    requires StartOnce(script)
    requires n <= |Emitted(Flat(script, 0, StartState(context, prompts, poll), true).state.log)|
    ensures var a := Flat(script, 0, StartState(context, prompts, poll), true);
            && TrackAll(Fresh, Emitted(a.state.log)[..n]) != Broken
            && (a.next == Finished || Interrupted(script, a.state))
  {
    var start := StartState(context, prompts, poll);
    StartConsistent(context, prompts, poll);
    FlatConsistent(script, 0, start, true);
    FlatUnbroken(script, start, n);
  }

  /** Every finished run: the polled messages, in poll order, are the delivered ones, and each
      delivery is emitted on the spot. */
  lemma {:induction false} RunDeliversPolls(context: Context, prompts: seq<Message>, poll: seq<Message>,
                                            script: seq<Turn>)
    requires Flat(script, 0, StartState(context, prompts, poll), true).next == Finished
    ensures var s := Flat(script, 0, StartState(context, prompts, poll), true).state;
            Polled(s.log) == Delivered(s.log) && Delivering(s.log)
  {
    StartConserves(context, prompts, poll);
    DeliversFrom(StartState(context, prompts, poll), script);
  }

  lemma {:induction false} DeliversFrom(start: State, script: seq<Turn>)
    requires Conserved(start) && Delivering(start.log) && Flat(script, 0, start, true).next == Finished
    ensures var s := Flat(script, 0, start, true).state; Polled(s.log) == Delivered(s.log) && Delivering(s.log)
  {
    FlatConserves(script, 0, start, true);
    FlatDelivers(script, 0, start, true);
    var s := Flat(script, 0, start, true).state;
    assert Delivered(s.log) + [] == Delivered(s.log);
  }

  /** With one-at-a-time queues each request follows at most one newly polled message. */
  lemma {:induction false} RunPaces(context: Context, prompts: seq<Message>, poll: seq<Message>, script: seq<Turn>)
    requires |poll| <= 1 && forall k :: 0 <= k < |script| ==> OneAtATime(script[k])
    ensures Paced(Flat(script, 0, StartState(context, prompts, poll), true).state.log)
  {
    StartPaced(context, prompts, poll);
    FlatPaced(script, 0, StartState(context, prompts, poll), true);
  }

  lemma {:induction false} ContinueConsistent(context: Context, poll: seq<Message>)
    ensures Consistent(ContinueState(context, poll), InTurn) && Grown(context.messages, ContinueState(context, poll))
    ensures Conserved(ContinueState(context, poll))
    ensures |poll| <= 1 ==> PacedState(ContinueState(context, poll))
  {
    var opening := [Emit(AgentStart), Emit(TurnStart)];
    OpeningConsistent(context);
    assert opening + [Steering(poll)] == [Emit(AgentStart), Emit(TurnStart), Steering(poll)];
    AddSilent(opening, Steering(poll));
    PolledOne(opening, Steering(poll));
    BurstOne(opening, Steering(poll));
  }

  /** The same for every finished run that continues a context: the trace, the deliveries and the pace. */
  lemma {:induction false} ContinueTrace(context: Context, poll: seq<Message>, script: seq<Turn>)
    requires StartOnce(script)
    requires Flat(script, 0, ContinueState(context, poll), true).next == Finished
    ensures var s := Flat(script, 0, ContinueState(context, poll), true).state;
            && TrackAll(Fresh, Emitted(s.log)) == Ended
            && Ends(Emitted(s.log)) == s.newMessages
            && ((forall i :: 0 <= i < |script| ==> NoSwap(script[i])) ==>
                  s.context.messages == context.messages + s.newMessages)
  {
    var start := ContinueState(context, poll);
    ContinueConsistent(context, poll);
    FlatConsistent(script, 0, start, true);
    if forall i :: 0 <= i < |script| ==> NoSwap(script[i]) {
      FlatGrows(context.messages, script, 0, start, true);
    }
  }

  lemma {:induction false} ContinueTraceSoFar(context: Context, poll: seq<Message>, script: seq<Turn>, n: nat)
    requires StartOnce(script)
    requires n <= |Emitted(Flat(script, 0, ContinueState(context, poll), true).state.log)|
    ensures var a := Flat(script, 0, ContinueState(context, poll), true);
            && TrackAll(Fresh, Emitted(a.state.log)[..n]) != Broken
            && (a.next == Finished || Interrupted(script, a.state))
  {
    var start := ContinueState(context, poll);
    ContinueConsistent(context, poll);
    FlatConsistent(script, 0, start, true);
    FlatUnbroken(script, start, n);
  }

  lemma {:induction false} ContinueDeliversPolls(context: Context, poll: seq<Message>, script: seq<Turn>)
    requires Flat(script, 0, ContinueState(context, poll), true).next == Finished
    ensures var s := Flat(script, 0, ContinueState(context, poll), true).state;
            Polled(s.log) == Delivered(s.log) && Delivering(s.log)
  {
    ContinueConsistent(context, poll);
    DeliversFrom(ContinueState(context, poll), script);
  }

  lemma {:induction false} ContinuePaces(context: Context, poll: seq<Message>, script: seq<Turn>)
    requires |poll| <= 1 && forall k :: 0 <= k < |script| ==> OneAtATime(script[k])
    ensures Paced(Flat(script, 0, ContinueState(context, poll), true).state.log)
  {
    ContinueConsistent(context, poll);
    FlatPaced(script, 0, ContinueState(context, poll), true);
  }
}
