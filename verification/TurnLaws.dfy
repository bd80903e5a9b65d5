/** What one turn of the agent loop shows to its listeners, its queues and the provider, and when
    another request follows it: laws over the turn's log, in terms of what the environment answered. */
module TurnLaws {
  import opened Prelude
  import opened Transcript
  import opened ToolBatch
  import opened BatchLaws
  import opened AgentLoop
  import opened AgentLoopTheorems

  // ---- The batch of a turn ----

  /** Whatever the mode, the end events of a finished batch tell its results and its flag; without
      tool calls there is nothing to tell. */
  lemma {:induction false} BatchTells(t: Turn)
    requires ExecuteBatch(t).finished
    ensures t.calls != [] ==> EndsTell(t.calls, ExecuteBatch(t)) && ExecuteBatch(t).results != []
    ensures t.calls == [] ==> ExecuteBatch(t) == Executed([], [], true, true)
  {
    if t.stop == Length {
      SequentialTells(t.calls, TruncatedScript(t.calls));
    } else if t.sequential {
      SequentialTells(t.calls, t.script);
    } else {
      ParallelTells(t.calls, t.script, t.schedule);
    }
  }

  /** A tool ended without asking the agent to stop. */
  ghost predicate GoesOn(log: seq<Event>) {
    exists i: nat, o :: ToolEnd(i, o) in log && !o.terminate
  }

  lemma {:induction false} TellsGoesOn(calls: seq<ToolCall>, e: Executed)
    requires EndsTell(calls, e) && e.results != []
    ensures GoesOn(e.log) <==> !e.terminate
  {
    assert BatchLaws.Ended(e.log, 0);
  }

  lemma {:induction false} BatchGoesOn(t: Turn)
    requires ExecuteBatch(t).finished
    ensures GoesOn(ExecuteBatch(t).log) <==> !ExecuteBatch(t).terminate
  {
    BatchTells(t);
    if t.calls != [] {
      TellsGoesOn(t.calls, ExecuteBatch(t));
    } else {
      assert !GoesOn([]);
    }
  }

  /** Another request follows a turn exactly when the answer stopped neither with an error nor with
      an abort, its batch came to its end, the turn was not ended, and a tool went on, a message was
      queued or a continuation was asked for. */
  lemma {:induction false} AnotherRequest(s: State, t: Turn, first: bool)
    ensures TurnStep(s, t, first).next == Again <==>
              && t.stop != Error && t.stop != Aborted && ExecuteBatch(t).finished && t.decision != End
              && (|| (exists i: nat, o :: ToolEnd(i, o) in ExecuteBatch(t).log && !o.terminate)
                  || |t.steeringPoll| > 0 || |t.followUpPoll| > 0 || t.decision == Continue)
  {
    var asked, e := Asked(s, t, first), ExecuteBatch(t);
    if e.finished {
      BatchGoesOn(t);
      assert GoesOn(e.log) <==> exists i: nat, o :: ToolEnd(i, o) in e.log && !o.terminate;
      SettleAgain(asked, t, e);
    }
  }

  lemma {:induction false} SettleAgain(s: State, t: Turn, e: Executed)
    ensures Settle(s, t, e).next == Again <==>
              t.decision != End
              && (!e.terminate || |t.steeringPoll| > 0 || |t.followUpPoll| > 0 || t.decision == Continue)
  {
  }

  /** A message cut off by the token limit: none of its calls runs. Each is started, ended with an
      error at once and answered by it, and the turn goes on. */
  lemma {:induction false} LengthRunsNothing(t: Turn)
    requires t.stop == Length && t.calls != []
    ensures var e := ExecuteBatch(t);
            && e.finished && !e.terminate && |e.results| == |t.calls|
            && (forall i: nat :: i < |t.calls| ==>
                  exists o: Outcome ::
                    && o.isError && !o.terminate
                    && History(e.log, i) == [ToolStart(i, t.calls[i]), ToolEnd(i, o)]
                    && e.results[i] == ToolResult(t.calls[i].id, t.calls[i].name, o.content, true))
  {
    TruncatedRunsNothing(t.calls);
  }

  /** A sequential batch shows each call's events and then its result before the next call starts; a
      parallel one shows its results, in source order, after every tool event. */
  lemma {:induction false} BatchMode(t: Turn)
    requires t.calls != [] && ExecuteBatch(t).finished
    ensures var e := ExecuteBatch(t);
            if t.sequential || t.stop == Length then
              exists tasks :: Complete(t.calls, tasks, e) && e.log == SequentialLog(t.calls, tasks, e.log)
            else
              exists toolLog :: AllTool(toolLog) && e.log == toolLog + MessageEvents(e.results)
  {
    if t.stop == Length {
      SequentialComplete(t.calls, TruncatedScript(t.calls));
    } else if t.sequential {
      SequentialComplete(t.calls, t.script);
    } else {
      ParallelComplete(t.calls, t.script, t.schedule);
    }
  }

  // ---- What a streamed answer shows ----

  /** The partial messages of the deltas before the terminal event. */
  function Partials(events: seq<StreamEvent>): seq<Message> {
    if events == [] || events[0].Terminal? then []
    else (if events[0].Delta? then [events[0].partial] else []) + Partials(events[1..])
  }

  function MessageUpdates(partials: seq<Message>): seq<Event> {
    seq(|partials|, i requires 0 <= i < |partials| => MessageUpdate(partials[i]))
  }

  lemma {:induction false} OpenStreamShows(events: seq<StreamEvent>, final: Message)
    requires Starts(events) == 0
    ensures StreamEmits(events, true, final) == MessageUpdates(Partials(events)) + [MessageEnd(final)]
  {
    if events == [] || events[0].Terminal? {
      assert MessageUpdates([]) == [];
    } else {
      OpenStreamShows(events[1..], final);
      var rest := Partials(events[1..]);
      if events[0].Delta? {
        assert MessageUpdates([events[0].partial] + rest) == [MessageUpdate(events[0].partial)] + MessageUpdates(rest);
      } else {
        assert Partials(events) == rest;
      }
    }
  }

  /** A response that starts once shows its start, an update for each later delta, and the answer; one
      that never starts shows the answer alone, whatever deltas it has. */
  lemma {:induction false} StreamShows(events: seq<StreamEvent>, final: Message, k: nat)
    requires k <= |events| && Starts(events[..k]) == 0 && (forall i :: 0 <= i < k ==> !events[i].Terminal?)
    ensures k < |events| && events[k].Started? && Starts(events[k + 1..]) == 0 ==>
              StreamEmits(events, false, final)
              == [MessageStart(events[k].partial)] + MessageUpdates(Partials(events[k + 1..])) + [MessageEnd(final)]
    ensures k == |events| || events[k].Terminal? ==>
              StreamEmits(events, false, final) == [MessageStart(final), MessageEnd(final)]
  {
    if k > 0 {
      assert events[..k][1..] == events[1..][..k - 1];
      StreamShows(events[1..], final, k - 1);
      assert k < |events| ==> events[1..][k..] == events[k + 1..];
      assert !events[..k][0].Started?;
    } else if events != [] && events[0].Started? && Starts(events[1..]) == 0 {
      OpenStreamShows(events[1..], final);
    }
  }

  // ---- What a turn shows ----

  /** What a turn writes up to its answer: `polled` while it was prepared, its start, the delivery and
      the messages it declared, the request, and the streamed answer. */
  ghost predicate OpensWith(s: State, t: Turn, first: bool, log: seq<Entry>, declared: seq<Message>,
                            requested: seq<Message>, streamed: seq<Event>) {
    var polls := !first && s.pending == [];
    log == s.log
           + (if polls then [Steering(t.preparePoll)] else [])
           + (if first then [] else [Emit(TurnStart)])
           + [Deliver(if first then [] else t.prepared, if polls then t.preparePoll else s.pending, declared)]
           + Emits(MessageEvents(declared))
           + [Request(requested)]
           + Emits(streamed)
  }

  /** The context a turn works on: the prepared one if there is one. */
  function Base(s: State, t: Turn, first: bool): Context {
    if !first && t.nextContext.Some? then t.nextContext.value else s.context
  }

  /** The messages a turn delivers, prepared ones first. */
  function Given(s: State, t: Turn, first: bool): seq<Message> {
    (if first then [] else t.prepared) + (if !first && s.pending == [] then t.preparePoll else s.pending)
  }

  /** What the provider is asked, the declared messages being part of the context by then. */
  function Asking(s: State, t: Turn, first: bool, declared: seq<Message>): seq<Message> {
    if t.requestContext.Some? then t.requestContext.value.messages else Base(s, t, first).messages + declared
  }

  /** One turn up to its answer. The declared messages carry every prepared and polled message; the
      request shows the prepared request's messages or the context with the declared messages, which
      then replays to the executable tools; the answer ends the streamed events and is recorded. */
  lemma {:induction false} TurnOpens(s: State, t: Turn, first: bool)
    ensures exists declared, streamed ::
              && OpensWith(s, t, first, Asked(s, t, first).log, declared, Asking(s, t, first, declared), streamed)
              && Carries(declared, Given(s, t, first))
              && Declared(Base(s, t, first), declared)
              && streamed != [] && streamed[|streamed| - 1] == MessageEnd(Assistant(t.text, t.calls, t.stop))
              && Asked(s, t, first).newMessages == s.newMessages + declared + [Assistant(t.text, t.calls, t.stop)]
              && Asked(s, t, first).pending == []
  {
    OpensSo(s, t, first, DeclareToolChanges(Base(s, t, first), Given(s, t, first)));
    DeclareCarries(Base(s, t, first), Given(s, t, first));
    StreamEnds(t.stream, false, Answer(t));
  }

  /** Replaying the context with the declared messages gives the executable tools. */
  ghost predicate Declared(context: Context, declared: seq<Message>) {
    DistinctNames(context.tools) ==> SameTools(Replay(context.messages + declared), context.tools)
  }

  lemma {:induction false} DeclareCarries(context: Context, given: seq<Message>)
    ensures Carries(DeclareToolChanges(context, given), given)
    ensures Declared(context, DeclareToolChanges(context, given))
  {
    DeclareKeepsMessages(context, given);
    if DistinctNames(context.tools) {
      DeclaredReplay(context, given);
    }
  }

  /** A run with new prompts starts with the events of the declared prompts, which carry them, and its first
      poll. */
  lemma {:induction false} StartShows(context: Context, prompts: seq<Message>, poll: seq<Message>)
    ensures exists declared ::
              var s := StartState(context, prompts, poll);
              && Carries(declared, prompts) && Declared(context, declared)
              && s.log == [Emit(AgentStart), Emit(TurnStart)] + Emits(MessageEvents(declared)) + [Steering(poll)]
              && s.newMessages == declared && s.pending == poll
              && s.context == context.(messages := context.messages + declared)
  {
    DeclareCarries(context, prompts);
  }

  lemma {:induction false} PreparedSo(s: State, t: Turn, first: bool)
    ensures var polls := !first && s.pending == [];
            && Open(s, t, first).context == Base(s, t, first)
            && Open(s, t, first).newMessages == s.newMessages
            && Open(s, t, first).pending == (if polls then t.preparePoll else s.pending)
            && Open(s, t, first).log == s.log + (if polls then [Steering(t.preparePoll)] else [])
                                        + (if first then [] else [Emit(TurnStart)])
  {
    assert s.log + [] == s.log;
  }

  lemma {:induction false} OpensSo(s: State, t: Turn, first: bool, declared: seq<Message>)
    requires declared == DeclareToolChanges(Base(s, t, first), Given(s, t, first))
    ensures OpensWith(s, t, first, Asked(s, t, first).log, declared, Asking(s, t, first, declared),
                      StreamEmits(t.stream, false, Answer(t)))
    ensures Asked(s, t, first).newMessages == s.newMessages + declared + [Answer(t)]
    ensures Asked(s, t, first).pending == []
  {
    PreparedSo(s, t, first);
    AsksSo(Open(s, t, first), t, if first then [] else t.prepared, declared);
  }

  lemma {:induction false} AsksSo(s: State, t: Turn, prepared: seq<Message>, declared: seq<Message>)
    requires declared == DeclareToolChanges(s.context, prepared + s.pending)
    ensures var asked := Ask(DeliverPending(s, prepared), t);
            && asked.log == s.log + [Deliver(prepared, s.pending, declared)] + Emits(MessageEvents(declared))
                            + [Request(if t.requestContext.Some? then t.requestContext.value.messages
                                       else s.context.messages + declared)]
                            + Emits(StreamEmits(t.stream, false, Answer(t)))
            && asked.newMessages == s.newMessages + declared + [Answer(t)]
            && asked.pending == []
  {
  }

  lemma {:induction false} StreamEnds(events: seq<StreamEvent>, open: bool, final: Message)
    ensures var emitted := StreamEmits(events, open, final);
            emitted != [] && emitted[|emitted| - 1] == MessageEnd(final)
            && forall k :: 0 <= k < |emitted| ==> !IsToolEvent(emitted[k])
  {
    if events != [] && !events[0].Terminal? {
      StreamEnds(events[1..], open || events[0].Started?, final);
    }
  }

  /** What a turn writes after its answer: its tools' events and result messages, its end, and then
      the polls and the end of the run as far as it comes to them. */
  ghost predicate ClosesWith(t: Turn, asked: State, a: After, tools: seq<Event>) {
    var results := Ends(tools);
    var ends := [Emit(AgentEnd(a.state.newMessages))];
    a.state.log
    == asked.log + Emits(tools) + [Emit(TurnEnd(Assistant(t.text, t.calls, t.stop), results))]
       + if t.stop == Error || t.stop == Aborted || t.decision == End then ends
         else [Steering(t.steeringPoll)]
              + if GoesOn(tools) || |t.steeringPoll| > 0 then []
                else [FollowUp(t.followUpPoll)]
                     + if |t.followUpPoll| > 0 || t.decision == Continue then [] else ends
  }

  ghost predicate Closes(s: State, t: Turn, first: bool, a: After, tools: seq<Event>) {
    var asked, results := Asked(s, t, first), Ends(tools);
    var stops := t.stop == Error || t.stop == Aborted;
    && ClosesWith(t, asked, a, tools)
    && (stops || t.calls == [] ==> tools == [])
    && (forall i: nat, o :: ToolEnd(i, o) in tools ==>
          && i < |t.calls| && i < |results|
          && results[i] == ToolResult(t.calls[i].id, t.calls[i].name, o.content, o.isError))
    && a.state.newMessages == asked.newMessages + results
    && a.state.context == asked.context.(messages := asked.context.messages + results)
    && a.state.pending == (if stops || t.decision == End then []
                           else if GoesOn(tools) || |t.steeringPoll| > 0 then t.steeringPoll
                           else t.followUpPoll)
  }

  lemma {:induction false} SettleCloses(s: State, t: Turn, first: bool, e: Executed)
    requires t.stop != Error && t.stop != Aborted && e.finished && e.results == Ends(e.log)
    requires GoesOn(e.log) <==> !e.terminate
    requires t.calls != [] ==> EndsTell(t.calls, e)
    requires t.calls == [] ==> e.log == []
    ensures Closes(s, t, first, Settle(Asked(s, t, first), t, e), e.log)
  {
    SettleWrites(Asked(s, t, first), t, e);
  }

  lemma {:induction false} SettleWrites(asked: State, t: Turn, e: Executed)
    requires t.stop != Error && t.stop != Aborted && e.finished && e.results == Ends(e.log)
    requires (GoesOn(e.log) <==> !e.terminate) && asked.pending == []
    ensures ClosesWith(t, asked, Settle(asked, t, e), e.log)
    ensures var a := Settle(asked, t, e);
            && a.state.newMessages == asked.newMessages + Ends(e.log)
            && a.state.context == asked.context.(messages := asked.context.messages + Ends(e.log))
            && a.state.pending == (if t.decision == End then []
                                   else if GoesOn(e.log) || |t.steeringPoll| > 0 then t.steeringPoll
                                   else t.followUpPoll)
  {
  }

  /** One turn after its answer: the turn's end carries exactly the result messages completed since
      the answer, which join the context and the run's new messages. A turn that stopped with an error
      or an abort runs no tool, polls nothing and ends the run. */
  lemma {:induction false} TurnCloses(s: State, t: Turn, first: bool)
    requires TurnStep(s, t, first).next != Unfinished
    ensures exists tools :: Closes(s, t, first, TurnStep(s, t, first), tools)
  {
    if t.stop == Error || t.stop == Aborted {
      StopCloses(s, t, first);
      assert Closes(s, t, first, TurnStep(s, t, first), []);
    } else {
      var e := ExecuteBatch(t);
      BatchTells(t);
      BatchGoesOn(t);
      BatchPiece(t);
      SettleCloses(s, t, first, e);
      assert Closes(s, t, first, TurnStep(s, t, first), e.log);
    }
  }

  lemma {:induction false} StopCloses(s: State, t: Turn, first: bool)
    requires t.stop == Error || t.stop == Aborted
    ensures Closes(s, t, first, TurnStep(s, t, first), [])
  {
    assert Ends([]) == [];
    assert Asked(s, t, first).log + Emits([]) == Asked(s, t, first).log;
  }
}
