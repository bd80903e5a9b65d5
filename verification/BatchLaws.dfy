/** What a batch of tool calls means to whoever reads its log and its results, said without the
    executors' own bookkeeping: when it asks the agent to stop, what each result carries, and
    where an outcome and its updates come from. */
module BatchLaws {
  import opened Prelude
  import opened Transcript
  import opened ToolBatch

  lemma {:induction false} HistoryHas(log: seq<Event>, e: Event)
    requires IsToolEvent(e)
    ensures e in log <==> e in History(log, e.index)
  {
    if log != [] {
      var n := |log| - 1;
      HistoryHas(log[..n], e);
      assert log == log[..n] + [log[n]];
    }
  }

  /** The end events of a finished batch: one for each finalized call, none for the others. */
  lemma {:induction false} EndsOf(calls: seq<ToolCall>, tasks: seq<Task>, e: Executed, i: nat, o: Outcome)
    requires Complete(calls, tasks, e)
    ensures ToolEnd(i, o) in e.log <==> i < |tasks| && o == tasks[i].outcome
  {
    HistoryHas(e.log, ToolEnd(i, o));
    if i < |tasks| {
      assert Shape(e.log, i, calls[i], tasks[i]);
      assert History(e.log, i)[|tasks[i].accepted| + 1] == ToolEnd(i, tasks[i].outcome);
    }
  }

  ghost predicate Ended(log: seq<Event>, i: nat) {
    exists o :: ToolEnd(i, o) in log
  }

  /** What the end events of a batch tell: the batch asks the agent to stop exactly when some call
      ended and every end event asks for it, and result `i` is the message of call `i`'s end. */
  ghost predicate EndsTell(calls: seq<ToolCall>, e: Executed) {
    && (e.terminate <==> && (exists i: nat, o :: ToolEnd(i, o) in e.log)
                         && (forall i: nat, o :: ToolEnd(i, o) in e.log ==> o.terminate))
    && |e.results| <= |calls|
    && (forall i: nat, o :: ToolEnd(i, o) in e.log ==>
          i < |e.results| && e.results[i] == ToolResult(calls[i].id, calls[i].name, o.content, o.isError))
    && (forall i :: 0 <= i < |e.results| ==> Ended(e.log, i))
  }

  lemma {:induction false} CompleteTells(calls: seq<ToolCall>, tasks: seq<Task>, e: Executed)
    requires Complete(calls, tasks, e)
    ensures EndsTell(calls, e)
  {
    forall i: nat, o ensures ToolEnd(i, o) in e.log <==> i < |tasks| && o == tasks[i].outcome {
      EndsOf(calls, tasks, e, i, o);
    }
    assert e.terminate == ShouldTerminate(tasks);
    assert forall i :: 0 <= i < |tasks| ==> ToolEnd(i, tasks[i].outcome) in e.log;
    assert |tasks| > 0 ==> ToolEnd(0, tasks[0].outcome) in e.log;
    forall i: nat | i < |tasks| ensures Ended(e.log, i) {
      assert ToolEnd(i, tasks[i].outcome) in e.log;
    }
  }

  /** Every finished sequential batch. */
  lemma {:induction false} SequentialTells(calls: seq<ToolCall>, script: seq<CallScript>)
    requires Sequential(calls, script).finished
    ensures EndsTell(calls, Sequential(calls, script))
    ensures calls != [] ==> Sequential(calls, script).results != []
  {
    SequentialComplete(calls, script);
    var tasks :| Complete(calls, tasks, Sequential(calls, script)) && Cut(calls, script, |tasks|);
    CompleteTells(calls, tasks, Sequential(calls, script));
  }

  /** Every finished parallel batch, for every interleaving of its tasks. */
  lemma {:induction false} ParallelTells(calls: seq<ToolCall>, script: seq<CallScript>, schedule: seq<Step>)
    requires Parallel(calls, script, schedule).finished
    ensures EndsTell(calls, Parallel(calls, script, schedule))
    ensures calls != [] ==> Parallel(calls, script, schedule).results != []
  {
    ParallelComplete(calls, script, schedule);
    var tasks :| Complete(calls, tasks, Parallel(calls, script, schedule)) && Cut(calls, script, |tasks|);
    CompleteTells(calls, tasks, Parallel(calls, script, schedule));
  }

  // ---- Where outcomes and updates come from ----

  function Accepted(t: Task): seq<string> {
    if t.Waiting? then [] else t.accepted
  }

  /** The updates call `i` sends while its tool runs. */
  function SentBy(b: Batch, schedule: seq<Step>, i: nat): seq<string>
    requires i < |b.tasks|
    decreases |schedule|
  {
    if schedule == [] then []
    else
      var s := schedule[0];
      (if s.Send? && s.index == i && b.tasks[i].Executing? then [s.partial] else [])
      + SentBy(Advance(b, s), schedule[1..], i)
  }

  /** No interleaving of the tasks adds, loses or reorders an update of a running tool. */
  lemma {:induction false} UpdatesAreSent(b: Batch, schedule: seq<Step>, i: nat)
    requires i < |b.tasks|
    ensures Accepted(Run(b, schedule).tasks[i]) == Accepted(b.tasks[i]) + SentBy(b, schedule, i)
    decreases |schedule|
  {
    if schedule == [] {
      assert Accepted(b.tasks[i]) + [] == Accepted(b.tasks[i]);
    } else {
      var b' := Advance(b, schedule[0]);
      UpdatesAreSent(b', schedule[1..], i);
      AcceptedStep(b, schedule[0], i);
      Associative(Accepted(b.tasks[i]), Accepted(b'.tasks[i])[|Accepted(b.tasks[i])|..],
                  SentBy(b', schedule[1..], i));
    }
  }

  lemma {:induction false} AcceptedStep(b: Batch, s: Step, i: nat)
    requires i < |b.tasks|
    ensures Accepted(Advance(b, s).tasks[i])
            == Accepted(b.tasks[i])
               + (if s.Send? && s.index == i && b.tasks[i].Executing? then [s.partial] else [])
  {
    assert Accepted(b.tasks[i]) + [] == Accepted(b.tasks[i]);
  }

  /** A call's task runs only from its own uncancelled begin on. */
  lemma {:induction false} ConcludedBy(b: Batch, schedule: seq<Step>, i: nat)
    requires i < |b.tasks| && Run(b, schedule).tasks[i].Done?
    ensures var o := Run(b, schedule).tasks[i].outcome;
            || b.tasks[i] == Run(b, schedule).tasks[i]
            || (!b.tasks[i].Done? && Finish(i, o) in schedule)
            || (b.tasks[i].Waiting? && Begin(i, true) in schedule && o == Outcome("Operation aborted", true, false))
    decreases |schedule|
  {
    if schedule != [] {
      var s, b' := schedule[0], Advance(b, schedule[0]);
      ConcludedBy(b', schedule[1..], i);
      assert schedule == [s] + schedule[1..];
      assert b'.tasks[i] == b.tasks[i] || s.index == i;
    }
  }

  /** Where the end event of a parallel call comes from: its preparation refused it, the token was
      cancelled when its task began, or its task finished with that outcome. */
  lemma {:induction false} ParallelEndsFrom(calls: seq<ToolCall>, script: seq<CallScript>, schedule: seq<Step>, i: nat,
                                            o: Outcome)
    requires Parallel(calls, script, schedule).finished
    requires ToolEnd(i, o) in Parallel(calls, script, schedule).log
    ensures i < |script|
    ensures if script[i].preparation.Immediate? then o == script[i].preparation.outcome
            else || Finish(i, o) in schedule
                 || (Begin(i, true) in schedule && o == Outcome("Operation aborted", true, false))
  {
    var p := PrepareFrom(calls, script, Batch([], []));
    PrepareKeepsShape(calls, script, Batch([], []));
    PreparedTasks(calls, script, Batch([], []));
    RunKeepsShape(calls, p.batch, schedule);
    var b, e := Run(p.batch, schedule), Parallel(calls, script, schedule);
    EmitKeepsShape(calls, b, e.results);
    assert Complete(calls, b.tasks, e);
    EndsOf(calls, b.tasks, e, i, o);
    ConcludedBy(p.batch, schedule, i);
  }

  lemma {:induction false} PreparedTasks(calls: seq<ToolCall>, script: seq<CallScript>, b: Batch)
    requires |b.tasks| <= |calls| && |b.tasks| <= |script|
    requires forall i :: 0 <= i < |b.tasks| ==>
               b.tasks[i] == match script[i].preparation { case Immediate(o) => Done([], o) case Prepared => Waiting }
    ensures var tasks := PrepareFrom(calls, script, b).batch.tasks;
            && |tasks| <= |script|
            && (forall i :: 0 <= i < |tasks| ==>
                  tasks[i] == match script[i].preparation { case Immediate(o) => Done([], o) case Prepared => Waiting })
    decreases |calls| - |b.tasks|
  {
    var n := |b.tasks|;
    if n < |calls| && n < |script| && !script[n].cancelled {
      PreparedTasks(calls, script, PrepareCall(calls, script[n], b));
    }
  }

  ghost predicate EndsExplained(script: seq<CallScript>, b: Batch) {
    && |b.tasks| <= |script|
    && forall i :: 0 <= i < |b.tasks| ==>
         && b.tasks[i].Done?
         && match script[i].preparation {
              case Immediate(o) => b.tasks[i].outcome == o
              case Prepared => Finish(i, b.tasks[i].outcome) in script[i].steps
            }
  }

  lemma {:induction false} RunCallExplained(calls: seq<ToolCall>, script: seq<CallScript>, b: Batch)
    requires EndsExplained(script, b) && |b.tasks| < |calls| && |b.tasks| < |script|
    requires RunCall(calls, script[|b.tasks|], b).tasks[|b.tasks|].Done?
    ensures EndsExplained(script, EmitResult(calls, RunCall(calls, script[|b.tasks|], b)))
  {
    var n, ran := |b.tasks|, RunCall(calls, script[|b.tasks|], b);
    RunCallExtends(calls, script[n], b);
    assert forall i :: 0 <= i < n ==> ran.tasks[i] == ran.tasks[..n][i];
    if script[n].preparation.Prepared? {
      ConcludedBy(Advance(Start(calls, b), Begin(n, false)), script[n].steps, n);
    }
  }

  /** The same for a sequential call, whose task is always begun. */
  lemma {:induction false} SequentialEndsFrom(calls: seq<ToolCall>, script: seq<CallScript>, i: nat, o: Outcome)
    requires Sequential(calls, script).finished && ToolEnd(i, o) in Sequential(calls, script).log
    ensures i < |script|
    ensures if script[i].preparation.Immediate? then o == script[i].preparation.outcome
            else Finish(i, o) in script[i].steps
  {
    var start := Batch([], []);
    forall c: Batch | EndsExplained(script, c) && |c.tasks| < |calls| && |c.tasks| < |script|
                      && RunCall(calls, script[|c.tasks|], c).tasks[|c.tasks|].Done?
      ensures EndsExplained(script, EmitResult(calls, RunCall(calls, script[|c.tasks|], c)))
    {
      RunCallExplained(calls, script, c);
    }
    SequentialInduct(calls, script, start, c => EndsExplained(script, c));
    assert ResultMessages(calls, []) == [];
    SequentialRun(calls, script, start);
    var p := SequentialFrom(calls, script, start);
    assert p.batch.log + [] == p.batch.log;
    EndsOf(calls, p.batch.tasks, Sequential(calls, script), i, o);
  }

  // ---- A message cut off by the token limit ----

  lemma {:induction false} TruncatedNext(calls: seq<ToolCall>, n: nat, i: nat)
    requires n < |calls|
    ensures History(TruncatedLog(calls, n + 1), i)
            == History(TruncatedLog(calls, n), i)
               + if i == n then [ToolStart(n, calls[n]), ToolEnd(n, TruncatedOutcome(calls[n]))] else []
  {
    var o := TruncatedOutcome(calls[n]);
    var message := ResultMessage(calls[n], o);
    var tools := [ToolStart(n, calls[n]), ToolEnd(n, o)];
    CallHistory(tools, n, message);
    assert MessageEvents([message]) == [MessageStart(message), MessageEnd(message)];
    assert TruncatedLog(calls, n + 1) == TruncatedLog(calls, n) + (tools + MessageEvents([message]));
    HistoryAppend(TruncatedLog(calls, n), tools + MessageEvents([message]), i);
  }

  lemma {:induction false} TruncatedHistory(calls: seq<ToolCall>, n: nat, i: nat)
    requires n <= |calls|
    ensures History(TruncatedLog(calls, n), i)
            == if i < n then [ToolStart(i, calls[i]), ToolEnd(i, TruncatedOutcome(calls[i]))] else []
  {
    if n > 0 {
      TruncatedHistory(calls, n - 1, i);
      TruncatedNext(calls, n - 1, i);
    }
  }

  /** No call of a truncated message runs: each is started and ended with an error at once, without
      an update, and is answered by that error. */
  lemma {:induction false} TruncatedRunsNothing(calls: seq<ToolCall>)
    ensures var e := Sequential(calls, TruncatedScript(calls));
            && e.finished && !e.terminate && |e.results| == |calls|
            && (forall i: nat :: i < |calls| ==>
                  exists o: Outcome :: && o.isError && !o.terminate
                              && History(e.log, i) == [ToolStart(i, calls[i]), ToolEnd(i, o)]
                              && e.results[i] == ToolResult(calls[i].id, calls[i].name, o.content, true))
  {
    TruncatedNeverStops(calls);
    var e := Sequential(calls, TruncatedScript(calls));
    forall i: nat | i < |calls|
      ensures exists o: Outcome :: && o.isError && !o.terminate
                          && History(e.log, i) == [ToolStart(i, calls[i]), ToolEnd(i, o)]
                          && e.results[i] == ToolResult(calls[i].id, calls[i].name, o.content, true)
    {
      TruncatedHistory(calls, |calls|, i);
      var o := TruncatedOutcome(calls[i]);
      assert History(e.log, i) == [ToolStart(i, calls[i]), ToolEnd(i, o)];
    }
  }
}
