/** One assistant message's batch of tool calls, executed one after the other or in parallel.
    Every environment choice (preparations, results, delivered updates, cancellation, and the
    interleaving of the tasks) is a script; the theorems hold for every script, so for every run. */
module ToolBatch {
  import opened Prelude
  import opened Transcript

  datatype Outcome = Outcome(content: string, isError: bool, terminate: bool)

  /** Events of the agent loop. A tool event names its call by its position in the message:
      a provider may repeat call ids. */
  datatype Event =
    | AgentStart
    | TurnStart
    | MessageStart(message: Message)
    | MessageUpdate(message: Message)
    | MessageEnd(message: Message)
    | ToolStart(index: nat, call: ToolCall)
    | ToolUpdate(index: nat, partial: string)
    | ToolEnd(index: nat, outcome: Outcome)
    | TurnEnd(message: Message, results: seq<Message>)
    | AgentEnd(messages: seq<Message>)

  /** Where one call stands. `accepted` is every update its tool got into the channel, `delivered`
      the part its forwarder has emitted and `queue` the part still in the channel. */
  datatype Task =
    | Waiting
    | Executing(accepted: seq<string>, delivered: seq<string>, queue: seq<string>)
    | Settling(accepted: seq<string>, delivered: seq<string>, queue: seq<string>, outcome: Outcome)
    | Finalizing(accepted: seq<string>, outcome: Outcome)
    | Done(accepted: seq<string>, outcome: Outcome)

  /** One atomic step of a call's task. */
  datatype Step =
    | Begin(index: nat, cancelled: bool)
    | Send(index: nat, partial: string)
    | Forward(index: nat)
    | Return(index: nat, outcome: Outcome)
    | Join(index: nat)
    | Finish(index: nat, outcome: Outcome)

  datatype Batch = Batch(tasks: seq<Task>, log: seq<Event>)

  const ABORTED := Outcome("Operation aborted", true, false)

  /** A call that ends without its tool having run. */
  function Conclude(b: Batch, i: nat, o: Outcome): Batch
    requires i < |b.tasks|
  {
    Batch(b.tasks[i := Done([], o)], b.log + [ToolEnd(i, o)])
  }

  /** A step that is not enabled changes nothing. An update sent after the sentinel is never
      delivered, so `Send` counts only while the tool runs. */
  function Advance(b: Batch, s: Step): (r: Batch)
    ensures |r.tasks| == |b.tasks|
  {
    if s.index >= |b.tasks| then b
    else
      var i, t := s.index, b.tasks[s.index];
      match s
      case Begin(_, cancelled) =>
        if t != Waiting then b
        else if cancelled then Conclude(b, i, ABORTED)
        else b.(tasks := b.tasks[i := Executing([], [], [])])
      case Send(_, p) =>
        if t.Executing? then b.(tasks := b.tasks[i := Executing(t.accepted + [p], t.delivered, t.queue + [p])]) else b
      case Forward(_) =>
        if (t.Executing? || t.Settling?) && t.queue != []
        then Batch(b.tasks[i := t.(delivered := t.delivered + [t.queue[0]], queue := t.queue[1..])],
                   b.log + [ToolUpdate(i, t.queue[0])])
        else b
      case Return(_, o) =>
        if t.Executing? then b.(tasks := b.tasks[i := Settling(t.accepted, t.delivered, t.queue, o)]) else b
      case Join(_) =>
        if t.Settling? && t.queue == [] then b.(tasks := b.tasks[i := Finalizing(t.accepted, t.outcome)]) else b
      case Finish(_, o) =>
        if t.Finalizing? then Batch(b.tasks[i := Done(t.accepted, o)], b.log + [ToolEnd(i, o)]) else b
  }

  function Run(b: Batch, schedule: seq<Step>): (r: Batch)
    ensures |r.tasks| == |b.tasks|
    decreases |schedule|
  {
    if schedule == [] then b else Run(Advance(b, schedule[0]), schedule[1..])
  }

  // ---- What the log says about each call ----

  /** The tool events of call `i`, in order. */
  function History(log: seq<Event>, i: nat): seq<Event> {
    if log == [] then []
    else
      var e := log[|log| - 1];
      History(log[..|log| - 1], i)
      + (if (e.ToolStart? || e.ToolUpdate? || e.ToolEnd?) && e.index == i then [e] else [])
  }

  function Updates(i: nat, partials: seq<string>): seq<Event> {
    seq(|partials|, k requires 0 <= k < |partials| => ToolUpdate(i, partials[k]))
  }

  /** The history a call must have at each stage: its start, the updates delivered so far in the
      order they were sent, and its end once it is done. */
  ghost predicate Shape(log: seq<Event>, i: nat, call: ToolCall, t: Task) {
    match t
    case Waiting => History(log, i) == [ToolStart(i, call)]
    case Executing(accepted, delivered, queue) =>
      accepted == delivered + queue && History(log, i) == [ToolStart(i, call)] + Updates(i, delivered)
    case Settling(accepted, delivered, queue, _) =>
      accepted == delivered + queue && History(log, i) == [ToolStart(i, call)] + Updates(i, delivered)
    case Finalizing(accepted, _) => History(log, i) == [ToolStart(i, call)] + Updates(i, accepted)
    case Done(accepted, o) => History(log, i) == [ToolStart(i, call)] + Updates(i, accepted) + [ToolEnd(i, o)]
  }

  ghost predicate WellLogged(calls: seq<ToolCall>, b: Batch) {
    && |b.tasks| <= |calls|
    && (forall i :: 0 <= i < |b.tasks| ==> Shape(b.log, i, calls[i], b.tasks[i]))
    && (forall i :: i >= |b.tasks| ==> History(b.log, i) == [])
  }

  predicate IsToolEvent(e: Event) {
    e.ToolStart? || e.ToolUpdate? || e.ToolEnd?
  }

  /** The final messages of a log, and the log without tool events. */
  function Ends(log: seq<Event>): seq<Message> {
    if log == [] then []
    else
      var e := log[|log| - 1];
      Ends(log[..|log| - 1]) + (if e.MessageEnd? then [e.message] else [])
  }

  lemma {:induction false} HistoryAppend(a: seq<Event>, b: seq<Event>, i: nat)
    ensures History(a + b, i) == History(a, i) + History(b, i)
  {
    if b == [] {
      assert a + b == a;
    } else {
      assert (a + b)[..|a + b| - 1] == a + b[..|b| - 1];
      HistoryAppend(a, b[..|b| - 1], i);
    }
  }

  lemma {:induction false} EndsAppend(a: seq<Event>, b: seq<Event>)
    ensures Ends(a + b) == Ends(a) + Ends(b)
  {
    if b == [] {
      assert a + b == a;
    } else {
      assert (a + b)[..|a + b| - 1] == a + b[..|b| - 1];
      EndsAppend(a, b[..|b| - 1]);
    }
  }

  ghost predicate AllTool(log: seq<Event>) {
    forall k :: 0 <= k < |log| ==> IsToolEvent(log[k])
  }

  lemma {:induction false} HistoryOne(log: seq<Event>, e: Event, i: nat)
    ensures History(log + [e], i) == History(log, i) + (if IsToolEvent(e) && e.index == i then [e] else [])
  {
    assert (log + [e])[..|log|] == log;
  }

  lemma {:induction false} EndsOne(log: seq<Event>, e: Event)
    ensures Ends(log + [e]) == Ends(log) + (if e.MessageEnd? then [e.message] else [])
  {
    assert (log + [e])[..|log|] == log;
  }

  /** One more tool event, of call `n`. */
  lemma {:induction false} OneToolEvent(log: seq<Event>, e: Event, n: nat)
    requires IsToolEvent(e) && e.index == n
    ensures Ends(log + [e]) == Ends(log)
    ensures AllTool(log) ==> AllTool(log + [e])
    ensures forall i: nat :: History(log + [e], i) == History(log, i) + (if i == n then [e] else [])
  {
    EndsOne(log, e);
    assert Ends(log) + [] == Ends(log);
    forall i: nat ensures History(log + [e], i) == History(log, i) + (if i == n then [e] else []) {
      HistoryOne(log, e, i);
    }
  }

  /** Every step, of whichever task, keeps every call's history in shape and emits no message. */
  lemma {:induction false} AdvanceKeepsShape(calls: seq<ToolCall>, b: Batch, s: Step)
    requires WellLogged(calls, b)
    ensures WellLogged(calls, Advance(b, s))
    ensures Ends(Advance(b, s).log) == Ends(b.log)
    ensures AllTool(b.log) ==> AllTool(Advance(b, s).log)
  {
    var b' := Advance(b, s);
    if b' != b {
      var i, t, t' := s.index, b.tasks[s.index], b'.tasks[s.index];
      if b'.log != b.log {
        var e := b'.log[|b.log|];
        assert b'.log == b.log + [e];
        OneToolEvent(b.log, e, i);
      }
      assert Shape(b.log, i, calls[i], t);
      StepShape(b, s, calls[i]);
    }
  }

  lemma {:induction false} StepShape(b: Batch, s: Step, call: ToolCall)
    requires s.index < |b.tasks| && Advance(b, s) != b
    requires Shape(b.log, s.index, call, b.tasks[s.index])
    ensures Shape(Advance(b, s).log, s.index, call, Advance(b, s).tasks[s.index])
  {
    var i, t := s.index, b.tasks[s.index];
    match s {
      case Begin(_, _) => BeginShape(b.log, i, call);
      case Send(_, p) => assert t.accepted + [p] == t.delivered + (t.queue + [p]);
      case Forward(_) => ForwardTask(b, i, call);
      case Return(_, _) =>
      case Join(_) => assert t.delivered + [] == t.delivered;
      case Finish(_, o) => HistoryOne(b.log, ToolEnd(i, o), i);
    }
  }

  lemma {:induction false} ForwardTask(b: Batch, i: nat, call: ToolCall)
    requires i < |b.tasks| && Advance(b, Forward(i)) != b && Shape(b.log, i, call, b.tasks[i])
    ensures Shape(Advance(b, Forward(i)).log, i, call, Advance(b, Forward(i)).tasks[i])
  {
    var t := b.tasks[i];
    ForwardShape(b.log, i, call, t.delivered, t.queue[0]);
    assert t.queue == [t.queue[0]] + t.queue[1..];
    Associative(t.delivered, [t.queue[0]], t.queue[1..]);
  }

  lemma {:induction false} BeginShape(log: seq<Event>, i: nat, call: ToolCall)
    requires History(log, i) == [ToolStart(i, call)]
    ensures History(log, i) == [ToolStart(i, call)] + Updates(i, [])
    ensures History(log + [ToolEnd(i, ABORTED)], i) == [ToolStart(i, call)] + Updates(i, []) + [ToolEnd(i, ABORTED)]
  {
    assert Updates(i, []) == [];
    HistoryOne(log, ToolEnd(i, ABORTED), i);
  }

  lemma {:induction false} ForwardShape(log: seq<Event>, i: nat, call: ToolCall, delivered: seq<string>, p: string)
    requires History(log, i) == [ToolStart(i, call)] + Updates(i, delivered)
    ensures History(log + [ToolUpdate(i, p)], i) == [ToolStart(i, call)] + Updates(i, delivered + [p])
  {
    HistoryOne(log, ToolUpdate(i, p), i);
    UpdatesSnoc(i, delivered, p);
  }

  lemma {:induction false} UpdatesSnoc(i: nat, partials: seq<string>, p: string)
    ensures Updates(i, partials + [p]) == Updates(i, partials) + [ToolUpdate(i, p)]
  {
  }

  lemma {:induction false} RunKeepsShape(calls: seq<ToolCall>, b: Batch, schedule: seq<Step>)
    requires WellLogged(calls, b)
    ensures WellLogged(calls, Run(b, schedule))
    ensures Ends(Run(b, schedule).log) == Ends(b.log)
    ensures AllTool(b.log) ==> AllTool(Run(b, schedule).log)
    decreases |schedule|
  {
    if schedule != [] {
      AdvanceKeepsShape(calls, b, schedule[0]);
      RunKeepsShape(calls, Advance(b, schedule[0]), schedule[1..]);
    }
  }

  // ---- The two executors ----

  datatype Preparation = Immediate(outcome: Outcome) | Prepared

  /** What the environment does around one call: its preparation, the steps of its task (used by
      the sequential executor), and whether the token is cancelled after it. */
  datatype CallScript = CallScript(preparation: Preparation, steps: seq<Step>, cancelled: bool)

  /** `finished` is false when the script ends before every started call is done: a prefix of a run. */
  datatype Executed = Executed(log: seq<Event>, results: seq<Message>, terminate: bool, finished: bool)

  predicate AllDone(tasks: seq<Task>) {
    forall i :: 0 <= i < |tasks| ==> tasks[i].Done?
  }

  function ResultMessage(call: ToolCall, o: Outcome): Message {
    ToolResult(call.id, call.name, o.content, o.isError)
  }

  function ResultMessages(calls: seq<ToolCall>, tasks: seq<Task>): seq<Message>
    requires |tasks| <= |calls| && AllDone(tasks)
  {
    seq(|tasks|, i requires 0 <= i < |tasks| => ResultMessage(calls[i], tasks[i].outcome))
  }

  function MessageEvents(messages: seq<Message>): seq<Event> {
    if messages == [] then []
    else [MessageStart(messages[0]), MessageEnd(messages[0])] + MessageEvents(messages[1..])
  }

  predicate ShouldTerminate(tasks: seq<Task>)
    requires AllDone(tasks)
  {
    |tasks| > 0 && forall i :: 0 <= i < |tasks| ==> tasks[i].outcome.terminate
  }

  lemma {:induction false} MessageEventsEnds(messages: seq<Message>)
    ensures Ends(MessageEvents(messages)) == messages
    ensures forall i: nat :: History(MessageEvents(messages), i) == []
  {
    if messages != [] {
      var m, rest := messages[0], MessageEvents(messages[1..]);
      MessageEventsEnds(messages[1..]);
      var start, end := [MessageStart(m)], [MessageEnd(m)];
      assert MessageEvents(messages) == start + (end + rest);
      EndsAppend(start, end + rest);
      EndsAppend(end, rest);
      EndsOne([], MessageStart(m));
      EndsOne([], MessageEnd(m));
      assert [] + start == start && [] + end == end;
      forall i: nat ensures History(MessageEvents(messages), i) == [] {
        HistoryAppend(start, end + rest, i);
        HistoryAppend(end, rest, i);
        HistoryOne([], MessageStart(m), i);
        HistoryOne([], MessageEnd(m), i);
      }
    }
  }

  lemma {:induction false} MessageEventsAppend(a: seq<Message>, b: seq<Message>)
    ensures MessageEvents(a + b) == MessageEvents(a) + MessageEvents(b)
  {
    if a == [] {
      assert a + b == b;
    } else {
      assert (a + b)[1..] == a[1..] + b;
      MessageEventsAppend(a[1..], b);
    }
  }

  function Start(calls: seq<ToolCall>, b: Batch): Batch
    requires |b.tasks| < |calls|
  {
    Batch(b.tasks + [Waiting], b.log + [ToolStart(|b.tasks|, calls[|b.tasks|])])
  }

  lemma {:induction false} StartKeepsShape(calls: seq<ToolCall>, b: Batch)
    requires WellLogged(calls, b) && |b.tasks| < |calls|
    ensures WellLogged(calls, Start(calls, b))
    ensures Ends(Start(calls, b).log) == Ends(b.log)
    ensures AllTool(b.log) ==> AllTool(Start(calls, b).log)
  {
    var n, b' := |b.tasks|, Start(calls, b);
    OneToolEvent(b.log, ToolStart(n, calls[n]), n);
    assert History(b.log, n) == [];
    forall i | 0 <= i < |b'.tasks| ensures Shape(b'.log, i, calls[i], b'.tasks[i]) {
      if i < n {
        SameHistory(b.log, b'.log, i, calls[i], b'.tasks[i]);
      }
    }
  }

  lemma {:induction false} ConcludeKeepsShape(calls: seq<ToolCall>, b: Batch, n: nat, o: Outcome)
    requires WellLogged(calls, b) && n < |b.tasks| && b.tasks[n] == Waiting
    ensures WellLogged(calls, Conclude(b, n, o))
    ensures Ends(Conclude(b, n, o).log) == Ends(b.log)
    ensures AllTool(b.log) ==> AllTool(Conclude(b, n, o).log)
  {
    var b' := Conclude(b, n, o);
    OneToolEvent(b.log, ToolEnd(n, o), n);
    assert Updates(n, []) == [];
    assert Shape(b.log, n, calls[n], Waiting);
    forall i | 0 <= i < |b'.tasks| ensures Shape(b'.log, i, calls[i], b'.tasks[i]) {
      if i != n {
        assert Shape(b.log, i, calls[i], b.tasks[i]);
        SameHistory(b.log, b'.log, i, calls[i], b'.tasks[i]);
      }
    }
  }

  lemma {:induction false} SameHistory(a: seq<Event>, b: seq<Event>, i: nat, call: ToolCall, t: Task)
    requires Shape(a, i, call, t) && History(a, i) == History(b, i)
    ensures Shape(b, i, call, t)
  {
  }

  /** Emitting result messages leaves every call's history alone. */
  lemma {:induction false} EmitKeepsShape(calls: seq<ToolCall>, b: Batch, messages: seq<Message>)
    requires WellLogged(calls, b)
    ensures WellLogged(calls, b.(log := b.log + MessageEvents(messages)))
    ensures Ends(b.log + MessageEvents(messages)) == Ends(b.log) + messages
  {
    var log := b.log + MessageEvents(messages);
    MessageEventsEnds(messages);
    EndsAppend(b.log, MessageEvents(messages));
    forall i: nat ensures History(log, i) == History(b.log, i) {
      HistoryAppend(b.log, MessageEvents(messages), i);
    }
    forall i | 0 <= i < |b.tasks| ensures Shape(log, i, calls[i], b.tasks[i]) {
      SameHistory(b.log, log, i, calls[i], b.tasks[i]);
    }
  }

  /** What a finished batch promises, whichever executor ran it: one complete history per finalized
      call, none for the others, and the results are those calls' results in source order. */
  ghost predicate Complete(calls: seq<ToolCall>, tasks: seq<Task>, e: Executed) {
    && WellLogged(calls, Batch(tasks, e.log))
    && AllDone(tasks)
    && e.results == ResultMessages(calls, tasks)
    && Ends(e.log) == e.results
    && e.terminate == ShouldTerminate(tasks)
  }

  /** The whole list, or the calls up to the first after which the token was found cancelled. */
  ghost predicate Cut(calls: seq<ToolCall>, script: seq<CallScript>, n: nat) {
    && n <= |calls| && n <= |script|
    && (forall i :: 0 <= i < n - 1 ==> !script[i].cancelled)
    && (n < |calls| ==> n > 0 && script[n - 1].cancelled)
  }

  datatype Progress = Progress(batch: Batch, finished: bool)

  /** A call opened by the sequential executor: started, and run to the end of its own steps. */
  function RunCall(calls: seq<ToolCall>, c: CallScript, b: Batch): (r: Batch)
    requires |b.tasks| < |calls|
    ensures |r.tasks| == |b.tasks| + 1
  {
    var n, started := |b.tasks|, Start(calls, b);
    match c.preparation
    case Immediate(o) => Conclude(started, n, o)
    case Prepared => Run(Advance(started, Begin(n, false)), c.steps)
  }

  /** A finished call's result message, emitted right after its last event. */
  function EmitResult(calls: seq<ToolCall>, ran: Batch): Batch
    requires 0 < |ran.tasks| <= |calls| && ran.tasks[|ran.tasks| - 1].Done?
  {
    var n := |ran.tasks| - 1;
    ran.(log := ran.log + MessageEvents([ResultMessage(calls[n], ran.tasks[n].outcome)]))
  }

  function SequentialFrom(calls: seq<ToolCall>, script: seq<CallScript>, b: Batch): Progress
    requires |b.tasks| <= |calls|
    decreases |calls| - |b.tasks|
  {
    var n := |b.tasks|;
    if n == |calls| then Progress(b, true)
    else if n >= |script| then Progress(b, false)
    else
      var ran := RunCall(calls, script[n], b);
      if !ran.tasks[n].Done? then Progress(ran, false)
      else
        var emitted := EmitResult(calls, ran);
        if script[n].cancelled then Progress(emitted, true) else SequentialFrom(calls, script, emitted)
  }

  /** A call opened by the parallel executor: started, and concluded at once if it cannot run. */
  function PrepareCall(calls: seq<ToolCall>, c: CallScript, b: Batch): (r: Batch)
    requires |b.tasks| < |calls|
    ensures |r.tasks| == |b.tasks| + 1
  {
    match c.preparation
    case Immediate(o) => Conclude(Start(calls, b), |b.tasks|, o)
    case Prepared => Start(calls, b)
  }

  function PrepareFrom(calls: seq<ToolCall>, script: seq<CallScript>, b: Batch): Progress
    requires |b.tasks| <= |calls|
    decreases |calls| - |b.tasks|
  {
    var n := |b.tasks|;
    if n == |calls| then Progress(b, true)
    else if n >= |script| then Progress(b, false)
    else
      var prepared := PrepareCall(calls, script[n], b);
      if script[n].cancelled then Progress(prepared, true) else PrepareFrom(calls, script, prepared)
  }

  function Package(calls: seq<ToolCall>, p: Progress, emit: bool): Executed {
    if p.finished && AllDone(p.batch.tasks) && |p.batch.tasks| <= |calls| then
      var results := ResultMessages(calls, p.batch.tasks);
      Executed(p.batch.log + (if emit then MessageEvents(results) else []), results,
               ShouldTerminate(p.batch.tasks), true)
    else Executed(p.batch.log, [], false, false)
  }

  function Sequential(calls: seq<ToolCall>, script: seq<CallScript>): Executed {
    Package(calls, SequentialFrom(calls, script, Batch([], [])), false)
  }

  function Parallel(calls: seq<ToolCall>, script: seq<CallScript>, schedule: seq<Step>): Executed {
    var p := PrepareFrom(calls, script, Batch([], []));
    if !p.finished then Package(calls, p, true)
    else Package(calls, Progress(Run(p.batch, schedule), true), true)
  }

  lemma {:induction false} RunCallKeepsShape(calls: seq<ToolCall>, c: CallScript, b: Batch)
    requires WellLogged(calls, b) && |b.tasks| < |calls|
    ensures WellLogged(calls, RunCall(calls, c, b))
    ensures Ends(RunCall(calls, c, b).log) == Ends(b.log)
  {
    var n, started := |b.tasks|, Start(calls, b);
    StartKeepsShape(calls, b);
    match c.preparation
    case Immediate(o) => ConcludeKeepsShape(calls, started, n, o);
    case Prepared =>
      AdvanceKeepsShape(calls, started, Begin(n, false));
      RunKeepsShape(calls, Advance(started, Begin(n, false)), c.steps);
  }

  ghost predicate Belongs(more: seq<Event>, n: nat) {
    forall k :: 0 <= k < |more| ==> IsToolEvent(more[k]) && more[k].index == n
  }

  ghost predicate Extends(a: seq<Event>, b: seq<Event>, n: nat) {
    a <= b && Belongs(b[|a|..], n)
  }

  lemma {:induction false} ExtendsTransitive(a: seq<Event>, b: seq<Event>, c: seq<Event>, n: nat)
    requires Extends(a, b, n) && Extends(b, c, n)
    ensures Extends(a, c, n)
  {
    assert c[|a|..] == b[|a|..] + c[|b|..];
  }

  lemma {:induction false} AdvanceOnlyLive(b: Batch, s: Step, n: nat)
    requires n == |b.tasks| - 1 && AllDone(b.tasks[..n])
    ensures Advance(b, s).tasks[..n] == b.tasks[..n]
    ensures Extends(b.log, Advance(b, s).log, n)
  {
    assert s.index < n ==> b.tasks[..n][s.index].Done?;
    if Advance(b, s).log != b.log {
      assert Advance(b, s).log[|b.log|..] == [Advance(b, s).log[|b.log|]];
    }
  }

  /** Only the call being run moves: finished tasks and events of other calls stay as they are. */
  lemma {:induction false} RunOnlyLive(b: Batch, schedule: seq<Step>, n: nat)
    requires n == |b.tasks| - 1 && AllDone(b.tasks[..n])
    ensures Run(b, schedule).tasks[..n] == b.tasks[..n]
    ensures Extends(b.log, Run(b, schedule).log, n)
    decreases |schedule|
  {
    if schedule != [] {
      var b' := Advance(b, schedule[0]);
      AdvanceOnlyLive(b, schedule[0], n);
      RunOnlyLive(b', schedule[1..], n);
      ExtendsTransitive(b.log, b'.log, Run(b', schedule[1..]).log, n);
    }
  }

  lemma {:induction false} BelongsHistory(more: seq<Event>, n: nat, i: nat)
    requires Belongs(more, n)
    ensures History(more, i) == if i == n then more else []
  {
    if more != [] {
      var k := |more| - 1;
      BelongsHistory(more[..k], n, i);
      assert more == more[..k] + [more[k]];
    }
  }

  /** The whole sequential log, call by call: its history, then its result message. */
  ghost function SequentialLog(calls: seq<ToolCall>, tasks: seq<Task>, log: seq<Event>): seq<Event>
    requires |tasks| <= |calls| && AllDone(tasks)
  {
    if tasks == [] then []
    else
      var n := |tasks| - 1;
      SequentialLog(calls, tasks[..n], log)
      + History(log, n) + MessageEvents([ResultMessage(calls[n], tasks[n].outcome)])
  }

  lemma {:induction false} SequentialLogExtends(calls: seq<ToolCall>, tasks: seq<Task>, log: seq<Event>,
                                                more: seq<Event>)
    requires |tasks| <= |calls| && AllDone(tasks)
    requires forall i: nat :: i < |tasks| ==> History(more, i) == []
    ensures SequentialLog(calls, tasks, log + more) == SequentialLog(calls, tasks, log)
  {
    if tasks != [] {
      SequentialLogExtends(calls, tasks[..|tasks| - 1], log, more);
      HistoryAppend(log, more, |tasks| - 1);
    }
  }

  ghost predicate SequentialSoFar(calls: seq<ToolCall>, script: seq<CallScript>, b: Batch) {
    && WellLogged(calls, b) && AllDone(b.tasks)
    && Ends(b.log) == ResultMessages(calls, b.tasks)
    && b.log == SequentialLog(calls, b.tasks, b.log)
    && |b.tasks| <= |script|
  }

  lemma {:induction false} CallHistory(more: seq<Event>, n: nat, result: Message)
    requires Belongs(more, n)
    ensures forall i: nat :: History(more + MessageEvents([result]), i) == if i == n then more else []
  {
    MessageEventsEnds([result]);
    forall i: nat ensures History(more + MessageEvents([result]), i) == if i == n then more else [] {
      HistoryAppend(more, MessageEvents([result]), i);
      BelongsHistory(more, n, i);
    }
  }

  lemma {:induction false} SequentialLogUnfold(calls: seq<ToolCall>, tasks: seq<Task>, t: Task, log: seq<Event>)
    requires |tasks| < |calls| && AllDone(tasks) && t.Done?
    ensures SequentialLog(calls, tasks + [t], log)
            == SequentialLog(calls, tasks, log) + History(log, |tasks|)
               + MessageEvents([ResultMessage(calls[|tasks|], t.outcome)])
  {
    assert (tasks + [t])[..|tasks|] == tasks;
  }

  lemma {:induction false} SequentialLogNext(calls: seq<ToolCall>, tasks: seq<Task>, t: Task, log: seq<Event>,
                                             more: seq<Event>)
    requires |tasks| < |calls| && AllDone(tasks) && t.Done? && Belongs(more, |tasks|)
    requires log == SequentialLog(calls, tasks, log) && History(log, |tasks|) == []
    ensures var whole := log + more + MessageEvents([ResultMessage(calls[|tasks|], t.outcome)]);
            whole == SequentialLog(calls, tasks + [t], whole)
  {
    var n, result := |tasks|, ResultMessage(calls[|tasks|], t.outcome);
    var tail := more + MessageEvents([result]);
    var whole := log + more + MessageEvents([result]);
    assert whole == log + tail;
    CallHistory(more, n, result);
    assert SequentialLog(calls, tasks, whole) == log by {
      SequentialLogExtends(calls, tasks, log, tail);
    }
    assert History(whole, n) == more by {
      HistoryAppend(log, tail, n);
    }
    SequentialLogUnfold(calls, tasks, t, whole);
  }

  lemma {:induction false} SequentialCall(calls: seq<ToolCall>, script: seq<CallScript>, b: Batch)
    requires SequentialSoFar(calls, script, b)
    requires |b.tasks| < |calls| && |b.tasks| < |script|
    requires RunCall(calls, script[|b.tasks|], b).tasks[|b.tasks|].Done?
    ensures SequentialSoFar(calls, script, EmitResult(calls, RunCall(calls, script[|b.tasks|], b)))
  {
    var n := |b.tasks|;
    var ran := RunCall(calls, script[n], b);
    RunCallExtends(calls, script[n], b);
    RunCallKeepsShape(calls, script[n], b);
    var more := ran.log[|b.log|..];
    assert ran.log == b.log + more && ran.tasks == b.tasks + [ran.tasks[n]];
    ResultEmitted(calls, b.tasks, ran);
    SequentialLogNext(calls, b.tasks, ran.tasks[n], b.log, more);
  }

  /** A finished call's result message completes its results. */
  lemma {:induction false} ResultEmitted(calls: seq<ToolCall>, before: seq<Task>, ran: Batch)
    requires WellLogged(calls, ran) && AllDone(before) && |ran.tasks| == |before| + 1
    requires ran.tasks == before + [ran.tasks[|before|]] && ran.tasks[|before|].Done?
    requires Ends(ran.log) == ResultMessages(calls, before)
    ensures AllDone(ran.tasks)
    ensures var result := ResultMessage(calls[|before|], ran.tasks[|before|].outcome);
            var whole := ran.log + MessageEvents([result]);
            Ends(whole) == ResultMessages(calls, ran.tasks) && WellLogged(calls, Batch(ran.tasks, whole))
  {
    var result := ResultMessage(calls[|before|], ran.tasks[|before|].outcome);
    EmitKeepsShape(calls, ran, [result]);
    assert ResultMessages(calls, ran.tasks) == ResultMessages(calls, before) + [result];
  }

  lemma {:induction false} RunCallExtends(calls: seq<ToolCall>, c: CallScript, b: Batch)
    requires AllDone(b.tasks) && |b.tasks| < |calls|
    ensures RunCall(calls, c, b).tasks[..|b.tasks|] == b.tasks
    ensures Extends(b.log, RunCall(calls, c, b).log, |b.tasks|)
  {
    var n, started := |b.tasks|, Start(calls, b);
    assert started.tasks[..n] == b.tasks;
    match c.preparation
    case Immediate(o) =>
    case Prepared =>
      var begun := Advance(started, Begin(n, false));
      assert begun.tasks[..n] == b.tasks;
      RunOnlyLive(begun, c.steps, n);
      ExtendsTransitive(b.log, begun.log, Run(begun, c.steps).log, n);
  }

  ghost predicate SequentialEnd(calls: seq<ToolCall>, script: seq<CallScript>, p: Progress) {
    p.finished ==> SequentialSoFar(calls, script, p.batch) && Cut(calls, script, |p.batch.tasks|)
  }

  lemma {:induction false} SequentialUnfold(calls: seq<ToolCall>, script: seq<CallScript>, b: Batch)
    requires |b.tasks| < |calls| && |b.tasks| < |script|
    ensures var n, ran := |b.tasks|, RunCall(calls, script[|b.tasks|], b);
            SequentialFrom(calls, script, b)
            == if !ran.tasks[n].Done? then Progress(ran, false)
               else if script[n].cancelled then Progress(EmitResult(calls, ran), true)
               else SequentialFrom(calls, script, EmitResult(calls, ran))
  {
  }

  /** Whatever one finished call keeps, the sequential executor keeps. */
  lemma {:induction false} SequentialInduct(calls: seq<ToolCall>, script: seq<CallScript>, b: Batch,
                                            soFar: Batch -> bool)
    requires soFar(b) && |b.tasks| <= |calls| && |b.tasks| <= |script|
    requires forall i :: 0 <= i < |b.tasks| ==> !script[i].cancelled
    requires forall c: Batch {:trigger RunCall(calls, script[|c.tasks|], c)} ::
               soFar(c) && |c.tasks| < |calls| && |c.tasks| < |script|
               && RunCall(calls, script[|c.tasks|], c).tasks[|c.tasks|].Done? ==>
                 soFar(EmitResult(calls, RunCall(calls, script[|c.tasks|], c)))
    ensures var p := SequentialFrom(calls, script, b);
            p.finished ==> soFar(p.batch) && Cut(calls, script, |p.batch.tasks|)
    decreases |calls| - |b.tasks|
  {
    var n := |b.tasks|;
    if n < |calls| && n < |script| {
      var ran := RunCall(calls, script[n], b);
      SequentialUnfold(calls, script, b);
      if ran.tasks[n].Done? {
        var emitted := EmitResult(calls, ran);
        assert |emitted.tasks| == n + 1;
        if script[n].cancelled {
          assert Cut(calls, script, n + 1);
        } else {
          SequentialInduct(calls, script, emitted, soFar);
        }
      }
    }
  }

  lemma {:induction false} SequentialRun(calls: seq<ToolCall>, script: seq<CallScript>, b: Batch)
    requires SequentialSoFar(calls, script, b)
    requires forall i :: 0 <= i < |b.tasks| ==> !script[i].cancelled
    ensures SequentialEnd(calls, script, SequentialFrom(calls, script, b))
  {
    forall c: Batch | SequentialSoFar(calls, script, c) && |c.tasks| < |calls| && |c.tasks| < |script|
                      && RunCall(calls, script[|c.tasks|], c).tasks[|c.tasks|].Done?
      ensures SequentialSoFar(calls, script, EmitResult(calls, RunCall(calls, script[|c.tasks|], c)))
    {
      SequentialCall(calls, script, c);
    }
    SequentialInduct(calls, script, b, c => SequentialSoFar(calls, script, c));
  }

  /** A finished sequential batch: complete histories for a prefix of the calls, cut only where the
      token was cancelled, and each call's events and result message before the next call starts. */
  lemma {:induction false} SequentialComplete(calls: seq<ToolCall>, script: seq<CallScript>)
    requires Sequential(calls, script).finished
    ensures exists tasks :: Complete(calls, tasks, Sequential(calls, script)) && Cut(calls, script, |tasks|)
                            && Sequential(calls, script).log
                                 == SequentialLog(calls, tasks, Sequential(calls, script).log)
  {
    var b := Batch([], []);
    assert ResultMessages(calls, []) == [];
    SequentialRun(calls, script, b);
    var p := SequentialFrom(calls, script, b);
    assert p.batch.log + [] == p.batch.log;
    assert Complete(calls, p.batch.tasks, Sequential(calls, script));
  }

  lemma {:induction false} PrepareCallKeepsShape(calls: seq<ToolCall>, c: CallScript, b: Batch)
    requires WellLogged(calls, b) && |b.tasks| < |calls|
    ensures WellLogged(calls, PrepareCall(calls, c, b))
    ensures Ends(PrepareCall(calls, c, b).log) == Ends(b.log)
    ensures AllTool(b.log) ==> AllTool(PrepareCall(calls, c, b).log)
  {
    StartKeepsShape(calls, b);
    if c.preparation.Immediate? {
      ConcludeKeepsShape(calls, Start(calls, b), |b.tasks|, c.preparation.outcome);
    }
  }

  /** Whatever one prepared call keeps, the preparation loop keeps. */
  lemma {:induction false} PrepareInduct(calls: seq<ToolCall>, script: seq<CallScript>, b: Batch, ready: Batch -> bool)
    requires ready(b) && |b.tasks| <= |calls|
    requires |b.tasks| <= |script| && forall i :: 0 <= i < |b.tasks| ==> !script[i].cancelled
    requires forall c: Batch {:trigger PrepareCall(calls, script[|c.tasks|], c)} ::
               ready(c) && |c.tasks| < |calls| && |c.tasks| < |script| ==>
                 ready(PrepareCall(calls, script[|c.tasks|], c))
    ensures var p := PrepareFrom(calls, script, b);
            ready(p.batch) && (p.finished ==> Cut(calls, script, |p.batch.tasks|))
    decreases |calls| - |b.tasks|
  {
    var n := |b.tasks|;
    if n < |calls| && n < |script| && !script[n].cancelled {
      PrepareInduct(calls, script, PrepareCall(calls, script[n], b), ready);
    }
  }

  ghost predicate Ready(calls: seq<ToolCall>, b: Batch) {
    WellLogged(calls, b) && Ends(b.log) == [] && AllTool(b.log)
  }

  lemma {:induction false} PrepareKeepsShape(calls: seq<ToolCall>, script: seq<CallScript>, b: Batch)
    requires Ready(calls, b)
    requires |b.tasks| <= |script| && forall i :: 0 <= i < |b.tasks| ==> !script[i].cancelled
    ensures var p := PrepareFrom(calls, script, b);
            Ready(calls, p.batch) && (p.finished ==> Cut(calls, script, |p.batch.tasks|))
  {
    forall c: Batch | Ready(calls, c) && |c.tasks| < |calls| && |c.tasks| < |script|
      ensures Ready(calls, PrepareCall(calls, script[|c.tasks|], c))
    {
      PrepareCallKeepsShape(calls, script[|c.tasks|], c);
    }
    PrepareInduct(calls, script, b, c => Ready(calls, c));
  }

  /** A finished parallel batch, for every interleaving of its tasks: complete histories for a prefix
      of the calls, and the result messages after every end event, in source order. */
  lemma {:induction false} ParallelComplete(calls: seq<ToolCall>, script: seq<CallScript>, schedule: seq<Step>)
    requires Parallel(calls, script, schedule).finished
    ensures exists tasks, toolLog ::
              var e := Parallel(calls, script, schedule);
              && Complete(calls, tasks, e) && Cut(calls, script, |tasks|)
              && AllTool(toolLog) && e.log == toolLog + MessageEvents(e.results)
  {
    var p := PrepareFrom(calls, script, Batch([], []));
    PrepareKeepsShape(calls, script, Batch([], []));
    RunKeepsShape(calls, p.batch, schedule);
    var b, e := Run(p.batch, schedule), Parallel(calls, script, schedule);
    EmitKeepsShape(calls, b, e.results);
    assert Complete(calls, b.tasks, e) && Cut(calls, script, |b.tasks|);
    assert AllTool(b.log) && e.log == b.log + MessageEvents(e.results);
  }

  /** Without cancellation every call gets a result. */
  lemma {:induction false} UncancelledIsWhole(calls: seq<ToolCall>, script: seq<CallScript>, n: nat)
    requires Cut(calls, script, n) && forall c :: c in script ==> !c.cancelled
    ensures n == |calls|
  {
    assert n > 0 ==> script[n - 1] in script;
  }

  // ---- A message cut off by the token limit ----

  /** The error of a call that may be truncated; the source's longer notice also names the tool. */
  function TruncatedOutcome(call: ToolCall): Outcome {
    Outcome("truncated: " + call.name, true, false)
  }

  function TruncatedScript(calls: seq<ToolCall>): seq<CallScript> {
    seq(|calls|, i requires 0 <= i < |calls| => CallScript(Immediate(TruncatedOutcome(calls[i])), [], false))
  }

  function TruncatedLog(calls: seq<ToolCall>, n: nat): seq<Event>
    requires n <= |calls|
  {
    if n == 0 then []
    else
      var o := TruncatedOutcome(calls[n - 1]);
      var message := ResultMessage(calls[n - 1], o);
      TruncatedLog(calls, n - 1)
      + [ToolStart(n - 1, calls[n - 1]), ToolEnd(n - 1, o), MessageStart(message), MessageEnd(message)]
  }

  function TruncatedTasks(calls: seq<ToolCall>, n: nat): seq<Task>
    requires n <= |calls|
  {
    seq(n, i requires 0 <= i < n => Done([], TruncatedOutcome(calls[i])))
  }

  lemma {:induction false} TruncatedCall(calls: seq<ToolCall>, n: nat)
    requires n < |calls|
    ensures var o := TruncatedOutcome(calls[n]);
            var ran := RunCall(calls, TruncatedScript(calls)[n],
                               Batch(TruncatedTasks(calls, n), TruncatedLog(calls, n)));
            && ran.tasks == TruncatedTasks(calls, n + 1)
            && ran.log + MessageEvents([ResultMessage(calls[n], o)]) == TruncatedLog(calls, n + 1)
  {
    var message := ResultMessage(calls[n], TruncatedOutcome(calls[n]));
    assert MessageEvents([message]) == [MessageStart(message), MessageEnd(message)];
  }

  lemma {:induction false} TruncatedFrom(calls: seq<ToolCall>, n: nat)
    requires n <= |calls|
    ensures SequentialFrom(calls, TruncatedScript(calls), Batch(TruncatedTasks(calls, n), TruncatedLog(calls, n)))
            == Progress(Batch(TruncatedTasks(calls, |calls|), TruncatedLog(calls, |calls|)), true)
    decreases |calls| - n
  {
    if n < |calls| {
      TruncatedCall(calls, n);
      TruncatedFrom(calls, n + 1);
    }
  }

  /** Nothing is executed, every call gets its error, and the batch never asks to stop. */
  lemma {:induction false} TruncatedNeverStops(calls: seq<ToolCall>)
    ensures Sequential(calls, TruncatedScript(calls))
            == Executed(TruncatedLog(calls, |calls|), ResultMessages(calls, TruncatedTasks(calls, |calls|)), false,
                        true)
  {
    var tasks, log := TruncatedTasks(calls, |calls|), TruncatedLog(calls, |calls|);
    TruncatedWhole(calls);
    PackageDone(calls, tasks, log);
    TruncatedGoesOn(calls);
  }

  lemma {:induction false} TruncatedGoesOn(calls: seq<ToolCall>)
    ensures !ShouldTerminate(TruncatedTasks(calls, |calls|))
  {
    var tasks := TruncatedTasks(calls, |calls|);
    assert |tasks| > 0 ==> !tasks[0].outcome.terminate;
  }

  lemma {:induction false} TruncatedWhole(calls: seq<ToolCall>)
    ensures SequentialFrom(calls, TruncatedScript(calls), Batch([], []))
            == Progress(Batch(TruncatedTasks(calls, |calls|), TruncatedLog(calls, |calls|)), true)
  {
    TruncatedFrom(calls, 0);
    assert TruncatedTasks(calls, 0) == [];
  }

  lemma {:induction false} PackageDone(calls: seq<ToolCall>, tasks: seq<Task>, log: seq<Event>)
    requires |tasks| <= |calls| && AllDone(tasks)
    ensures Package(calls, Progress(Batch(tasks, log), true), false)
            == Executed(log, ResultMessages(calls, tasks), ShouldTerminate(tasks), true)
  {
    assert log + [] == log;
  }

  // ---- The executors as loops ----

  method ExecuteSequential(calls: seq<ToolCall>, script: seq<CallScript>) returns (e: Executed)
    ensures e == Sequential(calls, script)
  {
    var finalized: seq<Task> := [];
    var messages: seq<Message> := [];
    var log: seq<Event> := [];
    var i := 0;
    while i < |calls|
      invariant i == |finalized| <= |calls| && AllDone(finalized)
      invariant messages == ResultMessages(calls, finalized)
      invariant SequentialFrom(calls, script, Batch([], [])) == SequentialFrom(calls, script, Batch(finalized, log))
    {
      if i >= |script| {
        return Executed(log, [], false, false);
      }
      ghost var before := Batch(finalized, log);
      log := log + [ToolStart(i, calls[i])];
      var outcome;
      match script[i].preparation {
        case Immediate(o) =>
          outcome := o;
          finalized := finalized + [Done([], o)];
          log := log + [ToolEnd(i, o)];
        case Prepared =>
          var ran := Run(Batch(finalized + [Executing([], [], [])], log), script[i].steps);
          assert Advance(Start(calls, before), Begin(i, false)) == Batch(finalized + [Executing([], [], [])], log);
          RunCallExtends(calls, script[i], before);
          log := ran.log;
          if !ran.tasks[i].Done? {
            return Executed(log, [], false, false);
          }
          outcome := ran.tasks[i].outcome;
          assert ran.tasks == finalized + [ran.tasks[i]];
          finalized := ran.tasks;
      }
      assert Batch(finalized, log) == RunCall(calls, script[i], before);
      var message := ResultMessage(calls[i], outcome);
      log := log + [MessageStart(message), MessageEnd(message)];
      assert MessageEvents([message]) == [MessageStart(message), MessageEnd(message)];
      messages := messages + [message];
      if script[i].cancelled {
        break;
      }
      i := i + 1;
    }
    assert log + [] == log;
    e := Executed(log, messages, ShouldTerminate(finalized), true);
  }

  method ExecuteParallel(calls: seq<ToolCall>, script: seq<CallScript>, schedule: seq<Step>) returns (e: Executed)
    ensures e == Parallel(calls, script, schedule)
  {
    var entries: seq<Task> := [];
    var log: seq<Event> := [];
    var i := 0;
    while i < |calls|
      invariant i == |entries| <= |calls|
      invariant PrepareFrom(calls, script, Batch([], [])) == PrepareFrom(calls, script, Batch(entries, log))
    {
      if i >= |script| {
        return Executed(log, [], false, false);
      }
      ghost var before := Batch(entries, log);
      log := log + [ToolStart(i, calls[i])];
      match script[i].preparation {
        case Immediate(o) =>
          log := log + [ToolEnd(i, o)];
          entries := entries + [Done([], o)];
        case Prepared =>
          entries := entries + [Waiting];
      }
      assert Batch(entries, log) == PrepareCall(calls, script[i], before);
      if script[i].cancelled {
        break;
      }
      i := i + 1;
    }
    assert PrepareFrom(calls, script, Batch([], [])) == Progress(Batch(entries, log), true);
    // The spawned entries run concurrently; the join returns once all of them are done.
    var joined := Run(Batch(entries, log), schedule);
    log := joined.log;
    if !AllDone(joined.tasks) {
      return Executed(log, [], false, false);
    }
    var messages: seq<Message> := [];
    var k := 0;
    while k < |joined.tasks|
      invariant 0 <= k <= |joined.tasks|
      invariant messages == ResultMessages(calls, joined.tasks)[..k]
      invariant log == joined.log + MessageEvents(messages)
    {
      var message := ResultMessage(calls[k], joined.tasks[k].outcome);
      MessageEventsAppend(messages, [message]);
      assert MessageEvents([message]) == [MessageStart(message), MessageEnd(message)];
      log := log + [MessageStart(message), MessageEnd(message)];
      messages := messages + [message];
      k := k + 1;
    }
    assert messages == ResultMessages(calls, joined.tasks);
    e := Executed(log, messages, ShouldTerminate(joined.tasks), true);
  }

  method FailTruncated(calls: seq<ToolCall>) returns (e: Executed)
    ensures e == Sequential(calls, TruncatedScript(calls))
  {
    var messages: seq<Message> := [];
    var log: seq<Event> := [];
    for i := 0 to |calls|
      invariant messages == ResultMessages(calls, TruncatedTasks(calls, i))
      invariant log == TruncatedLog(calls, i)
    {
      var outcome := TruncatedOutcome(calls[i]);
      ghost var before := log;
      log := log + [ToolStart(i, calls[i])];
      log := log + [ToolEnd(i, outcome)];
      var message := ResultMessage(calls[i], outcome);
      log := log + [MessageStart(message), MessageEnd(message)];
      assert log == before + [ToolStart(i, calls[i]), ToolEnd(i, outcome), MessageStart(message), MessageEnd(message)];
      messages := messages + [message];
    }
    TruncatedNeverStops(calls);
    e := Executed(log, messages, false, true);
  }
}
