/** The agent's mailbox: one consumer task runs the jobs of a FIFO channel, and the jobs own the two
    message queues and the single run slot. A run of the mailbox is any interleaving of callers
    sending jobs, mode changes, lifecycles ending, and the consumer. */
module Mailbox {
  import opened Prelude
  import opened Transcript

  datatype Mode = All | OneAtATime

  datatype Which = Steering | FollowUp

  /** A batch of messages taken out of a queue, by a drain in some mode or by a clear. */
  datatype Batch = Drained(mode: Mode, items: seq<Message>) | Cleared(items: seq<Message>)

  /** `_PendingMessages`. `sent` and `taken` record what was posted and what left the queue. */
  datatype Queue = Queue(mode: Mode, messages: seq<Message>, sent: seq<Message>, taken: seq<Batch>)

  datatype Job =
    | Admit(run: nat)
    | Finish(run: nat)
    | Enqueue(which: Which, m: Message)
    | Drain(which: Which)
    | Clear(which: Which)

  /** A run asks for the slot; admitted, its lifecycle is spawned; ended, the lifecycle posts the
      finish job, which releases the slot and then sets `done`. */
  datatype Phase = Asking | Rejected | Admitted | Live | Finishing | Released | Done

  /** `busy` is the run whose admit or finish job the consumer is half way through. */
  datatype Box = Box(
    channel: seq<Job>,
    current: Option<nat>,
    runs: seq<Phase>,
    busy: Option<nat>,
    steering: Queue,
    followUp: Queue)

  function Start(steeringMode: Mode, followUpMode: Mode): Box {
    Box([], None, [], None, Queue(steeringMode, [], [], []), Queue(followUpMode, [], [], []))
  }

  function Peek(mode: Mode, messages: seq<Message>): (r: seq<Message>)
    ensures r <= messages
    ensures |r| > 0 <==> |messages| > 0
    ensures mode == OneAtATime ==> |r| <= 1
    ensures mode == All ==> r == messages
  {
    if mode == All then messages else if |messages| > 0 then [messages[0]] else []
  }

  function Get(s: Box, w: Which): Queue {
    if w == Steering then s.steering else s.followUp
  }

  function Set(s: Box, w: Which, q: Queue): Box {
    if w == Steering then s.(steering := q) else s.(followUp := q)
  }

  function Enqueued(q: Queue, m: Message): Queue {
    q.(messages := q.messages + [m])
  }

  function DrainedQueue(q: Queue): Queue {
    var items := Peek(q.mode, q.messages);
    q.(messages := q.messages[|items|..], taken := q.taken + [Drained(q.mode, items)])
  }

  function ClearedQueue(q: Queue): Queue {
    q.(messages := [], taken := q.taken + [Cleared(q.messages)])
  }

  // ---- Steps ----

  datatype Step =
    | SendAdmit
    | Post(job: Job)
    | LifecycleEnds(run: nat)
    | SetMode(which: Which, mode: Mode)
    | Consume
    | Complete

  function Send(s: Box, j: Job): Box {
    s.(channel := s.channel + [j])
  }

  /** The caller's side of a queue job; admissions and finishes have their own steps. */
  function Posted(s: Box, j: Job): Box {
    match j
    case Enqueue(w, m) => Set(Send(s, j), w, Get(s, w).(sent := Get(s, w).sent + [m]))
    case Drain(w) => Send(s, j)
    case Clear(w) => Send(s, j)
    case _ => s
  }

  /** The consumer's side: what running job `j` does, up to the middle of an admit or a finish. */
  function Execute(s: Box, j: Job): Box {
    match j
    case Admit(r) =>
      if r >= |s.runs| then s
      else if s.current.Some? then s.(runs := s.runs[r := Rejected])
      else s.(current := Some(r), runs := s.runs[r := Admitted], busy := Some(r))
    case Finish(r) =>
      if r >= |s.runs| then s
      else s.(current := if s.current == Some(r) then None else s.current,
              runs := s.runs[r := Released], busy := Some(r))
    case Enqueue(w, m) => Set(s, w, Enqueued(Get(s, w), m))
    case Drain(w) => Set(s, w, DrainedQueue(Get(s, w)))
    case Clear(w) => Set(s, w, ClearedQueue(Get(s, w)))
  }

  /** The rest of that admit or finish: the lifecycle is spawned, or `done` is set. */
  function Completed(s: Box): Box {
    if s.busy.None? || s.busy.value >= |s.runs| then s
    else
      var r := s.busy.value;
      s.(busy := None, runs := s.runs[r := if s.runs[r] == Admitted then Live else Done])
  }

  function Next(s: Box, a: Step): Box {
    match a
    case SendAdmit => Send(s.(runs := s.runs + [Asking]), Admit(|s.runs|))
    case Post(j) => Posted(s, j)
    case LifecycleEnds(r) =>
      if r < |s.runs| && s.runs[r] == Live then Send(s.(runs := s.runs[r := Finishing]), Finish(r)) else s
    case SetMode(w, mode) => Set(s, w, Get(s, w).(mode := mode))
    case Consume =>
      if s.busy.Some? || s.channel == [] then s else Execute(s.(channel := s.channel[1..]), s.channel[0])
    case Complete => Completed(s)
  }

  function Exec(s: Box, steps: seq<Step>): Box
    decreases |steps|
  {
    if steps == [] then s else Exec(Next(s, steps[0]), steps[1..])
  }

  // ---- The run slot ----

  /** How many admit and finish jobs the channel must hold for each run. */
  function Expected(s: Box, j: Job): nat {
    match j
    case Admit(r) => if r < |s.runs| && s.runs[r] == Asking then 1 else 0
    case Finish(r) => if r < |s.runs| && s.runs[r] == Finishing then 1 else 0
    case _ => 0
  }

  ghost predicate JobsMatch(s: Box) {
    forall j: Job :: (j.Admit? || j.Finish?) ==> multiset(s.channel)[j] == Expected(s, j)
  }

  predicate HoldsSlot(p: Phase) {
    p == Admitted || p == Live || p == Finishing
  }

  predicate HalfWay(p: Phase) {
    p == Admitted || p == Released
  }

  /** The slot is held by exactly the run that is admitted and not yet released. */
  ghost predicate SlotMatches(s: Box) {
    && (s.current.Some? ==> s.current.value < |s.runs|)
    && (s.busy.Some? ==> s.busy.value < |s.runs|)
    && (forall r :: 0 <= r < |s.runs| ==> (HoldsSlot(s.runs[r]) <==> s.current == Some(r)))
    && (forall r :: 0 <= r < |s.runs| ==> (HalfWay(s.runs[r]) <==> s.busy == Some(r)))
  }

  ghost predicate Admission(s: Box) {
    JobsMatch(s) && SlotMatches(s)
  }

  lemma {:induction false} SendJobs(s: Box, j: Job)
    ensures multiset(Send(s, j).channel) == multiset(s.channel) + multiset{j}
  {
  }

  lemma {:induction false} HeadJob(channel: seq<Job>)
    requires channel != []
    ensures multiset(channel) == multiset{channel[0]} + multiset(channel[1..])
  {
    assert channel == [channel[0]] + channel[1..];
  }

  lemma {:induction false} ConsumeJobs(s: Box)
    requires Admission(s)
    ensures JobsMatch(Next(s, Consume))
  {
    if s.busy.None? && s.channel != [] {
      HeadJob(s.channel);
      assert multiset(s.channel)[s.channel[0]] >= 1;
      ExecuteJobs(s.(channel := s.channel[1..]), s.channel[0]);
    }
  }

  /** A run's own job changes what is expected of its jobs by that one job. */
  lemma {:induction false} ExecuteJobs(s: Box, j: Job)
    requires SlotMatches(s) && s.busy.None? && (j.Admit? || j.Finish? ==> Expected(s, j) == 1)
    ensures Execute(s, j).channel == s.channel
    ensures forall i: Job :: i.Admit? || i.Finish? ==>
              Expected(Execute(s, j), i) == if i == j then 0 else Expected(s, i)
  {
  }

  lemma {:induction false} ConsumeSlot(s: Box)
    requires Admission(s)
    ensures SlotMatches(Next(s, Consume))
  {
    if s.busy.None? && s.channel != [] {
      var j := s.channel[0];
      assert multiset(s.channel)[j] >= 1;
      ExecuteSlot(s.(channel := s.channel[1..]), j);
    }
  }

  lemma {:induction false} ExecuteSlot(s: Box, j: Job)
    requires SlotMatches(s) && s.busy.None? && (j.Admit? || j.Finish? ==> Expected(s, j) == 1)
    ensures SlotMatches(Execute(s, j))
  {
  }

  lemma {:induction false} SendAdmitAdmission(s: Box)
    requires Admission(s)
    ensures Admission(Next(s, SendAdmit))
  {
    SendJobs(s.(runs := s.runs + [Asking]), Admit(|s.runs|));
  }

  lemma {:induction false} PostAdmission(s: Box, j: Job)
    requires Admission(s)
    ensures Admission(Posted(s, j))
  {
    SendJobs(s, j);
  }

  lemma {:induction false} EndAdmission(s: Box, r: nat)
    requires Admission(s)
    ensures Admission(Next(s, LifecycleEnds(r)))
  {
    if r < |s.runs| && s.runs[r] == Live {
      SendJobs(s.(runs := s.runs[r := Finishing]), Finish(r));
    }
  }

  lemma {:induction false} CompleteAdmission(s: Box)
    requires Admission(s)
    ensures Admission(Completed(s))
  {
  }

  lemma {:induction false} NextAdmission(s: Box, a: Step)
    requires Admission(s)
    ensures Admission(Next(s, a))
  {
    match a {
      case SendAdmit => SendAdmitAdmission(s);
      case Post(j) => PostAdmission(s, j);
      case LifecycleEnds(r) => EndAdmission(s, r);
      case SetMode(w, mode) =>
      case Consume =>
        ConsumeJobs(s);
        ConsumeSlot(s);
      case Complete => CompleteAdmission(s);
    }
  }

  // ---- The queues ----

  function Items(taken: seq<Batch>): seq<Message> {
    if taken == [] then [] else Items(taken[..|taken| - 1]) + taken[|taken| - 1].items
  }

  predicate Addressed(j: Job, w: Which) {
    j.Enqueue? && j.which == w
  }

  function Carried(j: Job, w: Which): seq<Message> {
    if Addressed(j, w) then [j.m] else []
  }

  /** The messages of queue `w` still travelling in the channel. */
  function InFlight(channel: seq<Job>, w: Which): seq<Message> {
    if channel == [] then [] else Carried(channel[0], w) + InFlight(channel[1..], w)
  }

  lemma {:induction false} InFlightSnoc(channel: seq<Job>, j: Job, w: Which)
    ensures InFlight(channel + [j], w) == InFlight(channel, w) + Carried(j, w)
  {
    if channel == [] {
      assert channel + [j] == [j];
    } else {
      assert (channel + [j])[1..] == channel[1..] + [j];
      InFlightSnoc(channel[1..], j, w);
      Associative(Carried(channel[0], w), InFlight(channel[1..], w), Carried(j, w));
    }
  }

  /** In send order, every message is in exactly one place: a batch taken out, the queue, or the channel. */
  ghost predicate Conserved(q: Queue, channel: seq<Job>, w: Which) {
    q.sent == Items(q.taken) + q.messages + InFlight(channel, w)
  }

  ghost predicate OneAtATimeDrains(q: Queue) {
    forall k :: 0 <= k < |q.taken| && q.taken[k].Drained? && q.taken[k].mode == OneAtATime ==> |q.taken[k].items| <= 1
  }

  ghost predicate QueueOk(q: Queue, channel: seq<Job>, w: Which) {
    Conserved(q, channel, w) && OneAtATimeDrains(q)
  }

  lemma {:induction false} TakeConserves(q: Queue, channel: seq<Job>, w: Which, b: Batch)
    requires QueueOk(q, channel, w) && b.items <= q.messages
    requires b.Drained? && b.mode == OneAtATime ==> |b.items| <= 1
    ensures QueueOk(q.(messages := q.messages[|b.items|..], taken := q.taken + [b]), channel, w)
  {
    assert (q.taken + [b])[..|q.taken|] == q.taken;
    assert q.messages == b.items + q.messages[|b.items|..];
    Associative(Items(q.taken), b.items, q.messages[|b.items|..]);
  }

  lemma {:induction false} EnqueueConserves(q: Queue, channel: seq<Job>, w: Which)
    requires channel != [] && QueueOk(q, channel, w)
    ensures QueueOk(if Addressed(channel[0], w) then Enqueued(q, channel[0].m) else q, channel[1..], w)
  {
    var m := Carried(channel[0], w);
    var rest := InFlight(channel[1..], w);
    Associative(Items(q.taken) + q.messages, m, rest);
    Associative(Items(q.taken), q.messages, m);
    assert q.messages + [] == q.messages;
  }

  lemma {:induction false} SendConserves(q: Queue, channel: seq<Job>, w: Which, j: Job)
    requires QueueOk(q, channel, w)
    ensures QueueOk(q.(sent := q.sent + Carried(j, w)), channel + [j], w)
  {
    InFlightSnoc(channel, j, w);
    Associative(Items(q.taken) + q.messages, InFlight(channel, w), Carried(j, w));
  }

  lemma {:induction false} DrainConserves(q: Queue, channel: seq<Job>, w: Which)
    ensures QueueOk(q, channel, w) ==> QueueOk(DrainedQueue(q), channel, w) && QueueOk(ClearedQueue(q), channel, w)
  {
    if QueueOk(q, channel, w) {
      TakeConserves(q, channel, w, Drained(q.mode, Peek(q.mode, q.messages)));
      TakeConserves(q, channel, w, Cleared(q.messages));
      assert q.messages[|q.messages|..] == [];
    }
  }

  /** What running a job does to queue `w`. */
  lemma {:induction false} ExecuteQueue(s: Box, j: Job, w: Which)
    ensures Execute(s, j).channel == s.channel
    ensures Get(Execute(s, j), w) ==
              if Addressed(j, w) then Enqueued(Get(s, w), j.m)
              else if j == Drain(w) then DrainedQueue(Get(s, w))
              else if j == Clear(w) then ClearedQueue(Get(s, w))
              else Get(s, w)
  {
  }

  lemma {:induction false} ConsumeConserves(s: Box, w: Which)
    requires QueueOk(Get(s, w), s.channel, w)
    ensures QueueOk(Get(Next(s, Consume), w), Next(s, Consume).channel, w)
  {
    if s.busy.None? && s.channel != [] {
      EnqueueConserves(Get(s, w), s.channel, w);
      ExecuteQueue(s.(channel := s.channel[1..]), s.channel[0], w);
      DrainConserves(Get(s, w), s.channel[1..], w);
    }
  }

  lemma {:induction false} SentToConserves(s: Box, j: Job, w: Which)
    requires QueueOk(Get(s, w), s.channel, w)
    ensures QueueOk(Get(s, w).(sent := Get(s, w).sent + Carried(j, w)), Send(s, j).channel, w)
    ensures !Addressed(j, w) ==> QueueOk(Get(s, w), Send(s, j).channel, w)
  {
    SendConserves(Get(s, w), s.channel, w, j);
    assert Get(s, w).sent + [] == Get(s, w).sent;
  }

  lemma {:induction false} NextConserves(s: Box, a: Step, w: Which)
    requires QueueOk(Get(s, w), s.channel, w)
    ensures QueueOk(Get(Next(s, a), w), Next(s, a).channel, w)
  {
    match a {
      case SendAdmit => SentToConserves(s, Admit(|s.runs|), w);
      case Post(j) => SentToConserves(s, j, w);
      case LifecycleEnds(r) => SentToConserves(s, Finish(r), w);
      case Consume => ConsumeConserves(s, w);
      case _ =>
    }
  }

  // ---- All runs ----

  ghost predicate Inv(s: Box) {
    && Admission(s)
    && QueueOk(s.steering, s.channel, Steering)
    && QueueOk(s.followUp, s.channel, FollowUp)
  }

  lemma {:induction false} NextKeeps(s: Box, a: Step)
    requires Inv(s)
    ensures Inv(Next(s, a))
  {
    NextAdmission(s, a);
    assert Get(s, Steering) == s.steering && Get(s, FollowUp) == s.followUp;
    NextConserves(s, a, Steering);
    NextConserves(s, a, FollowUp);
  }

  /** Safety over every run of the mailbox. */
  lemma {:induction false} RunSafe(s: Box, steps: seq<Step>)
    requires Inv(s)
    ensures Inv(Exec(s, steps))
    decreases |steps|
  {
    if steps != [] {
      NextKeeps(s, steps[0]);
      RunSafe(Next(s, steps[0]), steps[1..]);
    }
  }

  lemma {:induction false} StartHolds(steeringMode: Mode, followUpMode: Mode)
    ensures Inv(Start(steeringMode, followUpMode))
  {
  }

  /** At most one run holds the slot; the holder is being spawned, has a live lifecycle, or has exactly one
      finish job queued; and a run whose `done` is set does not hold it. */
  lemma {:induction false} SlotStory(m1: Mode, m2: Mode, steps: seq<Step>, r: nat, other: nat)
    requires r < |Exec(Start(m1, m2), steps).runs| && other < |Exec(Start(m1, m2), steps).runs|
    ensures var s := Exec(Start(m1, m2), steps);
            && (HoldsSlot(s.runs[r]) && HoldsSlot(s.runs[other]) ==> r == other)
            && (s.current == Some(r) ==>
                  || (s.busy == Some(r) && s.runs[r] == Admitted)
                  || (s.runs[r] == Live && Finish(r) !in s.channel)
                  || (s.runs[r] == Finishing && multiset(s.channel)[Finish(r)] == 1))
            && (s.runs[r] == Done ==> s.current != Some(r) && Finish(r) !in s.channel && Admit(r) !in s.channel)
  {
    StartHolds(m1, m2);
    RunSafe(Start(m1, m2), steps);
    var s := Exec(Start(m1, m2), steps);
    assert Expected(s, Finish(r)) == multiset(s.channel)[Finish(r)];
    assert Expected(s, Admit(r)) == multiset(s.channel)[Admit(r)];
  }

  /** The slot is never leaked: with the channel drained and no lifecycle running, it is free. */
  lemma {:induction false} SlotNeverLeaks(m1: Mode, m2: Mode, steps: seq<Step>)
    requires var s := Exec(Start(m1, m2), steps);
             s.channel == [] && s.busy.None? && Live !in s.runs
    ensures Exec(Start(m1, m2), steps).current.None?
  {
    StartHolds(m1, m2);
    RunSafe(Start(m1, m2), steps);
    var s := Exec(Start(m1, m2), steps);
    if s.current.Some? {
      var r := s.current.value;
      assert Expected(s, Finish(r)) == multiset(s.channel)[Finish(r)] == 0;
      assert s.runs[r] in s.runs;
    }
  }

  /** An admission is granted exactly when no run holds the slot: an admission sent after the `done` of the
      only other run finds it free. */
  lemma {:induction false} AdmittedIffFree(m1: Mode, m2: Mode, steps: seq<Step>, r: nat)
    requires var s := Exec(Start(m1, m2), steps); s.busy.None? && s.channel != [] && s.channel[0] == Admit(r)
    ensures var s := Exec(Start(m1, m2), steps);
            var t := Next(s, Consume);
            && r < |s.runs| == |t.runs|
            && (t.current == Some(r) <==> forall other :: 0 <= other < |s.runs| ==> !HoldsSlot(s.runs[other]))
            && (t.current != Some(r) ==> t.runs[r] == Rejected && t.current == s.current)
  {
    StartHolds(m1, m2);
    RunSafe(Start(m1, m2), steps);
    AdmitDecides(Exec(Start(m1, m2), steps), r);
  }

  lemma {:induction false} AdmitDecides(s: Box, r: nat)
    requires Admission(s) && s.busy.None? && s.channel != [] && s.channel[0] == Admit(r)
    ensures var t := Next(s, Consume);
            && r < |s.runs| == |t.runs|
            && (t.current == Some(r) <==> forall other :: 0 <= other < |s.runs| ==> !HoldsSlot(s.runs[other]))
            && (t.current != Some(r) ==> t.runs[r] == Rejected && t.current == s.current)
  {
    assert s.channel[0] in s.channel;
    assert Expected(s, Admit(r)) == multiset(s.channel)[Admit(r)] >= 1;
    assert s.runs[r] == Asking;
    if s.current.Some? {
      assert HoldsSlot(s.runs[s.current.value]);
    }
  }

  /** Whatever the interleaving and however the modes change, each queue delivers what was sent to it, in
      send order, once: taken batches, then what it holds, then what the channel still carries. */
  lemma {:induction false} QueuesConserve(m1: Mode, m2: Mode, steps: seq<Step>, w: Which)
    ensures var s := Exec(Start(m1, m2), steps);
            && Get(s, w).sent == Items(Get(s, w).taken) + Get(s, w).messages + InFlight(s.channel, w)
            && OneAtATimeDrains(Get(s, w))
  {
    StartHolds(m1, m2);
    RunSafe(Start(m1, m2), steps);
  }

  /** A step never reopens a decided admission, and never takes a message back. */
  ghost predicate Forward(s: Box, t: Box) {
    && |s.runs| <= |t.runs|
    && (forall r :: 0 <= r < |s.runs| && (s.runs[r] == Done || s.runs[r] == Rejected) ==> t.runs[r] == s.runs[r])
    && s.steering.sent <= t.steering.sent && s.followUp.sent <= t.followUp.sent
    && s.steering.taken <= t.steering.taken && s.followUp.taken <= t.followUp.taken
  }

  lemma {:induction false} NextForward(s: Box, a: Step)
    requires Admission(s)
    ensures Forward(s, Next(s, a))
  {
    match a {
      case Consume =>
        if s.busy.None? && s.channel != [] {
          assert multiset(s.channel)[s.channel[0]] >= 1;
        }
      case _ =>
    }
  }

  /** A settled run stays settled, and what was delivered stays delivered. */
  lemma {:induction false} RunForward(s: Box, steps: seq<Step>)
    requires Inv(s)
    ensures Forward(s, Exec(s, steps))
    decreases |steps|
  {
    if steps != [] {
      NextKeeps(s, steps[0]);
      NextForward(s, steps[0]);
      RunForward(Next(s, steps[0]), steps[1..]);
    }
  }
}
