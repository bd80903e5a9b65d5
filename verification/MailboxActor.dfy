/** The mailbox as objects: the two pending-message queues, and the actor whose jobs rebind their
    fields. Each method's effect is the step of `Mailbox`. */
module MailboxActor {
  import opened Prelude
  import opened Transcript
  import opened Mailbox

  class PendingMessages {
    var messages: seq<Message>
    var mode: Mode
    ghost var sent: seq<Message>
    ghost var taken: seq<Batch>

    ghost function State(): Queue
      reads this
    {
      Queue(mode, messages, sent, taken)
    }

    constructor (mode: Mode)
      ensures State() == Queue(mode, [], [], [])
    {
      this.messages, this.mode, this.sent, this.taken := [], mode, [], [];
    }

    method Enqueue(m: Message)
      modifies this
      ensures State() == Enqueued(old(State()), m)
    {
      messages := messages + [m];
    }

    method HasItems() returns (r: bool)
      ensures r <==> Peek(mode, messages) != []
    {
      r := |messages| > 0;
    }

    method PeekMessages() returns (r: seq<Message>)
      ensures r == Peek(mode, messages)
    {
      if mode == All {
        return messages;
      }
      if |messages| > 0 {
        return [messages[0]];
      }
      return [];
    }

    method Drain() returns (drained: seq<Message>)
      modifies this
      ensures State() == DrainedQueue(old(State()))
      ensures drained + messages == old(messages)
      ensures drained == [] <==> old(messages) == []
      ensures mode == OneAtATime ==> |drained| <= 1
    {
      drained := PeekMessages();
      messages := messages[|drained|..];
      taken := taken + [Drained(mode, drained)];
    }

    method Clear()
      modifies this
      ensures State() == ClearedQueue(old(State()))
    {
      taken := taken + [Cleared(messages)];
      messages := [];
    }
  }

  class AgentMailbox {
    const steering: PendingMessages
    const followUp: PendingMessages
    var channel: seq<Job>
    var current: Option<nat>
    var runs: seq<Phase>
    var busy: Option<nat>

    ghost predicate Valid()
    {
      steering != followUp
    }

    ghost function State(): Box
      reads this, steering, followUp
    {
      Box(channel, current, runs, busy, steering.State(), followUp.State())
    }

    constructor (steeringMode: Mode, followUpMode: Mode)
      ensures Valid() && fresh(steering) && fresh(followUp)
      ensures State() == Start(steeringMode, followUpMode)
    {
      steering := new PendingMessages(steeringMode);
      followUp := new PendingMessages(followUpMode);
      channel, current, runs, busy := [], None, [], None;
    }

    /** An entry point asks for the slot. */
    method SendAdmit() returns (run: nat)
      modifies this
      ensures State() == Next(old(State()), Step.SendAdmit)
      ensures run == |old(runs)|
    {
      run := |runs|;
      runs := runs + [Asking];
      channel := channel + [Admit(run)];
    }

    method Steer(m: Message)
      requires Valid()
      modifies this, steering`sent
      ensures State() == Next(old(State()), Post(Enqueue(Steering, m)))
    {
      channel := channel + [Enqueue(Steering, m)];
      steering.sent := steering.sent + [m];
    }

    method FollowUpWith(m: Message)
      requires Valid()
      modifies this, followUp`sent
      ensures State() == Next(old(State()), Post(Enqueue(FollowUp, m)))
    {
      channel := channel + [Enqueue(FollowUp, m)];
      followUp.sent := followUp.sent + [m];
    }

    /** A poll of the loop (`isDrain`), or one of the clearing calls. */
    method PostTake(w: Which, isDrain: bool)
      modifies this
      ensures State() == Next(old(State()), Post(if isDrain then Drain(w) else Clear(w)))
    {
      channel := channel + [if isDrain then Drain(w) else Clear(w)];
    }

    method SetMode(w: Which, mode: Mode)
      requires Valid()
      modifies steering`mode, followUp`mode
      ensures State() == Next(old(State()), Step.SetMode(w, mode))
    {
      if w == Steering {
        steering.mode := mode;
      } else {
        followUp.mode := mode;
      }
    }

    method LifecycleEnds(run: nat)
      modifies this
      ensures State() == Next(old(State()), Step.LifecycleEnds(run))
    {
      if run < |runs| && runs[run] == Live {
        runs := runs[run := Finishing];
        channel := channel + [Finish(run)];
      }
    }

    method Claim(run: nat) returns (ok: bool)
      modifies this`current
      ensures ok <==> old(current).None?
      ensures current == if ok then Some(run) else old(current)
    {
      ok := current.None?;
      if ok {
        current := Some(run);
      }
    }

    method Release(run: nat)
      modifies this`current
      ensures current == if old(current) == Some(run) then None else old(current)
    {
      if current == Some(run) {
        current := None;
      }
    }

    method AdmitJob(run: nat)
      modifies this
      ensures State() == Execute(old(State()), Admit(run))
    {
      if run < |runs| {
        var ok := Claim(run);
        runs := runs[run := if ok then Admitted else Rejected];
        if ok {
          busy := Some(run);
        }
      }
    }

    method FinishJob(run: nat)
      modifies this
      ensures State() == Execute(old(State()), Finish(run))
    {
      if run < |runs| {
        Release(run);
        runs := runs[run := Released];
        busy := Some(run);
      }
    }

    method QueueJob(j: Job)
      requires Valid() && !j.Admit? && !j.Finish?
      modifies steering, followUp
      ensures State() == Execute(old(State()), j)
    {
      var queue := if j.which == Steering then steering else followUp;
      match j {
        case Enqueue(_, m) => queue.Enqueue(m);
        case Drain(_) => var _ := queue.Drain();
        case Clear(_) => queue.Clear();
      }
    }

    method Consume()
      requires Valid()
      modifies this, steering, followUp
      ensures State() == Next(old(State()), Step.Consume)
    {
      if busy.Some? || |channel| == 0 {
        return;
      }
      var job := channel[0];
      channel := channel[1..];
      match job {
        case Admit(run) => AdmitJob(run);
        case Finish(run) => FinishJob(run);
        case _ => QueueJob(job);
      }
    }

    /** The lifecycle is spawned, or the finished run's `done` is set. */
    method Complete()
      modifies this
      ensures State() == Next(old(State()), Step.Complete)
    {
      if busy.Some? && busy.value < |runs| {
        runs := runs[busy.value := if runs[busy.value] == Admitted then Live else Done];
        busy := None;
      }
    }

    method Perform(a: Step)
      requires Valid()
      modifies this, steering, followUp
      ensures State() == Next(old(State()), a)
    {
      match a {
        case SendAdmit => var _ := SendAdmit();
        case Post(j) =>
          match j {
            case Enqueue(w, m) =>
              if w == Steering { Steer(m); } else { FollowUpWith(m); }
            case Drain(w) => PostTake(w, true);
            case Clear(w) => PostTake(w, false);
            case _ =>
          }
        case LifecycleEnds(run) => LifecycleEnds(run);
        case SetMode(w, mode) => SetMode(w, mode);
        case Consume => Consume();
        case Complete => Complete();
      }
    }

    /** Any run of the actor keeps the mailbox invariant. */
    method Run(steps: seq<Step>)
      requires Valid() && Inv(State())
      modifies this, steering, followUp
      ensures State() == Exec(old(State()), steps)
      ensures Inv(State())
    {
      var i := 0;
      while i < |steps|
        invariant i <= |steps|
        invariant Inv(State())
        invariant Exec(State(), steps[i..]) == Exec(old(State()), steps)
      {
        NextKeeps(State(), steps[i]);
        assert steps[i..][1..] == steps[i + 1..];
        Perform(steps[i]);
        i := i + 1;
      }
    }
  }
}
