/** What the mailbox's jobs take out of its queues, in which mode, and that the consumer gets through them. */
module MailboxLaws {
  import opened Prelude
  import opened Transcript
  import opened Mailbox

  // ---- What a drain takes ----

  /** The consumer drains a queue of everything in mode `All`, of its first message otherwise; the rest stays in
      order, and the other queue is left alone. */
  lemma {:induction false} DrainTakes(s: Box, w: Which)
    requires s.busy.None? && s.channel != [] && s.channel[0] == Drain(w)
    ensures var q, t := Get(s, w), Next(s, Consume);
            var kept := Get(t, w).messages;
            && Get(t, w).taken == q.taken + [Drained(q.mode, q.messages[..|q.messages| - |kept|])]
            && |kept| == (if q.mode == All || q.messages == [] then 0 else |q.messages| - 1)
            && kept == q.messages[|q.messages| - |kept|..]
            && t.channel == s.channel[1..]
            && (forall other :: other != w ==> Get(t, other) == Get(s, other))
  {
    var q := Get(s, w);
    assert q.messages[..|q.messages|] == q.messages;
    assert q.messages != [] ==> q.messages[..1] == [q.messages[0]];
    assert q.messages[..0] == [];
  }

  /** A clear empties its queue. */
  lemma {:induction false} ClearEmpties(s: Box, w: Which)
    requires s.busy.None? && s.channel != [] && s.channel[0] == Clear(w)
    ensures var t := Next(s, Consume);
            && Get(t, w).messages == [] && Get(t, w).taken == Get(s, w).taken + [Cleared(Get(s, w).messages)]
            && (forall other :: other != w ==> Get(t, other) == Get(s, other))
  {
  }

  // ---- The modes ----

  /** The mode of a queue after these steps: the one set last. */
  function ModeAfter(mode: Mode, steps: seq<Step>, w: Which): Mode {
    if steps == [] then mode
    else
      var last := steps[|steps| - 1];
      if last.SetMode? && last.which == w then last.mode else ModeAfter(mode, steps[..|steps| - 1], w)
  }

  lemma {:induction false} ExecSnoc(s: Box, steps: seq<Step>, a: Step)
    ensures Exec(s, steps + [a]) == Next(Exec(s, steps), a)
    decreases |steps|
  {
    if steps == [] {
      assert [] + [a] == [a] && [a][1..] == [];
    } else {
      assert (steps + [a])[1..] == steps[1..] + [a];
      ExecSnoc(Next(s, steps[0]), steps[1..], a);
    }
  }

  lemma {:induction false} NextMode(s: Box, a: Step, w: Which)
    ensures Get(Next(s, a), w).mode == if a.SetMode? && a.which == w then a.mode else Get(s, w).mode
  {
  }

  /** No job changes a mode. */
  lemma {:induction false} ModeIs(s: Box, steps: seq<Step>, w: Which)
    ensures Get(Exec(s, steps), w).mode == ModeAfter(Get(s, w).mode, steps, w)
  {
    if steps != [] {
      var n := |steps| - 1;
      ModeIs(s, steps[..n], w);
      assert steps == steps[..n] + [steps[n]];
      ExecSnoc(s, steps[..n], steps[n]);
      NextMode(Exec(s, steps[..n]), steps[n], w);
    }
  }

  // ---- The consumer gets through its jobs ----

  /** As many rounds of the consumer alone. */
  function Rounds(n: nat): seq<Step> {
    if n == 0 then [] else [Complete, Consume] + Rounds(n - 1)
  }

  lemma {:induction false} OneRound(s: Box)
    requires s.busy.Some? ==> s.busy.value < |s.runs|
    ensures var t := Next(Next(s, Complete), Consume);
            && t.channel == (if s.channel == [] then [] else s.channel[1..])
            && (t.busy.Some? ==> t.busy.value < |t.runs|)
  {
  }

  /** Left to itself the consumer empties the channel: a round takes one job, whichever it is. */
  lemma {:induction false} ConsumerDrains(s: Box, n: nat)
    requires s.busy.Some? ==> s.busy.value < |s.runs|
    requires n >= |s.channel|
    ensures Exec(s, Rounds(n)).channel == []
    decreases n
  {
    if n > 0 {
      var t := Next(Next(s, Complete), Consume);
      OneRound(s);
      assert Rounds(n)[1..] == [Consume] + Rounds(n - 1);
      assert Rounds(n)[1..][1..] == Rounds(n - 1);
      ConsumerDrains(t, n - 1);
    }
  }
}
