/** What a run of the MCP client does with the requests it was asked for, stated about the steps of the run and
    the messages on the wire. */
module McpRuns {
  import opened Prelude
  import opened McpProtocol

  lemma {:induction false} ExecAppend(s: Client, a: seq<Step>, b: seq<Step>)
    ensures Exec(s, a + b) == Exec(Exec(s, a), b)
    decreases |a|
  {
    if a == [] {
      assert a + b == b;
    } else {
      assert (a + b)[1..] == a[1..] + b;
      ExecAppend(Next(s, a[0]), a[1..], b);
    }
  }

  // ---- Which requests are accepted ----

  /** A transport, and a connected client, or a connecting one for a request that may go out early; and a cancel
      token that has not fired. */
  predicate Accepts(s: Client, a: Step)
    requires a.BeginRequest?
  {
    && s.transport
    && (s.conn == Connected || (a.allowConnecting && s.conn == Connecting))
    && !(a.token && a.fired)
  }

  /** An accepted request takes the next id and is pending and on the wire; a refused one changes nothing. */
  lemma {:induction false} AcceptedIff(s: Client, a: Step)
    requires a.BeginRequest?
    ensures var t := Next(s, a);
            if Accepts(s, a) then
              && t.nextId == s.nextId + 1 && t.pending == s.pending + {s.nextId}
              && t.outgoing == s.outgoing + [Req(s.nextId)] && Requested(t, s.nextId, a)
            else t == s
  {
  }

  /** The entry records what the request asked for. */
  ghost predicate Requested(s: Client, id: int, a: Step)
    requires a.BeginRequest?
  {
    && id in s.entries
    && s.entries[id].cancellable == a.cancellable
    && s.entries[id].progress == a.progress
    && s.entries[id].timed == a.timed
    && (s.entries[id].subscription == NoToken <==> !a.token)
  }

  // ---- An entry keeps what was asked ----

  /** What no step changes about an entry. */
  ghost predicate SameRequest(s: Client, t: Client, id: int) {
    && id in s.entries && id in t.entries
    && t.entries[id].cancellable == s.entries[id].cancellable
    && t.entries[id].progress == s.entries[id].progress
    && t.entries[id].timed == s.entries[id].timed
    && (t.entries[id].subscription == NoToken <==> s.entries[id].subscription == NoToken)
  }

  lemma {:induction false} ClaimSame(s: Client, i: int, o: Outcome, id: int)
    requires i in s.pending && i in s.entries && id in s.entries
    ensures SameRequest(s, Claim(s, i, o), id)
  {
  }

  lemma {:induction false} CancelSame(s: Client, i: int, o: Outcome, notify: bool, g: Option<nat>, id: int)
    requires id in s.entries
    ensures SameRequest(s, CancelPending(s, i, o, notify, g), id)
  {
    if i in s.pending && i in s.entries { ClaimSame(s, i, o, id); }
  }

  lemma {:induction false} BeginSame(s: Client, a: Step, id: int)
    requires a.BeginRequest? && id in s.entries && id != s.nextId
    ensures SameRequest(s, Next(s, a), id)
  {
  }

  lemma {:induction false} QuietSame(s: Client, a: Step, id: int)
    requires id in s.entries
    requires a.MarkClosed? || a.StoreSubscription? || a.SettleStep? || a.Progress?
    ensures SameRequest(s, Next(s, a), id)
  {
  }

  lemma {:induction false} NextSame(s: Client, a: Step, id: int)
    requires Ids(s) && id in s.entries
    ensures SameRequest(s, Next(s, a), id)
  {
    match a {
      case BeginRequest(_, _, _, _, _, _) => BeginSame(s, a, id);
      case Response(rid, ok, payload) =>
        if rid.Number? && rid.n in s.pending && rid.n in s.entries {
          ClaimSame(s, rid.n, Replied(rid, ok, payload), id);
        }
      case TimerFires(i, g) =>
        CancelSame(s, i, TimedOut, i in s.entries && s.entries[i].cancellable, Some(g), id);
      case TokenFires(i) => if i in s.entries { CancelSame(s, i, Aborted, s.entries[i].cancellable, None, id); }
      case SendFails(i) => CancelSame(s, i, SendFailed, false, None, id);
      case Abandon(i) => if i in s.entries { CancelSame(s, i, Aborted, s.entries[i].cancellable, None, id); }
      case MarkClosed => QuietSame(s, a, id);
      case StoreSubscription(_) => QuietSame(s, a, id);
      case SettleStep(_) => QuietSame(s, a, id);
      case Progress(_) => QuietSame(s, a, id);
      case _ =>
    }
  }

  lemma {:induction false} RunSame(s: Client, steps: seq<Step>, id: int)
    requires Inv(s) && id in s.entries
    ensures SameRequest(s, Exec(s, steps), id)
    decreases |steps|
  {
    if steps != [] {
      NextKeeps(s, steps[0]);
      NextSame(s, steps[0], id);
      RunSame(Next(s, steps[0]), steps[1..], id);
    }
  }

  /** Whatever follows, the entry of an accepted request keeps what its step asked for, and a request that may
      not be cancelled is never cancelled on the wire. */
  lemma {:induction false} RequestKeepsItsTerms(before: seq<Step>, a: Step, after: seq<Step>)
    requires a.BeginRequest?
    requires Next(Exec(Initial(), before), a).nextId == Exec(Initial(), before).nextId + 1
    ensures var id := Exec(Initial(), before).nextId;
            var t := Exec(Next(Exec(Initial(), before), a), after);
            && Requested(t, id, a)
            && (!a.cancellable ==> CancelNote(id) !in t.outgoing)
  {
    InitialHolds();
    RunSafe(Initial(), before);
    var s := Exec(Initial(), before);
    var id, u := s.nextId, Next(s, a);
    AcceptedIff(s, a);
    NextKeeps(s, a);
    RunSafe(u, after);
    RunSame(u, after, id);
    var t := Exec(u, after);
    if CancelNote(id) in t.outgoing {
      var k :| 0 <= k < |t.outgoing| && t.outgoing[k] == CancelNote(id);
      assert t.outgoing[k].CancelNote?;
    }
  }

  /** The step of a run that took the id. */
  lemma {:induction false} RequestStep(steps: seq<Step>, id: int) returns (i: nat)
    requires 1 <= id < Exec(Initial(), steps).nextId
    ensures i < |steps| && steps[i].BeginRequest?
    ensures Exec(Initial(), steps[..i]).nextId == id && Exec(Initial(), steps[..i + 1]).nextId == id + 1
    decreases |steps|
  {
    var n := |steps| - 1;
    var front := steps[..n];
    assert steps == front + [steps[n]];
    ExecAppend(Initial(), front, [steps[n]]);
    assert [steps[n]][1..] == [];
    assert Exec(Initial(), steps) == Next(Exec(Initial(), front), steps[n]);
    if id < Exec(Initial(), front).nextId {
      i := RequestStep(front, id);
      assert front[..i] == steps[..i] && front[..i + 1] == steps[..i + 1];
    } else {
      IdGrows(Exec(Initial(), front), steps[n]);
      i := n;
      assert steps[..n + 1] == steps;
    }
  }

  lemma {:induction false} IdGrows(s: Client, a: Step)
    ensures Next(s, a).nextId == if a.BeginRequest? && Accepts(s, a) then s.nextId + 1 else s.nextId
  {
  }

  /** A cancellation on the wire is for a request whose own step said that it may be cancelled. */
  lemma {:induction false} CancelledByRight(steps: seq<Step>, id: int) returns (i: nat)
    requires CancelNote(id) in Exec(Initial(), steps).outgoing
    ensures i < |steps| && steps[i].BeginRequest? && steps[i].cancellable
    ensures Exec(Initial(), steps[..i]).nextId == id && Exec(Initial(), steps[..i + 1]).nextId == id + 1
  {
    InitialHolds();
    RunSafe(Initial(), steps);
    var s := Exec(Initial(), steps);
    var k :| 0 <= k < |s.outgoing| && s.outgoing[k] == CancelNote(id);
    assert s.outgoing[k].CancelNote? && id in s.entries;
    i := RequestStep(steps, id);
    var before, a, after := steps[..i], steps[i], steps[i + 1..];
    assert steps[..i + 1] == before + [a] && [a][1..] == [];
    ExecAppend(Initial(), before, [a]);
    assert steps == steps[..i + 1] + after;
    ExecAppend(Initial(), steps[..i + 1], after);
    assert Exec(Initial(), steps[..i + 1]) == Next(Exec(Initial(), before), a);
    RequestKeepsItsTerms(before, a, after);
  }

  // ---- Settling and the connection ----

  /** The remover's settling step takes its claim and leaves exactly its outcome, for its own request only. */
  lemma {:induction false} SettlingWrites(before: seq<Step>, id: int, other: int)
    requires id in Exec(Initial(), before).claims
    ensures var s := Exec(Initial(), before);
            var t := Next(s, SettleStep(id));
            && id !in t.claims && id in t.entries && t.entries[id].outcomes == [s.claims[id]]
            && (other != id ==> (other in t.claims <==> other in s.claims))
  {
    InitialHolds();
    RunSafe(Initial(), before);
    var s := Exec(Initial(), before);
    assert s.entries[id].outcomes == [];
  }

  /** How each step moves the connection and the transport. */
  lemma {:induction false} ConnectionMoves(s: Client, a: Step)
    ensures Next(s, a).conn ==
              if a.MarkClosed? then Closed
              else if a.ConnectBegin? && s.conn == Idle then Connecting
              else if a.ConnectFinish? && s.conn == Connecting && s.handshake.Negotiated? then Connected
              else s.conn
    ensures Next(s, a).transport == (if a.ConnectBegin? && s.conn == Idle then true
                                     else if a.CloseBegin? then false else s.transport)
  {
    if a.BeginRequest? {
      AcceptedIff(s, a);
    }
  }

  /** A session, of the client or of its handshake, is one that a step of the run negotiated. */
  ghost predicate FromSteps(s: Client, steps: seq<Step>) {
    && (s.session.Some? ==> ConnectSession(s.session.value) in steps)
    && (s.handshake.Negotiated? ==> ConnectSession(s.handshake.session) in steps)
  }

  lemma {:induction false} SessionMoves(s: Client, a: Step, steps: seq<Step>)
    requires FromSteps(s, steps)
    ensures FromSteps(Next(s, a), steps + [a])
  {
    assert a in steps + [a];
    forall x | x in steps ensures x in steps + [a] {
    }
    if a.BeginRequest? {
      AcceptedIff(s, a);
    }
  }

  /** Whatever the order of the steps, the session of a connected client is one that was negotiated. */
  lemma {:induction false} SessionNegotiated(steps: seq<Step>)
    ensures FromSteps(Exec(Initial(), steps), steps)
    decreases |steps|
  {
    if steps != [] {
      var n := |steps| - 1;
      var front := steps[..n];
      SessionNegotiated(front);
      assert steps == front + [steps[n]];
      ExecAppend(Initial(), front, [steps[n]]);
      assert [steps[n]][1..] == [];
      SessionMoves(Exec(Initial(), front), steps[n], front);
    }
  }
}
