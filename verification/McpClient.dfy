/** The client object: the fields its methods update under the lock, and one method per locked
    region. Each method's effect is the protocol step of `McpProtocol`. */
module McpClient {
  import opened Prelude
  import opened McpProtocol

  /** `s` marked closed, with the requests in `done` removed so far. */
  ghost function ClosedPart(s: McpProtocol.Client, done: set<int>): McpProtocol.Client {
    s.(conn := Closed,
       pending := s.pending - done,
       entries := map id | id in s.entries :: if id in done then Removed(s.entries[id]) else s.entries[id],
       progress := map t | t in s.progress && !(t in done && t in s.entries && s.entries[t].progress) :: s.progress[t],
       claims := map id | id in s.claims.Keys + done :: if id in done then ConnectionClosed else s.claims[id])
  }

  lemma {:induction false} NothingClosed(s: McpProtocol.Client)
    ensures ClosedPart(s, {}) == s.(conn := Closed)
  {
    var t := ClosedPart(s, {});
    assert t.entries == s.entries && t.progress == s.progress && t.claims == s.claims;
  }

  /** Arming the timer and queueing the message commute: both are under the lock. */
  lemma {:induction false} ArmsBeforeSending(s: McpProtocol.Client, id: int, before: seq<Outgoing>)
    requires id in s.entries
    ensures Arm(s, id) == Arm(s.(outgoing := before), id).(outgoing := s.outgoing)
  {
  }

  lemma {:induction false} NonEmpty(todo: set<int>)
    requires todo != {}
    ensures exists id :: id in todo
  {
    assert (forall id :: id !in todo) ==> todo == {};
  }

  lemma {:induction false} ClosesOneMore(s: McpProtocol.Client, todo: set<int>, id: int)
    requires Ids(s) && id in todo && todo <= s.pending
    ensures var t := ClosedPart(s, s.pending - todo);
            id in t.pending && id in t.entries
              && Claim(t, id, ConnectionClosed) == ClosedPart(s, s.pending - (todo - {id}))
  {
    var t, u := Claim(ClosedPart(s, s.pending - todo), id, ConnectionClosed), ClosedPart(s, s.pending - (todo - {id}));
    assert t.pending == u.pending;
    assert t.entries == u.entries;
    assert t.progress == u.progress;
    assert t.claims == u.claims;
  }

  lemma {:induction false} AllClosed(s: McpProtocol.Client)
    ensures ClosedPart(s, s.pending - {}) == Close(s).(handedOut := s.handedOut)
  {
    assert s.pending - {} == s.pending;
    var t, u := ClosedPart(s, s.pending), Close(s);
    assert t.entries == u.entries && t.progress == u.progress && t.claims == u.claims;
  }

  class Client {
    var conn: Connection
    var session: Option<string>
    var handshake: Handshake
    var transport: bool
    var nextRequestId: int
    var pending: set<int>
    var entries: map<int, Entry>
    var progressRequests: map<int, int>
    var claims: map<int, Outcome>
    var nextGeneration: nat
    var outgoing: seq<Outgoing>
    var handedOut: nat

    function State(): (s: McpProtocol.Client)
      reads this
    {
      McpProtocol.Client(conn, session, handshake, transport, nextRequestId, pending, entries, progressRequests,
                         claims, nextGeneration, outgoing, handedOut)
    }

    constructor ()
      ensures State() == Initial()
    {
      conn, session, handshake, transport := Idle, None, NotStarted, false;
      nextRequestId, pending, entries, progressRequests := 1, {}, map[], map[];
      claims, nextGeneration, outgoing, handedOut := map[], 0, [], 0;
    }

    // ---- connect ----

    method ConnectBegin() returns (accepted: bool)
      modifies this
      ensures State() == Next(old(State()), Step.ConnectBegin)
      ensures accepted <==> old(conn) == Idle
    {
      accepted := conn == Idle;
      if accepted {
        conn, session := Connecting, None;
        transport := true;
        handshake := Requested;
      }
    }

    method ConnectSession(negotiated: string)
      modifies this
      ensures State() == Next(old(State()), Step.ConnectSession(negotiated))
    {
      if handshake == Requested {
        if conn == Connecting {
          session := Some(negotiated);
        }
        handshake := Negotiated(negotiated);
      }
    }

    method ConnectFinish() returns (connected: bool)
      modifies this
      ensures State() == Next(old(State()), Step.ConnectFinish)
      ensures connected ==> conn == Connected && session.Some?
    {
      connected := false;
      if handshake.Negotiated? {
        if conn == Connecting {
          conn, session := Connected, Some(handshake.session);
          connected := true;
        }
        handshake := Over;
      }
    }

    // ---- Under the lock ----

    /** What removal does to the entry itself: the timer, the subscription and the send are let go. */
    static method ReleaseEntry(entry: Entry) returns (e: Entry)
      ensures e == Removed(entry)
    {
      e := entry.(generation := None);
      if e.subscription == Stored {
        e := e.(subscription := Dropped, drops := e.drops + 1);
      }
      e := e.(sendCancelled := true);
    }

    method RemovePendingLocked(id: int, o: Outcome)
      requires id in pending && id in entries
      modifies this
      ensures State() == Claim(old(State()), id, o)
    {
      pending := pending - {id};
      var e := entries[id];
      if e.progress {
        progressRequests := progressRequests - {id};
      }
      var released := ReleaseEntry(e);
      entries := entries[id := released];
      claims := claims[id := o];
    }

    method ArmTimeoutLocked(id: int)
      requires id in entries
      modifies this
      ensures State() == Arm(old(State()), id)
    {
      var e := entries[id].(generation := None);
      if e.timed {
        e := e.(generation := Some(nextGeneration));
        nextGeneration := nextGeneration + 1;
      }
      entries := entries[id := e];
    }

    // ---- Requests ----

    method BeginRequest(cancellable: bool, progress: bool, timed: bool, token: bool, allowConnecting: bool, fired: bool)
      returns (id: Option<int>)
      modifies this
      ensures State()
              == Begin(old(State()), Step.BeginRequest(cancellable, progress, timed, token, allowConnecting, fired))
      ensures id.Some? ==> outgoing == old(outgoing) + [Req(id.value)]
    {
      if !Usable(State(), allowConnecting) || (token && fired) {
        return None;
      }
      ghost var s, a := State(), Step.BeginRequest(cancellable, progress, timed, token, allowConnecting, fired);
      var next := nextRequestId;
      Register(next, Entry(cancellable, progress, timed, None, if token then Held else NoToken, 0, false, []), a);
      ArmTimeoutLocked(next);
      ArmsBeforeSending(Registered(s, a), next, s.outgoing);
      outgoing := outgoing + [Req(next)];
      id := Some(next);
    }

    method Register(id: int, e: Entry, ghost a: Step)
      requires id == nextRequestId && a.BeginRequest?
      requires e == Entry(a.cancellable, a.progress, a.timed, None, if a.token then Held else NoToken, 0, false, [])
      modifies this
      ensures State() == Registered(old(State()), a).(outgoing := old(outgoing))
    {
      nextRequestId := nextRequestId + 1;
      pending := pending + {id};
      entries := entries[id := e];
      if e.progress {
        progressRequests := progressRequests[id := id];
      }
    }

    /** The second lock of a request with a cancel token. */
    method StoreSubscription(id: int)
      modifies this
      ensures State() == Store(old(State()), id)
    {
      if id in entries && entries[id].subscription == Held {
        if id in pending {
          entries := entries[id := entries[id].(subscription := Stored)];
        } else {
          entries := entries[id := entries[id].(subscription := Dropped, drops := entries[id].drops + 1)];
        }
      }
    }

    method HandleResponse(rid: JsonRpcId, ok: bool, payload: string) returns (known: bool)
      modifies this
      ensures State() == Reply(old(State()), rid, ok, payload)
      ensures !known ==> State() == old(State())
    {
      known := rid.Number? && rid.n in pending && rid.n in entries;
      if known {
        RemovePendingLocked(rid.n, Replied(rid, ok, payload));
      }
    }

    method CancelPendingRequest(id: int, o: Outcome, notifyServer: bool, generation: Option<nat>)
      modifies this
      ensures State() == CancelPending(old(State()), id, o, notifyServer, generation)
    {
      if id !in pending || id !in entries || (generation.Some? && entries[id].generation != generation) {
        return;
      }
      RemovePendingLocked(id, o);
      if notifyServer && transport {
        outgoing := outgoing + [CancelNote(id)];
      }
    }

    method HandleProgress(token: JsonRpcId) returns (delivered: bool)
      modifies this
      ensures State() == Renew(old(State()), token)
      ensures !delivered ==> State() == old(State())
    {
      delivered := token.Number? && token.n in progressRequests && progressRequests[token.n] in pending
                   && progressRequests[token.n] in entries;
      if delivered {
        ArmTimeoutLocked(progressRequests[token.n]);
      }
    }

    /** Outside the lock, by whoever removed the entry. */
    method Settle(id: int)
      modifies this
      ensures State() == McpProtocol.Settle(old(State()), id)
    {
      if id in claims && id in entries {
        entries := entries[id := entries[id].(outcomes := entries[id].outcomes + [claims[id]])];
        claims := claims - {id};
      }
    }

    method NotifyInternal(allowConnecting: bool) returns (sent: bool)
      modifies this
      ensures State() == Next(old(State()), Notify(allowConnecting))
      ensures sent <==> |outgoing| == |old(outgoing)| + 1
    {
      sent := Usable(State(), allowConnecting);
      if sent {
        outgoing := outgoing + [Notification];
      }
    }

    // ---- close ----

    method CloseBegin()
      modifies this
      ensures State() == Next(old(State()), Step.CloseBegin)
    {
      transport := false;
    }

    method MarkClosed()
      requires Ids(State())
      modifies this
      ensures State() == Close(old(State()))
    {
      ghost var s := State();
      var wasClosed := conn == Closed;
      conn := Closed;
      var todo := pending;
      NothingClosed(s);
      while todo != {}
        invariant todo == pending <= s.pending
        invariant State() == ClosedPart(s, s.pending - todo)
        decreases |todo|
      {
        NonEmpty(todo);
        var id :| id in todo;
        ClosesOneMore(s, todo, id);
        RemovePendingLocked(id, ConnectionClosed);
        todo := todo - {id};
      }
      AllClosed(s);
      if !wasClosed {
        handedOut := handedOut + 1;
      }
    }

    // ---- Whole runs ----

    method Perform(a: Step)
      requires Ids(State())
      modifies this
      ensures State() == Next(old(State()), a)
    {
      match a {
        case ConnectBegin => var _ := ConnectBegin();
        case ConnectSession(negotiated) => ConnectSession(negotiated);
        case ConnectFinish => var _ := ConnectFinish();
        case CloseBegin => CloseBegin();
        case MarkClosed => MarkClosed();
        case BeginRequest(cancellable, progress, timed, token, allowConnecting, fired) =>
          var _ := BeginRequest(cancellable, progress, timed, token, allowConnecting, fired);
        case StoreSubscription(id) => StoreSubscription(id);
        case Response(rid, ok, payload) => var _ := HandleResponse(rid, ok, payload);
        case TimerFires(id, generation) =>
          CancelPendingRequest(id, TimedOut, id in entries && entries[id].cancellable, Some(generation));
        case TokenFires(id) =>
          if id in entries && entries[id].subscription != NoToken {
            CancelPendingRequest(id, Aborted, entries[id].cancellable, None);
          }
        case SendFails(id) => CancelPendingRequest(id, SendFailed, false, None);
        case Abandon(id) =>
          if id in entries && |entries[id].outcomes| == 0 {
            CancelPendingRequest(id, Aborted, entries[id].cancellable, None);
          }
        case Progress(token) => var _ := HandleProgress(token);
        case SettleStep(id) => Settle(id);
        case Notify(allowConnecting) => var _ := NotifyInternal(allowConnecting);
      }
    }

    /** Any run of the object is a run of the protocol, so the protocol's invariant holds throughout. */
    method Run(steps: seq<Step>)
      requires Inv(State())
      modifies this
      ensures State() == Exec(old(State()), steps)
      ensures Inv(State())
    {
      var i := 0;
      while i < |steps|
        invariant i <= |steps|
        invariant Inv(State())
        invariant Exec(State(), steps[i..]) == Exec(old(State()), steps)
      {
        NextKeeps(State(), steps[i]);
        assert steps[i..][1..] == steps[i + 1..];
        Perform(steps[i]);
        i := i + 1;
      }
    }
  }
}
