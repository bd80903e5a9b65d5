/** The request correlation of the MCP client as a state machine. One step is one region of code
    under the client's lock, or one of the unlocked pieces between two of them; a run is any
    sequence of steps, so every interleaving of responses, timers, cancel tokens, failed sends,
    abandoned callers and closes is a run. */
module McpProtocol {
  import opened Prelude

  datatype JsonRpcId = Number(n: int) | Text(s: string)

  datatype Connection = Idle | Connecting | Connected | Closed

  /** What a claimer is going to write, or has written, as a request's outcome. */
  datatype Outcome =
    | Replied(id: JsonRpcId, ok: bool, payload: string)
    | TimedOut
    | Aborted
    | SendFailed
    | ConnectionClosed

  /** The request's subscription to its caller's cancel token: held by the caller until it is
      stored in the entry, dropped once. */
  datatype Subscription = NoToken | Held | Stored | Dropped

  /** A pending entry. It outlives its removal from the pending map: the claimer writes its
      outcome later. `outcomes` is the list of all such writes, `drops` counts unsubscriptions. */
  datatype Entry = Entry(
    cancellable: bool,
    progress: bool,
    timed: bool,
    generation: Option<nat>,
    subscription: Subscription,
    drops: nat,
    sendCancelled: bool,
    outcomes: seq<Outcome>)

  /** What the client queues on the transport. */
  datatype Outgoing = Req(id: int) | CancelNote(id: int) | Notification

  /** How far `connect` has got. */
  datatype Handshake = NotStarted | Requested | Negotiated(session: string) | Over

  /** `claims` holds the outcome of each entry that was removed but not settled yet. */
  datatype Client = Client(
    conn: Connection,
    session: Option<string>,
    handshake: Handshake,
    transport: bool,
    nextId: int,
    pending: set<int>,
    entries: map<int, Entry>,
    progress: map<int, int>,
    claims: map<int, Outcome>,
    nextGeneration: nat,
    outgoing: seq<Outgoing>,
    handedOut: nat)

  function Initial(): Client {
    Client(Idle, None, NotStarted, false, 1, {}, map[], map[], map[], 0, [], 0)
  }

  // ---- Pieces of steps ----

  function Removed(e: Entry): Entry {
    var dropped := if e.subscription == Stored then e.(subscription := Dropped, drops := e.drops + 1) else e;
    dropped.(generation := None, sendCancelled := true)
  }

  /** `_remove_pending_locked`, by a claimer that will settle the entry with `o`. */
  function Claim(s: Client, id: int, o: Outcome): Client
    requires id in s.pending && id in s.entries
  {
    s.(pending := s.pending - {id},
       entries := s.entries[id := Removed(s.entries[id])],
       progress := if s.entries[id].progress then s.progress - {id} else s.progress,
       claims := s.claims[id := o])
  }

  /** `_arm_timeout_locked` */
  function Arm(s: Client, id: int): Client
    requires id in s.entries
  {
    var e := s.entries[id];
    if e.timed then s.(entries := s.entries[id := e.(generation := Some(s.nextGeneration))],
                       nextGeneration := s.nextGeneration + 1)
    else s.(entries := s.entries[id := e.(generation := None)])
  }

  predicate Usable(s: Client, allowConnecting: bool) {
    s.transport && (s.conn == Connected || (allowConnecting && s.conn == Connecting))
  }

  // ---- Steps ----

  datatype Step =
    | ConnectBegin
    | ConnectSession(session: string)
    | ConnectFinish
    | CloseBegin
    | MarkClosed
    | BeginRequest(cancellable: bool, progress: bool, timed: bool, token: bool, allowConnecting: bool, fired: bool)
    | StoreSubscription(id: int)
    | Response(rid: JsonRpcId, ok: bool, payload: string)
    | TimerFires(id: int, generation: nat)
    | TokenFires(id: int)
    | SendFails(id: int)
    | Abandon(id: int)
    | Progress(progressToken: JsonRpcId)
    | SettleStep(id: int)
    | Notify(allowConnecting: bool)

  /** `_cancel_pending`: claims the entry, and tells the server when asked to. */
  function CancelPending(s: Client, id: int, o: Outcome, notify: bool, generation: Option<nat>): Client {
    if id !in s.pending || id !in s.entries || (generation.Some? && s.entries[id].generation != generation) then s
    else
      var c := Claim(s, id, o);
      if notify && s.transport then c.(outgoing := c.outgoing + [CancelNote(id)]) else c
  }

  /** The new request is registered and its message queued, in one locked step. */
  function Registered(s: Client, a: Step): Client
    requires a.BeginRequest?
  {
    var id := s.nextId;
    var e := Entry(a.cancellable, a.progress, a.timed, None, if a.token then Held else NoToken, 0, false, []);
    s.(nextId := id + 1,
       pending := s.pending + {id},
       entries := s.entries[id := e],
       progress := if a.progress then s.progress[id := id] else s.progress,
       outgoing := s.outgoing + [Req(id)])
  }

  function Begin(s: Client, a: Step): Client
    requires a.BeginRequest?
  {
    if !Usable(s, a.allowConnecting) || (a.token && a.fired) then s else Arm(Registered(s, a), s.nextId)
  }

  function Store(s: Client, id: int): Client {
    if id !in s.entries || s.entries[id].subscription != Held then s
    else
      var e := s.entries[id];
      s.(entries := s.entries[id := if id in s.pending then e.(subscription := Stored)
                                    else e.(subscription := Dropped, drops := e.drops + 1)])
  }

  function Settle(s: Client, id: int): Client {
    if id !in s.claims || id !in s.entries then s
    else
      s.(entries := s.entries[id := s.entries[id].(outcomes := s.entries[id].outcomes + [s.claims[id]])],
         claims := s.claims - {id})
  }

  /** `_mark_closed` under its lock: every pending entry is claimed, the listeners are handed out
      the first time. */
  function Close(s: Client): Client {
    s.(conn := Closed,
       pending := {},
       entries := map id | id in s.entries :: if id in s.pending then Removed(s.entries[id]) else s.entries[id],
       progress := map t | t in s.progress
         && !(t in s.pending && t in s.entries && s.entries[t].progress) :: s.progress[t],
       claims := map id | id in s.claims.Keys + s.pending :: if id in s.pending then ConnectionClosed else s.claims[id],
       handedOut := if s.conn == Closed then s.handedOut else s.handedOut + 1)
  }

  function Reply(s: Client, rid: JsonRpcId, ok: bool, payload: string): Client {
    if rid.Number? && rid.n in s.pending && rid.n in s.entries then Claim(s, rid.n, Replied(rid, ok, payload)) else s
  }

  /** A progress notification renews the timeout of the request its token belongs to. */
  function Renew(s: Client, token: JsonRpcId): Client {
    if token.Number? && token.n in s.progress && s.progress[token.n] in s.pending && s.progress[token.n] in s.entries
    then Arm(s, s.progress[token.n]) else s
  }

  function Next(s: Client, a: Step): Client {
    match a
    case ConnectBegin =>
      if s.conn != Idle then s
      else s.(conn := Connecting, session := None, transport := true, handshake := Requested)
    case ConnectSession(session) =>
      if s.handshake != Requested then s
      else s.(session := if s.conn == Connecting then Some(session) else s.session, handshake := Negotiated(session))
    case ConnectFinish =>
      if !s.handshake.Negotiated? then s
      else if s.conn != Connecting then s.(handshake := Over)
      else s.(conn := Connected, session := Some(s.handshake.session), handshake := Over)
    case CloseBegin => s.(transport := false)
    case MarkClosed => Close(s)
    case BeginRequest(_, _, _, _, _, _) => Begin(s, a)
    case StoreSubscription(id) => Store(s, id)
    case Response(rid, ok, payload) => Reply(s, rid, ok, payload)
    case TimerFires(id, g) =>
      CancelPending(s, id, TimedOut, id in s.entries && s.entries[id].cancellable, Some(g))
    case TokenFires(id) =>
      if id in s.entries && s.entries[id].subscription != NoToken
      then CancelPending(s, id, Aborted, s.entries[id].cancellable, None) else s
    case SendFails(id) => CancelPending(s, id, SendFailed, false, None)
    case Abandon(id) =>
      if id in s.entries && s.entries[id].outcomes == []
      then CancelPending(s, id, Aborted, s.entries[id].cancellable, None) else s
    case Progress(token) => Renew(s, token)
    case SettleStep(id) => Settle(s, id)
    case Notify(allowConnecting) =>
      if Usable(s, allowConnecting) then s.(outgoing := s.outgoing + [Notification]) else s
  }

  function Exec(s: Client, steps: seq<Step>): Client
    decreases |steps|
  {
    if steps == [] then s else Exec(Next(s, steps[0]), steps[1..])
  }

  // ---- The invariant ----

  /** The outcome an entry has, or will get from its claimer. */
  function Verdict(s: Client, id: int): Option<Outcome> {
    if id in s.claims then Some(s.claims[id])
    else if id in s.entries && s.entries[id].outcomes != [] then Some(s.entries[id].outcomes[0])
    else None
  }

  ghost predicate Ids(s: Client) {
    && s.nextId >= 1
    && (forall id :: id in s.entries <==> 1 <= id < s.nextId)
    && s.pending <= s.entries.Keys && s.claims.Keys <= s.entries.Keys && s.pending !! s.claims.Keys
  }

  /** Every entry is pending, claimed or settled, and only a settled one has its one outcome. */
  ghost predicate Settling(s: Client) {
    forall id :: id in s.entries ==>
      |s.entries[id].outcomes| == if id in s.pending || id in s.claims then 0 else 1
  }

  ghost predicate OwnReply(id: int, o: Outcome) {
    o.Replied? ==> o.id == Number(id)
  }

  ghost predicate Replies(s: Client) {
    && (forall id :: id in s.claims ==> OwnReply(id, s.claims[id]))
    && (forall id :: id in s.entries && s.entries[id].outcomes != [] ==> OwnReply(id, s.entries[id].outcomes[0]))
  }

  /** A subscription is dropped exactly once, when both its registration and its removal are over. */
  ghost predicate Subscriptions(s: Client) {
    forall id :: id in s.entries ==>
      var e := s.entries[id];
      && e.drops == (if e.subscription == Dropped then 1 else 0)
      && (e.subscription == Stored ==> id in s.pending)
      && (e.subscription == Dropped ==> id !in s.pending)
  }

  ghost predicate Timers(s: Client) {
    forall id :: id in s.entries ==>
      var e := s.entries[id];
      && (e.generation.Some? ==> id in s.pending && e.generation.value < s.nextGeneration)
      && (e.sendCancelled <==> id !in s.pending)
  }

  ghost predicate ProgressIndex(s: Client) {
    && (forall t :: t in s.progress <==> t in s.pending && t in s.entries && s.entries[t].progress)
    && (forall t :: t in s.progress ==> s.progress[t] == t)
  }

  ghost predicate Lifecycle(s: Client) {
    && (s.conn == Closed ==> s.pending == {})
    && s.handedOut == (if s.conn == Closed then 1 else 0)
    && (s.conn == Connected ==> s.session.Some?)
  }

  /** Request ids on the wire: each used once, in increasing order. */
  ghost predicate Requests(s: Client) {
    && (forall id :: id in s.entries ==> Req(id) in s.outgoing)
    && (forall k :: 0 <= k < |s.outgoing| && s.outgoing[k].Req? ==> 1 <= s.outgoing[k].id < s.nextId)
    && (forall j, k :: 0 <= j < k < |s.outgoing| && s.outgoing[j].Req? && s.outgoing[k].Req? ==>
          s.outgoing[j].id < s.outgoing[k].id)
  }

  /** The claimers that tell the server. */
  ghost predicate ToldServer(o: Option<Outcome>) {
    o == Some(TimedOut) || o == Some(Aborted)
  }

  /** A cancellation follows its request, is sent once, and only for a cancellable request claimed
      by a timeout, a cancel token or an abandoning caller. */
  ghost predicate Cancellations(s: Client) {
    forall k :: 0 <= k < |s.outgoing| && s.outgoing[k].CancelNote? ==>
      var id := s.outgoing[k].id;
      && id in s.entries && id !in s.pending && s.entries[id].cancellable && ToldServer(Verdict(s, id))
      && Req(id) in s.outgoing[..k]
      && CancelNote(id) !in s.outgoing[..k]
  }

  ghost predicate Books(s: Client) {
    Ids(s) && Settling(s) && Replies(s) && Subscriptions(s) && Timers(s) && ProgressIndex(s) && Lifecycle(s)
  }

  ghost predicate Wire(s: Client) {
    Requests(s) && Cancellations(s)
  }

  ghost predicate Inv(s: Client) {
    Books(s) && Wire(s)
  }

  // ---- Each kind of step keeps the invariant ----

  /** A step that sends nothing and changes no verdict keeps the wire part. */
  ghost predicate SameWire(s: Client, t: Client) {
    && t.outgoing == s.outgoing && t.nextId == s.nextId && t.entries.Keys == s.entries.Keys && t.pending <= s.pending
    && (forall id :: id in s.entries ==> t.entries[id].cancellable == s.entries[id].cancellable)
    && (forall id :: id in s.entries && id !in s.pending ==> Verdict(t, id) == Verdict(s, id))
  }

  lemma {:induction false} SameWireKeeps(s: Client, t: Client)
    requires Wire(s) && SameWire(s, t)
    ensures Wire(t)
  {
  }

  lemma {:induction false} ClaimKeeps(s: Client, id: int, o: Outcome)
    requires Inv(s) && id in s.pending && id in s.entries && OwnReply(id, o)
    ensures Inv(Claim(s, id, o))
    ensures CancelNote(id) !in s.outgoing
  {
    ClaimBooks(s, id, o);
    SameWireKeeps(s, Claim(s, id, o));
    assert forall k :: 0 <= k < |s.outgoing| && s.outgoing[k].CancelNote? ==> s.outgoing[k].id != id;
  }

  lemma {:induction false} ClaimBooks(s: Client, id: int, o: Outcome)
    requires Books(s) && id in s.pending && id in s.entries && OwnReply(id, o)
    ensures Books(Claim(s, id, o))
  {
  }

  lemma {:induction false} SendKeeps(s: Client, m: Outgoing)
    requires Inv(s) && !m.Req?
    requires m.CancelNote? ==>
               && m.id in s.entries && m.id !in s.pending && s.entries[m.id].cancellable
               && ToldServer(Verdict(s, m.id)) && m !in s.outgoing
    ensures Inv(s.(outgoing := s.outgoing + [m]))
  {
    SentCancellations(s, m);
  }

  lemma {:induction false} SentCancellations(s: Client, m: Outgoing)
    requires Ids(s) && Wire(s) && !m.Req?
    requires m.CancelNote? ==>
               && m.id in s.entries && m.id !in s.pending && s.entries[m.id].cancellable
               && ToldServer(Verdict(s, m.id)) && m !in s.outgoing
    ensures Cancellations(s.(outgoing := s.outgoing + [m]))
  {
    var t := s.(outgoing := s.outgoing + [m]);
    forall k | 0 <= k < |t.outgoing| && t.outgoing[k].CancelNote?
      ensures var id := t.outgoing[k].id;
              && id in t.entries && id !in t.pending && t.entries[id].cancellable && ToldServer(Verdict(t, id))
              && Req(id) in t.outgoing[..k] && CancelNote(id) !in t.outgoing[..k]
    {
      assert Verdict(t, t.outgoing[k].id) == Verdict(s, t.outgoing[k].id);
      if k < |s.outgoing| {
        assert s.outgoing[k] == t.outgoing[k];
        assert t.outgoing[..k] == s.outgoing[..k];
      } else {
        assert t.outgoing[..k] == s.outgoing;
      }
    }
  }

  lemma {:induction false} CancelKeeps(s: Client, id: int, o: Outcome, notify: bool, generation: Option<nat>)
    requires Inv(s) && !o.Replied?
    requires notify ==> (o == TimedOut || o == Aborted) && (id in s.entries ==> s.entries[id].cancellable)
    ensures Inv(CancelPending(s, id, o, notify, generation))
  {
    if CancelPending(s, id, o, notify, generation) != s {
      ClaimKeeps(s, id, o);
      if notify && s.transport {
        var c := Claim(s, id, o);
        assert Verdict(c, id) == Some(o);
        SendKeeps(c, CancelNote(id));
      }
    }
  }

  lemma {:induction false} ArmBooks(s: Client, id: int)
    requires Books(s) && id in s.pending && id in s.entries
    ensures Books(Arm(s, id))
  {
    ArmTimers(s, id);
    ArmSettling(s, id);
  }

  lemma {:induction false} ArmTimers(s: Client, id: int)
    requires Timers(s) && Subscriptions(s) && ProgressIndex(s) && id in s.pending && id in s.entries
    ensures Timers(Arm(s, id)) && Subscriptions(Arm(s, id)) && ProgressIndex(Arm(s, id))
  {
  }

  lemma {:induction false} ArmSettling(s: Client, id: int)
    requires Ids(s) && Settling(s) && Replies(s) && id in s.pending && id in s.entries
    ensures Ids(Arm(s, id)) && Settling(Arm(s, id)) && Replies(Arm(s, id))
  {
  }

  lemma {:induction false} ArmWire(s: Client, id: int)
    requires Wire(s) && id in s.pending && id in s.entries
    ensures Wire(Arm(s, id))
  {
    SameWireKeeps(s, Arm(s, id));
  }

  lemma {:induction false} BeginKeeps(s: Client, a: Step)
    requires Inv(s) && a.BeginRequest?
    ensures Inv(Begin(s, a))
  {
    if Begin(s, a) != s {
      var t := Registered(s, a);
      RegisterBooks(s, a);
      RegisterRequests(s, a);
      RegisterCancellations(s, a);
      ArmBooks(t, s.nextId);
      ArmWire(t, s.nextId);
    }
  }

  lemma {:induction false} RegisterBooks(s: Client, a: Step)
    requires Books(s) && a.BeginRequest? && s.conn != Closed
    ensures Books(Registered(s, a))
  {
  }

  lemma {:induction false} RegisterRequests(s: Client, a: Step)
    requires Ids(s) && Requests(s) && a.BeginRequest?
    ensures Requests(Registered(s, a))
  {
    var t := Registered(s, a);
    assert t.outgoing[|s.outgoing|] == Req(s.nextId);
    assert forall id :: id in s.entries ==> Req(id) in s.outgoing;
  }

  lemma {:induction false} RegisterCancellations(s: Client, a: Step)
    requires Ids(s) && Cancellations(s) && a.BeginRequest?
    ensures Cancellations(Registered(s, a))
  {
    var t := Registered(s, a);
    forall k | 0 <= k < |t.outgoing| && t.outgoing[k].CancelNote?
      ensures var id := t.outgoing[k].id;
              && id in t.entries && id !in t.pending && t.entries[id].cancellable && ToldServer(Verdict(t, id))
              && Req(id) in t.outgoing[..k] && CancelNote(id) !in t.outgoing[..k]
    {
      assert t.outgoing[k] == s.outgoing[k];
      assert t.outgoing[..k] == s.outgoing[..k];
      assert t.outgoing[k].id != s.nextId;
      assert Verdict(t, t.outgoing[k].id) == Verdict(s, t.outgoing[k].id);
    }
  }

  lemma {:induction false} StoreBooks(s: Client, id: int)
    requires Books(s)
    ensures Books(Store(s, id))
  {
  }

  lemma {:induction false} StoreWire(s: Client, id: int)
    requires Wire(s)
    ensures Wire(Store(s, id))
  {
    SameWireKeeps(s, Store(s, id));
  }

  lemma {:induction false} SettleVerdicts(s: Client, id: int)
    requires Ids(s) && Settling(s) && Replies(s) && id in s.claims && id in s.entries
    ensures var t := Settle(s, id); Ids(t) && Settling(t) && Replies(t) && SameWire(s, t)
  {
    assert s.entries[id].outcomes == [];
    assert Settle(s, id).entries[id].outcomes == [s.claims[id]];
  }

  lemma {:induction false} SettleBooks(s: Client, id: int)
    requires Subscriptions(s) && Timers(s) && ProgressIndex(s) && Lifecycle(s) && id in s.claims && id in s.entries
    ensures var t := Settle(s, id); Subscriptions(t) && Timers(t) && ProgressIndex(t) && Lifecycle(t)
  {
  }

  lemma {:induction false} SettleKeeps(s: Client, id: int)
    requires Inv(s)
    ensures Inv(Settle(s, id))
  {
    if id in s.claims && id in s.entries {
      SettleVerdicts(s, id);
      SettleBooks(s, id);
      SameWireKeeps(s, Settle(s, id));
    }
  }

  lemma {:induction false} CloseBooks(s: Client)
    requires Books(s)
    ensures Books(Close(s))
  {
    CloseClaims(s);
    CloseReleases(s);
  }

  lemma {:induction false} CloseClaims(s: Client)
    requires Ids(s) && Settling(s) && Replies(s)
    ensures Ids(Close(s)) && Settling(Close(s)) && Replies(Close(s))
  {
    assert Close(s).entries.Keys == s.entries.Keys;
  }

  lemma {:induction false} CloseReleases(s: Client)
    requires Ids(s) && Subscriptions(s) && Timers(s) && ProgressIndex(s) && Lifecycle(s)
    ensures Subscriptions(Close(s)) && Timers(Close(s)) && ProgressIndex(Close(s)) && Lifecycle(Close(s))
  {
  }

  lemma {:induction false} CloseWire(s: Client)
    requires Ids(s)
    ensures SameWire(s, Close(s))
  {
    assert Close(s).entries.Keys == s.entries.Keys;
  }

  lemma {:induction false} CloseKeeps(s: Client)
    requires Inv(s)
    ensures Inv(Close(s))
  {
    CloseBooks(s);
    CloseWire(s);
    SameWireKeeps(s, Close(s));
  }

  lemma {:induction false} NextKeeps(s: Client, a: Step)
    requires Inv(s)
    ensures Inv(Next(s, a))
  {
    var s' := Next(s, a);
    match a {
      case MarkClosed => CloseKeeps(s);
      case BeginRequest(_, _, _, _, _, _) => BeginKeeps(s, a);
      case StoreSubscription(id) =>
        StoreBooks(s, id);
        StoreWire(s, id);
      case Response(rid, ok, payload) =>
        if s' != s { ClaimKeeps(s, rid.n, Replied(rid, ok, payload)); }
      case TimerFires(id, g) =>
        CancelKeeps(s, id, TimedOut, id in s.entries && s.entries[id].cancellable, Some(g));
      case TokenFires(id) =>
        if s' != s { CancelKeeps(s, id, Aborted, s.entries[id].cancellable, None); }
      case SendFails(id) => CancelKeeps(s, id, SendFailed, false, None);
      case Abandon(id) =>
        if s' != s { CancelKeeps(s, id, Aborted, s.entries[id].cancellable, None); }
      case Progress(token) =>
        if s' != s {
          ArmBooks(s, s.progress[token.n]);
          ArmWire(s, s.progress[token.n]);
        }
      case SettleStep(id) => SettleKeeps(s, id);
      case Notify(allow) =>
        if s' != s { SendKeeps(s, Notification); }
      case _ => HandshakeKeeps(s, a);
    }
  }

  lemma {:induction false} HandshakeKeeps(s: Client, a: Step)
    requires Inv(s) && (a.ConnectBegin? || a.ConnectSession? || a.ConnectFinish? || a.CloseBegin?)
    ensures Inv(Next(s, a))
  {
    HandshakeFrame(s, a);
    SameRequestsKeeps(s, Next(s, a));
    SameWireKeeps(s, Next(s, a));
  }

  lemma {:induction false} HandshakeFrame(s: Client, a: Step)
    requires Lifecycle(s) && (a.ConnectBegin? || a.ConnectSession? || a.ConnectFinish? || a.CloseBegin?)
    ensures SameRequests(s, Next(s, a)) && Next(s, a).outgoing == s.outgoing && Lifecycle(Next(s, a))
  {
  }

  lemma {:induction false} SameRequestsKeeps(s: Client, t: Client)
    requires Books(s) && SameRequests(s, t) && Lifecycle(t)
    ensures Books(t)
    ensures t.outgoing == s.outgoing ==> SameWire(s, t)
  {
  }

  /** Safety over every run. */
  lemma {:induction false} RunSafe(s: Client, steps: seq<Step>)
    requires Inv(s)
    ensures Inv(Exec(s, steps))
    decreases |steps|
  {
    if steps != [] {
      NextKeeps(s, steps[0]);
      RunSafe(Next(s, steps[0]), steps[1..]);
    }
  }

  // ---- What a run never takes back ----

  function Rank(c: Connection): nat {
    match c
    case Idle => 0
    case Connecting => 1
    case Connected => 2
    case Closed => 3
  }

  /** From `s` to `t` the connection state only moves forward, a request once removed stays removed
      and keeps its outcome, and what was sent stays sent. */
  ghost predicate Forward(s: Client, t: Client) {
    && Rank(s.conn) <= Rank(t.conn)
    && s.nextId <= t.nextId
    && s.nextGeneration <= t.nextGeneration
    && s.outgoing <= t.outgoing
    && (forall id :: id in s.entries ==> id in t.entries)
    && (forall id :: id in s.entries && id !in s.pending ==> id !in t.pending && Verdict(t, id) == Verdict(s, id))
    && (s.conn == Closed ==> t.conn == Closed && t.nextId == s.nextId)
  }

  lemma {:induction false} ForwardTransitive(a: Client, b: Client, c: Client)
    requires Forward(a, b) && Forward(b, c)
    ensures Forward(a, c)
  {
  }

  /** `t` differs from `s` in one entry, whose outcomes it leaves alone and which it may claim. */
  ghost predicate Touches(s: Client, t: Client, id: int) {
    && id in s.entries && id in t.entries
    && t.conn == s.conn && t.nextId == s.nextId && s.nextGeneration <= t.nextGeneration && s.outgoing <= t.outgoing
    && t.entries == s.entries[id := t.entries[id]]
    && t.entries[id].outcomes == s.entries[id].outcomes
    && ((t.pending == s.pending && t.claims == s.claims)
        || (id in s.pending && id in t.claims && t.pending == s.pending - {id}
             && t.claims == s.claims[id := t.claims[id]]))
  }

  lemma {:induction false} TouchesForward(s: Client, t: Client, id: int)
    requires Ids(s) && Touches(s, t, id)
    ensures Forward(s, t)
  {
    forall i | i in s.entries && i !in s.pending
      ensures i !in t.pending && Verdict(t, i) == Verdict(s, i)
    {
    }
  }

  lemma {:induction false} CancelForward(s: Client, id: int, o: Outcome, notify: bool, generation: Option<nat>)
    requires Ids(s)
    ensures Forward(s, CancelPending(s, id, o, notify, generation))
  {
    if CancelPending(s, id, o, notify, generation) != s {
      TouchesForward(s, CancelPending(s, id, o, notify, generation), id);
    }
  }

  lemma {:induction false} ResponseForward(s: Client, rid: JsonRpcId, ok: bool, payload: string)
    requires Ids(s)
    ensures Forward(s, Next(s, Response(rid, ok, payload)))
  {
    if rid.Number? && rid.n in s.pending {
      TouchesForward(s, Next(s, Response(rid, ok, payload)), rid.n);
    }
  }

  lemma {:induction false} ArmForward(s: Client, id: int)
    requires Ids(s) && id in s.entries
    ensures Forward(s, Arm(s, id))
  {
    TouchesForward(s, Arm(s, id), id);
  }

  lemma {:induction false} StoreForward(s: Client, id: int)
    requires Ids(s)
    ensures Forward(s, Store(s, id))
  {
    if id in s.entries {
      TouchesForward(s, Store(s, id), id);
    }
  }

  lemma {:induction false} RegisterForward(s: Client, a: Step)
    requires Ids(s) && a.BeginRequest? && s.conn != Closed
    ensures Forward(s, Registered(s, a))
  {
  }

  lemma {:induction false} BeginForward(s: Client, a: Step)
    requires Inv(s) && a.BeginRequest?
    ensures Forward(s, Begin(s, a))
  {
    if Begin(s, a) != s {
      var t := Registered(s, a);
      RegisterForward(s, a);
      ArmForward(t, s.nextId);
      ForwardTransitive(s, t, Begin(s, a));
    }
  }

  lemma {:induction false} CloseForward(s: Client)
    requires Inv(s)
    ensures Forward(s, Close(s))
  {
  }

  /** `t` differs from `s` in the connection's own fields only. */
  ghost predicate SameRequests(s: Client, t: Client) {
    && t.pending == s.pending && t.entries == s.entries && t.claims == s.claims && t.progress == s.progress
    && t.nextId == s.nextId && t.nextGeneration == s.nextGeneration && t.handedOut == s.handedOut
  }

  lemma {:induction false} HandshakeForward(s: Client, a: Step)
    requires a.ConnectBegin? || a.ConnectSession? || a.ConnectFinish? || a.CloseBegin? || a.Notify?
    ensures Forward(s, Next(s, a))
  {
    var t := Next(s, a);
    assert SameRequests(s, t);
    assert forall id :: id in s.entries ==> Verdict(t, id) == Verdict(s, id);
  }

  lemma {:induction false} NextForward(s: Client, a: Step)
    requires Inv(s)
    ensures Forward(s, Next(s, a))
  {
    match a {
      case MarkClosed => CloseForward(s);
      case BeginRequest(_, _, _, _, _, _) => BeginForward(s, a);
      case TimerFires(id, g) =>
        CancelForward(s, id, TimedOut, id in s.entries && s.entries[id].cancellable, Some(g));
      case TokenFires(id) =>
        if id in s.entries { CancelForward(s, id, Aborted, s.entries[id].cancellable, None); }
      case SendFails(id) => CancelForward(s, id, SendFailed, false, None);
      case Abandon(id) =>
        if id in s.entries { CancelForward(s, id, Aborted, s.entries[id].cancellable, None); }
      case SettleStep(id) => SettleForward(s, id);
      case Response(rid, ok, payload) => ResponseForward(s, rid, ok, payload);
      case Progress(token) =>
        if Next(s, a) != s { ArmForward(s, s.progress[token.n]); }
      case StoreSubscription(id) => StoreForward(s, id);
      case _ => HandshakeForward(s, a);
    }
  }

  lemma {:induction false} SettleForward(s: Client, id: int)
    requires Inv(s)
    ensures Forward(s, Settle(s, id))
  {
    if id in s.claims {
      assert s.entries[id].outcomes == [];
      assert Settle(s, id).entries[id].outcomes == [s.claims[id]];
    }
  }

  lemma {:induction false} RunForward(s: Client, steps: seq<Step>)
    requires Inv(s)
    ensures Forward(s, Exec(s, steps))
    decreases |steps|
  {
    if steps != [] {
      var t := Next(s, steps[0]);
      NextKeeps(s, steps[0]);
      NextForward(s, steps[0]);
      RunForward(t, steps[1..]);
      ForwardTransitive(s, t, Exec(t, steps[1..]));
    }
  }

  // ---- Timers ----

  /** A timer of an earlier arming of `id`. */
  ghost predicate Superseded(s: Client, id: int, g: nat) {
    && id in s.entries && g < s.nextGeneration
    && s.entries[id].generation != Some(g)
  }

  lemma {:induction false} StaysSuperseded(s: Client, a: Step, id: int, g: nat)
    requires Ids(s) && Superseded(s, id, g)
    ensures Superseded(Next(s, a), id, g)
  {
    match a {
      case BeginRequest(_, _, _, _, _, _) =>
        if Begin(s, a) != s {
          assert Superseded(Registered(s, a), id, g);
          ArmSuperseded(Registered(s, a), s.nextId, id, g);
        }
      case Response(rid, ok, payload) =>
        if Next(s, a) != s { ClaimSuperseded(s, rid.n, Replied(rid, ok, payload), id, g); }
      case TimerFires(i, h) =>
        CancelSuperseded(s, i, TimedOut, i in s.entries && s.entries[i].cancellable, Some(h), id, g);
      case TokenFires(i) =>
        if i in s.entries { CancelSuperseded(s, i, Aborted, s.entries[i].cancellable, None, id, g); }
      case SendFails(i) => CancelSuperseded(s, i, SendFailed, false, None, id, g);
      case Abandon(i) =>
        if i in s.entries { CancelSuperseded(s, i, Aborted, s.entries[i].cancellable, None, id, g); }
      case Progress(token) =>
        if Next(s, a) != s { ArmSuperseded(s, s.progress[token.n], id, g); }
      case MarkClosed => CloseSuperseded(s, id, g);
      case _ =>
    }
  }

  lemma {:induction false} ArmSuperseded(s: Client, i: int, id: int, g: nat)
    requires Superseded(s, id, g) && i in s.entries
    ensures Superseded(Arm(s, i), id, g)
  {
  }

  lemma {:induction false} CloseSuperseded(s: Client, id: int, g: nat)
    requires Superseded(s, id, g)
    ensures Superseded(Close(s), id, g)
  {
  }

  lemma {:induction false} ClaimSuperseded(s: Client, i: int, o: Outcome, id: int, g: nat)
    requires Superseded(s, id, g) && i in s.pending && i in s.entries
    ensures Superseded(Claim(s, i, o), id, g)
  {
  }

  lemma {:induction false} CancelSuperseded(s: Client, i: int, o: Outcome, notify: bool, h: Option<nat>, id: int,
                                            g: nat)
    requires Superseded(s, id, g)
    ensures Superseded(CancelPending(s, i, o, notify, h), id, g)
  {
    if i in s.pending && i in s.entries { ClaimSuperseded(s, i, o, id, g); }
  }

  /** A timer superseded by a progress renewal never acts: whenever it fires later, it changes nothing. */
  lemma {:induction false} SupersededNeverFires(s: Client, steps: seq<Step>, id: int, g: nat)
    requires Inv(s) && Superseded(s, id, g)
    ensures Next(Exec(s, steps), TimerFires(id, g)) == Exec(s, steps)
    decreases |steps|
  {
    if steps != [] {
      NextKeeps(s, steps[0]);
      StaysSuperseded(s, steps[0], id, g);
      SupersededNeverFires(Next(s, steps[0]), steps[1..], id, g);
    }
  }

  /** A progress notification supersedes the timer armed before it. */
  lemma {:induction false} ProgressRenews(s: Client, id: int, g: nat)
    requires Inv(s) && id in s.progress && s.entries[id].generation == Some(g)
    ensures Superseded(Next(s, Progress(Number(id))), id, g)
    ensures var t := Next(s, Progress(Number(id)));
            id in t.pending && (s.entries[id].timed ==> t.entries[id].generation == Some(s.nextGeneration) != Some(g))
  {
  }

  /** A pending request with a timeout always has a timer armed. */
  ghost predicate Armed(s: Client) {
    forall id :: id in s.pending && id in s.entries && s.entries[id].timed ==> s.entries[id].generation.Some?
  }

  lemma {:induction false} CancelArmed(s: Client, id: int, o: Outcome, notify: bool, generation: Option<nat>)
    requires Armed(s)
    ensures Armed(CancelPending(s, id, o, notify, generation))
  {
  }

  lemma {:induction false} NextArmed(s: Client, a: Step)
    requires Armed(s)
    ensures Armed(Next(s, a))
  {
    match a {
      case TimerFires(id, g) => CancelArmed(s, id, TimedOut, id in s.entries && s.entries[id].cancellable, Some(g));
      case TokenFires(id) => if id in s.entries { CancelArmed(s, id, Aborted, s.entries[id].cancellable, None); }
      case SendFails(id) => CancelArmed(s, id, SendFailed, false, None);
      case Abandon(id) => if id in s.entries { CancelArmed(s, id, Aborted, s.entries[id].cancellable, None); }
      case _ =>
    }
  }

  /** In every reachable state a pending request with a timeout has a timer, and it fires: the request is
      removed as timed out. */
  lemma {:induction false} TimersFire(s: Client, steps: seq<Step>, id: int)
    requires Armed(s)
    ensures var t := Exec(s, steps);
            id in t.pending && id in t.entries && t.entries[id].timed ==>
              && t.entries[id].generation.Some?
              && var u := Next(t, TimerFires(id, t.entries[id].generation.value));
              id !in u.pending && Verdict(u, id) == Some(TimedOut)
    decreases |steps|
  {
    if steps != [] {
      NextArmed(s, steps[0]);
      TimersFire(Next(s, steps[0]), steps[1..], id);
    }
  }

  // ---- The client's promises about one run from the start ----

  /** The outcome that step `a` claims request `id` with, if it is one of the steps that may claim it. */
  function Verb(a: Step, id: int): Option<Outcome> {
    match a
    case Response(rid, ok, payload) => if rid == Number(id) then Some(Replied(rid, ok, payload)) else None
    case TimerFires(i, _) => if i == id then Some(TimedOut) else None
    case TokenFires(i) => if i == id then Some(Aborted) else None
    case SendFails(i) => if i == id then Some(SendFailed) else None
    case Abandon(i) => if i == id then Some(Aborted) else None
    case MarkClosed => Some(ConnectionClosed)
    case _ => None
  }

  /** The steps that remove request `id`: its reply, its current timer, its token, its failed send, its
      abandoning caller, or the close. */
  predicate Removes(s: Client, a: Step, id: int)
    requires id in s.entries
  {
    match a
    case Response(rid, _, _) => rid == Number(id)
    case TimerFires(i, g) => i == id && s.entries[id].generation == Some(g)
    case TokenFires(i) => i == id && s.entries[id].subscription != NoToken
    case SendFails(i) => i == id
    case Abandon(i) => i == id
    case MarkClosed => true
    case _ => false
  }

  /** What a step that removes `id` queues for the server. */
  function Tells(s: Client, a: Step, id: int): seq<Outgoing>
    requires id in s.entries
  {
    if (a.TimerFires? || a.TokenFires? || a.Abandon?) && s.entries[id].cancellable && s.transport
      then [CancelNote(id)] else []
  }

  /** A pending request leaves the map exactly by one of those steps, and the server is told exactly when it
      timed out or was aborted, may be cancelled and there is a transport. */
  lemma {:induction false} RemovedIff(before: seq<Step>, a: Step, id: int)
    requires id in Exec(Initial(), before).pending
    ensures var s := Exec(Initial(), before);
            && id in s.entries
            && (id !in Next(s, a).pending <==> Removes(s, a, id))
            && (Removes(s, a, id) ==> Next(s, a).outgoing == s.outgoing + Tells(s, a, id))
  {
    InitialHolds();
    RunSafe(Initial(), before);
    RemovedHere(Exec(Initial(), before), a, id);
  }

  lemma {:induction false} RemovedHere(s: Client, a: Step, id: int)
    requires Ids(s) && Settling(s) && id in s.pending
    ensures id !in Next(s, a).pending <==> Removes(s, a, id)
    ensures Removes(s, a, id) ==> Next(s, a).outgoing == s.outgoing + Tells(s, a, id)
  {
    BeginAdds(s, a);
    assert s.entries[id].outcomes == [];
  }

  /** In every reachable state: connected implies a session, closed implies that nothing is pending, and the
      progress index maps exactly the tokens of pending requests with a progress listener to themselves. */
  lemma {:induction false} ConnectionStory(steps: seq<Step>, token: int)
    ensures var s := Exec(Initial(), steps);
            && (s.conn == Connected ==> s.session.Some?)
            && (s.conn == Closed ==> s.pending == {} && s.handedOut == 1)
            && (token in s.progress <==> token in s.pending && token in s.entries && s.entries[token].progress)
            && (token in s.progress ==> s.progress[token] == token)
  {
    InitialHolds();
    RunSafe(Initial(), steps);
  }

  /** The step that removes a request from the pending map is the one that decides its outcome: a
      response with the request's own id, its own timer, token, send or caller, or the close. */
  lemma {:induction false} RemoverDecides(before: seq<Step>, a: Step, id: int)
    requires id in Exec(Initial(), before).pending
    requires id !in Next(Exec(Initial(), before), a).pending
    ensures Verb(a, id).Some? && Verdict(Next(Exec(Initial(), before), a), id) == Verb(a, id)
  {
    InitialHolds();
    RunSafe(Initial(), before);
    ClaimDecides(Exec(Initial(), before), a, id);
  }

  lemma {:induction false} ClaimDecides(s: Client, a: Step, id: int)
    requires Ids(s) && id in s.pending && id !in Next(s, a).pending
    ensures Verb(a, id).Some? && Verdict(Next(s, a), id) == Verb(a, id)
  {
    BeginAdds(s, a);
  }

  lemma {:induction false} BeginAdds(s: Client, a: Step)
    ensures a.BeginRequest? ==> s.pending <= Begin(s, a).pending
  {
  }

  /** On the wire every request id is fresh, and a cancellation follows its request, is sent at most
      once, never for an `initialize`, and only for a request whose outcome is a timeout or an abort. */
  lemma {:induction false} WireDiscipline(steps: seq<Step>, j: nat, k: nat)
    requires j < k < |Exec(Initial(), steps).outgoing|
    ensures var s := Exec(Initial(), steps);
            && (s.outgoing[j].Req? && s.outgoing[k].Req? ==> s.outgoing[j].id < s.outgoing[k].id)
            && (s.outgoing[k].CancelNote? ==>
                  && var id := s.outgoing[k].id;
                  && s.outgoing[j] != s.outgoing[k] && Req(id) in s.outgoing[..k]
                  && id in s.entries && s.entries[id].cancellable && ToldServer(Verdict(s, id)))
  {
    InitialHolds();
    RunSafe(Initial(), steps);
    var s := Exec(Initial(), steps);
    assert s.outgoing[j] == s.outgoing[..k][j];
  }

  lemma {:induction false} InitialHolds()
    ensures Inv(Initial())
  {
  }

  /** Whatever happens, a request ends up with exactly one outcome, written by whoever removed it:
      between two points of a run, an outcome once decided is the one that stays written. */
  lemma {:induction false} OutcomeWrittenOnce(before: seq<Step>, after: seq<Step>, id: int)
    requires id in Exec(Initial(), before).entries && id !in Exec(Initial(), before).pending
    ensures var s, t := Exec(Initial(), before), Exec(Exec(Initial(), before), after);
            && id !in t.pending && id in t.entries
            && |t.entries[id].outcomes| <= 1
            && Verdict(s, id).Some? && Verdict(t, id) == Verdict(s, id)
            && (id !in t.claims ==> t.entries[id].outcomes == [Verdict(s, id).value])
            && (t.entries[id].subscription != Held && t.entries[id].subscription != NoToken ==>
                  t.entries[id].drops == 1)
  {
    InitialHolds();
    RunSafe(Initial(), before);
    var s := Exec(Initial(), before);
    RunSafe(s, after);
    RunForward(s, after);
  }

  /** Once closed, nothing is pending and no request is ever added. */
  lemma {:induction false} ClosedForGood(before: seq<Step>, after: seq<Step>)
    requires Exec(Initial(), before).conn == Closed
    ensures var s, t := Exec(Initial(), before), Exec(Exec(Initial(), before), after);
            t.conn == Closed && t.pending == {} && t.nextId == s.nextId && t.handedOut == 1
  {
    InitialHolds();
    RunSafe(Initial(), before);
    RunSafe(Exec(Initial(), before), after);
    RunForward(Exec(Initial(), before), after);
  }
}
