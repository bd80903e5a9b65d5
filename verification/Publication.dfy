/** Publishing a provider's refreshed models: refreshes supersede each other by generation, publications
    queue on a FIFO lock and check their generation before the store write and again before the in-memory
    update. Any delay may lie between two steps; an abandoned caller leaves its publication running. */
module Publication {
  import opened Prelude

  datatype Persist = Keep | Delete | Write

  /** One call of `_begin_provider_refresh` and what followed: the generation of its first lock, whether its
      second lock has put its controller into the map, and whether its refresh has ended. */
  datatype Refresh = Refresh(generation: nat, installed: bool, ended: bool)

  /** `Passed` and `Confirmed` follow the two checks, `Stored` the store operation. `checked` says whether a
      finished publication got past its first check. */
  datatype Phase = Queued | Locked | Passed | Stored | Confirmed | Done(published: bool, checked: bool)

  /** `refresh` is the refresh that publishes; its number also names its cancel token. */
  datatype Pub = Pub(generation: nat, refresh: nat, persist: Persist, updates: bool, phase: Phase)

  datatype Effect = StoreMutation(pub: nat, generation: nat) | MemoryUpdate(pub: nat, generation: nat)

  /** One provider. `controller` is the refresh whose token the controller map holds, `installs` the second
      locks in the order they were taken, `log` the effects so far. */
  datatype Provider = Provider(
    generation: nat,
    refreshes: seq<Refresh>,
    installs: seq<nat>,
    controller: Option<nat>,
    cancelled: set<nat>,
    pubs: seq<Pub>,
    waiting: seq<nat>,
    holder: Option<nat>,
    log: seq<Effect>)

  const IDLE := Provider(0, [], [], None, {}, [], [], None, [])

  /** `Supersede` is a supersession without a refresh, as when a provider is set or deleted. */
  datatype Step =
    | Supersede
    | Begin
    | Install(refresh: nat)
    | EndRefresh(refresh: nat)
    | Cancel(refresh: nat)
    | Publish(refresh: nat, persist: Persist, updates: bool)
    | Acquire
    | Check
    | StoreOperation(mutates: bool, raises: bool)
    | Recheck
    | Update

  predicate Current(s: Provider, p: Pub) {
    p.refresh !in s.cancelled && p.generation == s.generation
  }

  predicate Holds(s: Provider, phase: Phase) {
    s.holder.Some? && s.holder.value < |s.pubs| && s.pubs[s.holder.value].phase == phase
  }

  function Holder(s: Provider): Pub
    requires s.holder.Some? && s.holder.value < |s.pubs|
  {
    s.pubs[s.holder.value]
  }

  function MoveTo(s: Provider, phase: Phase): Provider
    requires s.holder.Some? && s.holder.value < |s.pubs|
  {
    s.(pubs := s.pubs[s.holder.value := Holder(s).(phase := phase)])
  }

  /** The task leaves the lock. */
  function Finish(s: Provider, published: bool, checked: bool): Provider
    requires s.holder.Some? && s.holder.value < |s.pubs|
  {
    MoveTo(s, Done(published, checked)).(holder := None)
  }

  function StoreDone(s: Provider, mutates: bool, raises: bool): Provider
    requires s.holder.Some? && s.holder.value < |s.pubs|
  {
    var p := Holder(s);
    var t := if mutates && p.persist != Keep
      then s.(log := s.log + [StoreMutation(s.holder.value, p.generation)]) else s;
    if raises && p.persist != Keep then Finish(t, false, true) else MoveTo(t, Stored)
  }

  function Updated(s: Provider): Provider
    requires s.holder.Some? && s.holder.value < |s.pubs|
  {
    var p := Holder(s);
    var t := if p.updates then s.(log := s.log + [MemoryUpdate(s.holder.value, p.generation)]) else s;
    Finish(t, true, true)
  }

  /** `_supersede_provider_refresh`: the next generation, and the map loses its controller. */
  function Superseded(s: Provider): Provider {
    s.(generation := s.generation + 1, controller := None)
  }

  function Next(s: Provider, a: Step): Provider {
    match a
    case Supersede => Superseded(s)
    case Begin =>
      var t := Superseded(s);
      t.(refreshes := s.refreshes + [Refresh(t.generation, false, false)])
    case Install(r) =>
      if r >= |s.refreshes| || s.refreshes[r].installed then s
      else s.(refreshes := s.refreshes[r := s.refreshes[r].(installed := true)],
              installs := s.installs + [r], controller := Some(r))
    case EndRefresh(r) =>
      if r >= |s.refreshes| || !s.refreshes[r].installed || s.refreshes[r].ended then s
      else s.(refreshes := s.refreshes[r := s.refreshes[r].(ended := true)],
              controller := if s.controller == Some(r) then None else s.controller)
    case Cancel(r) => s.(cancelled := s.cancelled + {r})
    case Publish(r, persist, updates) =>
      if r >= |s.refreshes| then s
      else s.(pubs := s.pubs + [Pub(s.refreshes[r].generation, r, persist, updates, Queued)],
              waiting := s.waiting + [|s.pubs|])
    case Acquire =>
      if s.holder.Some? || s.waiting == [] || s.waiting[0] >= |s.pubs| then s
      else MoveTo(s.(holder := Some(s.waiting[0]), waiting := s.waiting[1..]), Locked)
    case Check =>
      if !Holds(s, Locked) then s
      else if Current(s, Holder(s)) then MoveTo(s, Passed) else Finish(s, false, false)
    case StoreOperation(mutates, raises) => if Holds(s, Passed) then StoreDone(s, mutates, raises) else s
    case Recheck =>
      if !Holds(s, Stored) then s
      else if Current(s, Holder(s)) then MoveTo(s, Confirmed) else Finish(s, false, true)
    case Update => if Holds(s, Confirmed) then Updated(s) else s
  }

  function Exec(s: Provider, steps: seq<Step>): Provider
    decreases |steps|
  {
    if steps == [] then s else Exec(Next(s, steps[0]), steps[1..])
  }

  // ---- The invariant ----

  predicate InLock(p: Phase) {
    p == Locked || p == Passed || p == Stored || p == Confirmed
  }

  /** The lock's holder is the one publication between acquiring and finishing; those queued wait for it once. */
  ghost predicate LockOk(s: Provider) {
    && (s.holder.Some? ==> s.holder.value < |s.pubs|)
    && (forall r :: 0 <= r < |s.pubs| ==> (InLock(s.pubs[r].phase) <==> s.holder == Some(r)))
    && (forall k :: 0 <= k < |s.waiting| ==> s.waiting[k] < |s.pubs| && s.pubs[s.waiting[k]].phase == Queued)
    && Distinct(s.waiting)
  }

  predicate PastCheck(p: Phase) {
    p == Passed || p == Stored || p == Confirmed
  }

  /** Effects happen in non-decreasing generations, none beyond the current one nor beyond that of a holder
      past its first check. */
  ghost predicate Ordered(s: Provider) {
    && (forall j, k :: 0 <= j < k < |s.log| ==> s.log[j].generation <= s.log[k].generation)
    && (forall k :: 0 <= k < |s.log| ==> s.log[k].generation <= s.generation)
    && (s.holder.Some? && s.holder.value < |s.pubs| && PastCheck(s.pubs[s.holder.value].phase) ==>
          && s.pubs[s.holder.value].generation <= s.generation
          && forall k :: 0 <= k < |s.log| ==> s.log[k].generation <= s.pubs[s.holder.value].generation)
  }

  /** Each effect belongs to a publication that was far enough, happens once, and an update completes it. */
  ghost predicate Owned(s: Provider) {
    && Distinct(s.log)
    && (forall k :: 0 <= k < |s.log| ==>
          && s.log[k].pub < |s.pubs|
          && var p := s.pubs[s.log[k].pub];
          && p.generation == s.log[k].generation
          && (s.log[k].StoreMutation? ==>
                p.persist != Keep && (p.phase == Stored || p.phase == Confirmed || (p.phase.Done? && p.phase.checked)))
          && (s.log[k].MemoryUpdate? ==> p.updates && p.phase == Done(true, true)))
    && (forall r :: 0 <= r < |s.pubs| && s.pubs[r].phase.Done? && s.pubs[r].phase.published ==>
          && s.pubs[r].phase.checked
          && (s.pubs[r].updates ==> MemoryUpdate(r, s.pubs[r].generation) in s.log))
  }

  ghost predicate Inv(s: Provider) {
    LockOk(s) && Ordered(s) && Owned(s)
  }

  // ---- Each step keeps it ----

  lemma {:induction false} PublishKeeps(s: Provider, p: Pub)
    requires Inv(s) && p.phase == Queued
    ensures Inv(s.(pubs := s.pubs + [p], waiting := s.waiting + [|s.pubs|]))
  {
  }

  lemma {:induction false} AcquireKeeps(s: Provider)
    requires Inv(s)
    ensures Inv(Next(s, Acquire))
  {
  }

  /** Moving on inside the lock, without an effect. */
  lemma {:induction false} MoveKeeps(s: Provider, phase: Phase)
    requires Inv(s) && s.holder.Some?
    requires (Holds(s, Locked) && phase == Passed && Holder(s).generation == s.generation)
             || (Holds(s, Passed) && phase == Stored) || (Holds(s, Stored) && phase == Confirmed)
    ensures Inv(MoveTo(s, phase))
  {
  }

  lemma {:induction false} FinishKeeps(s: Provider, checked: bool)
    requires Inv(s) && s.holder.Some?
    requires (Holds(s, Locked) && !checked) || ((Holds(s, Passed) || Holds(s, Stored)) && checked)
    ensures Inv(Finish(s, false, checked))
  {
  }

  lemma {:induction false} MutateMoves(s: Provider, next: Phase)
    requires Inv(s) && Holds(s, Passed) && Holder(s).persist != Keep && (next == Stored || next == Done(false, true))
    ensures var t := s.(log := s.log + [StoreMutation(s.holder.value, Holder(s).generation)]);
            Inv(if next == Stored then MoveTo(t, Stored) else Finish(t, false, true))
  {
    var e := StoreMutation(s.holder.value, Holder(s).generation);
    assert e !in s.log;
    MutateOwned(s, next);
  }

  lemma {:induction false} MutateOwned(s: Provider, next: Phase)
    requires LockOk(s) && Owned(s) && Holds(s, Passed) && Holder(s).persist != Keep
             && (next == Stored || next == Done(false, true))
    ensures var t := s.(log := s.log + [StoreMutation(s.holder.value, Holder(s).generation)]);
            Owned(if next == Stored then MoveTo(t, Stored) else Finish(t, false, true))
  {
    assert StoreMutation(s.holder.value, Holder(s).generation) !in s.log;
  }

  lemma {:induction false} UpdateKeeps(s: Provider)
    requires Inv(s) && Holds(s, Confirmed)
    ensures Inv(Updated(s))
  {
    UpdateOwned(s);
  }

  lemma {:induction false} UpdateOwned(s: Provider)
    requires LockOk(s) && Owned(s) && Holds(s, Confirmed)
    ensures Owned(Updated(s))
  {
    assert MemoryUpdate(s.holder.value, Holder(s).generation) !in s.log;
    assert Updated(s).log <= s.log + [MemoryUpdate(s.holder.value, Holder(s).generation)];
  }

  lemma {:induction false} StoreKeeps(s: Provider, mutates: bool, raises: bool)
    requires Inv(s) && Holds(s, Passed)
    ensures Inv(StoreDone(s, mutates, raises))
  {
    var fails := raises && Holder(s).persist != Keep;
    if mutates && Holder(s).persist != Keep {
      MutateMoves(s, if fails then Done(false, true) else Stored);
    } else if fails {
      FinishKeeps(s, true);
    } else {
      MoveKeeps(s, Stored);
    }
  }

  lemma {:induction false} NextKeeps(s: Provider, a: Step)
    requires Inv(s)
    ensures Inv(Next(s, a))
  {
    match a {
      case Publish(r, persist, updates) =>
        if r < |s.refreshes| {
          PublishKeeps(s, Pub(s.refreshes[r].generation, r, persist, updates, Queued));
        }
      case Acquire => AcquireKeeps(s);
      case Check =>
        if Holds(s, Locked) {
          if Current(s, Holder(s)) { MoveKeeps(s, Passed); } else { FinishKeeps(s, false); }
        }
      case StoreOperation(mutates, raises) => if Holds(s, Passed) { StoreKeeps(s, mutates, raises); }
      case Recheck =>
        if Holds(s, Stored) {
          if Current(s, Holder(s)) { MoveKeeps(s, Confirmed); } else { FinishKeeps(s, true); }
        }
      case Update => if Holds(s, Confirmed) { UpdateKeeps(s); }
      case _ => OutsideKeeps(s, a);
    }
  }

  lemma {:induction false} OutsideKeeps(s: Provider, a: Step)
    requires Inv(s) && (a.Supersede? || a.Begin? || a.Install? || a.EndRefresh? || a.Cancel?)
    ensures Inv(Next(s, a))
  {
    var t := Next(s, a);
    assert t == s.(generation := t.generation, refreshes := t.refreshes, installs := t.installs,
                   controller := t.controller, cancelled := t.cancelled);
    assert t.generation >= s.generation;
  }

  lemma {:induction false} RunSafe(s: Provider, steps: seq<Step>)
    requires Inv(s)
    ensures Inv(Exec(s, steps))
    decreases |steps|
  {
    if steps != [] {
      NextKeeps(s, steps[0]);
      RunSafe(Next(s, steps[0]), steps[1..]);
    }
  }

  /** What a run never takes back. */
  ghost predicate Forward(s: Provider, t: Provider) {
    && s.generation <= t.generation && s.log <= t.log && |s.pubs| <= |t.pubs|
    && (forall r :: 0 <= r < |s.pubs| && s.pubs[r].phase.Done? ==> t.pubs[r] == s.pubs[r])
  }

  lemma {:induction false} NextForward(s: Provider, a: Step)
    requires LockOk(s)
    ensures Forward(s, Next(s, a))
  {
  }

  lemma {:induction false} RunForward(s: Provider, steps: seq<Step>)
    requires Inv(s)
    ensures Forward(s, Exec(s, steps))
    decreases |steps|
  {
    if steps != [] {
      NextKeeps(s, steps[0]);
      NextForward(s, steps[0]);
      RunForward(Next(s, steps[0]), steps[1..]);
    }
  }

  // ---- The promises ----

  /** Store mutations and in-memory updates together run in non-decreasing generations, each at most once. */
  lemma {:induction false} GenerationsAdvance(steps: seq<Step>, j: nat, k: nat)
    requires j < k < |Exec(IDLE, steps).log|
    ensures var log := Exec(IDLE, steps).log; log[j].generation <= log[k].generation && log[j] != log[k]
  {
    RunSafe(IDLE, steps);
  }

  /** A finished publication stays as it is, and what it never did is never done. */
  lemma {:induction false} DoneStays(s: Provider, steps: seq<Step>, r: nat)
    requires Inv(s) && r < |s.pubs| && s.pubs[r].phase.Done? && !s.pubs[r].phase.published
    ensures var t := Exec(s, steps);
            && Inv(t) && r < |t.pubs| && t.pubs[r] == s.pubs[r]
            && (!s.pubs[r].phase.checked ==> forall k :: 0 <= k < |t.log| ==> t.log[k].pub != r)
            && (forall g :: MemoryUpdate(r, g) !in t.log)
  {
    RunSafe(s, steps);
    RunForward(s, steps);
  }

  /** A publication superseded or cancelled at its first check reports false and never changes anything. */
  lemma {:induction false} SupersededChangesNothing(before: seq<Step>, after: seq<Step>, r: nat)
    requires var s := Exec(IDLE, before);
             && s.holder == Some(r) && r < |s.pubs| && s.pubs[r].phase == Locked
             && (s.pubs[r].refresh in s.cancelled || s.pubs[r].generation != s.generation)
    ensures var t := Exec(Next(Exec(IDLE, before), Check), after);
            && r < |t.pubs| && t.pubs[r].phase == Done(false, false)
            && forall k :: 0 <= k < |t.log| ==> t.log[k].pub != r
  {
    RunSafe(IDLE, before);
    NextKeeps(Exec(IDLE, before), Check);
    DoneStays(Next(Exec(IDLE, before), Check), after, r);
  }

  /** One superseded or cancelled at its second check reports false and never updates memory, though its store
      operation has run. */
  lemma {:induction false} SupersededSkipsUpdate(before: seq<Step>, after: seq<Step>, r: nat, g: nat)
    requires var s := Exec(IDLE, before);
             && s.holder == Some(r) && r < |s.pubs| && s.pubs[r].phase == Stored
             && (s.pubs[r].refresh in s.cancelled || s.pubs[r].generation != s.generation)
    ensures var t := Exec(Next(Exec(IDLE, before), Recheck), after);
            r < |t.pubs| && t.pubs[r].phase == Done(false, true) && MemoryUpdate(r, g) !in t.log
  {
    RunSafe(IDLE, before);
    NextKeeps(Exec(IDLE, before), Recheck);
    DoneStays(Next(Exec(IDLE, before), Recheck), after, r);
  }

  /** What a publication reports is whether its update ran. */
  lemma {:induction false} PublishedMeansUpdated(steps: seq<Step>, r: nat)
    requires r < |Exec(IDLE, steps).pubs| && Exec(IDLE, steps).pubs[r].phase.Done? && Exec(IDLE, steps).pubs[r].updates
    ensures var s := Exec(IDLE, steps);
            s.pubs[r].phase.published <==> MemoryUpdate(r, s.pubs[r].generation) in s.log
  {
    RunSafe(IDLE, steps);
  }

  // ---- The controller map ----

  /** Refreshes have increasing generations, each takes its second lock once and ends after it. */
  ghost predicate RefreshesOk(s: Provider) {
    && (forall r :: 0 <= r < |s.refreshes| ==> s.refreshes[r].generation <= s.generation)
    && (forall q, r :: 0 <= q < r < |s.refreshes| ==> s.refreshes[q].generation < s.refreshes[r].generation)
    && (forall r :: 0 <= r < |s.refreshes| && s.refreshes[r].ended ==> s.refreshes[r].installed)
    && (forall k :: 0 <= k < |s.installs| ==> s.installs[k] < |s.refreshes| && s.refreshes[s.installs[k]].installed)
    && (forall r :: 0 <= r < |s.refreshes| && s.refreshes[r].installed ==> r in s.installs)
    && Distinct(s.installs)
  }

  predicate LastInstalled(s: Provider, r: nat) {
    |s.installs| > 0 && s.installs[|s.installs| - 1] == r
  }

  predicate IsCurrent(s: Provider, r: nat) {
    r < |s.refreshes| && s.refreshes[r].generation == s.generation && !s.refreshes[r].ended
  }

  /** The map can only hold the token installed last, and holds it while its refresh is the current one. */
  ghost predicate MapOk(s: Provider) {
    && (s.controller.Some? ==> LastInstalled(s, s.controller.value))
    && (forall r: nat :: IsCurrent(s, r) && LastInstalled(s, r) ==> s.controller == Some(r))
  }

  lemma {:induction false} InstallKeepsMap(s: Provider, r: nat)
    requires RefreshesOk(s) && MapOk(s)
    ensures RefreshesOk(Next(s, Install(r))) && MapOk(Next(s, Install(r)))
  {
  }

  lemma {:induction false} EndKeepsMap(s: Provider, r: nat)
    requires RefreshesOk(s) && MapOk(s)
    ensures RefreshesOk(Next(s, EndRefresh(r))) && MapOk(Next(s, EndRefresh(r)))
  {
  }

  lemma {:induction false} BeginKeepsMap(s: Provider)
    requires RefreshesOk(s) && MapOk(s)
    ensures RefreshesOk(Next(s, Begin)) && MapOk(Next(s, Begin))
  {
    assert forall k :: 0 <= k < |s.installs| ==> s.installs[k] != |s.refreshes|;
  }

  /** A step of publications leaves refreshes and map alone. */
  lemma {:induction false} PublicationKeepsMap(s: Provider, a: Step)
    requires !a.Supersede? && !a.Begin? && !a.Install? && !a.EndRefresh?
    ensures var t := Next(s, a);
            t.generation == s.generation && t.refreshes == s.refreshes && t.installs == s.installs
              && t.controller == s.controller
  {
  }

  lemma {:induction false} NextKeepsMap(s: Provider, a: Step)
    requires RefreshesOk(s) && MapOk(s)
    ensures RefreshesOk(Next(s, a)) && MapOk(Next(s, a))
  {
    match a {
      case Supersede =>
      case Begin => BeginKeepsMap(s);
      case Install(r) => InstallKeepsMap(s, r);
      case EndRefresh(r) => EndKeepsMap(s, r);
      case _ => PublicationKeepsMap(s, a);
    }
  }

  lemma {:induction false} RunKeepsMap(s: Provider, steps: seq<Step>)
    requires RefreshesOk(s) && MapOk(s)
    ensures RefreshesOk(Exec(s, steps)) && MapOk(Exec(s, steps))
    decreases |steps|
  {
    if steps != [] {
      NextKeepsMap(s, steps[0]);
      RunKeepsMap(Next(s, steps[0]), steps[1..]);
    }
  }

  /** Publications and controller map together. */
  ghost predicate Sound(s: Provider) {
    Inv(s) && RefreshesOk(s) && MapOk(s)
  }

  lemma {:induction false} NextSound(s: Provider, a: Step)
    requires Sound(s)
    ensures Sound(Next(s, a))
  {
    NextKeeps(s, a);
    NextKeepsMap(s, a);
  }

  /** Refresh `q` took its second lock after refresh `r` did. */
  ghost predicate InstalledAfter(s: Provider, q: nat, r: nat) {
    exists j, k :: 0 <= j < k < |s.installs| && s.installs[j] == r && s.installs[k] == q
  }

  /** In every reachable state whose newest refresh has neither ended nor been superseded: the controller map
      holds its token exactly when it has taken its second lock and no older refresh took its own later. */
  lemma {:induction false} ControllerIsNewest(steps: seq<Step>, r: nat)
    requires IsCurrent(Exec(IDLE, steps), r)
    ensures var s := Exec(IDLE, steps);
            s.controller == Some(r)
            <==> s.refreshes[r].installed && forall q: nat :: q < r ==> !InstalledAfter(s, q, r)
  {
    RunKeepsMap(IDLE, steps);
    var s := Exec(IDLE, steps);
    if s.refreshes[r].installed {
      LastUnlessOlder(s, r);
    }
  }

  /** Every other refresh is older than the current one, so only an older one can have installed after it. */
  lemma {:induction false} LastUnlessOlder(s: Provider, r: nat)
    requires RefreshesOk(s) && IsCurrent(s, r) && s.refreshes[r].installed
    ensures LastInstalled(s, r) <==> forall q: nat :: q < r ==> !InstalledAfter(s, q, r)
  {
    var j :| 0 <= j < |s.installs| && s.installs[j] == r;
    var last := |s.installs| - 1;
    var q := s.installs[last];
    assert q < |s.refreshes| && q <= r;
    if j < last {
      assert InstalledAfter(s, q, r);
    }
  }

  /** So the map is not what carries the safety: two refreshes whose locks interleave leave the older token. */
  lemma {:induction false} ControllerCanBeStale()
    ensures var s := Exec(IDLE, [Begin, Begin, Install(1), Install(0)]);
            && IsCurrent(s, 1) && s.refreshes[0].generation < s.refreshes[1].generation
            && s.controller == Some(0)
  {
    var steps := [Begin, Begin, Install(1), Install(0)];
    var one, two := Next(IDLE, Begin), Next(Next(IDLE, Begin), Begin);
    var three := Next(two, Install(1));
    assert steps[1..] == [Begin, Install(1), Install(0)];
    assert steps[1..][1..] == [Install(1), Install(0)];
    assert steps[1..][1..][1..] == [Install(0)];
    assert steps[1..][1..][1..][1..] == [];
    assert Exec(IDLE, steps) == Exec(one, steps[1..]) == Exec(two, steps[1..][1..]);
    assert Exec(two, [Install(1), Install(0)]) == Exec(three, [Install(0)]);
    assert Exec(three, [Install(0)]) == Exec(Next(three, Install(0)), []);
    assert two.refreshes == [Refresh(1, false, false), Refresh(2, false, false)];
  }
}
