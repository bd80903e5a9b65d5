/** The registry's side of publication: the generation and controller maps of all providers, and one
    method per step of a refresh or a publication. Providers do not touch each other. */
module ModelRegistry {
  import opened Prelude
  import P = Publication

  function Find<T>(m: map<string, T>, k: string, default: T): T {
    if k in m then m[k] else default
  }

  class Models {
    var generations: map<string, nat>
    var refreshes: map<string, seq<P.Refresh>>
    ghost var installs: map<string, seq<nat>>
    var controllers: map<string, nat>
    var cancelled: map<string, set<nat>>
    var pubs: map<string, seq<P.Pub>>
    var waiting: map<string, seq<nat>>
    var holders: map<string, nat>
    var logs: map<string, seq<P.Effect>>

    ghost function State(id: string): P.Provider
      reads this
    {
      P.Provider(Find(generations, id, 0), Find(refreshes, id, []), Find(installs, id, []),
                 if id in controllers then Some(controllers[id]) else None, Find(cancelled, id, {}),
                 Find(pubs, id, []), Find(waiting, id, []), if id in holders then Some(holders[id]) else None,
                 Find(logs, id, []))
    }

    /** The publication in the lock of provider `id`, if it has got as far as `phase`. */
    predicate Holds(id: string, phase: P.Phase)
      reads this
      ensures Holds(id, phase) <==> P.Holds(State(id), phase)
    {
      id in holders && id in pubs && holders[id] < |pubs[id]| && pubs[id][holders[id]].phase == phase
    }

    constructor ()
      ensures forall id :: State(id) == P.IDLE
    {
      generations, refreshes, installs, controllers, cancelled := map[], map[], map[], map[], map[];
      pubs, waiting, holders, logs := map[], map[], map[], map[];
    }

    /** The next generation, and the controller to cancel once the lock is released. */
    method SupersedeProviderRefresh(id: string) returns (generation: nat, previous: Option<nat>)
      modifies this
      ensures State(id) == P.Superseded(old(State(id)))
      ensures forall other | other != id :: State(other) == old(State(other))
      ensures generation == State(id).generation && previous == old(State(id)).controller
    {
      generation := Find(generations, id, 0) + 1;
      generations := generations[id := generation];
      previous := if id in controllers then Some(controllers[id]) else None;
      controllers := controllers - {id};
    }

    /** The first lock of `_begin_provider_refresh`: a supersession, recorded as a refresh. */
    method BeginProviderRefresh(id: string) returns (refresh: nat)
      modifies this
      ensures State(id) == P.Next(old(State(id)), P.Begin)
      ensures forall other | other != id :: State(other) == old(State(other))
      ensures refresh == |old(State(id)).refreshes|
    {
      var generation, _ := SupersedeProviderRefresh(id);
      var mine := Find(refreshes, id, []);
      refresh := |mine|;
      refreshes := refreshes[id := mine + [P.Refresh(generation, false, false)]];
    }

    /** Its second lock puts the refresh's own controller into the map. */
    method InstallController(id: string, refresh: nat)
      modifies this
      ensures State(id) == P.Next(old(State(id)), P.Install(refresh))
      ensures forall other | other != id :: State(other) == old(State(other))
    {
      var mine := Find(refreshes, id, []);
      if refresh < |mine| && !mine[refresh].installed {
        refreshes := refreshes[id := mine[refresh := mine[refresh].(installed := true)]];
        installs := installs[id := Find(installs, id, []) + [refresh]];
        controllers := controllers[id := refresh];
      }
    }

    method EndRefresh(id: string, refresh: nat)
      modifies this
      ensures State(id) == P.Next(old(State(id)), P.EndRefresh(refresh))
      ensures forall other | other != id :: State(other) == old(State(other))
    {
      var mine := Find(refreshes, id, []);
      if refresh < |mine| && mine[refresh].installed && !mine[refresh].ended {
        refreshes := refreshes[id := mine[refresh := mine[refresh].(ended := true)]];
        if id in controllers && controllers[id] == refresh {
          controllers := controllers - {id};
        }
      }
    }

    method CancelRefresh(id: string, refresh: nat)
      modifies this
      ensures State(id) == P.Next(old(State(id)), P.Cancel(refresh))
      ensures forall other | other != id :: State(other) == old(State(other))
    {
      cancelled := cancelled[id := Find(cancelled, id, {}) + {refresh}];
    }

    method PublishProviderModels(id: string, refresh: nat, persist: P.Persist, updates: bool)
      modifies this
      ensures State(id) == P.Next(old(State(id)), P.Publish(refresh, persist, updates))
      ensures forall other | other != id :: State(other) == old(State(other))
    {
      var begun := Find(refreshes, id, []);
      if refresh < |begun| {
        var mine := Find(pubs, id, []);
        waiting := waiting[id := Find(waiting, id, []) + [|mine|]];
        pubs := pubs[id := mine + [P.Pub(begun[refresh].generation, refresh, persist, updates, P.Queued)]];
      }
    }

    method Acquire(id: string)
      modifies this
      ensures State(id) == P.Next(old(State(id)), P.Acquire)
      ensures forall other | other != id :: State(other) == old(State(other))
    {
      var queue := Find(waiting, id, []);
      var mine := Find(pubs, id, []);
      if id !in holders && |queue| > 0 && queue[0] < |mine| {
        holders := holders[id := queue[0]];
        waiting := waiting[id := queue[1..]];
        pubs := pubs[id := mine[queue[0] := mine[queue[0]].(phase := P.Locked)]];
      }
    }

    method MoveTo(id: string, phase: P.Phase)
      requires id in holders && id in pubs && holders[id] < |pubs[id]|
      modifies this
      ensures State(id) == P.MoveTo(old(State(id)), phase)
      ensures forall other | other != id :: State(other) == old(State(other))
    {
      pubs := pubs[id := pubs[id][holders[id] := pubs[id][holders[id]].(phase := phase)]];
    }

    method Finish(id: string, published: bool, checked: bool)
      requires id in holders && id in pubs && holders[id] < |pubs[id]|
      modifies this
      ensures State(id) == P.Finish(old(State(id)), published, checked)
      ensures forall other | other != id :: State(other) == old(State(other))
    {
      MoveTo(id, P.Done(published, checked));
      holders := holders - {id};
    }

    method CheckGeneration(id: string)
      modifies this
      ensures State(id) == P.Next(old(State(id)), P.Check)
      ensures forall other | other != id :: State(other) == old(State(other))
    {
      if Holds(id, P.Locked) {
        var p := pubs[id][holders[id]];
        if p.refresh in Find(cancelled, id, {}) || Find(generations, id, 0) != p.generation {
          Finish(id, false, false);
        } else {
          MoveTo(id, P.Passed);
        }
      }
    }

    method RunStore(id: string, mutates: bool, raises: bool)
      modifies this
      ensures State(id) == P.Next(old(State(id)), P.StoreOperation(mutates, raises))
      ensures forall other | other != id :: State(other) == old(State(other))
    {
      if Holds(id, P.Passed) {
        var p := pubs[id][holders[id]];
        if mutates && p.persist != P.Keep {
          logs := logs[id := Find(logs, id, []) + [P.StoreMutation(holders[id], p.generation)]];
        }
        if raises && p.persist != P.Keep {
          Finish(id, false, true);
        } else {
          MoveTo(id, P.Stored);
        }
      }
    }

    method RecheckGeneration(id: string)
      modifies this
      ensures State(id) == P.Next(old(State(id)), P.Recheck)
      ensures forall other | other != id :: State(other) == old(State(other))
    {
      if Holds(id, P.Stored) {
        var p := pubs[id][holders[id]];
        if p.refresh in Find(cancelled, id, {}) || Find(generations, id, 0) != p.generation {
          Finish(id, false, true);
        } else {
          MoveTo(id, P.Confirmed);
        }
      }
    }

    method RunUpdate(id: string)
      modifies this
      ensures State(id) == P.Next(old(State(id)), P.Update)
      ensures forall other | other != id :: State(other) == old(State(other))
    {
      if Holds(id, P.Confirmed) {
        var p := pubs[id][holders[id]];
        if p.updates {
          logs := logs[id := Find(logs, id, []) + [P.MemoryUpdate(holders[id], p.generation)]];
        }
        Finish(id, true, true);
      }
    }

    method Perform(id: string, a: P.Step)
      modifies this
      ensures State(id) == P.Next(old(State(id)), a)
      ensures forall other | other != id :: State(other) == old(State(other))
    {
      match a {
        case Supersede => var _, _ := SupersedeProviderRefresh(id);
        case Begin => var _ := BeginProviderRefresh(id);
        case Install(refresh) => InstallController(id, refresh);
        case EndRefresh(refresh) => EndRefresh(id, refresh);
        case Cancel(refresh) => CancelRefresh(id, refresh);
        case Publish(refresh, persist, updates) => PublishProviderModels(id, refresh, persist, updates);
        case Acquire => Acquire(id);
        case Check => CheckGeneration(id);
        case StoreOperation(mutates, raises) => RunStore(id, mutates, raises);
        case Recheck => RecheckGeneration(id);
        case Update => RunUpdate(id);
      }
    }

    /** Every provider's publications and controller map are sound. */
    ghost predicate AllSound()
      reads this
    {
      forall id {:trigger State(id)} :: P.Sound(State(id))
    }

    method PerformSoundly(id: string, a: P.Step)
      requires AllSound()
      modifies this
      ensures AllSound()
      ensures State(id) == P.Next(old(State(id)), a)
      ensures forall other | other != id :: State(other) == old(State(other))
    {
      ghost var before := State(id);
      assert P.Sound(before);
      P.NextSound(before, a);
      Perform(id, a);
      forall other ensures P.Sound(State(other)) {
        assert other != id ==> P.Sound(old(State(other)));
      }
    }

    /** Any interleaving over all providers keeps every provider sound. */
    method Run(steps: seq<(string, P.Step)>)
      requires AllSound()
      modifies this
      ensures AllSound()
    {
      for k := 0 to |steps|
        invariant AllSound()
      {
        PerformSoundly(steps[k].0, steps[k].1);
      }
    }
  }
}
