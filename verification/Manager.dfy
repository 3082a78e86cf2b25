/**
 The stream manager as an object: the maps it holds, and its operations under the manager
 lock, each proved against the registry on values. Whether a source opens and whether the
 store takes a write come in as arguments.
 */
module Manager {
  import opened Wrappers
  import opened Config
  import opened Ports
  import opened PipelineBuilder
  import opened Registry
  import opened RegistryTheorems
  import opened RestoreTheorems

  /** What admission did to the source. */
  datatype SourceCall = Open(ok: bool) | Close

  /** The calls admission makes on a source, by how it ended: whatever was opened for a
      stream that is then refused is closed again. */
  function CallsFor(r: Option<AdmitError>): seq<SourceCall> {
    match r
    case None => [Open(true)]
    case Some(OpenFailed) => [Open(false)]
    case Some(PersistFailed) => [Open(true), Close]
    case _ => []
  }

  class StreamManager {
    var generations: map<string, Generation>
    var configs: map<string, StreamSourceConfig>
    var cancels: map<string, nat>
    var dones: map<string, nat>
    var runtimes: map<string, Runtime>
    var portClaims: map<string, string>
    var store: Store
    var built: nat
    var retired: set<nat>
    var pending: set<nat>

    ghost function View(): State
      reads this
    {
      State(generations, configs, cancels, dones, runtimes, portClaims, store, built, retired, pending)
    }

    ghost predicate Valid()
      reads this
    {
      Consistent(View())
    }

    constructor (store: Store)
      ensures Valid() && View() == Fresh(store)
    {
      this.store := store;
      generations, configs, cancels, dones, runtimes, portClaims := map[], map[], map[], map[], map[], map[];
      built, retired, pending := 0, {}, {};
    }

    method AdmitLocked(cfg: StreamSourceConfig, persist: bool, opens: bool, putOk: bool)
      returns (r: Option<AdmitError>, calls: seq<SourceCall>)
      modifies this
      ensures (View(), r) == Admit(old(View()), cfg, persist, opens, putOk)
      ensures calls == CallsFor(r)
    {
      if cfg.id in runtimes {
        return Some(AlreadyExists), [];
      }
      var port := ConnectorPort(cfg);
      if port != "" && port in portClaims {
        return Some(PortConflict(portClaims[port])), [];
      }
      var gid := built;
      built := built + 1;
      if !Builds(cfg.pipeline) {
        retired := retired + {gid};
        return Some(BuildFailed), [];
      }
      r, calls := AcquireLocked(cfg, gid, persist, opens, putOk);
      if r.None? {
        InstallLocked(cfg, gid);
      }
    }

    /** Opens the source, then persists the configuration: the generation is discarded if
        either fails, and an opened source closed. */
    method AcquireLocked(cfg: StreamSourceConfig, gid: nat, persist: bool, opens: bool, putOk: bool)
      returns (r: Option<AdmitError>, calls: seq<SourceCall>)
      modifies `retired, `store
      ensures r == if !opens then Some(OpenFailed)
                   else if persist && old(store).Some? && !putOk then Some(PersistFailed) else None
      ensures calls == CallsFor(r)
      ensures retired == if r.Some? then old(retired) + {gid} else old(retired)
      ensures store == if r.None? && persist then Put(old(store), cfg) else old(store)
    {
      if !opens {
        retired := retired + {gid};
        return Some(OpenFailed), [Open(false)];
      }
      calls := [Open(true)];
      if persist && store.Some? {
        if !putOk {
          retired := retired + {gid};
          return Some(PersistFailed), calls + [Close];
        }
        store := Some(store.value[cfg.id := cfg]);
      }
      r := None;
    }

    /** Enters an admitted stream into every map. */
    method InstallLocked(cfg: StreamSourceConfig, gid: nat)
      modifies `configs, `cancels, `dones, `runtimes, `portClaims, `generations
      ensures configs == old(configs)[cfg.id := cfg] && cancels == old(cancels)[cfg.id := gid]
      ensures dones == old(dones)[cfg.id := gid] && runtimes == old(runtimes)[cfg.id := Live]
      ensures generations == old(generations)[cfg.id := Generation(gid, cfg.pipeline)]
      ensures portClaims ==
        if ConnectorPort(cfg) != "" then old(portClaims)[ConnectorPort(cfg) := cfg.id] else old(portClaims)
    {
      configs := configs[cfg.id := cfg];
      cancels := cancels[cfg.id := gid];
      dones := dones[cfg.id := gid];
      runtimes := runtimes[cfg.id := Live];
      var port := ConnectorPort(cfg);
      if port != "" {
        portClaims := portClaims[port := cfg.id];
      }
      generations := generations[cfg.id := Generation(gid, cfg.pipeline)];
    }

    /** Nothing is left behind when it fails, and a source that was opened is closed. */
    method Register(cfg: StreamSourceConfig, opens: bool, putOk: bool)
      returns (r: Option<AdmitError>, calls: seq<SourceCall>)
      requires Valid()
      modifies this
      ensures Valid() && (View(), r) == Admit(old(View()), cfg, true, opens, putOk)
      ensures calls == CallsFor(r)
      ensures r.None? <==>
        && cfg.id !in old(configs) && ConnectorPort(cfg) !in old(portClaims) - {""}
        && Builds(cfg.pipeline) && opens && (old(store).Some? ==> putOk)
      ensures r.None? ==>
        && generations == old(generations)[cfg.id := Generation(old(built), cfg.pipeline)]
        && configs == old(configs)[cfg.id := cfg] && ClaimsPlus(old(portClaims), cfg, portClaims)
        && store == if old(store).Some? then Some(old(store).value[cfg.id := cfg]) else old(store)
      ensures r.Some? ==> SameRegistry(old(View()), View())
      ensures old(Agrees(View())) ==> Agrees(View())
    {
      AdmitSucceedsIff(View(), cfg, true, opens, putOk);
      AdmitKeeps(View(), cfg, true, opens, putOk);
      FailedAdmitIsNoOp(View(), cfg, true, opens, putOk);
      if Agrees(View()) {
        AdmitAgrees(View(), cfg, opens, putOk);
      }
      r, calls := AdmitLocked(cfg, true, opens, putOk);
    }

    method AdmitFailedLocked(cfg: StreamSourceConfig, cause: Cause)
      modifies this
      ensures View() == AdmitFailed(old(View()), cfg, cause)
    {
      configs := configs[cfg.id := cfg];
      runtimes := runtimes[cfg.id := Failed(cause)];
      var port := ConnectorPort(cfg);
      if port != "" && port !in portClaims {
        portClaims := portClaims[port := cfg.id];
      }
    }

    /** Drops every claim a stream holds, one key of the map after the other. */
    method ReleaseClaimsLocked(id: string)
      modifies `portClaims
      ensures portClaims == Released(old(portClaims), id)
    {
      var todo := portClaims.Keys;
      while todo != {}
        invariant todo <= old(portClaims).Keys
        invariant portClaims ==
          map p | p in old(portClaims) && (p in todo || old(portClaims)[p] != id) :: old(portClaims)[p]
        decreases todo
      {
        var port :| port in todo;
        if portClaims[port] == id {
          portClaims := portClaims - {port};
        }
        todo := todo - {port};
      }
    }

    /** Stops a stream's supervisor and retires its generation. */
    method EndLocked(id: string) returns (effects: seq<Effect>)
      modifies `retired
      ensures effects == RemoveEffects(old(View()), id)
      ensures retired == old(retired) + if id in generations then {generations[id].gid} else {}
    {
      effects := [];
      if id in cancels {
        effects := effects + [Cancel(cancels[id])];
      }
      if id in dones {
        effects := effects + [Await(dones[id])];
      }
      if id in generations {
        effects := effects + [Retire(generations[id].gid)];
        retired := retired + {generations[id].gid};
      }
    }

    /** Takes a stream out of every map. */
    method ForgetLocked(id: string)
      modifies `generations, `configs, `cancels, `dones, `runtimes, `portClaims
      ensures generations == old(generations) - {id} && configs == old(configs) - {id}
      ensures cancels == old(cancels) - {id} && dones == old(dones) - {id} && runtimes == old(runtimes) - {id}
      ensures portClaims == Released(old(portClaims), id)
    {
      ReleaseClaimsLocked(id);
      generations := generations - {id};
      configs := configs - {id};
      cancels := cancels - {id};
      dones := dones - {id};
      runtimes := runtimes - {id};
    }

    method RemoveLocked(id: string, deleteOk: bool) returns (r: Option<RemoveError>, effects: seq<Effect>)
      modifies this
      ensures r == RemoveRefusal(old(View()), id, deleteOk)
      ensures effects == if r.None? then RemoveEffects(old(View()), id) else []
      ensures View() == if r.None? then Removed(old(View()), id) else old(View())
    {
      if id !in runtimes {
        return Some(NoSuchStream), [];
      }
      if store.Some? {
        if !deleteOk {
          return Some(DeleteFailed), [];
        }
        store := Some(store.value - {id});
      }
      effects := EndLocked(id);
      ForgetLocked(id);
      r := None;
    }

    /** A running stream's supervisor is cancelled and waited for, and only then is the
        generation it published through retired; a stream in error has neither. */
    method Remove(id: string, deleteOk: bool) returns (r: Option<RemoveError>, effects: seq<Effect>)
      requires Valid()
      modifies this
      ensures effects ==
        if r.None? && id in old(generations)
        then [Cancel(old(cancels)[id]), Await(old(cancels)[id]), Retire(old(generations)[id].gid)] else []
      ensures Valid() && (View(), r) == Registry.Remove(old(View()), id, deleteOk)
      ensures r.None? <==> id in old(configs) && (old(store).Some? ==> deleteOk)
      ensures r.None? ==>
        && generations == old(generations) - {id} && configs == old(configs) - {id}
        && (old(store).Some? ==> store == Some(old(store).value - {id}))
      ensures r.Some? ==> View() == old(View())
      ensures old(Agrees(View())) ==> Agrees(View())
    {
      RemoveKeeps(View(), id, deleteOk);
      RemoveInOrder(View(), id);
      RemoveSucceedsIff(View(), id, deleteOk);
      if Agrees(View()) {
        RemoveAgrees(View(), id, deleteOk);
      }
      r, effects := RemoveLocked(id, deleteOk);
    }

    method BuildNext(id: string, block: Option<PipelineConfig>) returns (r: Option<UpdateError>, next: Generation)
      modifies `built, `retired, `pending
      ensures (View(), r) == Registry.BeginUpdate(old(View()), id, block)
      ensures next == Generation(old(built), block) && (r.None? ==> next.gid in pending)
    {
      next := Generation(built, block);
      if id !in generations {
        return Some(NotRunning), next;
      }
      built := built + 1;
      if !Builds(block) {
        retired := retired + {next.gid};
        return Some(CannotBuild), next;
      }
      pending := pending + {next.gid};
      r := None;
    }

    /** The half of UpdatePipeline before the lock is taken. */
    method BeginUpdate(id: string, block: Option<PipelineConfig>) returns (r: Option<UpdateError>, next: Generation)
      requires Valid()
      modifies this
      ensures Valid() && (View(), r) == Registry.BeginUpdate(old(View()), id, block)
      ensures r.None? ==> next == Generation(old(built), block) && next.gid in pending
      ensures r.None? <==> id in old(generations) && Builds(block)
      ensures SameRegistry(old(View()), View())
      ensures old(Agrees(View())) ==> Agrees(View())
    {
      BeginSucceedsIff(View(), id, block);
      BeginKeeps(View(), id, block);
      BeginAgrees(View(), id, block);
      r, next := BuildNext(id, block);
    }

    method CommitLocked(id: string, next: Generation, putOk: bool) returns (r: Option<UpdateError>)
      modifies this
      ensures (View(), r) == Registry.CommitUpdate(old(View()), id, next, putOk)
    {
      pending := pending - {next.gid};
      if id !in generations {
        retired := retired + {next.gid};
        return Some(NotRunning);
      }
      var updated := ConfigOf(configs, id).(pipeline := next.block);
      if store.Some? {
        if !putOk {
          retired := retired + {next.gid};
          return Some(CannotPersist);
        }
        store := Some(store.value[updated.id := updated]);
      }
      configs := configs[id := updated];
      var previous := generations[id];
      generations := generations[id := next];
      retired := retired + {previous.gid};
      r := None;
    }

    /** The half under the lock: persist, swap, retire the one displaced - or give back. */
    method CommitUpdate(id: string, next: Generation, putOk: bool) returns (r: Option<UpdateError>)
      requires Valid() && next.gid in pending
      modifies this
      ensures Valid() && (View(), r) == Registry.CommitUpdate(old(View()), id, next, putOk)
      ensures r.None? <==> id in old(generations) && (old(store).None? || putOk)
      ensures r == Some(NotRunning) <==> id !in old(generations)
      ensures r == Some(CannotPersist) <==> id in old(generations) && old(store).Some? && !putOk
      ensures r.None? ==>
        && id in old(configs) && generations == old(generations)[id := next]
        && configs == old(configs)[id := old(configs)[id].(pipeline := next.block)]
        && (old(store).Some? ==> store == Some(old(store).value[id := configs[id]]))
        && old(generations)[id].gid in retired && next.gid !in retired
      ensures r.Some? ==> SameRegistry(old(View()), View())
      ensures old(Agrees(View())) ==> Agrees(View())
    {
      CommitKeeps(View(), id, next, putOk);
      CommitSucceedsIff(View(), id, next, putOk);
      if id in generations && (store.None? || putOk) {
        CommitInstalls(View(), id, next, putOk);
      }
      FailedUpdateIsNoOp(View(), id, next, putOk);
      if Agrees(View()) {
        CommitAgrees(View(), id, next, putOk);
      }
      r := CommitLocked(id, next, putOk);
    }

    /** Cancels the supervisors one after the other. */
    method CancelAll() returns (effects: seq<Effect>)
      ensures Exactly(effects, set id | id in cancels :: Cancel(cancels[id]))
    {
      var todo := cancels.Keys;
      effects := [];
      while todo != {}
        invariant todo <= cancels.Keys
        invariant Exactly(effects, set id | id in cancels && id !in todo :: Cancel(cancels[id]))
        decreases todo
      {
        var id :| id in todo;
        effects := effects + [Cancel(cancels[id])];
        todo := todo - {id};
      }
    }

    /** Retires the installed generations one after the other. */
    method RetireAll() returns (effects: seq<Effect>)
      modifies `retired
      ensures retired == old(retired) + set id | id in generations :: generations[id].gid
      ensures Exactly(effects, set id | id in generations :: Retire(generations[id].gid))
    {
      var todo := generations.Keys;
      effects := [];
      while todo != {}
        invariant todo <= generations.Keys
        invariant retired == old(retired) + set id | id in generations && id !in todo :: generations[id].gid
        invariant Exactly(effects, set id | id in generations && id !in todo :: Retire(generations[id].gid))
        decreases todo
      {
        var id :| id in todo;
        effects := effects + [Retire(generations[id].gid)];
        retired := retired + {generations[id].gid};
        todo := todo - {id};
      }
    }

    method StopLocked() returns (effects: seq<Effect>)
      modifies `retired
      ensures retired == old(retired) + set id | id in generations :: generations[id].gid
      ensures StopEffects(old(View()), effects)
    {
      var cancelled := CancelAll();
      var retirements := RetireAll();
      effects := cancelled + [AwaitAll(dones.Values)] + retirements;
      assert effects[..|cancelled|] == cancelled && effects[|cancelled| + 1..] == retirements;
    }

    /** Stops every supervisor, retires every installed generation, then forgets every stream. */
    method StopAll() returns (effects: seq<Effect>)
      requires Valid()
      modifies this
      ensures Valid() && View() == Registry.StopAll(old(View()))
      ensures generations == map[] && configs == map[] && runtimes == map[] && portClaims == map[]
      ensures store == old(store) && forall id :: id in old(generations) ==> old(generations)[id].gid in retired
      ensures StopEffects(old(View()), effects)
    {
      StopAllKeeps(View());
      effects := StopLocked();
      generations, configs, cancels, dones, runtimes, portClaims := map[], map[], map[], map[], map[], map[];
    }

    /** One entry of the listing. */
    method RestoreLocked(w: Outside, cfg: StreamSourceConfig)
      modifies this
      ensures View() == RestoreOne(old(View()), w, cfg)
    {
      if cfg.id == "" {
        return;
      }
      if !w.valid(cfg) {
        AdmitFailedLocked(cfg, InvalidConfig);
        return;
      }
      if !Supported(cfg.kind) {
        AdmitFailedLocked(cfg, UnsupportedKind);
        return;
      }
      var r, _ := AdmitLocked(cfg, false, w.opens(cfg), true);
      if r.Some? {
        AdmitFailedLocked(cfg, Refused(r.value));
      }
    }

    /** Restores a fresh manager from what its store lists, if it has one: everything
        admitted, or recorded as failed, in the order of ids. */
    method Restore(w: Outside, listing: seq<StreamSourceConfig>)
      requires Valid() && View() == Fresh(store)
      requires DistinctIds(listing) && NoRepeat(listing)
      modifies this
      ensures Valid()
      ensures View() == if old(store).None? then old(View()) else RestoreTheorems.Restore(old(View()), w, listing)
    {
      if store.None? || |listing| == 0 {
        assert SortById([]) == [];
        return;
      }
      var sorted := SortById(listing);
      for i := 0 to |sorted|
        invariant View() == RestoreInOrder(old(View()), w, sorted[..i])
      {
        assert sorted[..i + 1][..i] == sorted[..i];
        RestoreLocked(w, sorted[i]);
      }
      assert sorted[..|sorted|] == sorted;
      var _ := RestoredListing(old(store), w, listing);
    }
  }
}
