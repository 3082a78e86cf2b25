/** What the registry keeps across every sequence of operations, failing ones included. */
module RegistryTheorems {
  import opened Wrappers
  import opened Config
  import opened Ports
  import opened PipelineBuilder
  import opened Registry

  // ---- the claims

  type Configs = map<string, StreamSourceConfig>

  /** The claims after a stream that may hold none yet has asked for its port. */
  function Claimed(claims: map<string, string>, cfg: StreamSourceConfig): map<string, string> {
    var port := ConnectorPort(cfg);
    if port != "" && port !in claims then claims[port := cfg.id] else claims
  }

  lemma NamedAfterClaim(claims: map<string, string>, configs: Configs, cfg: StreamSourceConfig)
    requires ClaimsNamed(claims, configs) && cfg.id !in configs
    ensures ClaimsNamed(Claimed(claims, cfg), configs[cfg.id := cfg])
  {
  }

  lemma HeldAfterClaim(claims: map<string, string>, configs: Configs, live: set<string>, cfg: StreamSourceConfig)
    requires ClaimsHeld(claims, configs, live) && cfg.id !in configs && cfg.id !in live
    ensures ClaimsHeld(Claimed(claims, cfg), configs[cfg.id := cfg], live)
    ensures ConnectorPort(cfg) !in claims ==> ClaimsHeld(Claimed(claims, cfg), configs[cfg.id := cfg], live + {cfg.id})
  {
  }

  lemma NamedAfterRelease(claims: map<string, string>, configs: Configs, id: string)
    requires ClaimsNamed(claims, configs)
    ensures ClaimsNamed(Released(claims, id), configs - {id})
  {
  }

  lemma HeldAfterRelease(claims: map<string, string>, configs: Configs, live: set<string>, id: string)
    requires ClaimsHeld(claims, configs, live)
    ensures ClaimsHeld(Released(claims, id), configs - {id}, live - {id})
  {
  }

  lemma NamedAfterUpdate(claims: map<string, string>, configs: Configs, id: string, cfg: StreamSourceConfig)
    requires ClaimsNamed(claims, configs) && id in configs && ConnectorPort(cfg) == ConnectorPort(configs[id])
    ensures ClaimsNamed(claims, configs[id := cfg])
  {
  }

  lemma HeldAfterUpdate(claims: map<string, string>, configs: Configs, live: set<string>, id: string,
                        cfg: StreamSourceConfig)
    requires ClaimsHeld(claims, configs, live) && id in configs && ConnectorPort(cfg) == ConnectorPort(configs[id])
    ensures ClaimsHeld(claims, configs[id := cfg], live)
  {
  }

  // ---- the generations

  type Gens = map<string, Generation>

  lemma InstalledAfter(gens: Gens, id: string, gen: Generation, g: nat)
    requires Installed(gens, g)
    ensures Installed(gens[id := gen], g) || (id in gens && gens[id].gid == g)
  {
    var other :| other in gens && gens[other].gid == g;
    assert other != id ==> other in gens[id := gen] && gens[id := gen][other].gid == g;
  }

  lemma NewIsInstalled(gens: Gens, id: string, gen: Generation)
    ensures Installed(gens[id := gen], gen.gid)
  {
    assert id in gens[id := gen] && gens[id := gen][id].gid == gen.gid;
  }

  lemma InstalledWithout(gens: Gens, id: string, g: nat)
    requires Installed(gens, g)
    ensures Installed(gens - {id}, g) || (id in gens && gens[id].gid == g)
  {
    var other :| other in gens && gens[other].gid == g;
    assert other != id ==> other in gens - {id} && (gens - {id})[other].gid == g;
  }

  lemma NoneLeaksInstall(gens: Gens, built: nat, retired: set<nat>, pending: set<nat>, id: string,
                         block: Option<PipelineConfig>)
    requires NoneLeaks(gens, built, retired, pending) && id !in gens
    ensures NoneLeaks(gens[id := Generation(built, block)], built + 1, retired, pending)
  {
    var gen := Generation(built, block);
    NewIsInstalled(gens, id, gen);
    forall g: nat | g < built + 1 ensures g in retired || g in pending || Installed(gens[id := gen], g) {
      if g < built && Installed(gens, g) {
        InstalledAfter(gens, id, gen, g);
      }
    }
  }

  lemma NoneLeaksSwap(gens: Gens, built: nat, retired: set<nat>, pending: set<nat>, id: string, gen: Generation)
    requires NoneLeaks(gens, built, retired, pending) && id in gens && gen.gid in pending
    ensures NoneLeaks(gens[id := gen], built, retired + {gens[id].gid}, pending - {gen.gid})
  {
    NewIsInstalled(gens, id, gen);
    forall g: nat | g < built
      ensures g in retired + {gens[id].gid} || g in pending - {gen.gid} || Installed(gens[id := gen], g)
    {
      if Installed(gens, g) {
        InstalledAfter(gens, id, gen, g);
      }
    }
  }

  lemma NoneLeaksRemove(gens: Gens, built: nat, retired: set<nat>, pending: set<nat>, id: string)
    requires NoneLeaks(gens, built, retired, pending)
    ensures NoneLeaks(gens - {id}, built, retired + if id in gens then {gens[id].gid} else {}, pending)
  {
    forall g: nat | g < built
      ensures g in retired || g in pending || Installed(gens - {id}, g) || (id in gens && gens[id].gid == g)
    {
      if Installed(gens, g) {
        InstalledWithout(gens, id, g);
      }
    }
  }

  lemma NoneLeaksBuild(gens: Gens, built: nat, retired: set<nat>, pending: set<nat>)
    requires NoneLeaks(gens, built, retired, pending)
    ensures NoneLeaks(gens, built + 1, retired + {built}, pending)
    ensures NoneLeaks(gens, built + 1, retired, pending + {built})
  {
  }

  lemma NoneLeaksGiveBack(gens: Gens, built: nat, retired: set<nat>, pending: set<nat>, g: nat)
    requires NoneLeaks(gens, built, retired, pending) && g in pending
    ensures NoneLeaks(gens, built, retired + {g}, pending - {g})
  {
  }

  lemma NoneLeaksStop(gens: Gens, built: nat, retired: set<nat>, pending: set<nat>)
    requires NoneLeaks(gens, built, retired, pending)
    ensures NoneLeaks(map[], built, retired + set id | id in gens :: gens[id].gid, pending)
  {
    var all := set id | id in gens :: gens[id].gid;
    forall g: nat | g < built ensures g in retired + all || g in pending {
      if Installed(gens, g) {
        var id :| id in gens && gens[id].gid == g;
        assert gens[id].gid in all;
      }
    }
  }

  // ---- one operation at a time

  lemma WastedKeeps(s: State)
    requires Consistent(s)
    ensures Consistent(Wasted(s))
  {
    NoneLeaksBuild(s.generations, s.built, s.retired, s.pending);
  }

  lemma InstallKeys(s: State, cfg: StreamSourceConfig, persist: bool)
    requires KeysFit(s) && cfg.id !in s.runtimes
    ensures KeysFit(Install(s, cfg, persist))
  {
  }

  lemma InstallClaims(s: State, cfg: StreamSourceConfig, persist: bool)
    requires KeysFit(s) && ClaimsFit(s) && cfg.id !in s.runtimes
    requires ConnectorPort(cfg) != "" ==> ConnectorPort(cfg) !in s.portClaims
    ensures ClaimsFit(Install(s, cfg, persist))
  {
    NamedAfterClaim(s.portClaims, s.configs, cfg);
    HeldAfterClaim(s.portClaims, s.configs, s.generations.Keys, cfg);
    assert Install(s, cfg, persist).portClaims == Claimed(s.portClaims, cfg);
    assert Install(s, cfg, persist).generations.Keys == s.generations.Keys + {cfg.id};
  }

  lemma InstallKeeps(s: State, cfg: StreamSourceConfig, persist: bool)
    requires Consistent(s) && cfg.id !in s.runtimes
    requires ConnectorPort(cfg) != "" ==> ConnectorPort(cfg) !in s.portClaims
    ensures Consistent(Install(s, cfg, persist))
  {
    NoneLeaksInstall(s.generations, s.built, s.retired, s.pending, cfg.id, cfg.pipeline);
    InstallClaims(s, cfg, persist);
    InstallKeys(s, cfg, persist);
  }

  lemma AdmitKeeps(s: State, cfg: StreamSourceConfig, persist: bool, opens: bool, putOk: bool)
    requires Consistent(s)
    ensures Consistent(Admit(s, cfg, persist, opens, putOk).0)
  {
    if Refusal(s, cfg, persist, opens, putOk).None? {
      InstallKeeps(s, cfg, persist);
    } else {
      WastedKeeps(s);
    }
  }

  lemma AdmitFailedKeys(s: State, cfg: StreamSourceConfig, cause: Cause)
    requires KeysFit(s) && cfg.id !in s.runtimes
    ensures KeysFit(AdmitFailed(s, cfg, cause))
  {
  }

  lemma AdmitFailedKeeps(s: State, cfg: StreamSourceConfig, cause: Cause)
    requires Consistent(s) && cfg.id !in s.runtimes
    ensures Consistent(AdmitFailed(s, cfg, cause))
  {
    NamedAfterClaim(s.portClaims, s.configs, cfg);
    HeldAfterClaim(s.portClaims, s.configs, s.generations.Keys, cfg);
    AdmitFailedKeys(s, cfg, cause);
  }

  lemma RemoveKeys(s: State, id: string)
    requires KeysFit(s) && id in s.runtimes
    ensures KeysFit(Removed(s, id))
  {
  }

  lemma RemoveClaims(s: State, id: string)
    requires ClaimsFit(s) && id in s.runtimes
    ensures ClaimsFit(Removed(s, id))
  {
    NamedAfterRelease(s.portClaims, s.configs, id);
    HeldAfterRelease(s.portClaims, s.configs, s.generations.Keys, id);
    assert (s.generations - {id}).Keys == s.generations.Keys - {id};
  }

  lemma RemoveKeeps(s: State, id: string, deleteOk: bool)
    requires Consistent(s)
    ensures Consistent(Remove(s, id, deleteOk).0)
  {
    if Remove(s, id, deleteOk).1.None? {
      RemoveKeys(s, id);
      RemoveClaims(s, id);
      NoneLeaksRemove(s.generations, s.built, s.retired, s.pending, id);
    }
  }

  lemma BuiltKeeps(s: State)
    requires Consistent(s)
    ensures Consistent(s.(built := s.built + 1, pending := s.pending + {s.built}))
  {
    NoneLeaksBuild(s.generations, s.built, s.retired, s.pending);
  }

  lemma BeginKeeps(s: State, id: string, block: Option<PipelineConfig>)
    requires Consistent(s)
    ensures Consistent(BeginUpdate(s, id, block).0)
  {
    if id in s.generations {
      if Builds(block) {
        BuiltKeeps(s);
      } else {
        WastedKeeps(s);
      }
    }
  }

  lemma GiveBackKeeps(s: State, gen: Generation)
    requires Consistent(s) && gen.gid in s.pending
    ensures Consistent(GiveBack(s, gen))
  {
    NoneLeaksGiveBack(s.generations, s.built, s.retired, s.pending, gen.gid);
  }

  lemma SwapKeys(s: State, id: string, gen: Generation)
    requires KeysFit(s) && id in s.generations
    ensures KeysFit(CommitUpdate(s, id, gen, true).0)
  {
  }

  lemma SamePort(cfg: StreamSourceConfig, block: Option<PipelineConfig>)
    ensures ConnectorPort(cfg.(pipeline := block)) == ConnectorPort(cfg)
  {
  }

  lemma SwapClaims(s: State, id: string, gen: Generation)
    requires ClaimsFit(s) && id in s.generations && id in s.configs
    ensures ClaimsFit(CommitUpdate(s, id, gen, true).0)
  {
    var updated := s.configs[id].(pipeline := gen.block);
    SamePort(s.configs[id], gen.block);
    NamedAfterUpdate(s.portClaims, s.configs, id, updated);
    HeldAfterUpdate(s.portClaims, s.configs, s.generations.Keys, id, updated);
    assert s.generations[id := gen].Keys == s.generations.Keys;
  }

  lemma CommitKeeps(s: State, id: string, gen: Generation, putOk: bool)
    requires Consistent(s) && gen.gid in s.pending
    ensures Consistent(CommitUpdate(s, id, gen, putOk).0)
  {
    if CommitUpdate(s, id, gen, putOk).1.None? {
      assert CommitUpdate(s, id, gen, putOk) == CommitUpdate(s, id, gen, true);
      SwapKeys(s, id, gen);
      SwapClaims(s, id, gen);
      NoneLeaksSwap(s.generations, s.built, s.retired, s.pending, id, gen);
    } else {
      GiveBackKeeps(s, gen);
    }
  }

  lemma StopAllKeeps(s: State)
    requires Consistent(s)
    ensures Consistent(StopAll(s))
  {
    NoneLeaksStop(s.generations, s.built, s.retired, s.pending);
  }

  /** What Remove does to a running stream - end its supervisor, then retire its generation -
      and to one in error. */
  lemma RemoveInOrder(s: State, id: string)
    requires KeysFit(s)
    ensures RemoveEffects(s, id) ==
      if id in s.generations then [Cancel(s.cancels[id]), Await(s.cancels[id]), Retire(s.generations[id].gid)] else []
  {
  }

  /** Stopping everything cancels each supervisor, waits for all of them once each has been
      cancelled, and retires each generation, and nothing else, after that. */
  lemma StopInOrder(s: State, effects: seq<Effect>)
    requires StopEffects(s, effects)
    ensures forall id :: id in s.cancels ==> Cancel(s.cancels[id]) in effects
    ensures forall id :: id in s.generations ==> Retire(s.generations[id].gid) in effects
    ensures AwaitAll(s.dones.Values) in effects
    ensures forall i, j :: 0 <= i < j < |effects| ==>
      !(effects[i].AwaitAll? && effects[j].Cancel?) && !(effects[i].Retire? && !effects[j].Retire?)
  {
    var k :| 0 <= k < |effects| && effects[k] == AwaitAll(s.dones.Values)
      && Exactly(effects[..k], set id | id in s.cancels :: Cancel(s.cancels[id]))
      && Exactly(effects[k + 1..], set id | id in s.generations :: Retire(s.generations[id].gid));
    assert effects == effects[..k] + [effects[k]] + effects[k + 1..];
    forall i | 0 <= i < k ensures effects[i].Cancel? {
      assert effects[i] in effects[..k];
    }
    forall i | k < i < |effects| ensures effects[i].Retire? {
      assert effects[i] in effects[k + 1..];
    }
    forall id | id in s.cancels ensures Cancel(s.cancels[id]) in effects {
      assert Cancel(s.cancels[id]) in effects[..k];
    }
    forall id | id in s.generations ensures Retire(s.generations[id].gid) in effects {
      assert Retire(s.generations[id].gid) in effects[k + 1..];
    }
  }

  // ---- when an operation succeeds, what it then changes, and why else it fails

  /** The claims with cfg's port among them. */
  ghost predicate ClaimsPlus(before: map<string, string>, cfg: StreamSourceConfig, after: map<string, string>) {
    && (forall port :: port in after <==> port in before || (port == ConnectorPort(cfg) && port != ""))
    && (forall port :: port in after ==>
          after[port] == if port == ConnectorPort(cfg) && port != "" then cfg.id else before[port])
  }

  lemma AdmitSucceedsIff(s: State, cfg: StreamSourceConfig, persist: bool, opens: bool, putOk: bool)
    requires KeysFit(s)
    ensures var (t, r) := Admit(s, cfg, persist, opens, putOk);
      && (r.None? <==>
            && cfg.id !in s.configs && ConnectorPort(cfg) !in s.portClaims - {""}
            && Builds(cfg.pipeline) && opens && (persist && s.store.Some? ==> putOk))
      && (r.None? ==>
            && t.generations == s.generations[cfg.id := Generation(s.built, cfg.pipeline)]
            && t.configs == s.configs[cfg.id := cfg] && t.runtimes == s.runtimes[cfg.id := Live]
            && ClaimsPlus(s.portClaims, cfg, t.portClaims)
            && t.store == (if persist && s.store.Some? then Some(s.store.value[cfg.id := cfg]) else s.store)
            && t.retired == s.retired)
  {
  }

  lemma AdmitFailsBecause(s: State, cfg: StreamSourceConfig, persist: bool, opens: bool, putOk: bool)
    requires KeysFit(s)
    ensures var (t, r) := Admit(s, cfg, persist, opens, putOk);
      && (r == Some(AlreadyExists) <==> cfg.id in s.configs)
      && (forall holder :: r == Some(PortConflict(holder)) <==>
            && cfg.id !in s.configs
            && ConnectorPort(cfg) in s.portClaims - {""} && holder == s.portClaims[ConnectorPort(cfg)])
      && (r == Some(BuildFailed) ==> !Builds(cfg.pipeline))
      && (r == Some(OpenFailed) ==> Builds(cfg.pipeline) && !opens)
      && (r == Some(PersistFailed) ==> Builds(cfg.pipeline) && opens && persist && s.store.Some? && !putOk)
  {
  }

  /** A refusal for the id or the port comes before a pipeline is built; any other retires the
      one generation that was built for it. */
  lemma RefusedBuildIsRetired(s: State, cfg: StreamSourceConfig, persist: bool, opens: bool, putOk: bool)
    requires Admit(s, cfg, persist, opens, putOk).1.Some?
    ensures var t := Admit(s, cfg, persist, opens, putOk).0;
      if cfg.id in s.runtimes || ConnectorPort(cfg) in s.portClaims - {""} then t == s
      else t.built == s.built + 1 && t.retired == s.retired + {s.built} && t.pending == s.pending
  {
  }

  lemma RemoveSucceedsIff(s: State, id: string, deleteOk: bool)
    requires KeysFit(s)
    ensures var (t, r) := Remove(s, id, deleteOk);
      && (r.None? <==> id in s.configs && (s.store.Some? ==> deleteOk))
      && (r == Some(NoSuchStream) <==> id !in s.configs)
      && (r.None? ==>
            && t.generations == s.generations - {id} && t.configs == s.configs - {id}
            && t.runtimes == s.runtimes - {id}
            && (forall port :: port in t.portClaims <==> port in s.portClaims && s.portClaims[port] != id)
            && (s.store.Some? ==> t.store == Some(s.store.value - {id})))
  {
  }

  lemma BeginSucceedsIff(s: State, id: string, block: Option<PipelineConfig>)
    ensures var (t, r) := BeginUpdate(s, id, block);
      && (r.None? <==> id in s.generations && Builds(block))
      && (r == Some(NotRunning) <==> id !in s.generations)
      && SameRegistry(s, t)
  {
  }

  lemma CommitSucceedsIff(s: State, id: string, gen: Generation, putOk: bool)
    requires KeysFit(s)
    ensures var (t, r) := CommitUpdate(s, id, gen, putOk);
      && (r.None? <==> id in s.generations && (s.store.Some? ==> putOk))
      && (r == Some(NotRunning) <==> id !in s.generations)
      && (r == Some(CannotPersist) <==> id in s.generations && s.store.Some? && !putOk)
  {
  }

  lemma CommitInstalls(s: State, id: string, gen: Generation, putOk: bool)
    requires KeysFit(s) && CommitUpdate(s, id, gen, putOk).1.None?
    ensures var t := CommitUpdate(s, id, gen, putOk).0;
      && t.generations == s.generations[id := gen]
      && t.configs == s.configs[id := s.configs[id].(pipeline := gen.block)]
      && (s.store.Some? ==> t.store == Some(s.store.value[id := s.configs[id].(pipeline := gen.block)]))
      && t.runtimes == s.runtimes && t.portClaims == s.portClaims && t.cancels == s.cancels && t.dones == s.dones
      && t.retired == s.retired + {s.generations[id].gid}
  {
  }

  // ---- failures change nothing

  /** A refused Register leaves no claim, no configuration and no stored entry. */
  lemma FailedAdmitIsNoOp(s: State, cfg: StreamSourceConfig, persist: bool, opens: bool, putOk: bool)
    ensures Admit(s, cfg, persist, opens, putOk).1.Some? ==> SameRegistry(s, Admit(s, cfg, persist, opens, putOk).0)
  {
  }

  /** A refused update changes nothing. */
  lemma FailedUpdateIsNoOp(s: State, id: string, gen: Generation, putOk: bool)
    ensures CommitUpdate(s, id, gen, putOk).1.Some? ==> SameRegistry(s, CommitUpdate(s, id, gen, putOk).0)
  {
  }

  // ---- sequences of operations

  /** The atomic operations of a running manager; an update is two of them, with anything in
      between. */
  datatype Op =
    | Register(cfg: StreamSourceConfig, opens: bool, putOk: bool)
    | Deregister(id: string, deleteOk: bool)
    | Begin(id: string, block: Option<PipelineConfig>)
    | Commit(id: string, gen: Generation, putOk: bool)
    | Stop

  predicate Allowed(s: State, op: Op) {
    op.Commit? ==> op.gen.gid in s.pending
  }

  function Do(s: State, op: Op): State {
    match op
    case Register(cfg, opens, putOk) => Admit(s, cfg, true, opens, putOk).0
    case Deregister(id, deleteOk) => Remove(s, id, deleteOk).0
    case Begin(id, block) => BeginUpdate(s, id, block).0
    case Commit(id, gen, putOk) => CommitUpdate(s, id, gen, putOk).0
    case Stop => StopAll(s)
  }

  /** The state after a sequence of operations, if each was possible in its turn. */
  function DoAll(s: State, ops: seq<Op>): Option<State> {
    if ops == [] then Some(s)
    else
      var before := DoAll(s, ops[..|ops| - 1]);
      var op := ops[|ops| - 1];
      if before.Some? && Allowed(before.value, op) then Some(Do(before.value, op)) else None
  }

  lemma DoKeeps(s: State, op: Op)
    requires Consistent(s) && Allowed(s, op)
    ensures Consistent(Do(s, op))
  {
    match op
    case Register(cfg, opens, putOk) => AdmitKeeps(s, cfg, true, opens, putOk);
    case Deregister(id, deleteOk) => RemoveKeeps(s, id, deleteOk);
    case Begin(id, block) => BeginKeeps(s, id, block);
    case Commit(id, gen, putOk) => CommitKeeps(s, id, gen, putOk);
    case Stop => StopAllKeeps(s);
  }

  /** Every sequence of operations, failing or not, keeps the registry consistent. */
  lemma {:induction false} RegistryConsistent(s: State, ops: seq<Op>)
    requires Consistent(s) && DoAll(s, ops).Some?
    ensures Consistent(DoAll(s, ops).value)
  {
    if ops != [] {
      RegistryConsistent(s, ops[..|ops| - 1]);
      DoKeeps(DoAll(s, ops[..|ops| - 1]).value, ops[|ops| - 1]);
    }
  }

  /** No two streams that run listen on one number, however its digits are written, nor on one
      text that is no number. */
  lemma NoSharedPort(s: State, a: string, b: string)
    requires Consistent(s) && a in s.generations && b in s.generations && a != b
    ensures forall number :: Listens(s.configs[a], number) ==> !Listens(s.configs[b], number)
    ensures ConnectorPort(s.configs[a]) != "" ==> ConnectorPort(s.configs[a]) != ConnectorPort(s.configs[b])
  {
    forall number | Listens(s.configs[a], number) ensures !Listens(s.configs[b], number) {
      if Listens(s.configs[b], number) {
        OneClaimPerNumber(s.configs[a], s.configs[b], number);
        ClaimIsListened(s.configs[a]);
      }
    }
  }

  // ---- store and runtime

  lemma AdmitAgrees(s: State, cfg: StreamSourceConfig, opens: bool, putOk: bool)
    requires KeysFit(s) && Agrees(s)
    ensures Agrees(Admit(s, cfg, true, opens, putOk).0)
  {
    var r := Refusal(s, cfg, true, opens, putOk);
  }

  lemma BeginAgrees(s: State, id: string, block: Option<PipelineConfig>)
    ensures Agrees(BeginUpdate(s, id, block).0) <==> Agrees(s)
  {
  }

  lemma CommitAgrees(s: State, id: string, gen: Generation, putOk: bool)
    requires KeysFit(s) && Agrees(s)
    ensures Agrees(CommitUpdate(s, id, gen, putOk).0)
  {
  }

  lemma RemoveAgrees(s: State, id: string, deleteOk: bool)
    requires KeysFit(s) && Agrees(s)
    ensures Agrees(Remove(s, id, deleteOk).0)
  {
  }

  lemma DoAgrees(s: State, op: Op)
    requires Consistent(s) && Agrees(s) && Allowed(s, op) && !op.Stop?
    ensures Agrees(Do(s, op))
  {
    match op
    case Register(cfg, opens, putOk) => AdmitAgrees(s, cfg, opens, putOk);
    case Deregister(id, deleteOk) => RemoveAgrees(s, id, deleteOk);
    case Begin(id, block) => BeginAgrees(s, id, block);
    case Commit(id, gen, putOk) => CommitAgrees(s, id, gen, putOk);
  }

  /** Until StopAll, whenever the lock is free, the stored configurations are the effective
      ones and every running generation was built from the stored block. */
  lemma {:induction false} StoreAgrees(s: State, ops: seq<Op>)
    requires Consistent(s) && Agrees(s) && DoAll(s, ops).Some?
    requires forall i :: 0 <= i < |ops| ==> !ops[i].Stop?
    ensures Agrees(DoAll(s, ops).value) && Consistent(DoAll(s, ops).value)
  {
    if ops != [] {
      var front := ops[..|ops| - 1];
      StoreAgrees(s, front);
      DoAgrees(DoAll(s, front).value, ops[|ops| - 1]);
      DoKeeps(DoAll(s, front).value, ops[|ops| - 1]);
    }
  }
}
