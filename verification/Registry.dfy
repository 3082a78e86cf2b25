/**
 The stream manager's registry on values: six maps and a store, and what each operation
 makes of them. A store call that fails leaves the store as it was; everything the manager
 cannot decide - whether a source opens, whether the store takes a write - is a parameter.
 */
module Registry {
  import opened Wrappers
  import opened Config
  import opened Ports
  import opened PipelineBuilder

  /** A pipeline generation: which one it is, and the block it was built from. */
  datatype Generation = Generation(gid: nat, block: Option<PipelineConfig>)

  datatype AdmitError = AlreadyExists | PortConflict(holder: string) | BuildFailed | OpenFailed | PersistFailed

  datatype Cause = InvalidConfig | UnsupportedKind | Refused(error: AdmitError)

  /** A registered stream: supervised, or registered in the terminal failed state. */
  datatype Runtime = Live | Failed(cause: Cause)

  datatype State = State(
    generations: map<string, Generation>,
    configs: map<string, StreamSourceConfig>,
    cancels: map<string, nat>,
    dones: map<string, nat>,
    runtimes: map<string, Runtime>,
    portClaims: map<string, string>,
    store: Store,
    built: nat,            // how many generations have been built
    retired: set<nat>,     // the generations handed to Retire
    pending: set<nat>)     // built by an update that has not taken the lock again yet

  function Fresh(store: Store): State {
    State(map[], map[], map[], map[], map[], map[], store, 0, {}, {})
  }

  /** What is stored, by id, if there is a store at all. */
  type Store = Option<map<string, StreamSourceConfig>>

  function Put(store: Store, cfg: StreamSourceConfig): Store {
    if store.None? then None else Some(store.value[cfg.id := cfg])
  }

  /** A generation is built and at once retired again. */
  function Wasted(s: State): State {
    s.(built := s.built + 1, retired := s.retired + {s.built})
  }

  function Install(s: State, cfg: StreamSourceConfig, persist: bool): State {
    var port := ConnectorPort(cfg);
    s.(generations := s.generations[cfg.id := Generation(s.built, cfg.pipeline)],
       configs := s.configs[cfg.id := cfg],
       cancels := s.cancels[cfg.id := s.built],
       dones := s.dones[cfg.id := s.built],
       runtimes := s.runtimes[cfg.id := Live],
       portClaims := if port != "" then s.portClaims[port := cfg.id] else s.portClaims,
       store := if persist then Put(s.store, cfg) else s.store,
       built := s.built + 1)
  }

  /** The checks of admitLocked, in its order. */
  function Refusal(s: State, cfg: StreamSourceConfig, persist: bool, opens: bool, putOk: bool): Option<AdmitError> {
    var port := ConnectorPort(cfg);
    if cfg.id in s.runtimes then Some(AlreadyExists)
    else if port != "" && port in s.portClaims then Some(PortConflict(s.portClaims[port]))
    else if !Builds(cfg.pipeline) then Some(BuildFailed)
    else if !opens then Some(OpenFailed)
    else if persist && s.store.Some? && !putOk then Some(PersistFailed)
    else None
  }

  /** admitLocked. */
  function Admit(s: State, cfg: StreamSourceConfig, persist: bool, opens: bool, putOk: bool)
    : (State, Option<AdmitError>)
  {
    var refusal := Refusal(s, cfg, persist, opens, putOk);
    match refusal
    case None => (Install(s, cfg, persist), None)
    case Some(AlreadyExists) => (s, refusal)
    case Some(PortConflict(_)) => (s, refusal)
    case _ => (Wasted(s), refusal)
  }

  /** admitFailedLocked. */
  function AdmitFailed(s: State, cfg: StreamSourceConfig, cause: Cause): State {
    var port := ConnectorPort(cfg);
    s.(configs := s.configs[cfg.id := cfg],
       runtimes := s.runtimes[cfg.id := Failed(cause)],
       portClaims := if port != "" && port !in s.portClaims then s.portClaims[port := cfg.id] else s.portClaims)
  }

  datatype RemoveError = NoSuchStream | DeleteFailed

  function Released(claims: map<string, string>, id: string): map<string, string> {
    map port | port in claims && claims[port] != id :: claims[port]
  }

  function RetiredOf(s: State, id: string): set<nat> {
    if id in s.generations then {s.generations[id].gid} else {}
  }

  function RemoveRefusal(s: State, id: string, deleteOk: bool): Option<RemoveError> {
    if id !in s.runtimes then Some(NoSuchStream)
    else if s.store.Some? && !deleteOk then Some(DeleteFailed)
    else None
  }

  function Removed(s: State, id: string): State {
    s.(generations := s.generations - {id},
       configs := s.configs - {id},
       cancels := s.cancels - {id},
       dones := s.dones - {id},
       runtimes := s.runtimes - {id},
       portClaims := Released(s.portClaims, id),
       store := if s.store.Some? then Some(s.store.value - {id}) else None,
       retired := s.retired + RetiredOf(s, id))
  }

  function Remove(s: State, id: string, deleteOk: bool): (State, Option<RemoveError>) {
    var refusal := RemoveRefusal(s, id, deleteOk);
    (if refusal.None? then Removed(s, id) else s, refusal)
  }

  datatype UpdateError = NotRunning | CannotBuild | CannotPersist

  /** UpdatePipeline up to the lock: check, then build outside it. */
  function BeginUpdate(s: State, id: string, block: Option<PipelineConfig>): (State, Option<UpdateError>) {
    if id !in s.generations then (s, Some(NotRunning))
    else if !Builds(block) then (Wasted(s), Some(CannotBuild))
    else (s.(built := s.built + 1, pending := s.pending + {s.built}), None)
  }

  function GiveBack(s: State, gen: Generation): State {
    s.(pending := s.pending - {gen.gid}, retired := s.retired + {gen.gid})
  }

  const EMPTY_CONFIG := StreamSourceConfig("", "", "", "", None, None, None, None)

  /** Reading a map of configurations; a missing one reads as the zero value. */
  function ConfigOf(configs: map<string, StreamSourceConfig>, id: string): StreamSourceConfig {
    if id in configs then configs[id] else EMPTY_CONFIG
  }

  /** UpdatePipeline from the lock on: the stream may be gone, the store may refuse. */
  function CommitUpdate(s: State, id: string, gen: Generation, putOk: bool): (State, Option<UpdateError>) {
    if id !in s.generations then (GiveBack(s, gen), Some(NotRunning))
    else if s.store.Some? && !putOk then (GiveBack(s, gen), Some(CannotPersist))
    else
      var updated := ConfigOf(s.configs, id).(pipeline := gen.block);
      (s.(configs := s.configs[id := updated],
          store := Put(s.store, updated),
          generations := s.generations[id := gen],
          pending := s.pending - {gen.gid},
          retired := s.retired + {s.generations[id].gid}),
       None)
  }

  function StopAll(s: State): State {
    Fresh(s.store).(built := s.built, pending := s.pending,
                    retired := s.retired + set id | id in s.generations :: s.generations[id].gid)
  }

  // ---- what removing and stopping do to supervisors and generations, in order

  datatype Effect =
    | Cancel(supervisor: nat)
    | Await(supervisor: nat)
    | AwaitAll(supervisors: set<nat>)
    | Retire(gid: nat)

  /** The supervisor is cancelled and waited for before the generation is retired. */
  function RemoveEffects(s: State, id: string): seq<Effect> {
    (if id in s.cancels then [Cancel(s.cancels[id])] else [])
    + (if id in s.dones then [Await(s.dones[id])] else [])
    + (if id in s.generations then [Retire(s.generations[id].gid)] else [])
  }

  ghost predicate Exactly(effects: seq<Effect>, wanted: set<Effect>) {
    forall e :: e in effects <==> e in wanted
  }

  /** Every supervisor is cancelled, then all are waited for, then every generation retired. */
  ghost predicate StopEffects(s: State, effects: seq<Effect>) {
    exists i :: 0 <= i < |effects| && effects[i] == AwaitAll(s.dones.Values)
      && Exactly(effects[..i], set id | id in s.cancels :: Cancel(s.cancels[id]))
      && Exactly(effects[i + 1..], set id | id in s.generations :: Retire(s.generations[id].gid))
  }

  // ---- restore

  /** Whether each persisted configuration is still accepted, and whether its source opens. */
  datatype Outside = Outside(valid: StreamSourceConfig -> bool, opens: StreamSourceConfig -> bool)

  predicate Supported(kind: string) {
    kind == "websocket" || kind == "rest_poller" || kind == "webhook" || kind == "grpc" || kind == "sse"
  }

  function RestoreOne(s: State, w: Outside, cfg: StreamSourceConfig): State {
    if cfg.id == "" then s
    else if !w.valid(cfg) then AdmitFailed(s, cfg, InvalidConfig)
    else if !Supported(cfg.kind) then AdmitFailed(s, cfg, UnsupportedKind)
    else
      var (t, error) := Admit(s, cfg, false, w.opens(cfg), true);
      if error.None? then t else AdmitFailed(t, cfg, Refused(error.value))
  }

  function RestoreInOrder(s: State, w: Outside, configs: seq<StreamSourceConfig>): State {
    if configs == [] then s
    else RestoreOne(RestoreInOrder(s, w, configs[..|configs| - 1]), w, configs[|configs| - 1])
  }

  // ---- what every operation keeps

  /** The keys of the maps fit together, and a stream is cancelled by and waited for through
      one supervisor. */
  predicate KeysFit(s: State) {
    && s.generations.Keys == s.cancels.Keys && s.cancels == s.dones
    && s.generations.Keys <= s.runtimes.Keys == s.configs.Keys
    && (forall id :: id in s.configs ==> s.configs[id].id == id)
    && (forall id :: id in s.runtimes ==> (s.runtimes[id].Live? <==> id in s.generations))
  }

  /** Every claim names a registered stream whose configuration has that port. */
  predicate ClaimsNamed(claims: map<string, string>, configs: map<string, StreamSourceConfig>) {
    forall port :: port in claims ==> claims[port] in configs && ConnectorPort(configs[claims[port]]) == port != ""
  }

  /** Every running stream holds its port's claim. */
  predicate ClaimsHeld(claims: map<string, string>, configs: map<string, StreamSourceConfig>, live: set<string>) {
    forall id :: id in live && id in configs && ConnectorPort(configs[id]) != "" ==>
      ConnectorPort(configs[id]) in claims && claims[ConnectorPort(configs[id])] == id
  }

  predicate ClaimsFit(s: State) {
    ClaimsNamed(s.portClaims, s.configs) && ClaimsHeld(s.portClaims, s.configs, s.generations.Keys)
  }

  /** Every generation ever built is installed once, or pending once, or retired: none leaks,
      and none in use is retired. */
  predicate NoneLeaks(generations: map<string, Generation>, built: nat, retired: set<nat>, pending: set<nat>) {
    && (forall id :: id in generations ==>
          generations[id].gid < built && generations[id].gid !in retired && generations[id].gid !in pending)
    && (forall id, id' :: id in generations && id' in generations && id != id' ==>
          generations[id].gid != generations[id'].gid)
    && (forall g :: g in pending ==> g < built && g !in retired)
    && (forall g :: g in retired ==> g < built)
    && (forall g: nat :: g < built ==> g in retired || g in pending || Installed(generations, g))
  }

  predicate NoLeak(s: State) {
    NoneLeaks(s.generations, s.built, s.retired, s.pending)
  }

  predicate Installed(generations: map<string, Generation>, g: nat) {
    exists id :: id in generations && generations[id].gid == g
  }

  predicate Consistent(s: State) {
    KeysFit(s) && ClaimsFit(s) && NoLeak(s)
  }

  /** Store and runtime say the same: the stored configurations are the effective ones, and
      each installed generation was built from the block of its configuration. */
  predicate Agrees(s: State) {
    && (s.store.Some? ==> s.store.value == s.configs)
    && (forall id :: id in s.generations && id in s.configs ==> s.generations[id].block == s.configs[id].pipeline)
  }

  /** The six maps and the store, without the bookkeeping of generations. */
  predicate SameRegistry(s: State, t: State) {
    && t.generations == s.generations && t.configs == s.configs && t.cancels == s.cancels
    && t.dones == s.dones && t.runtimes == s.runtimes && t.portClaims == s.portClaims && t.store == s.store
  }
}
