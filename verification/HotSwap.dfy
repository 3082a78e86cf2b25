/**
 The publish path of one stream as a state machine: any number of publish calls, any
 number of pipeline generations, one of them current, and per generation a retirer and
 (when it batches) a worker goroutine.

 An action is one atomic step of one goroutine. Everything Go leaves open - scheduling,
 which enabled case a `select` takes, what a filter or a dedup stage decides - is the
 choice of the next action, so a statement about every sequence of enabled actions is a
 statement about every interleaving.
 */
module HotSwap {
  import opened Wrappers
  import opened Domain

  /** One event given to the publish callback; `call` is the index of that call. */
  datatype Item = Item(call: nat, topic: string, event: StreamEvent, marshals: bool)

  /** What a generation was built with: the batch size if it batches, whether a dedup
      stage serialises its publishers, whether some stage may drop an event. */
  datatype Shape = Shape(batch: Option<nat>, dedup: bool, drops: bool) {
    predicate Valid() {
      batch.Some? ==> 1 <= batch.value
    }
  }

  /** How far Retire has come. The write lock is held in Locked and SealedHeld. */
  datatype Phase = Serving | Cancelled | LockWanted | Locked | SealedHeld | Joining | Retired

  datatype AfterFlush = BackToSelect | BackToDrain | ThenExit

  datatype Worker = NoWorker | Selecting | Flushing(after: AfterFlush) | AwaitSeal | Draining | Exited

  datatype Gen = Gen(
    shape: Shape,
    phase: Phase,
    worker: Worker,
    batch: seq<Item>,
    lastTopic: string,
    chan: seq<Item>,
    enqueued: seq<Item>)   // history: everything ever sent on chan, in order
  {
    predicate IsCancelled() { !phase.Serving? }

    predicate IsSealed() { phase.SealedHeld? || phase.Joining? || phase.Retired? }

    /** RLock blocks while a writer holds or awaits the lock. */
    predicate ReadersAdmitted() { !phase.LockWanted? && !phase.Locked? && !phase.SealedHeld? }
  }

  datatype Pc = Loaded | Entered | InChain | AtSelect | Forwarding | Leaving | Returned

  datatype Outcome = Undecided | Dropped | Enqueued | Forwarded

  /** One call of the publish callback: the generation it loaded and where it stands. */
  datatype Call = Call(item: Item, gen: nat, pc: Pc, holdsMutex: bool, outcome: Outcome) {
    /** Whether the call holds its generation's read lock. */
    predicate Inside() { !pc.Loaded? && !pc.Returned? }

    predicate Taken() { outcome.Enqueued? || outcome.Forwarded? }
  }

  /** What reached the downstream handler `next`, in the order it was handed over.
      A batch whose payloads do not all marshal is discarded with a log line. */
  datatype Entry =
    | Single(item: Item)
    | Batch(gen: nat, topic: string, items: seq<Item>, handed: bool)

  datatype State = State(gens: seq<Gen>, current: nat, calls: seq<Call>, log: seq<Entry>)

  /** The steps of one call of the publish callback. */
  datatype CallStep = Enter | PassDedup | Drop | Decide | Enqueue | Release | Forward | Unlock | Leave

  /** The steps of a batch worker. */
  datatype WorkerStep = Receive | Tick | Flush | SeeDone | SeeSealed | DrainEmpty

  /** The steps of Retire. */
  datatype RetireStep = Cancel | WantLock | Lock | Seal | UnlockWrite | Join

  datatype Action =
    | Load(topic: string, event: StreamEvent, marshals: bool)
    | ByCall(c: nat, callStep: CallStep)
    | ByWorker(g: nat, workerStep: WorkerStep)
    | ByRetirer(g: nat, retireStep: RetireStep)
    | Build(shape: Shape)
    | Install(g: nat)

  function NewGen(shape: Shape): Gen {
    Gen(shape, Serving, if shape.batch.Some? then Selecting else NoWorker, [], "", [], [])
  }

  function Init(shape: Shape): State {
    State([NewGen(shape)], 0, [], [])
  }

  predicate NoneInside(s: State, g: nat) {
    forall c :: 0 <= c < |s.calls| && s.calls[c].gen == g ==> !s.calls[c].Inside()
  }

  predicate MutexFree(s: State, g: nat) {
    forall c :: 0 <= c < |s.calls| && s.calls[c].gen == g ==> !s.calls[c].holdsMutex
  }

  predicate CallEnabled(s: State, c: nat, step: CallStep) {
    c < |s.calls| && s.calls[c].gen < |s.gens| &&
    var k := s.calls[c];
    var gen := s.gens[k.gen];
    match step
    case Enter => k.pc.Loaded? && gen.ReadersAdmitted()
    case PassDedup => k.pc.Entered? && (gen.shape.dedup ==> MutexFree(s, k.gen))
    case Drop => (k.pc.Entered? || k.pc.InChain?) && gen.shape.drops
    case Decide => k.pc.InChain?
    case Enqueue => k.pc.AtSelect? && |gen.chan| < gen.shape.batch.GetOr(0)
    case Release => k.pc.AtSelect? && gen.IsCancelled()
    case Forward => k.pc.Forwarding?
    case Unlock => k.pc.Leaving? && k.holdsMutex
    case Leave => k.pc.Leaving? && !k.holdsMutex
  }

  predicate WorkerEnabled(gen: Gen, step: WorkerStep) {
    match step
    case Receive => (gen.worker.Selecting? || gen.worker.Draining?) && gen.chan != []
    // a tick that finds an empty batch returns at once and changes nothing
    case Tick => gen.worker.Selecting? && gen.batch != []
    case Flush => gen.worker.Flushing?
    case SeeDone => gen.worker.Selecting? && gen.IsCancelled()
    case SeeSealed => gen.worker.AwaitSeal? && gen.IsSealed()
    case DrainEmpty => gen.worker.Draining? && gen.chan == []
  }

  predicate RetireEnabled(s: State, g: nat, step: RetireStep)
    requires g < |s.gens|
  {
    var gen := s.gens[g];
    match step
    case Cancel => gen.phase.Serving?
    case WantLock => gen.phase.Cancelled?
    case Lock => gen.phase.LockWanted? && NoneInside(s, g)
    case Seal => gen.phase.Locked?
    case UnlockWrite => gen.phase.SealedHeld?
    case Join => gen.phase.Joining? && (gen.worker.NoWorker? || gen.worker.Exited?)
  }

  predicate Enabled(s: State, a: Action) {
    match a
    case Load(_, _, _) => s.current < |s.gens|
    case ByCall(c, step) => CallEnabled(s, c, step)
    case ByWorker(g, step) => g < |s.gens| && WorkerEnabled(s.gens[g], step)
    case ByRetirer(g, step) => g < |s.gens| && RetireEnabled(s, g, step)
    case Build(shape) => shape.Valid()
    case Install(g) => g < |s.gens| && s.gens[g].phase.Serving?
  }

  predicate Marshalled(items: seq<Item>) {
    forall i :: 0 <= i < |items| ==> items[i].marshals
  }

  /** What Publish does next for this call. The binary test precedes the cancellation test. */
  function Decision(gen: Gen, k: Call): Pc {
    if gen.shape.batch.None? || k.item.event.IsBinary() || gen.IsCancelled() then Forwarding else AtSelect
  }

  function CallAfter(gen: Gen, k: Call, step: CallStep): Call {
    match step
    case Enter => k.(pc := Entered)
    case PassDedup => k.(pc := InChain, holdsMutex := gen.shape.dedup)
    case Drop => k.(pc := Leaving, outcome := Dropped)
    case Decide => k.(pc := Decision(gen, k))
    case Enqueue => k.(pc := Leaving, outcome := Enqueued)
    case Release => k.(pc := Forwarding)
    case Forward => k.(pc := Leaving, outcome := Forwarded)
    case Unlock => k.(holdsMutex := false)
    case Leave => k.(pc := Returned)
  }

  function Accepted(gen: Gen, item: Item): Gen {
    gen.(chan := gen.chan + [item], enqueued := gen.enqueued + [item])
  }

  function Received(gen: Gen): Gen
    requires gen.chan != []
  {
    var batch := gen.batch + [gen.chan[0]];
    gen.(batch := batch,
         lastTopic := gen.chan[0].topic,
         chan := gen.chan[1..],
         worker := if |batch| < gen.shape.batch.GetOr(0) then gen.worker
                   else Flushing(if gen.worker.Draining? then BackToDrain else BackToSelect))
  }

  function Flushed(gen: Gen): Gen
    requires gen.worker.Flushing?
  {
    gen.(batch := [],
         worker := match gen.worker.after
                   case BackToSelect => Selecting
                   case BackToDrain => Draining
                   case ThenExit => Exited)
  }

  function WorkerAfter(gen: Gen, step: WorkerStep): Gen
    requires WorkerEnabled(gen, step)
  {
    match step
    case Receive => Received(gen)
    case Tick => gen.(worker := Flushing(BackToSelect))
    case Flush => Flushed(gen)
    case SeeDone => gen.(worker := AwaitSeal)
    case SeeSealed => gen.(worker := Draining)
    case DrainEmpty => gen.(worker := Flushing(ThenExit))
  }

  function RetireAfter(gen: Gen, step: RetireStep): Gen {
    gen.(phase := match step
                  case Cancel => Cancelled
                  case WantLock => LockWanted
                  case Lock => Locked
                  case Seal => SealedHeld
                  case UnlockWrite => Joining
                  case Join => Retired)
  }

  function FlushEntry(s: State, g: nat): Entry
    requires g < |s.gens|
  {
    Batch(g, s.gens[g].lastTopic, s.gens[g].batch, Marshalled(s.gens[g].batch))
  }

  function Apply(s: State, a: Action): State
    requires Enabled(s, a)
  {
    match a
    case Load(topic, event, marshals) =>
      s.(calls := s.calls + [Call(Item(|s.calls|, topic, event, marshals), s.current, Loaded, false, Undecided)])
    case ByCall(c, step) =>
      var k := s.calls[c];
      var gen := s.gens[k.gen];
      s.(calls := s.calls[c := CallAfter(gen, k, step)],
         gens := if step.Enqueue? then s.gens[k.gen := Accepted(gen, k.item)] else s.gens,
         log := if step.Forward? then s.log + [Single(k.item)] else s.log)
    case ByWorker(g, step) =>
      s.(gens := s.gens[g := WorkerAfter(s.gens[g], step)],
         log := if step.Flush? && s.gens[g].batch != [] then s.log + [FlushEntry(s, g)] else s.log)
    case ByRetirer(g, step) => s.(gens := s.gens[g := RetireAfter(s.gens[g], step)])
    case Build(shape) => s.(gens := s.gens + [NewGen(shape)])
    case Install(g) => s.(current := g)
  }

  /** The state a sequence of actions leads to, if each of them was enabled in its turn. */
  function Exec(s: State, actions: seq<Action>): (r: Option<State>)
  {
    if actions == [] then Some(s)
    else
      var before := Exec(s, actions[..|actions| - 1]);
      var a := actions[|actions| - 1];
      if before.Some? && Enabled(before.value, a) then Some(Apply(before.value, a)) else None
  }

  /** A state of some run of a stream, from its admission on. */
  ghost predicate Reachable(s: State) {
    exists shape: Shape, actions: seq<Action> :: shape.Valid() && Exec(Init(shape), actions) == Some(s)
  }

  /** The items of one log entry. */
  function ItemsOf(e: Entry): seq<Item> {
    if e.Single? then [e.item] else e.items
  }

  predicate WasHanded(e: Entry) {
    e.Single? || e.handed
  }

  /** Every item handed to `next`, with multiplicity. */
  function Downstream(log: seq<Entry>): multiset<Item> {
    if log == [] then multiset{}
    else
      var e := log[|log| - 1];
      Downstream(log[..|log| - 1]) + if WasHanded(e) then multiset(ItemsOf(e)) else multiset{}
  }

  /** Every item of a batch discarded because it did not marshal. */
  function Discarded(log: seq<Entry>): multiset<Item> {
    if log == [] then multiset{}
    else
      var e := log[|log| - 1];
      Discarded(log[..|log| - 1]) + if WasHanded(e) then multiset{} else multiset(ItemsOf(e))
  }

  /** The concatenation of the batches generation g flushed, in flush order. */
  function FlushedBy(log: seq<Entry>, g: nat): seq<Item> {
    if log == [] then []
    else
      var e := log[|log| - 1];
      FlushedBy(log[..|log| - 1], g) + if e.Batch? && e.gen == g then e.items else []
  }
}
