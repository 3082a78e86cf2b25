/**
 Retirement always finishes. Once a generation is cancelled, each step of its retirer, its
 worker or one of its callers uses up some of a budget, to which only a call that loads the
 generation adds - and none does once the generation is displaced; and until Retire has
 returned, some such step is enabled. Handing an event to `next` is one of these steps,
 which is the assumption that `next` returns.
 */
module HotSwapProgress {
  import opened HotSwap
  import opened HotSwapInvariant

  /** The steps a call has left, with room for the item it may still put into the channel. */
  function CallWeight(k: Call): nat {
    match k.pc
    case Loaded => 14
    case Entered => 13
    case InChain => 12
    case AtSelect => 11
    case Forwarding => 4
    case Leaving => if k.holdsMutex then 3 else 2
    case Returned => 0
  }

  function CallsWeight(calls: seq<Call>, g: nat): nat {
    if calls == [] then 0
    else
      var k := calls[|calls| - 1];
      CallsWeight(calls[..|calls| - 1], g) + if k.gen == g then CallWeight(k) else 0
  }

  function WorkerWeight(worker: Worker): nat {
    match worker
    case Selecting => 8
    case Flushing(BackToSelect) => 7
    case AwaitSeal => 6
    case Draining => 5
    case Flushing(BackToDrain) => 4
    case Flushing(ThenExit) => 1
    case Exited => 0
    case NoWorker => 0
  }

  function PhaseWeight(phase: Phase): nat {
    match phase
    case Serving => 6
    case Cancelled => 5
    case LockWanted => 4
    case Locked => 3
    case SealedHeld => 2
    case Joining => 1
    case Retired => 0
  }

  function GenWeight(gen: Gen): nat {
    PhaseWeight(gen.phase) + WorkerWeight(gen.worker) + 3 * |gen.batch| + 5 * |gen.chan|
  }

  /** What is left to do before everyone is done with generation g. */
  function Remaining(s: State, g: nat): nat
    requires g < |s.gens|
  {
    GenWeight(s.gens[g]) + CallsWeight(s.calls, g)
  }

  /** Whether an action is a step of generation g's retirer, worker or one of its callers. */
  predicate Serves(s: State, a: Action, g: nat) {
    match a
    case ByCall(c, _) => c < |s.calls| && s.calls[c].gen == g
    case ByWorker(h, _) => h == g
    case ByRetirer(h, _) => h == g
    case _ => false
  }

  lemma {:induction false} CallMoved(calls: seq<Call>, c: nat, k: Call, g: nat)
    requires c < |calls| && k.gen == calls[c].gen
    ensures CallsWeight(calls[c := k], g) ==
            CallsWeight(calls, g) + if k.gen == g then CallWeight(k) - CallWeight(calls[c]) else 0
  {
    var n := |calls| - 1;
    if c < n {
      CallMoved(calls[..n], c, k, g);
      assert calls[c := k][..n] == calls[..n][c := k];
    } else {
      assert calls[c := k][..n] == calls[..n];
    }
  }

  lemma CallAdded(calls: seq<Call>, k: Call, g: nat)
    ensures CallsWeight(calls + [k], g) == CallsWeight(calls, g) + if k.gen == g then CallWeight(k) else 0
  {
    assert (calls + [k])[..|calls|] == calls;
  }

  lemma CallStepSpends(s: State, c: nat, step: CallStep, gen: Gen)
    requires CallEnabled(s, c, step)
    ensures CallWeight(CallAfter(gen, s.calls[c], step)) + (if step.Enqueue? then 5 else 0) < CallWeight(s.calls[c])
    ensures CallAfter(gen, s.calls[c], step).gen == s.calls[c].gen
  {
  }

  lemma WorkerStepSpends(gen: Gen, step: WorkerStep)
    requires GenOk(gen) && WorkerEnabled(gen, step)
    ensures GenWeight(WorkerAfter(gen, step)) < GenWeight(gen)
  {
  }

  /** The retirement of generation g has begun. */
  predicate Retiring(s: State, g: nat) {
    g < |s.gens| && s.gens[g].IsCancelled()
  }

  lemma CallerSpends(s: State, c: nat, step: CallStep, g: nat)
    requires g < |s.gens| && CallEnabled(s, c, step)
    ensures g < |Apply(s, ByCall(c, step)).gens|
    ensures s.calls[c].gen == g ==> Remaining(Apply(s, ByCall(c, step)), g) < Remaining(s, g)
    ensures s.calls[c].gen != g ==> Remaining(Apply(s, ByCall(c, step)), g) == Remaining(s, g)
  {
    var k := s.calls[c];
    var after := CallAfter(s.gens[k.gen], k, step);
    CallStepSpends(s, c, step, s.gens[k.gen]);
    CallMoved(s.calls, c, after, g);
  }

  lemma WorkerSpends(s: State, h: nat, step: WorkerStep, g: nat)
    requires g < |s.gens| && h < |s.gens| && WorkerEnabled(s.gens[h], step) && GenOk(s.gens[h])
    ensures g < |Apply(s, ByWorker(h, step)).gens|
    ensures h == g ==> Remaining(Apply(s, ByWorker(h, step)), g) < Remaining(s, g)
    ensures h != g ==> Remaining(Apply(s, ByWorker(h, step)), g) == Remaining(s, g)
  {
    WorkerStepSpends(s.gens[h], step);
  }

  lemma RetirerSpends(s: State, h: nat, step: RetireStep, g: nat)
    requires g < |s.gens| && h < |s.gens| && RetireEnabled(s, h, step)
    ensures g < |Apply(s, ByRetirer(h, step)).gens|
    ensures h == g ==> Remaining(Apply(s, ByRetirer(h, step)), g) < Remaining(s, g)
    ensures h != g ==> Remaining(Apply(s, ByRetirer(h, step)), g) == Remaining(s, g)
  {
  }

  lemma OutsiderSpendsNothing(s: State, a: Action, g: nat)
    requires g < |s.gens| && Enabled(s, a) && (a.Load? || a.Build? || a.Install?)
    ensures g < |Apply(s, a).gens|
    ensures Remaining(Apply(s, a), g) == Remaining(s, g) + if Joins(s, a, g) then LOADED else 0
  {
    if a.Load? {
      CallAdded(s.calls, Call(Item(|s.calls|, a.topic, a.event, a.marshals), s.current, Loaded, false, Undecided), g);
    }
  }

  const LOADED := 14

  /** Whether an action is a call that loads generation g. */
  predicate Joins(s: State, a: Action, g: nat) {
    a.Load? && s.current == g
  }

  /** A step that serves g uses up some of what is left, and no step adds to it but a call
      that loads g. */
  lemma StepSpends(s: State, a: Action, g: nat)
    requires Shaped(s) && g < |s.gens| && Enabled(s, a)
    ensures g < |Apply(s, a).gens|
    ensures if Serves(s, a, g) then Remaining(Apply(s, a), g) < Remaining(s, g)
            else Remaining(Apply(s, a), g) == Remaining(s, g) + if Joins(s, a, g) then LOADED else 0
  {
    match a
    case ByCall(c, step) => CallerSpends(s, c, step, g);
    case ByWorker(h, step) => WorkerSpends(s, h, step, g);
    case ByRetirer(h, step) => RetirerSpends(s, h, step, g);
    case _ => OutsiderSpendsNothing(s, a, g);
  }

  /** Nobody makes a cancelled generation the current one again, so after its displacement
      no call loads it. */
  lemma StepRetires(s: State, a: Action, g: nat)
    requires Retiring(s, g) && Enabled(s, a)
    ensures Retiring(Apply(s, a), g)
    ensures s.current != g ==> Apply(s, a).current != g && !Joins(s, a, g)
  {
  }

  /** How many of the actions served generation g. */
  function Served(s: State, actions: seq<Action>, g: nat): nat
    requires Exec(s, actions).Some?
  {
    if actions == [] then 0
    else
      var front, a := actions[..|actions| - 1], actions[|actions| - 1];
      Served(s, front, g) + if Serves(Exec(s, front).value, a, g) then 1 else 0
  }

  /** How many of the actions loaded generation g. */
  function Joined(s: State, actions: seq<Action>, g: nat): nat
    requires Exec(s, actions).Some?
  {
    if actions == [] then 0
    else
      var front, a := actions[..|actions| - 1], actions[|actions| - 1];
      Joined(s, front, g) + if Joins(Exec(s, front).value, a, g) then 1 else 0
  }

  /** No run, however long and however many publishers and generations join it, takes more
      than Remaining(s, g) steps on behalf of a generation, and a fixed number for each call
      that still loads it. */
  lemma {:induction false} ServiceIsBounded(s: State, g: nat, actions: seq<Action>)
    requires Inv(s) && g < |s.gens| && Exec(s, actions).Some?
    ensures Inv(Exec(s, actions).value) && g < |Exec(s, actions).value.gens|
    ensures Served(s, actions, g) + Remaining(Exec(s, actions).value, g)
         <= Remaining(s, g) + LOADED * Joined(s, actions, g)
  {
    if actions != [] {
      var front, a := actions[..|actions| - 1], actions[|actions| - 1];
      ServiceIsBounded(s, g, front);
      var t := Exec(s, front).value;
      StepKeeps(t, a);
      StepSpends(t, a, g);
    }
  }

  lemma {:induction false} StaysRetiring(s: State, g: nat, actions: seq<Action>)
    requires Retiring(s, g) && Exec(s, actions).Some?
    ensures Retiring(Exec(s, actions).value, g)
    ensures s.current != g ==> Exec(s, actions).value.current != g && Joined(s, actions, g) == 0
  {
    if actions != [] {
      var front, a := actions[..|actions| - 1], actions[|actions| - 1];
      StaysRetiring(s, g, front);
      StepRetires(Exec(s, front).value, a, g);
    }
  }

  /** A cancelled generation stays cancelled meanwhile, and once it has been displaced no call
      loads it any more: then the bound is one number. */
  lemma RetirementIsBounded(s: State, g: nat, actions: seq<Action>)
    requires Inv(s) && Retiring(s, g) && Exec(s, actions).Some?
    ensures Inv(Exec(s, actions).value) && Retiring(Exec(s, actions).value, g)
    ensures Served(s, actions, g) + Remaining(Exec(s, actions).value, g)
         <= Remaining(s, g) + LOADED * Joined(s, actions, g)
    ensures s.current != g ==> Exec(s, actions).value.current != g && Joined(s, actions, g) == 0
  {
    ServiceIsBounded(s, g, actions);
    StaysRetiring(s, g, actions);
  }

  /** A call that holds the read lock of a cancelled generation is never stuck for good:
      it can move itself, or whoever holds the dedup mutex it waits for can. A publisher
      parked on a full buffer, and the queue behind it on the mutex, are released this way. */
  lemma InsideCanMove(s: State, c: nat) returns (a: Action)
    requires Inv(s) && c < |s.calls| && s.calls[c].Inside()
    requires s.gens[s.calls[c].gen].IsCancelled()
    ensures a.ByCall? && Enabled(s, a) && Serves(s, a, s.calls[c].gen)
  {
    var k := s.calls[c];
    if k.pc.Entered? && s.gens[k.gen].shape.dedup && !MutexFree(s, k.gen) {
      var d :| 0 <= d < |s.calls| && s.calls[d].gen == k.gen && s.calls[d].holdsMutex;
      a := ByCall(d, NextStep(s.calls[d]));
      assert CallOk(s.calls[d], s.gens[k.gen]);
    } else {
      a := ByCall(c, NextStep(k));
    }
  }

  /** The step a call inside a cancelled generation can always take. */
  function NextStep(k: Call): CallStep {
    match k.pc
    case Loaded => Enter
    case Entered => PassDedup
    case InChain => Decide
    case AtSelect => Release
    case Forwarding => Forward
    case _ => if k.holdsMutex then Unlock else Leave
  }

  /** The step a worker of a sealed generation can always take. */
  function NextWorkerStep(gen: Gen): WorkerStep {
    match gen.worker
    case Selecting => SeeDone
    case AwaitSeal => SeeSealed
    case Draining => if gen.chan == [] then DrainEmpty else Receive
    case _ => Flush
  }

  /** Between the cancellation and the return of Retire there is always a step to take. */
  lemma RetirementNeverStuck(s: State, g: nat) returns (a: Action)
    requires Inv(s) && g < |s.gens| && s.gens[g].IsCancelled() && !s.gens[g].phase.Retired?
    ensures Enabled(s, a) && Serves(s, a, g)
  {
    var gen := s.gens[g];
    match gen.phase
    case Cancelled => a := ByRetirer(g, WantLock);
    case LockWanted =>
      if NoneInside(s, g) {
        a := ByRetirer(g, Lock);
      } else {
        var c :| 0 <= c < |s.calls| && s.calls[c].gen == g && s.calls[c].Inside();
        a := InsideCanMove(s, c);
      }
    case Locked => a := ByRetirer(g, Seal);
    case SealedHeld => a := ByRetirer(g, UnlockWrite);
    case Joining =>
      if gen.worker.NoWorker? || gen.worker.Exited? {
        a := ByRetirer(g, Join);
      } else {
        a := ByWorker(g, NextWorkerStep(gen));
      }
    case Serving => assert false;
    case Retired => assert false;
  }

  /** The two halves together: a run can serve g only so often for the calls that load it,
      and a run that leaves no step serving g enabled, or has used the budget up, has
      retired it. */
  lemma RetirementFinishes(s: State, g: nat, actions: seq<Action>)
    requires Reachable(s) && Retiring(s, g)
    requires Exec(s, actions).Some?
    ensures g < |Exec(s, actions).value.gens|
    ensures var budget := Remaining(s, g) + LOADED * Joined(s, actions, g);
      && Served(s, actions, g) <= budget
      && (Served(s, actions, g) == budget ==> Exec(s, actions).value.gens[g].phase.Retired?)
    ensures s.current != g ==> Joined(s, actions, g) == 0
    ensures (forall a :: Enabled(Exec(s, actions).value, a) ==> !Serves(Exec(s, actions).value, a, g))
       ==> Exec(s, actions).value.gens[g].phase.Retired?
  {
    ReachableOk(s);
    ServiceIsBounded(s, g, actions);
    StaysRetiring(s, g, actions);
    var t := Exec(s, actions).value;
    if !t.gens[g].phase.Retired? {
      var a := RetirementNeverStuck(t, g);
      StepSpends(t, a, g);
    }
  }

  /** Before any cancellation a full buffer is no deadlock either: whatever the phase, a
      parked publisher can move or the worker can make room for it. */
  lemma ParkedPublisherNotStuck(s: State, c: nat) returns (a: Action)
    requires Inv(s) && c < |s.calls| && s.calls[c].pc.AtSelect?
    ensures Enabled(s, a) && Serves(s, a, s.calls[c].gen)
    ensures a.ByCall? || (a.ByWorker? && (a.workerStep.Receive? || a.workerStep.Flush?))
  {
    var g := s.calls[c].gen;
    var gen := s.gens[g];
    assert CallOk(s.calls[c], gen) && GenOk(gen);
    if |gen.chan| < gen.shape.batch.GetOr(0) {
      a := ByCall(c, Enqueue);
    } else if gen.IsCancelled() {
      a := ByCall(c, Release);
    } else if gen.worker.Selecting? {
      a := ByWorker(g, Receive);
    } else {
      a := ByWorker(g, Flush);
    }
  }

  // ---- publishers, in whatever phase their generation is

  /** A call of a generation in service that is past the dedup stage, or needs none, can move,
      or the worker can make room for it. */
  lemma ServingCanMove(s: State, c: nat) returns (a: Action)
    requires Inv(s) && c < |s.calls| && s.gens[s.calls[c].gen].phase.Serving?
    requires !s.calls[c].pc.Returned?
    requires s.calls[c].pc.Entered? && s.gens[s.calls[c].gen].shape.dedup ==> MutexFree(s, s.calls[c].gen)
    ensures Enabled(s, a) && Serves(s, a, s.calls[c].gen) && !a.ByRetirer?
  {
    assert CallOk(s.calls[c], s.gens[s.calls[c].gen]);
    if s.calls[c].pc.AtSelect? {
      a := ParkedPublisherNotStuck(s, c);
    } else {
      a := ByCall(c, NextStep(s.calls[c]));
    }
  }

  /** As long as a call has not returned, some step on behalf of its generation is enabled:
      before, during and after the generation's retirement. No retirement need begin for it. */
  lemma CallNeverStuck(s: State, c: nat) returns (a: Action)
    requires Inv(s) && c < |s.calls| && !s.calls[c].pc.Returned?
    ensures Enabled(s, a) && Serves(s, a, s.calls[c].gen)
    ensures a.ByRetirer? ==> !a.retireStep.Cancel?
  {
    var k, gen := s.calls[c], s.gens[s.calls[c].gen];
    if gen.phase.Serving? {
      if k.pc.Entered? && gen.shape.dedup && !MutexFree(s, k.gen) {
        var d :| 0 <= d < |s.calls| && s.calls[d].gen == k.gen && s.calls[d].holdsMutex;
        assert CallOk(s.calls[d], gen);
        a := ServingCanMove(s, d);
      } else {
        a := ServingCanMove(s, c);
      }
    } else if !gen.phase.Retired? {
      a := RetirementNeverStuck(s, k.gen);
    } else if k.pc.Loaded? {
      a := ByCall(c, Enter);
    } else {
      a := InsideCanMove(s, c);
    }
  }

  predicate AllReturned(s: State, g: nat) {
    forall c :: 0 <= c < |s.calls| && s.calls[c].gen == g ==> s.calls[c].pc.Returned?
  }

  /** The publishers of a generation all return, in whatever phase it is: a run serves it only
      so often for the calls that load it, and one that leaves no step serving it enabled, or
      has used the budget up, has seen them return. */
  lemma PublishersReturn(s: State, g: nat, actions: seq<Action>)
    requires Reachable(s) && g < |s.gens| && Exec(s, actions).Some?
    ensures var budget := Remaining(s, g) + LOADED * Joined(s, actions, g);
      && Served(s, actions, g) <= budget
      && (Served(s, actions, g) == budget ==> AllReturned(Exec(s, actions).value, g))
    ensures (forall a :: Enabled(Exec(s, actions).value, a) ==> !Serves(Exec(s, actions).value, a, g))
       ==> AllReturned(Exec(s, actions).value, g)
  {
    ReachableOk(s);
    ServiceIsBounded(s, g, actions);
    var t := Exec(s, actions).value;
    if c :| 0 <= c < |t.calls| && t.calls[c].gen == g && !t.calls[c].pc.Returned? {
      var a := CallNeverStuck(t, c);
      StepSpends(t, a, g);
    }
  }
}
