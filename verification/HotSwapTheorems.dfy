/**
 What the hot-swap protocol is for: over every interleaving, every event given to the
 publish callback reaches the downstream handler at most once, and exactly once as soon as
 its call has returned and its generation is retired, unless a stage dropped it or it
 shared a batch with a payload that does not marshal.
 */
module HotSwapTheorems {
  import opened Wrappers
  import opened HotSwap
  import opened HotSwapInvariant

  // ---- reading the log

  ghost predicate InHanded(log: seq<Entry>, item: Item) {
    exists i :: 0 <= i < |log| && WasHanded(log[i]) && item in ItemsOf(log[i])
  }

  ghost predicate InDiscarded(log: seq<Entry>, item: Item) {
    exists i :: 0 <= i < |log| && !WasHanded(log[i]) && item in ItemsOf(log[i])
  }

  lemma HandedMore(log: seq<Entry>, e: Entry, item: Item)
    ensures InHanded(log + [e], item) <==> InHanded(log, item) || (WasHanded(e) && item in ItemsOf(e))
    ensures InDiscarded(log + [e], item) <==> InDiscarded(log, item) || (!WasHanded(e) && item in ItemsOf(e))
  {
    var more := log + [e];
    assert more[|log|] == e;
    assert forall i :: 0 <= i < |log| ==> more[i] == log[i];
    if InHanded(log, item) {
      var i :| 0 <= i < |log| && WasHanded(log[i]) && item in ItemsOf(log[i]);
      assert WasHanded(more[i]) && item in ItemsOf(more[i]);
    }
    if InDiscarded(log, item) {
      var i :| 0 <= i < |log| && !WasHanded(log[i]) && item in ItemsOf(log[i]);
      assert !WasHanded(more[i]) && item in ItemsOf(more[i]);
    }
  }

  lemma {:induction false} DownstreamIsHanded(log: seq<Entry>, item: Item)
    ensures Downstream(log)[item] > 0 <==> InHanded(log, item)
    ensures Discarded(log)[item] > 0 <==> InDiscarded(log, item)
  {
    if log != [] {
      var front, e := log[..|log| - 1], log[|log| - 1];
      DownstreamIsHanded(front, item);
      assert log == front + [e];
      HandedMore(front, e, item);
      LogGrows(front, e, 0);
      assert item in ItemsOf(e) <==> multiset(ItemsOf(e))[item] > 0;
    }
  }

  lemma {:induction false} FlushedInLog(log: seq<Entry>, g: nat, item: Item)
    requires item in FlushedBy(log, g)
    ensures exists i :: 0 <= i < |log| && log[i].Batch? && item in log[i].items
  {
    var front, e := log[..|log| - 1], log[|log| - 1];
    if e.Batch? && e.gen == g && item in e.items {
    } else {
      FlushedInLog(front, g, item);
      var i :| 0 <= i < |front| && front[i].Batch? && item in front[i].items;
      assert log[i] == front[i];
    }
  }

  // ---- conservation

  /** Nothing reaches the downstream handler twice, and nothing nobody published reaches it. */
  lemma HandedAtMostOnce(s: State, item: Item)
    requires Reachable(s)
    ensures Downstream(s.log)[item] <= 1
    ensures Downstream(s.log)[item] == 1 ==> item.call < |s.calls| && s.calls[item.call].item == item
  {
    ReachableOk(s);
    if Known(s, item) {
      assert OneCopy(s, item.call);
    } else {
      UnknownIsNowhere(s, s.log, item);
    }
  }

  /** No payload that shared a batch with item failed to marshal. */
  ghost predicate BatchMarshalled(log: seq<Entry>, item: Item) {
    forall i :: 0 <= i < |log| && log[i].Batch? && item in log[i].items ==> Marshalled(log[i].items)
  }

  lemma DiscardedIffNotMarshalled(s: State, item: Item)
    requires Shaped(s) && Located(s)
    ensures Discarded(s.log)[item] > 0 <==> !BatchMarshalled(s.log, item)
  {
    DownstreamIsHanded(s.log, item);
    if InDiscarded(s.log, item) {
      var i :| 0 <= i < |s.log| && !WasHanded(s.log[i]) && item in ItemsOf(s.log[i]);
      assert EntryOk(s, s.log[i]);
    }
    if !BatchMarshalled(s.log, item) {
      var i :| 0 <= i < |s.log| && s.log[i].Batch? && item in s.log[i].items && !Marshalled(s.log[i].items);
      assert EntryOk(s, s.log[i]) && !WasHanded(s.log[i]) && item in ItemsOf(s.log[i]);
    }
  }

  lemma BooksClosed(s: State, c: nat)
    requires Inv(s) && c < |s.calls| && s.gens[s.calls[c].gen].phase.Retired?
    ensures var item := s.calls[c].item;
      Downstream(s.log)[item] + Discarded(s.log)[item] == if s.calls[c].Taken() then 1 else 0
  {
    assert GenOk(s.gens[s.calls[c].gen]);
    assert Buffered(s.gens[s.calls[c].gen]) == [];
    assert OneCopy(s, c);
  }

  /** The books of one call close when it has returned and the generation it loaded is
      retired - whichever of the two came first, and however late the call entered. */
  lemma HandedExactlyOnce(s: State, c: nat)
    requires Reachable(s) && c < |s.calls|
    requires s.calls[c].gen < |s.gens|
    requires s.calls[c].pc.Returned? && s.gens[s.calls[c].gen].phase.Retired?
    ensures s.calls[c].outcome.Dropped? ==>
      s.gens[s.calls[c].gen].shape.drops && Downstream(s.log)[s.calls[c].item] == 0
    ensures !s.calls[c].outcome.Dropped? ==>
      (Downstream(s.log)[s.calls[c].item] == 1 <==> BatchMarshalled(s.log, s.calls[c].item))
  {
    ReachableOk(s);
    assert CallOk(s.calls[c], s.gens[s.calls[c].gen]);
    BooksClosed(s, c);
    DiscardedIffNotMarshalled(s, s.calls[c].item);
  }

  /** A retired generation delivered everything it accepted if and only if every payload
      given to it marshals: its whole input either way, whatever the batch boundaries. */
  lemma GenerationLosslessIff(s: State, g: nat)
    requires Reachable(s) && g < |s.gens| && s.gens[g].phase.Retired?
    ensures (forall item :: item in s.gens[g].enqueued ==> Downstream(s.log)[item] == 1)
       <==> (forall item :: item in s.gens[g].enqueued ==> item.marshals)
  {
    ReachableOk(s);
    assert GenOk(s.gens[g]);
    assert s.gens[g].enqueued == FlushedBy(s.log, g) + Buffered(s.gens[g]) && Buffered(s.gens[g]) == [];
    assert forall i :: 0 <= i < |s.log| ==> EntryOk(s, s.log[i]);
    forall item | item in s.gens[g].enqueued
      ensures Downstream(s.log)[item] == 1 ==> item.marshals
      ensures (forall other :: other in s.gens[g].enqueued ==> other.marshals) ==> Downstream(s.log)[item] == 1
    {
      EnqueuedFate(s, g, item);
    }
  }

  lemma FlushedKnownCall(s: State, g: nat, item: Item)
    requires Shaped(s) && Located(s) && item in FlushedBy(s.log, g)
    ensures Known(s, item) && s.calls[item.call].gen == g && s.calls[item.call].outcome.Enqueued?
  {
    FlushedKnown(s, s.log, g, item);
  }

  lemma FlushedInBooks(s: State, g: nat, item: Item)
    requires item in FlushedBy(s.log, g)
    ensures Downstream(s.log)[item] + Discarded(s.log)[item] > 0
  {
    FlushedInLog(s.log, g, item);
    var i :| 0 <= i < |s.log| && s.log[i].Batch? && item in s.log[i].items;
    assert item in ItemsOf(s.log[i]);
    DownstreamIsHanded(s.log, item);
  }

  lemma FlushedCopies(s: State, g: nat, item: Item)
    requires Inv(s) && g < |s.gens| && item in FlushedBy(s.log, g)
    ensures Known(s, item) && s.calls[item.call].gen == g && s.calls[item.call].outcome.Enqueued?
    ensures Downstream(s.log)[item] + Discarded(s.log)[item] == 1
  {
    FlushedKnownCall(s, g, item);
    FlushedInBooks(s, g, item);
    assert OneCopy(s, item.call);
  }

  /** An item a generation flushed went out in one of its batches, and was handed over
      exactly if that batch marshalled. */
  lemma EnqueuedFate(s: State, g: nat, item: Item)
    requires Inv(s) && g < |s.gens| && item in FlushedBy(s.log, g)
    ensures Downstream(s.log)[item] == 1 ==> item.marshals
    ensures (forall other :: other in FlushedBy(s.log, g) ==> other.marshals) ==> Downstream(s.log)[item] == 1
  {
    FlushedCopies(s, g, item);
    DownstreamIsHanded(s.log, item);
    if Downstream(s.log)[item] == 1 {
      HandedBatchMarshals(s, item);
    } else {
      DiscardedBatchDoesNot(s, g, item);
    }
  }

  lemma HandedBatchMarshals(s: State, item: Item)
    requires Shaped(s) && Located(s) && InHanded(s.log, item)
    requires Known(s, item) && s.calls[item.call].outcome.Enqueued?
    ensures item.marshals
  {
    var j :| 0 <= j < |s.log| && WasHanded(s.log[j]) && item in ItemsOf(s.log[j]);
    assert EntryOk(s, s.log[j]);
    MarshalledItem(s.log[j].items, item);
  }

  lemma DiscardedBatchDoesNot(s: State, g: nat, item: Item)
    requires Shaped(s) && Located(s) && InDiscarded(s.log, item)
    requires Known(s, item) && s.calls[item.call].gen == g
    ensures exists other :: other in FlushedBy(s.log, g) && !other.marshals
  {
    var j :| 0 <= j < |s.log| && !WasHanded(s.log[j]) && item in ItemsOf(s.log[j]);
    assert EntryOk(s, s.log[j]);
    BatchIsFlushed(s.log, j);
    var other := UnmarshalledItem(s.log[j].items);
    assert other in FlushedBy(s.log, g);
  }

  lemma UnmarshalledItem(items: seq<Item>) returns (other: Item)
    requires !Marshalled(items)
    ensures other in items && !other.marshals
  {
    var k :| 0 <= k < |items| && !items[k].marshals;
    other := items[k];
  }

  lemma MarshalledItem(items: seq<Item>, item: Item)
    requires Marshalled(items) && item in items
    ensures item.marshals
  {
  }

  lemma {:induction false} FlushedKnown(s: State, log: seq<Entry>, g: nat, item: Item)
    requires forall i :: 0 <= i < |log| ==> EntryOk(s, log[i])
    requires item in FlushedBy(log, g)
    ensures Known(s, item) && s.calls[item.call].gen == g && s.calls[item.call].outcome.Enqueued?
  {
    var front, e := log[..|log| - 1], log[|log| - 1];
    assert EntryOk(s, e);
    if !(e.Batch? && e.gen == g && item in e.items) {
      FlushedKnown(s, front, g, item);
    }
  }

  lemma {:induction false} BatchIsFlushed(log: seq<Entry>, i: nat)
    requires i < |log| && log[i].Batch?
    ensures forall item :: item in log[i].items ==> item in FlushedBy(log, log[i].gen)
  {
    if i < |log| - 1 {
      BatchIsFlushed(log[..|log| - 1], i);
      assert log[..|log| - 1][i] == log[i];
    }
  }

  // ---- order and size of batches

  lemma BatchesFit(s: State, g: nat)
    requires Shaped(s) && Located(s) && g < |s.gens|
    ensures forall i :: 0 <= i < |s.log| && s.log[i].Batch? && s.log[i].gen == g ==>
      && s.gens[g].shape.batch.Some?
      && 1 <= |s.log[i].items| <= s.gens[g].shape.batch.value
      && s.log[i].topic == s.log[i].items[|s.log[i].items| - 1].topic
  {
    forall i | 0 <= i < |s.log| && s.log[i].Batch? && s.log[i].gen == g
      ensures && s.gens[g].shape.batch.Some?
              && 1 <= |s.log[i].items| <= s.gens[g].shape.batch.value
              && s.log[i].topic == s.log[i].items[|s.log[i].items| - 1].topic
    {
      assert EntryOk(s, s.log[i]);
    }
  }

  /** In every reachable state the batches a generation flushed, its current batch and its
      channel are together the exact enqueue order; every flushed batch holds between 1 and
      maxSize events under the topic of its last one; the channel never exceeds maxSize;
      and Retire returns with nothing held back. */
  lemma BatchSequence(s: State, g: nat)
    requires Reachable(s) && g < |s.gens|
    ensures s.gens[g].enqueued == FlushedBy(s.log, g) + s.gens[g].batch + s.gens[g].chan
    ensures s.gens[g].shape.batch.Some? ==> |s.gens[g].chan| <= s.gens[g].shape.batch.value
    ensures forall i :: 0 <= i < |s.log| && s.log[i].Batch? && s.log[i].gen == g ==>
      && s.gens[g].shape.batch.Some?
      && 1 <= |s.log[i].items| <= s.gens[g].shape.batch.value
      && s.log[i].topic == s.log[i].items[|s.log[i].items| - 1].topic
    ensures s.gens[g].phase.Retired? ==> FlushedBy(s.log, g) == s.gens[g].enqueued
  {
    ReachableOk(s);
    assert GenOk(s.gens[g]);
    Regroup(FlushedBy(s.log, g), s.gens[g].batch, s.gens[g].chan);
    BatchesFit(s, g);
  }

  // ---- the seal

  /** The final drain never runs while a call that passed the cancellation check is inside. */
  lemma NobodyWritesDuringDrain(s: State, g: nat, c: nat)
    requires Reachable(s) && g < |s.gens| && c < |s.calls| && s.calls[c].gen == g
    requires s.gens[g].worker.Draining? || s.gens[g].worker.Exited? ||
             s.gens[g].worker == Flushing(BackToDrain) || s.gens[g].worker == Flushing(ThenExit)
    ensures s.gens[g].IsSealed() && !s.calls[c].pc.AtSelect?
  {
    ReachableOk(s);
    assert GenOk(s.gens[g]) && CallOk(s.calls[c], s.gens[g]);
  }

  /** What a sealed generation keeps. */
  predicate StaysSealed(before: Gen, after: Gen) {
    && after.IsSealed() && after.enqueued == before.enqueued && after.shape == before.shape
    && (before.chan == [] ==> after.chan == [])
  }

  lemma WorkerStaysSealed(gen: Gen, step: WorkerStep)
    requires gen.IsSealed() && WorkerEnabled(gen, step)
    ensures StaysSealed(gen, WorkerAfter(gen, step))
  {
  }

  lemma CallStaysSealed(s: State, g: nat, c: nat, step: CallStep)
    requires Shaped(s) && CallsOk(s) && CallEnabled(s, c, step) && g < |s.gens| && s.gens[g].IsSealed()
    ensures StaysSealed(s.gens[g], Apply(s, ByCall(c, step)).gens[g])
  {
    if step.Enqueue? && s.calls[c].gen == g {
      assert false;
    }
  }

  lemma SealedStep(s: State, g: nat, a: Action)
    requires Shaped(s) && CallsOk(s) && Enabled(s, a) && g < |s.gens| && s.gens[g].IsSealed()
    ensures g < |Apply(s, a).gens| && StaysSealed(s.gens[g], Apply(s, a).gens[g])
  {
    match a
    case ByCall(c, step) => CallStaysSealed(s, g, c, step);
    case ByWorker(h, step) =>
      if h == g {
        WorkerStaysSealed(s.gens[g], step);
      }
    case ByRetirer(_, _) =>
    case _ =>
  }

  /** Once sealed, no step ever enqueues again, so a channel found empty is empty forever. */
  lemma {:induction false} SealedForever(s: State, g: nat, actions: seq<Action>)
    requires Reachable(s) && g < |s.gens| && s.gens[g].IsSealed()
    requires Exec(s, actions).Some?
    ensures g < |Exec(s, actions).value.gens|
    ensures Exec(s, actions).value.gens[g].IsSealed()
    ensures Exec(s, actions).value.gens[g].enqueued == s.gens[g].enqueued
    ensures s.gens[g].chan == [] ==> Exec(s, actions).value.gens[g].chan == []
  {
    if actions != [] {
      var front := actions[..|actions| - 1];
      SealedForever(s, g, front);
      ReachableOk(s);
      ExecKeeps(s, front);
      SealedStep(Exec(s, front).value, g, actions[|actions| - 1]);
    }
  }

  // ---- the dedup mutex

  /** No two calls hold the dedup mutex of one generation. */
  predicate Exclusive(s: State) {
    forall c, d :: 0 <= c < d < |s.calls| && s.calls[c].gen == s.calls[d].gen ==>
      !(s.calls[c].holdsMutex && s.calls[d].holdsMutex)
  }

  lemma StepExclusive(s: State, a: Action)
    requires Exclusive(s) && Enabled(s, a)
    ensures Exclusive(Apply(s, a))
  {
  }

  lemma {:induction false} ExecExclusive(s: State, actions: seq<Action>)
    requires Exclusive(s) && Exec(s, actions).Some?
    ensures Exclusive(Exec(s, actions).value)
  {
    if actions != [] {
      ExecExclusive(s, actions[..|actions| - 1]);
      StepExclusive(Exec(s, actions[..|actions| - 1]).value, actions[|actions| - 1]);
    }
  }

  /** The stages behind a dedup stage are passed by one publisher of a generation at a time:
      whoever enqueues or forwards there holds the mutex, and nobody else does. */
  lemma BehindDedupOneAtATime(s: State, c: nat, d: nat)
    requires Reachable(s) && c < |s.calls| && d < |s.calls| && c != d && s.calls[c].gen == s.calls[d].gen
    requires s.calls[c].gen < |s.gens| && s.gens[s.calls[c].gen].shape.dedup
    ensures s.calls[c].pc.AtSelect? || s.calls[c].pc.Forwarding? ==>
      s.calls[c].holdsMutex && !s.calls[d].pc.AtSelect? && !s.calls[d].pc.Forwarding?
  {
    var shape: Shape, actions: seq<Action> :| shape.Valid() && Exec(Init(shape), actions) == Some(s);
    InitOk(shape);
    ExecExclusive(Init(shape), actions);
    ExecHolding(Init(shape), actions);
  }

  /** Behind the dedup stage a call holds the mutex. */
  predicate Holding(s: State) {
    forall c :: 0 <= c < |s.calls| && s.calls[c].gen < |s.gens| ==> HoldsBehind(s.calls[c], s.gens[s.calls[c].gen])
  }

  predicate HoldsBehind(k: Call, gen: Gen) {
    gen.shape.dedup && (k.pc.InChain? || k.pc.AtSelect? || k.pc.Forwarding?) ==> k.holdsMutex
  }

  lemma CallStepHolds(gen: Gen, k: Call, step: CallStep, s: State, c: nat)
    requires CallEnabled(s, c, step) && k == s.calls[c] && gen == s.gens[k.gen] && HoldsBehind(k, gen)
    ensures HoldsBehind(CallAfter(gen, k, step), gen)
  {
  }

  lemma StepHolding(s: State, a: Action)
    requires Shaped(s) && Holding(s) && Enabled(s, a)
    ensures Holding(Apply(s, a))
  {
    if a.ByCall? {
      CallStepHolds(s.gens[s.calls[a.c].gen], s.calls[a.c], a.callStep, s, a.c);
    }
  }

  lemma {:induction false} ExecHolding(s: State, actions: seq<Action>)
    requires Inv(s) && Holding(s) && Exec(s, actions).Some?
    ensures Holding(Exec(s, actions).value)
  {
    if actions != [] {
      var front := actions[..|actions| - 1];
      ExecHolding(s, front);
      ExecKeeps(s, front);
      StepHolding(Exec(s, front).value, actions[|actions| - 1]);
    }
  }
}
