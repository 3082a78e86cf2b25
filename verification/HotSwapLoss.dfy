/**
 Exactly when an event can get lost: one payload that does not marshal takes its whole batch
 with it. The conditions here are on the payloads the callers gave, whatever the batch
 boundaries turn out to be; and a run shows that the loss does happen.
 */
module HotSwapLoss {
  import opened Wrappers
  import opened Domain
  import opened HotSwap
  import opened HotSwapInvariant
  import opened HotSwapTheorems

  /** Every payload that went into a buffer of generation g marshals. */
  predicate GenerationMarshals(s: State, g: nat) {
    forall c :: 0 <= c < |s.calls| && s.calls[c].gen == g && s.calls[c].outcome.Enqueued? ==> s.calls[c].item.marshals
  }

  /** The call has returned and its generation is retired: nothing more will happen to it. */
  predicate Closed(s: State, c: nat)
    requires c < |s.calls|
  {
    s.calls[c].gen < |s.gens| && s.calls[c].pc.Returned? && s.gens[s.calls[c].gen].phase.Retired?
  }

  lemma BatchOfMarshals(s: State, c: nat)
    requires Shaped(s) && Located(s) && c < |s.calls| && GenerationMarshals(s, s.calls[c].gen)
    ensures BatchMarshalled(s.log, s.calls[c].item)
  {
    var item := s.calls[c].item;
    forall i | 0 <= i < |s.log| && s.log[i].Batch? && item in s.log[i].items ensures Marshalled(s.log[i].items) {
      assert EntryOk(s, s.log[i]);
      assert item in ItemsOf(s.log[i]) && Known(s, item);
      forall j | 0 <= j < |s.log[i].items| ensures s.log[i].items[j].marshals {
        assert s.log[i].items[j] in ItemsOf(s.log[i]);
      }
    }
  }

  /** If all payloads marshal, every event that no stage dropped is handed on exactly once. */
  lemma ExactlyOnceIfAllMarshal(s: State, c: nat)
    requires Reachable(s) && c < |s.calls| && Closed(s, c)
    requires GenerationMarshals(s, s.calls[c].gen) && !s.calls[c].outcome.Dropped?
    ensures Downstream(s.log)[s.calls[c].item] == 1
  {
    ReachableOk(s);
    BatchOfMarshals(s, c);
    HandedExactlyOnce(s, c);
  }

  /** An event that was buffered and does not marshal is never handed on. */
  lemma OwnFailure(s: State, c: nat)
    requires Reachable(s) && c < |s.calls|
    requires s.calls[c].outcome.Enqueued? && !s.calls[c].item.marshals
    ensures Downstream(s.log)[s.calls[c].item] == 0
  {
    ReachableOk(s);
    var item := s.calls[c].item;
    DownstreamIsHanded(s.log, item);
    if InHanded(s.log, item) {
      var i :| 0 <= i < |s.log| && WasHanded(s.log[i]) && item in ItemsOf(s.log[i]);
      assert EntryOk(s, s.log[i]);
      MarshalledItem(s.log[i].items, item);
      assert false;
    }
  }

  /** Once the books of all calls are closed: every event that no stage dropped has been
      handed on exactly once if and only if every payload that was buffered marshals. */
  lemma LosslessIff(s: State)
    requires Reachable(s) && forall c :: 0 <= c < |s.calls| ==> Closed(s, c)
    ensures (forall c :: 0 <= c < |s.calls| && !s.calls[c].outcome.Dropped? ==> Downstream(s.log)[s.calls[c].item] == 1)
       <==> (forall c :: 0 <= c < |s.calls| && s.calls[c].outcome.Enqueued? ==> s.calls[c].item.marshals)
  {
    if c :| 0 <= c < |s.calls| && s.calls[c].outcome.Enqueued? && !s.calls[c].item.marshals {
      OwnFailure(s, c);
    } else {
      forall c | 0 <= c < |s.calls| && !s.calls[c].outcome.Dropped? ensures Downstream(s.log)[s.calls[c].item] == 1 {
        assert Closed(s, c);
        ExactlyOnceIfAllMarshal(s, c);
      }
    }
  }

  // ---- a run in which an event is lost

  lemma Then(s: State, a: Action) returns (t: State)
    requires Reachable(s) && Enabled(s, a)
    ensures t == Apply(s, a) && Reachable(t)
  {
    t := Apply(s, a);
    var shape: Shape, actions: seq<Action> :| shape.Valid() && Exec(Init(shape), actions) == Some(s);
    assert (actions + [a])[..|actions|] == actions;
    assert Exec(Init(shape), actions + [a]) == Some(t);
  }

  /** One generation that batches, in service, its worker waiting. */
  predicate Waiting(s: State) {
    && |s.gens| == 1 && s.current == 0
    && s.gens[0].phase.Serving? && s.gens[0].worker.Selecting?
    && s.gens[0].shape.batch.Some? && !s.gens[0].shape.dedup
  }

  function Buffering(s: State, topic: string, event: StreamEvent, marshals: bool): State
    requires |s.gens| == 1
  {
    var item := Item(|s.calls|, topic, event, marshals);
    s.(calls := s.calls + [Call(item, 0, Returned, false, HotSwap.Outcome.Enqueued)],
       gens := [Accepted(s.gens[0], item)])
  }

  lemma CallMoves(s: State, step: CallStep) returns (t: State)
    requires Reachable(s) && s.calls != [] && CallEnabled(s, |s.calls| - 1, step) && !step.Enqueue? && !step.Forward?
    ensures Reachable(t)
    ensures var n := |s.calls| - 1; var k := s.calls[n];
      t == s.(calls := s.calls[..n] + [CallAfter(s.gens[k.gen], k, step)])
  {
    t := Then(s, ByCall(|s.calls| - 1, step));
  }

  /** A whole call that buffers its event. */
  lemma Publish(s: State, topic: string, event: StreamEvent, marshals: bool)
    requires Reachable(s) && Waiting(s) && |s.gens[0].chan| < s.gens[0].shape.batch.value && !event.IsBinary()
    ensures Reachable(Buffering(s, topic, event, marshals)) && Waiting(Buffering(s, topic, event, marshals))
  {
    var item := Item(|s.calls|, topic, event, marshals);
    var a := Then(s, Load(topic, event, marshals));
    var b := CallMoves(a, Enter);
    var c := CallMoves(b, PassDedup);
    var d := CallMoves(c, Decide);
    assert d.calls == s.calls + [Call(item, 0, AtSelect, false, Undecided)] && d.gens == s.gens;
    Send(s, d, item);
  }

  lemma Send(s: State, d: State, item: Item)
    requires |s.gens| == 1 && Reachable(d) && s.gens[0].shape.batch.Some?
    requires d == s.(calls := s.calls + [Call(item, 0, AtSelect, false, Undecided)])
    requires |s.gens[0].chan| < s.gens[0].shape.batch.value
    ensures Reachable(s.(calls := s.calls + [Call(item, 0, Returned, false, HotSwap.Outcome.Enqueued)],
                         gens := [Accepted(s.gens[0], item)]))
  {
    var e := Then(d, ByCall(|s.calls|, Enqueue));
    assert e.gens == [Accepted(s.gens[0], item)];
    var f := CallMoves(e, Leave);
    assert f.calls == s.calls + [Call(item, 0, Returned, false, HotSwap.Outcome.Enqueued)];
  }

  lemma WorkerMoves(s: State, step: WorkerStep) returns (t: State)
    requires Reachable(s) && |s.gens| == 1 && WorkerEnabled(s.gens[0], step)
    requires step.Flush? ==> s.gens[0].batch == []
    ensures Reachable(t) && t == s.(gens := [WorkerAfter(s.gens[0], step)])
  {
    t := Then(s, ByWorker(0, step));
  }

  lemma RetirerMoves(s: State, step: RetireStep) returns (t: State)
    requires Reachable(s) && |s.gens| == 1 && RetireEnabled(s, 0, step)
    ensures Reachable(t) && t == s.(gens := [RetireAfter(s.gens[0], step)])
  {
    t := Then(s, ByRetirer(0, step));
  }

  /** Both events are received; the second fills the batch, which is then flushed. */
  lemma FlushTwo(s: State, x: Item, y: Item) returns (t: State)
    requires Reachable(s) && Waiting(s) && s.gens[0].shape.batch == Some(2)
    requires s.gens[0].batch == [] && s.gens[0].chan == [x, y]
    ensures Reachable(t) && Waiting(t) && t.gens[0].batch == t.gens[0].chan == [] && t.calls == s.calls
    ensures t.log == s.log + [Batch(0, y.topic, [x, y], Marshalled([x, y]))]
  {
    var a := WorkerMoves(s, Receive);
    assert a.gens[0].batch == [x] && a.gens[0].chan == [y];
    var b := WorkerMoves(a, Receive);
    assert b.gens[0].batch == [x, y] && b.gens[0].chan == [];
    t := Then(b, ByWorker(0, Flush));
  }

  lemma SealIdle(s: State) returns (t: State)
    requires Reachable(s) && |s.gens| == 1 && s.gens[0].phase.Serving?
    requires forall c :: 0 <= c < |s.calls| ==> s.calls[c].pc.Returned?
    ensures Reachable(t) && t == s.(gens := [s.gens[0].(phase := Joining)])
  {
    var a := RetirerMoves(s, Cancel);
    var b := RetirerMoves(a, WantLock);
    var c := RetirerMoves(b, Lock);
    var d := RetirerMoves(c, Seal);
    t := RetirerMoves(d, UnlockWrite);
  }

  /** An idle generation is retired. */
  lemma RetireIdle(s: State) returns (t: State)
    requires Reachable(s) && Waiting(s) && s.gens[0].batch == s.gens[0].chan == []
    requires forall c :: 0 <= c < |s.calls| ==> s.calls[c].pc.Returned?
    ensures Reachable(t) && |t.gens| == 1 && t.gens[0].phase.Retired? && t.calls == s.calls && t.log == s.log
  {
    var a := SealIdle(s);
    var b := WorkerMoves(a, SeeDone);
    var c := WorkerMoves(b, SeeSealed);
    var d := WorkerMoves(c, DrainEmpty);
    var e := WorkerMoves(d, HotSwap.WorkerStep.Flush);
    t := RetirerMoves(e, Join);
  }

  lemma Started()
    ensures Reachable(Init(Shape(Some(2), false, false)))
  {
    var shape := Shape(Some(2), false, false);
    assert shape.Valid() && Exec(Init(shape), []) == Some(Init(shape));
  }

  /** Two events, one that marshals and one that does not, share a batch: both calls have
      returned, the generation is retired, and the event that marshals is lost as well. */
  lemma EventLost(topic: string, event: StreamEvent) returns (s: State)
    requires !event.IsBinary()
    ensures Reachable(s) && |s.calls| == 2 && Closed(s, 0) && Closed(s, 1)
    ensures s.calls[0].outcome.Enqueued? && s.calls[0].item == Item(0, topic, event, true)
    ensures Downstream(s.log)[s.calls[0].item] == 0
  {
    var x, y := Item(0, topic, event, true), Item(1, topic, event, false);
    var start := Init(Shape(Some(2), false, false));
    Started();
    Publish(start, topic, event, true);
    var one := Buffering(start, topic, event, true);
    Publish(one, topic, event, false);
    var two := Buffering(one, topic, event, false);
    assert two.gens[0].chan == [x, y];
    var flushed := FlushTwo(two, x, y);
    s := RetireIdle(flushed);
    assert !Marshalled([x, y]) by { assert [x, y][1] == y; }
    assert s.log == [Batch(0, y.topic, [x, y], false)];
    assert s.log[..0] == [];
  }
}
