/**
 What every step of the hot-swap machine keeps. The invariant is split by what it speaks
 of: one generation on its own, one call against its generation, the buffers against the
 log, and the count of each item over buffers and log together.
 */
module HotSwapInvariant {
  import opened Wrappers
  import opened HotSwap

  /** One generation on its own: the worker drains only after the seal, and exits empty. */
  predicate GenOk(gen: Gen) {
    && gen.shape.Valid()
    && (gen.worker.NoWorker? <==> gen.shape.batch.None?)
    && (gen.worker.NoWorker? ==> gen.batch == [] && gen.chan == [])
    && (gen.shape.batch.Some? ==> |gen.chan| <= gen.shape.batch.value && |gen.batch| <= gen.shape.batch.value)
    && (gen.shape.batch.Some? && !gen.worker.Flushing? ==> |gen.batch| < gen.shape.batch.value)
    && (gen.batch != [] ==> gen.lastTopic == gen.batch[|gen.batch| - 1].topic)
    && (gen.worker.AwaitSeal? ==> gen.IsCancelled())
    && (gen.worker.Draining? || gen.worker.Exited? ==> gen.IsSealed())
    && (gen.worker.Flushing? && !gen.worker.after.BackToSelect? ==> gen.IsSealed())
    && (gen.worker.Flushing? && !gen.worker.after.ThenExit? ==> gen.batch != [])
    && (gen.worker.Flushing? && gen.worker.after.ThenExit? ==> gen.chan == [])
    && (gen.worker.Exited? ==> gen.chan == [] && gen.batch == [])
    && (gen.phase.Retired? ==> gen.worker.NoWorker? || gen.worker.Exited?)
  }

  /** One call against its generation: no reader while the write lock is held, and nobody
      past the cancellation check once the generation can have been sealed. */
  predicate CallOk(k: Call, gen: Gen) {
    && (k.outcome.Undecided? <==> !k.pc.Leaving? && !k.pc.Returned?)
    && (k.Inside() ==> !gen.phase.Locked? && !gen.phase.SealedHeld?)
    && (k.pc.AtSelect? ==>
          gen.shape.batch.Some? && !k.item.event.IsBinary() && !gen.phase.Locked? && !gen.IsSealed())
    && (k.holdsMutex ==> k.Inside() && !k.pc.Entered?)
    && (k.outcome.Dropped? ==> gen.shape.drops)
    && (k.outcome.Enqueued? ==> gen.shape.batch.Some? && !k.item.event.IsBinary())
  }

  predicate Known(s: State, item: Item) {
    item.call < |s.calls| && s.calls[item.call].item == item
  }

  /** The items a generation still holds. */
  function Buffered(gen: Gen): seq<Item> {
    gen.batch + gen.chan
  }

  ghost predicate BuffersKnown(s: State, g: nat)
    requires g < |s.gens|
  {
    forall item :: item in s.gens[g].batch || item in s.gens[g].chan ==>
      Known(s, item) && s.calls[item.call].gen == g && s.calls[item.call].outcome.Enqueued?
  }

  predicate EntryOk(s: State, e: Entry) {
    && (forall item :: item in ItemsOf(e) ==>
          && Known(s, item)
          && (e.Single? ==> s.calls[item.call].outcome.Forwarded?)
          && (e.Batch? ==> s.calls[item.call].gen == e.gen && s.calls[item.call].outcome.Enqueued?))
    && (e.Batch? ==>
          && e.gen < |s.gens|
          && s.gens[e.gen].shape.batch.Some?
          && 1 <= |e.items| <= s.gens[e.gen].shape.batch.value
          && e.topic == e.items[|e.items| - 1].topic
          && e.handed == Marshalled(e.items))
  }

  /** How often the item of call c is accounted for: buffered, handed over or discarded. */
  function Copies(s: State, c: nat): nat
    requires c < |s.calls| && s.calls[c].gen < |s.gens|
  {
    var item := s.calls[c].item;
    multiset(Buffered(s.gens[s.calls[c].gen]))[item] + Downstream(s.log)[item] + Discarded(s.log)[item]
  }

  /** An item is accounted for once if its call's generation took it, and else not at all. */
  predicate OneCopy(s: State, c: nat)
    requires c < |s.calls| && s.calls[c].gen < |s.gens|
  {
    Copies(s, c) == if s.calls[c].Taken() then 1 else 0
  }

  ghost predicate Shaped(s: State) {
    && s.current < |s.gens|
    && (forall g :: 0 <= g < |s.gens| ==> GenOk(s.gens[g]))
    && (forall c :: 0 <= c < |s.calls| ==> s.calls[c].gen < |s.gens| && s.calls[c].item.call == c)
  }

  ghost predicate CallsOk(s: State)
    requires Shaped(s)
  {
    forall c :: 0 <= c < |s.calls| ==> CallOk(s.calls[c], s.gens[s.calls[c].gen])
  }

  ghost predicate Located(s: State)
    requires Shaped(s)
  {
    && (forall g :: 0 <= g < |s.gens| ==> BuffersKnown(s, g))
    && (forall i :: 0 <= i < |s.log| ==> EntryOk(s, s.log[i]))
  }

  /** The exact enqueue order is flushed batches, then the current batch, then the channel. */
  ghost predicate InOrder(s: State)
    requires Shaped(s)
  {
    forall g :: 0 <= g < |s.gens| ==>
      s.gens[g].enqueued == FlushedBy(s.log, g) + Buffered(s.gens[g])
  }

  ghost predicate Conserved(s: State)
    requires Shaped(s)
  {
    forall c :: 0 <= c < |s.calls| ==> OneCopy(s, c)
  }

  ghost predicate Inv(s: State) {
    Shaped(s) && CallsOk(s) && Located(s) && InOrder(s) && Conserved(s)
  }

  lemma LogGrows(log: seq<Entry>, e: Entry, g: nat)
    ensures FlushedBy(log + [e], g) == FlushedBy(log, g) + if e.Batch? && e.gen == g then e.items else []
    ensures Downstream(log + [e]) == Downstream(log) + if WasHanded(e) then multiset(ItemsOf(e)) else multiset{}
    ensures Discarded(log + [e]) == Discarded(log) + if WasHanded(e) then multiset{} else multiset(ItemsOf(e))
  {
    assert (log + [e])[..|log + [e]| - 1] == log;
  }

  /** An unknown item is in nobody's books. */
  lemma {:induction false} UnknownIsNowhere(s: State, log: seq<Entry>, item: Item)
    requires forall i :: 0 <= i < |log| ==> EntryOk(s, log[i])
    requires !Known(s, item)
    ensures Downstream(log)[item] == 0 && Discarded(log)[item] == 0
  {
    if log != [] {
      var e := log[|log| - 1];
      UnknownIsNowhere(s, log[..|log| - 1], item);
      assert EntryOk(s, e);
      assert item !in ItemsOf(e);
    }
  }

  lemma {:induction false} UnknownGenFlushedNothing(s: State, log: seq<Entry>, g: nat)
    requires forall i :: 0 <= i < |log| ==> EntryOk(s, log[i])
    requires g >= |s.gens|
    ensures FlushedBy(log, g) == []
  {
    if log != [] {
      UnknownGenFlushedNothing(s, log[..|log| - 1], g);
      assert EntryOk(s, log[|log| - 1]);
    }
  }

  lemma InitOk(shape: Shape)
    requires shape.Valid()
    ensures Inv(Init(shape))
  {
  }

  /** t keeps every call and generation of s, and what they hold. */
  ghost predicate SameBooks(s: State, t: State)
    requires Shaped(s)
  {
    && t.log == s.log
    && |s.calls| <= |t.calls| && |s.gens| <= |t.gens|
    && (forall c :: 0 <= c < |s.calls| ==>
          && t.calls[c].item == s.calls[c].item
          && t.calls[c].gen == s.calls[c].gen
          && t.calls[c].Taken() == s.calls[c].Taken()
          && (s.calls[c].Taken() ==> t.calls[c].outcome == s.calls[c].outcome))
    && (forall g :: 0 <= g < |s.gens| ==>
          && t.gens[g].shape == s.gens[g].shape
          && t.gens[g].enqueued == s.gens[g].enqueued
          && Buffered(t.gens[g]) == Buffered(s.gens[g]))
  }

  lemma BuffersKept(s: State, t: State, g: nat)
    requires Shaped(s) && Shaped(t) && SameBooks(s, t) && g < |s.gens| && BuffersKnown(s, g)
    ensures BuffersKnown(t, g)
  {
    forall item | item in t.gens[g].batch || item in t.gens[g].chan
      ensures Known(t, item) && t.calls[item.call].gen == g && t.calls[item.call].outcome.Enqueued?
    {
      assert item in Buffered(t.gens[g]) && item in Buffered(s.gens[g]);
    }
  }

  lemma EntriesKept(s: State, t: State, n: nat)
    requires Shaped(s) && Located(s) && n <= |s.log| && n <= |t.log| && t.log[..n] == s.log[..n]
    requires |s.calls| <= |t.calls| && |s.gens| <= |t.gens|
    requires forall c :: 0 <= c < |s.calls| ==>
      && t.calls[c].item == s.calls[c].item && t.calls[c].gen == s.calls[c].gen
      && (s.calls[c].Taken() ==> t.calls[c].outcome == s.calls[c].outcome)
    requires forall g :: 0 <= g < |s.gens| ==> t.gens[g].shape == s.gens[g].shape
    ensures forall i :: 0 <= i < n ==> EntryOk(t, t.log[i])
  {
    forall i | 0 <= i < n ensures EntryOk(t, t.log[i]) {
      assert t.log[i] == t.log[..n][i] == s.log[i];
      assert EntryOk(s, s.log[i]);
    }
  }

  lemma BooksKept(s: State, t: State)
    requires Shaped(s) && Located(s) && InOrder(s) && Conserved(s) && Shaped(t) && SameBooks(s, t)
    ensures forall g :: 0 <= g < |s.gens| ==> BuffersKnown(t, g)
    ensures forall i :: 0 <= i < |t.log| ==> EntryOk(t, t.log[i])
    ensures forall g :: 0 <= g < |s.gens| ==> t.gens[g].enqueued == FlushedBy(t.log, g) + Buffered(t.gens[g])
    ensures forall c :: 0 <= c < |s.calls| ==> OneCopy(t, c)
  {
    forall g | 0 <= g < |s.gens| ensures BuffersKnown(t, g) {
      BuffersKept(s, t, g);
    }
    EntriesKept(s, t, |s.log|);
    forall c | 0 <= c < |s.calls| ensures OneCopy(t, c) {
      assert OneCopy(s, c);
    }
  }

  lemma NothingAdded(s: State, t: State)
    requires Shaped(s) && Located(s) && InOrder(s) && Conserved(s) && Shaped(t) && SameBooks(s, t)
    requires |t.calls| == |s.calls| && |t.gens| == |s.gens|
    ensures Located(t) && InOrder(t) && Conserved(t)
  {
    BooksKept(s, t);
  }

  // ---- a call begins, a generation is built, the pointer moves

  lemma NewCallIsNowhere(s: State, k: Call)
    requires Shaped(s) && Located(s) && k.item.call == |s.calls| && k.gen == s.current
    ensures Copies(s.(calls := s.calls + [k]), |s.calls|) == 0
  {
    UnknownIsNowhere(s, s.log, k.item);
    assert BuffersKnown(s, s.current);
    assert k.item !in Buffered(s.gens[s.current]);
  }

  lemma LoadLocal(s: State, k: Call)
    requires Shaped(s) && CallsOk(s) && k.item.call == |s.calls| && k.gen == s.current
    requires k.pc == Loaded && k.outcome == Undecided && !k.holdsMutex
    ensures Shaped(s.(calls := s.calls + [k])) && CallsOk(s.(calls := s.calls + [k]))
  {
    var t := s.(calls := s.calls + [k]);
    forall c | 0 <= c < |t.calls| ensures t.calls[c].gen < |t.gens| && CallOk(t.calls[c], t.gens[t.calls[c].gen]) {
      if c < |s.calls| { assert CallOk(s.calls[c], s.gens[s.calls[c].gen]); }
    }
  }

  lemma LoadKeeps(s: State, k: Call)
    requires Inv(s) && k.item.call == |s.calls| && k.gen == s.current
    requires k.pc == Loaded && k.outcome == Undecided && !k.holdsMutex
    ensures Inv(s.(calls := s.calls + [k]))
  {
    var t := s.(calls := s.calls + [k]);
    LoadLocal(s, k);
    BooksKept(s, t);
    NewCallIsNowhere(s, k);
    assert Located(t) && InOrder(t);
    assert Conserved(t);
  }

  lemma BuildLocal(s: State, shape: Shape)
    requires Shaped(s) && CallsOk(s) && shape.Valid()
    ensures Shaped(s.(gens := s.gens + [NewGen(shape)])) && CallsOk(s.(gens := s.gens + [NewGen(shape)]))
  {
    var t := s.(gens := s.gens + [NewGen(shape)]);
    forall c | 0 <= c < |t.calls| ensures CallOk(t.calls[c], t.gens[t.calls[c].gen]) {
      assert CallOk(s.calls[c], s.gens[s.calls[c].gen]);
    }
  }

  lemma BuildLocated(s: State, t: State)
    requires Shaped(s) && Shaped(t) && Located(s) && |t.gens| == |s.gens| + 1
    requires t == s.(gens := s.gens + [t.gens[|s.gens|]]) && Buffered(t.gens[|s.gens|]) == []
    ensures Located(t)
  {
    var gen := t.gens[|s.gens|];
    assert gen.batch == [] && gen.chan == [] by { assert |Buffered(gen)| == |gen.batch| + |gen.chan|; }
    forall g | 0 <= g < |t.gens| ensures BuffersKnown(t, g) {
      if g < |s.gens| { assert BuffersKnown(s, g); }
    }
    EntriesKept(s, t, |s.log|);
  }

  lemma BuildOrder(s: State, t: State)
    requires Shaped(s) && Shaped(t) && Located(s) && InOrder(s) && |t.gens| == |s.gens| + 1
    requires t == s.(gens := s.gens + [t.gens[|s.gens|]])
    requires t.gens[|s.gens|].enqueued == Buffered(t.gens[|s.gens|]) == []
    ensures InOrder(t)
  {
    UnknownGenFlushedNothing(s, s.log, |s.gens|);
    forall g | 0 <= g < |t.gens| ensures t.gens[g].enqueued == FlushedBy(t.log, g) + Buffered(t.gens[g]) {
      assert g < |s.gens| ==> t.gens[g] == s.gens[g];
    }
  }

  lemma BuildCounts(s: State, t: State)
    requires Shaped(s) && Shaped(t) && Conserved(s) && |t.gens| == |s.gens| + 1
    requires t == s.(gens := s.gens + [t.gens[|s.gens|]])
    ensures Conserved(t)
  {
    forall c | 0 <= c < |t.calls| ensures OneCopy(t, c) {
      assert OneCopy(s, c);
    }
  }

  lemma BuildKeeps(s: State, shape: Shape)
    requires Inv(s) && shape.Valid()
    ensures Inv(s.(gens := s.gens + [NewGen(shape)]))
  {
    var t := s.(gens := s.gens + [NewGen(shape)]);
    BuildLocal(s, shape);
    assert t.gens[|s.gens|] == NewGen(shape) && Buffered(NewGen(shape)) == [];
    BuildLocated(s, t);
    BuildOrder(s, t);
    BuildCounts(s, t);
  }

  lemma InstallKeeps(s: State, g: nat)
    requires Inv(s) && g < |s.gens|
    ensures Inv(s.(current := g))
  {
    NothingAdded(s, s.(current := g));
  }

  // ---- steps that move no item

  lemma QuietCallLocal(s: State, c: nat, k: Call)
    requires Shaped(s) && CallsOk(s) && c < |s.calls|
    requires k.item == s.calls[c].item && k.gen == s.calls[c].gen && CallOk(k, s.gens[k.gen])
    ensures Shaped(s.(calls := s.calls[c := k])) && CallsOk(s.(calls := s.calls[c := k]))
  {
    var t := s.(calls := s.calls[c := k]);
    forall d | 0 <= d < |t.calls| ensures CallOk(t.calls[d], t.gens[t.calls[d].gen]) {
      if d != c { assert CallOk(s.calls[d], s.gens[s.calls[d].gen]); }
    }
  }

  lemma QuietCallKeeps(s: State, c: nat, k: Call)
    requires Inv(s) && c < |s.calls|
    requires k.item == s.calls[c].item && k.gen == s.calls[c].gen
    requires k.outcome == s.calls[c].outcome || (!k.Taken() && !s.calls[c].Taken())
    requires CallOk(k, s.gens[k.gen])
    ensures Inv(s.(calls := s.calls[c := k]))
  {
    QuietCallLocal(s, c, k);
    NothingAdded(s, s.(calls := s.calls[c := k]));
  }

  lemma QuietGenLocal(s: State, g: nat, gen: Gen)
    requires Shaped(s) && CallsOk(s) && g < |s.gens| && GenOk(gen)
    requires forall c :: 0 <= c < |s.calls| && s.calls[c].gen == g ==> CallOk(s.calls[c], gen)
    ensures Shaped(s.(gens := s.gens[g := gen])) && CallsOk(s.(gens := s.gens[g := gen]))
  {
    var t := s.(gens := s.gens[g := gen]);
    forall d | 0 <= d < |t.calls| ensures CallOk(t.calls[d], t.gens[t.calls[d].gen]) {
      if s.calls[d].gen != g { assert CallOk(s.calls[d], s.gens[s.calls[d].gen]); }
    }
  }

  lemma QuietGenKeeps(s: State, g: nat, gen: Gen)
    requires Inv(s) && g < |s.gens| && GenOk(gen)
    requires gen.shape == s.gens[g].shape && gen.enqueued == s.gens[g].enqueued
    requires Buffered(gen) == Buffered(s.gens[g])
    requires forall c :: 0 <= c < |s.calls| && s.calls[c].gen == g ==> CallOk(s.calls[c], gen)
    ensures Inv(s.(gens := s.gens[g := gen]))
  {
    QuietGenLocal(s, g, gen);
    NothingAdded(s, s.(gens := s.gens[g := gen]));
  }

  // ---- a call hands its item to next

  predicate IsForward(s: State, c: nat, t: State) {
    && c < |s.calls| && s.calls[c].pc.Forwarding?
    && t == s.(calls := s.calls[c := s.calls[c].(pc := Leaving, outcome := Forwarded)],
               log := s.log + [Single(s.calls[c].item)])
  }

  lemma ForwardLocal(s: State, c: nat, t: State)
    requires Shaped(s) && CallsOk(s) && IsForward(s, c, t)
    ensures Shaped(t) && CallsOk(t)
  {
    assert CallOk(s.calls[c], s.gens[s.calls[c].gen]);
    forall d | 0 <= d < |t.calls| ensures CallOk(t.calls[d], t.gens[t.calls[d].gen]) {
      if d != c { assert CallOk(s.calls[d], s.gens[s.calls[d].gen]); }
    }
  }

  lemma ForwardLocated(s: State, c: nat, t: State)
    requires Shaped(s) && CallsOk(s) && Located(s) && Shaped(t) && IsForward(s, c, t)
    ensures Located(t)
  {
    assert CallOk(s.calls[c], s.gens[s.calls[c].gen]);
    forall g | 0 <= g < |t.gens| ensures BuffersKnown(t, g) { assert BuffersKnown(s, g); }
    assert t.log[..|s.log|] == s.log[..|s.log|];
    EntriesKept(s, t, |s.log|);
    assert EntryOk(t, t.log[|s.log|]);
  }

  lemma SinglesFlushNothing(log: seq<Entry>, item: Item, g: nat)
    ensures FlushedBy(log + [Single(item)], g) == FlushedBy(log, g)
  {
    LogGrows(log, Single(item), g);
  }

  lemma ForwardOrder(s: State, c: nat, t: State)
    requires Shaped(s) && InOrder(s) && Shaped(t) && IsForward(s, c, t)
    ensures InOrder(t)
  {
    forall g | 0 <= g < |t.gens| ensures t.gens[g].enqueued == FlushedBy(t.log, g) + Buffered(t.gens[g]) {
      SinglesFlushNothing(s.log, s.calls[c].item, g);
    }
  }

  lemma ForwardCount(s: State, c: nat, t: State, d: nat)
    requires Shaped(s) && CallsOk(s) && Shaped(t) && IsForward(s, c, t) && d < |s.calls| && OneCopy(s, d)
    ensures OneCopy(t, d)
  {
    LogGrows(s.log, Single(s.calls[c].item), 0);
    if d == c {
      assert CallOk(s.calls[c], s.gens[s.calls[c].gen]);
    } else {
      assert s.calls[d].item != s.calls[c].item;
    }
  }

  lemma ForwardCounts(s: State, c: nat, t: State)
    requires Shaped(s) && CallsOk(s) && Conserved(s) && Shaped(t) && IsForward(s, c, t)
    ensures Conserved(t)
  {
    forall d | 0 <= d < |t.calls| ensures OneCopy(t, d) {
      assert OneCopy(s, d);
      ForwardCount(s, c, t, d);
    }
  }

  lemma ForwardKeeps(s: State, c: nat, t: State)
    requires Inv(s) && IsForward(s, c, t)
    ensures Inv(t)
  {
    ForwardLocal(s, c, t);
    ForwardLocated(s, c, t);
    ForwardOrder(s, c, t);
    ForwardCounts(s, c, t);
  }

  // ---- a call sends its item on the channel

  predicate IsEnqueue(s: State, c: nat, t: State)
    requires Shaped(s)
  {
    c < |s.calls| &&
    var k := s.calls[c];
    var gen := s.gens[k.gen];
    && k.pc.AtSelect? && |gen.chan| < gen.shape.batch.GetOr(0)
    && t == s.(calls := s.calls[c := k.(pc := Leaving, outcome := Enqueued)],
               gens := s.gens[k.gen := Accepted(gen, k.item)])
  }

  lemma EnqueueGen(gen: Gen, k: Call)
    requires GenOk(gen) && CallOk(k, gen) && k.pc.AtSelect? && |gen.chan| < gen.shape.batch.GetOr(0)
    ensures GenOk(Accepted(gen, k.item))
    ensures CallOk(k.(pc := Leaving, outcome := Enqueued), gen)
  {
  }

  lemma EnqueueLocal(s: State, c: nat, t: State)
    requires Shaped(s) && CallsOk(s) && IsEnqueue(s, c, t)
    ensures Shaped(t) && CallsOk(t)
  {
    var k := s.calls[c];
    EnqueueGen(s.gens[k.gen], k);
    forall d | 0 <= d < |t.calls| ensures CallOk(t.calls[d], t.gens[t.calls[d].gen]) {
      if d != c { assert CallOk(s.calls[d], s.gens[s.calls[d].gen]); }
    }
  }

  lemma EnqueueLocated(s: State, c: nat, t: State)
    requires Shaped(s) && CallsOk(s) && Located(s) && Shaped(t) && IsEnqueue(s, c, t)
    ensures Located(t)
  {
    assert CallOk(s.calls[c], s.gens[s.calls[c].gen]);
    forall h | 0 <= h < |t.gens| ensures BuffersKnown(t, h) { assert BuffersKnown(s, h); }
    EntriesKept(s, t, |s.log|);
  }

  lemma EnqueueOrder(s: State, c: nat, t: State)
    requires Shaped(s) && InOrder(s) && Shaped(t) && IsEnqueue(s, c, t)
    ensures InOrder(t)
  {
    var k := s.calls[c];
    var flushed, held := FlushedBy(s.log, k.gen), Buffered(s.gens[k.gen]);
    assert Buffered(t.gens[k.gen]) == held + [k.item];
    assert (flushed + held) + [k.item] == flushed + (held + [k.item]);
  }

  lemma CountSnoc(items: seq<Item>, x: Item, y: Item)
    ensures multiset(items + [x])[y] == multiset(items)[y] + if x == y then 1 else 0
  {
  }

  lemma EnqueueBuffered(gen: Gen, item: Item)
    ensures Buffered(Accepted(gen, item)) == Buffered(gen) + [item]
  {
  }

  lemma EnqueueCount(s: State, c: nat, t: State, d: nat)
    requires Shaped(s) && CallsOk(s) && Shaped(t) && IsEnqueue(s, c, t) && d < |s.calls| && OneCopy(s, d)
    ensures OneCopy(t, d)
  {
    EnqueueCopies(s, c, t, d);
    if d == c {
      assert CallOk(s.calls[c], s.gens[s.calls[c].gen]);
    } else {
      assert s.calls[d].item != s.calls[c].item;
    }
  }

  lemma EnqueueCopies(s: State, c: nat, t: State, d: nat)
    requires Shaped(s) && Shaped(t) && IsEnqueue(s, c, t) && d < |s.calls|
    ensures Copies(t, d) == Copies(s, d) +
      if s.calls[d].gen == s.calls[c].gen && s.calls[d].item == s.calls[c].item then 1 else 0
  {
    var k := s.calls[c];
    if s.calls[d].gen == k.gen {
      EnqueueBuffered(s.gens[k.gen], k.item);
      CountSnoc(Buffered(s.gens[k.gen]), k.item, s.calls[d].item);
    }
  }

  lemma EnqueueCounts(s: State, c: nat, t: State)
    requires Shaped(s) && CallsOk(s) && Conserved(s) && Shaped(t) && IsEnqueue(s, c, t)
    ensures Conserved(t)
  {
    forall d | 0 <= d < |t.calls| ensures OneCopy(t, d) {
      assert OneCopy(s, d);
      EnqueueCount(s, c, t, d);
    }
  }

  lemma EnqueueKeeps(s: State, c: nat, t: State)
    requires Inv(s) && IsEnqueue(s, c, t)
    ensures Inv(t)
  {
    EnqueueLocal(s, c, t);
    EnqueueLocated(s, c, t);
    EnqueueOrder(s, c, t);
    EnqueueCounts(s, c, t);
  }

  // ---- the worker flushes a batch

  predicate IsFlush(s: State, g: nat, t: State) {
    && g < |s.gens| && s.gens[g].batch != []
    && g < |t.gens| && t.gens[g] == s.gens[g].(batch := [], worker := t.gens[g].worker)
    && t == s.(gens := s.gens[g := t.gens[g]], log := s.log + [FlushEntry(s, g)])
  }

  lemma FlushLocal(s: State, g: nat, t: State)
    requires Shaped(s) && CallsOk(s) && IsFlush(s, g, t) && GenOk(t.gens[g])
    ensures Shaped(t) && CallsOk(t)
  {
    forall d | 0 <= d < |t.calls| ensures CallOk(t.calls[d], t.gens[t.calls[d].gen]) {
      assert CallOk(s.calls[d], s.gens[s.calls[d].gen]);
    }
  }

  lemma FlushLocated(s: State, g: nat, t: State)
    requires Shaped(s) && Located(s) && Shaped(t) && IsFlush(s, g, t)
    ensures Located(t)
  {
    forall h | 0 <= h < |t.gens| ensures BuffersKnown(t, h) { assert BuffersKnown(s, h); }
    assert t.log[..|s.log|] == s.log[..|s.log|];
    EntriesKept(s, t, |s.log|);
    assert GenOk(s.gens[g]) && BuffersKnown(s, g);
    assert EntryOk(t, FlushEntry(s, g));
  }

  lemma FlushOrderAt(gen: Gen, log: seq<Entry>, e: Entry, g: nat)
    requires gen.enqueued == FlushedBy(log, g) + Buffered(gen)
    requires e.Batch? && e.gen == g && e.items == gen.batch
    ensures gen.enqueued == FlushedBy(log + [e], g) + gen.chan
  {
    LogGrows(log, e, g);
    Regroup(FlushedBy(log, g), gen.batch, gen.chan);
  }

  lemma Regroup(a: seq<Item>, b: seq<Item>, c: seq<Item>)
    ensures a + (b + c) == (a + b) + c
  {
  }

  lemma FlushOrder(s: State, g: nat, t: State)
    requires Shaped(s) && InOrder(s) && Shaped(t) && IsFlush(s, g, t)
    ensures InOrder(t)
  {
    var e := FlushEntry(s, g);
    forall h | 0 <= h < |t.gens| ensures t.gens[h].enqueued == FlushedBy(t.log, h) + Buffered(t.gens[h]) {
      if h == g {
        FlushOrderAt(s.gens[g], s.log, e, g);
        assert Buffered(t.gens[g]) == s.gens[g].chan;
      } else {
        LogGrows(s.log, e, h);
        assert FlushedBy(s.log, h) + [] == FlushedBy(s.log, h);
      }
    }
  }

  lemma CountConcat(a: seq<Item>, b: seq<Item>, y: Item)
    ensures multiset(a + b)[y] == multiset(a)[y] + multiset(b)[y]
  {
  }

  lemma FlushCount(s: State, g: nat, t: State, c: nat)
    requires Shaped(s) && Located(s) && Shaped(t) && IsFlush(s, g, t) && c < |s.calls| && OneCopy(s, c)
    ensures OneCopy(t, c)
  {
    var gen, item := s.gens[g], s.calls[c].item;
    LogGrows(s.log, FlushEntry(s, g), g);
    CountConcat(gen.batch, gen.chan, item);
    assert Buffered(t.gens[g]) == gen.chan;
    if s.calls[c].gen != g {
      assert BuffersKnown(s, g);
      assert item !in gen.batch;
    }
  }

  /** Flushing moves the batch of g from the buffers to the log; nobody else's item is in it. */
  lemma FlushCounts(s: State, g: nat, t: State)
    requires Shaped(s) && Located(s) && Conserved(s) && Shaped(t) && IsFlush(s, g, t)
    ensures Conserved(t)
  {
    forall c | 0 <= c < |t.calls| ensures OneCopy(t, c) {
      assert OneCopy(s, c);
      FlushCount(s, g, t, c);
    }
  }

  lemma FlushKeeps(s: State, g: nat, t: State)
    requires Inv(s) && IsFlush(s, g, t) && GenOk(t.gens[g])
    ensures Inv(t)
  {
    FlushLocal(s, g, t);
    FlushLocated(s, g, t);
    FlushOrder(s, g, t);
    FlushCounts(s, g, t);
  }

  // ---- the actions

  lemma CallStepOk(s: State, c: nat, step: CallStep)
    requires Shaped(s) && CallEnabled(s, c, step) && CallOk(s.calls[c], s.gens[s.calls[c].gen])
    ensures CallOk(CallAfter(s.gens[s.calls[c].gen], s.calls[c], step), s.gens[s.calls[c].gen])
  {
  }

  lemma CallActionKeeps(s: State, c: nat, step: CallStep)
    requires Inv(s) && CallEnabled(s, c, step)
    ensures Inv(Apply(s, ByCall(c, step)))
  {
    var t := Apply(s, ByCall(c, step));
    if step.Enqueue? {
      EnqueueKeeps(s, c, t);
    } else if step.Forward? {
      ForwardKeeps(s, c, t);
    } else {
      assert CallOk(s.calls[c], s.gens[s.calls[c].gen]);
      CallStepOk(s, c, step);
      QuietCallKeeps(s, c, t.calls[c]);
    }
  }

  lemma WorkerStepOk(gen: Gen, step: WorkerStep)
    requires GenOk(gen) && WorkerEnabled(gen, step)
    ensures GenOk(WorkerAfter(gen, step))
    ensures !step.Flush? ==> Buffered(WorkerAfter(gen, step)) == Buffered(gen)
  {
    if step.Receive? {
      assert gen.batch + [gen.chan[0]] + gen.chan[1..] == gen.batch + gen.chan;
    }
  }

  lemma WorkerStepCalls(s: State, g: nat, step: WorkerStep, c: nat)
    requires g < |s.gens| && WorkerEnabled(s.gens[g], step) && c < |s.calls| && CallOk(s.calls[c], s.gens[g])
    ensures CallOk(s.calls[c], WorkerAfter(s.gens[g], step))
  {
  }

  lemma QuietWorkerKeeps(s: State, g: nat, step: WorkerStep)
    requires Inv(s) && g < |s.gens| && WorkerEnabled(s.gens[g], step)
    requires step.Flush? ==> s.gens[g].batch == []
    ensures Inv(s.(gens := s.gens[g := WorkerAfter(s.gens[g], step)]))
  {
    var gen := WorkerAfter(s.gens[g], step);
    WorkerStepOk(s.gens[g], step);
    forall c | 0 <= c < |s.calls| && s.calls[c].gen == g ensures CallOk(s.calls[c], gen) {
      assert CallOk(s.calls[c], s.gens[g]);
      WorkerStepCalls(s, g, step, c);
    }
    QuietGenKeeps(s, g, gen);
  }

  lemma WorkerActionKeeps(s: State, g: nat, step: WorkerStep)
    requires Inv(s) && g < |s.gens| && WorkerEnabled(s.gens[g], step)
    ensures Inv(Apply(s, ByWorker(g, step)))
  {
    if step.Flush? && s.gens[g].batch != [] {
      WorkerStepOk(s.gens[g], step);
      FlushKeeps(s, g, Apply(s, ByWorker(g, step)));
    } else {
      QuietWorkerKeeps(s, g, step);
    }
  }

  lemma RetireStepOk(s: State, g: nat, step: RetireStep)
    requires g < |s.gens| && RetireEnabled(s, g, step) && GenOk(s.gens[g])
    ensures GenOk(RetireAfter(s.gens[g], step))
  {
  }

  lemma RetireStepCalls(s: State, g: nat, step: RetireStep, c: nat)
    requires g < |s.gens| && RetireEnabled(s, g, step)
    requires c < |s.calls| && s.calls[c].gen == g && CallOk(s.calls[c], s.gens[g])
    ensures CallOk(s.calls[c], RetireAfter(s.gens[g], step))
  {
  }

  lemma RetireStepAllCalls(s: State, g: nat, step: RetireStep)
    requires Shaped(s) && CallsOk(s) && g < |s.gens| && RetireEnabled(s, g, step)
    ensures forall c :: 0 <= c < |s.calls| && s.calls[c].gen == g ==> CallOk(s.calls[c], RetireAfter(s.gens[g], step))
  {
    forall c | 0 <= c < |s.calls| && s.calls[c].gen == g ensures CallOk(s.calls[c], RetireAfter(s.gens[g], step)) {
      RetireStepCalls(s, g, step, c);
    }
  }

  lemma RetireActionKeeps(s: State, g: nat, step: RetireStep)
    requires Inv(s) && g < |s.gens| && RetireEnabled(s, g, step)
    ensures Inv(s.(gens := s.gens[g := RetireAfter(s.gens[g], step)]))
  {
    RetireStepOk(s, g, step);
    RetireStepAllCalls(s, g, step);
    QuietGenKeeps(s, g, RetireAfter(s.gens[g], step));
  }

  /** Every step of every goroutine keeps the invariant. */
  lemma StepKeeps(s: State, a: Action)
    requires Inv(s) && Enabled(s, a)
    ensures Inv(Apply(s, a))
  {
    match a
    case Load(topic, event, marshals) =>
      LoadKeeps(s, Call(Item(|s.calls|, topic, event, marshals), s.current, Loaded, false, Undecided));
    case ByCall(c, step) => CallActionKeeps(s, c, step);
    case ByWorker(g, step) => WorkerActionKeeps(s, g, step);
    case ByRetirer(g, step) => RetireActionKeeps(s, g, step);
    case Build(shape) => BuildKeeps(s, shape);
    case Install(g) => InstallKeeps(s, g);
  }

  lemma ExecSnoc(s: State, actions: seq<Action>, a: Action)
    ensures Exec(s, actions + [a]) ==
      if Exec(s, actions).Some? && Enabled(Exec(s, actions).value, a)
      then Some(Apply(Exec(s, actions).value, a)) else None
  {
    assert (actions + [a])[..|actions|] == actions;
  }

  lemma {:induction false} ExecKeeps(s: State, actions: seq<Action>)
    requires Inv(s) && Exec(s, actions).Some?
    ensures Inv(Exec(s, actions).value)
  {
    if actions != [] {
      var front := actions[..|actions| - 1];
      ExecKeeps(s, front);
      StepKeeps(Exec(s, front).value, actions[|actions| - 1]);
    }
  }

  lemma ReachableOk(s: State)
    requires Reachable(s)
    ensures Inv(s)
  {
    var shape: Shape, actions: seq<Action> :| shape.Valid() && Exec(Init(shape), actions) == Some(s);
    InitOk(shape);
    ExecKeeps(Init(shape), actions);
  }
}
