/**
 The batch worker's own code: appending to the batch, flushing it, and the final loop that
 empties the channel. The worker is an object; what it holds is tied to the generation of
 the hot-swap machine, so the loop here and the machine's single steps do the same.
 */
module BatchWorker {
  import opened HotSwap
  import opened HotSwapInvariant

  /** The envelope of one flushed batch, as handed to `next`. */
  datatype Envelope = Envelope(topic: string, source: string, kind: string, payloads: seq<string>)

  function PayloadsOf(items: seq<Item>): (r: seq<string>)
    ensures |r| == |items|
  {
    seq(|items|, i requires 0 <= i < |items| => items[i].event.payload)
  }

  /** What is published for the batches of a log: source and kind of the first event, topic
      of the last, every payload in order; nothing for a batch that does not marshal. */
  function Published(log: seq<Entry>): seq<Envelope> {
    if log == [] then []
    else
      var e := log[|log| - 1];
      Published(log[..|log| - 1]) +
      if e.Batch? && e.handed && e.items != []
      then [Envelope(e.topic, e.items[0].event.source, e.items[0].event.kind + "_batch", PayloadsOf(e.items))]
      else []
  }

  /** Cutting a sequence into pieces of n, the last one possibly shorter. */
  function Chunks(items: seq<Item>, n: nat): seq<seq<Item>>
    requires n > 0
  {
    if items == [] then []
    else if |items| <= n then [items]
    else [items[..n]] + Chunks(items[n..], n)
  }

  function FlushOf(g: nat, items: seq<Item>): Entry {
    Batch(g, if items == [] then "" else items[|items| - 1].topic, items, Marshalled(items))
  }

  function FlushesOf(g: nat, chunks: seq<seq<Item>>): (r: seq<Entry>)
    ensures |r| == |chunks|
  {
    seq(|chunks|, i requires 0 <= i < |chunks| => FlushOf(g, chunks[i]))
  }

  /** The entries of a final drain, worked out from the front of the channel. */
  function DrainLog(g: nat, batch: seq<Item>, chan: seq<Item>, n: nat): seq<Entry>
    requires |batch| < n
    decreases |chan|
  {
    if chan == [] then (if batch == [] then [] else [FlushOf(g, batch)])
    else if |batch| + 1 < n then DrainLog(g, batch + [chan[0]], chan[1..], n)
    else [FlushOf(g, batch + [chan[0]])] + DrainLog(g, [], chan[1..], n)
  }

  lemma ChunksOne(items: seq<Item>, n: nat)
    requires n > 0 && |items| <= n
    ensures Chunks(items, n) == if items == [] then [] else [items]
  {
  }

  lemma ChunksCons(first: seq<Item>, rest: seq<Item>, n: nat)
    requires n > 0 && |first| == n
    ensures Chunks(first + rest, n) == [first] + Chunks(rest, n)
  {
    if rest == [] {
      assert first + rest == first;
      ChunksOne(first, n);
    } else {
      assert (first + rest)[..n] == first && (first + rest)[n..] == rest;
    }
  }

  lemma FlushesCons(g: nat, first: seq<Item>, rest: seq<seq<Item>>)
    ensures FlushesOf(g, [first] + rest) == [FlushOf(g, first)] + FlushesOf(g, rest)
  {
  }

  lemma TakeFirst(batch: seq<Item>, chan: seq<Item>)
    requires chan != []
    ensures batch + [chan[0]] + chan[1..] == batch + chan
  {
  }

  /** The final drain flushes exactly the full-size pieces of what was held, and one rest. */
  lemma {:induction false} DrainIsChunks(g: nat, batch: seq<Item>, chan: seq<Item>, n: nat)
    requires |batch| < n
    ensures DrainLog(g, batch, chan, n) == FlushesOf(g, Chunks(batch + chan, n))
    decreases |chan|
  {
    if chan == [] {
      assert batch + chan == batch;
      ChunksOne(batch, n);
    } else {
      var more, rest := batch + [chan[0]], chan[1..];
      TakeFirst(batch, chan);
      if |more| < n {
        DrainIsChunks(g, more, rest, n);
      } else {
        DrainIsChunks(g, [], rest, n);
        assert [] + rest == rest;
        ChunksCons(more, rest, n);
        FlushesCons(g, more, Chunks(rest, n));
      }
    }
  }

  /** The pieces are not empty, all but the last are of size n, and together they are items. */
  predicate Covers(chunks: seq<seq<Item>>, items: seq<Item>, n: nat) {
    && (forall i :: 0 <= i < |chunks| ==> 1 <= |chunks[i]| <= n)
    && (forall i :: 0 <= i < |chunks| - 1 ==> |chunks[i]| == n)
    && Flat(chunks) == items
  }

  lemma CoversCons(first: seq<Item>, chunks: seq<seq<Item>>, items: seq<Item>, n: nat)
    requires n > 0 && |first| == n && Covers(chunks, items, n)
    ensures Covers([first] + chunks, first + items, n)
  {
    assert ([first] + chunks)[1..] == chunks;
  }

  lemma {:induction false} ChunksCover(items: seq<Item>, n: nat)
    requires n > 0
    ensures Covers(Chunks(items, n), items, n)
  {
    if |items| <= n {
      ChunksOne(items, n);
      assert [items][1..] == [];
    } else {
      var first, rest := items[..n], items[n..];
      ChunksCover(rest, n);
      ChunksCons(first, rest, n);
      CoversCons(first, Chunks(rest, n), rest, n);
      assert items == first + rest;
    }
  }

  function Flat(chunks: seq<seq<Item>>): seq<Item> {
    if chunks == [] then [] else chunks[0] + Flat(chunks[1..])
  }

  lemma PublishedGrows(log: seq<Entry>, e: Entry)
    ensures Published(log + [e]) == Published(log) + Published([e])
  {
    assert (log + [e])[..|log|] == log;
    assert [e][..0] == [];
  }

  /** An envelope holds a batch: the topic of its last event, source and marked type of its
      first, every payload in order. */
  predicate Holds(e: Envelope, items: seq<Item>)
    requires items != []
  {
    && e.topic == items[|items| - 1].topic
    && e.source == items[0].event.source && e.kind == items[0].event.kind + "_batch"
    && |e.payloads| == |items| && forall i :: 0 <= i < |items| ==> e.payloads[i] == items[i].event.payload
  }

  /** A flush hands on one envelope that holds the batch if every payload marshals, and nothing
      if one does not. */
  lemma FlushPublishes(log: seq<Entry>, g: nat, items: seq<Item>)
    requires items != []
    ensures var before, after := Published(log), Published(log + [FlushOf(g, items)]);
      if forall item :: item in items ==> item.marshals
      then |after| == |before| + 1 && after[..|before|] == before && Holds(after[|before|], items)
      else after == before
  {
    PublishedGrows(log, FlushOf(g, items));
    assert [FlushOf(g, items)][..0] == [];
    if Marshalled(items) {
      assert forall item :: item in items ==> item.marshals;
    } else {
      var i :| 0 <= i < |items| && !items[i].marshals;
      assert items[i] in items;
    }
  }

  // ---- the same drain as steps of the machine

  lemma LastOfRest(a: Action, rest: seq<Action>)
    requires rest != []
    ensures var front, last := rest[..|rest| - 1], rest[|rest| - 1];
      rest == front + [last] && [a] + rest == [a] + front + [last]
  {
  }

  lemma {:induction false} ExecFirst(s: State, a: Action, rest: seq<Action>)
    requires Enabled(s, a)
    ensures Exec(s, [a] + rest) == Exec(Apply(s, a), rest)
  {
    if rest == [] {
      ExecSnoc(s, [], a);
      assert [a] + rest == [] + [a];
    } else {
      var front, last := rest[..|rest| - 1], rest[|rest| - 1];
      ExecFirst(s, a, front);
      ExecSnoc(s, [a] + front, last);
      ExecSnoc(Apply(s, a), front, last);
      LastOfRest(a, rest);
    }
  }

  lemma DrainStep(s: State, g: nat, step: WorkerStep, rest: seq<Action>) returns (t: State)
    requires g < |s.gens| && WorkerEnabled(s.gens[g], step)
    ensures t == Apply(s, ByWorker(g, step)) && Exec(s, [ByWorker(g, step)] + rest) == Exec(t, rest)
  {
    t := Apply(s, ByWorker(g, step));
    ExecFirst(s, ByWorker(g, step), rest);
  }

  lemma TopicOfLast(s: State, g: nat)
    requires g < |s.gens| && s.gens[g].batch != [] && GenOk(s.gens[g])
    ensures FlushEntry(s, g) == FlushOf(g, s.gens[g].batch)
  {
  }

  /** The worker steps that empty a draining generation. */
  function DrainSteps(batch: nat, chan: nat, n: nat): seq<WorkerStep>
    requires batch < n
    decreases chan
  {
    if chan == 0 then [DrainEmpty, Flush]
    else if batch + 1 < n then [Receive] + DrainSteps(batch + 1, chan - 1, n)
    else [Receive, Flush] + DrainSteps(0, chan - 1, n)
  }

  function ByWorkerAll(g: nat, steps: seq<WorkerStep>): (r: seq<Action>)
    ensures |r| == |steps|
  {
    seq(|steps|, i requires 0 <= i < |steps| => ByWorker(g, steps[i]))
  }

  lemma ByWorkerSplit(g: nat, step: WorkerStep, rest: seq<WorkerStep>)
    ensures ByWorkerAll(g, [step] + rest) == [ByWorker(g, step)] + ByWorkerAll(g, rest)
  {
  }

  predicate CanDrain(s: State, g: nat) {
    g < |s.gens| && GenOk(s.gens[g]) && s.gens[g].worker.Draining?
  }

  function StepsLeft(gen: Gen): seq<WorkerStep>
    requires GenOk(gen) && gen.worker.Draining?
  {
    DrainSteps(|gen.batch|, |gen.chan|, gen.shape.batch.value)
  }

  function LogLeft(g: nat, gen: Gen): seq<Entry>
    requires GenOk(gen) && gen.worker.Draining?
  {
    DrainLog(g, gen.batch, gen.chan, gen.shape.batch.value)
  }

  /** The steps run g to its exit and add exactly these entries to the log. */
  predicate RunsTo(s: State, g: nat, actions: seq<Action>, entries: seq<Entry>) {
    var r := Exec(s, actions);
    r.Some? && g < |r.value.gens| && r.value.gens[g].worker.Exited? && r.value.log == s.log + entries
  }

  lemma DrainLast(s: State, g: nat)
    requires CanDrain(s, g) && s.gens[g].chan == []
    ensures RunsTo(s, g, ByWorkerAll(g, StepsLeft(s.gens[g])), LogLeft(g, s.gens[g]))
  {
    ByWorkerSplit(g, DrainEmpty, [Flush]);
    ByWorkerSplit(g, Flush, []);
    var t := DrainStep(s, g, DrainEmpty, [ByWorker(g, Flush)]);
    var u := DrainStep(t, g, Flush, []);
    if s.gens[g].batch != [] { TopicOfLast(s, g); }
  }

  lemma ReceiveInDrain(s: State, g: nat) returns (t: State)
    requires CanDrain(s, g) && s.gens[g].chan != []
    ensures t == Apply(s, ByWorker(g, Receive)) && g < |t.gens| && GenOk(t.gens[g]) && t.log == s.log
    ensures t.gens[g] == Received(s.gens[g])
  {
    WorkerStepOk(s.gens[g], Receive);
    t := Apply(s, ByWorker(g, Receive));
  }

  lemma FlushInDrain(s: State, g: nat) returns (t: State)
    requires g < |s.gens| && GenOk(s.gens[g]) && s.gens[g].worker == Flushing(BackToDrain)
    ensures t == Apply(s, ByWorker(g, Flush)) && CanDrain(t, g)
    ensures t.gens[g] == s.gens[g].(batch := [], worker := Draining)
    ensures t.log == s.log + [FlushOf(g, s.gens[g].batch)]
  {
    WorkerStepOk(s.gens[g], Flush);
    TopicOfLast(s, g);
    t := Apply(s, ByWorker(g, Flush));
  }

  lemma RunsFrom(s: State, g: nat, step: WorkerStep, rest: seq<WorkerStep>, first: seq<Entry>, entries: seq<Entry>)
    requires g < |s.gens| && WorkerEnabled(s.gens[g], step)
    requires Apply(s, ByWorker(g, step)).log == s.log + first
    requires RunsTo(Apply(s, ByWorker(g, step)), g, ByWorkerAll(g, rest), entries)
    ensures RunsTo(s, g, ByWorkerAll(g, [step] + rest), first + entries)
  {
    ByWorkerSplit(g, step, rest);
    ExecFirst(s, ByWorker(g, step), ByWorkerAll(g, rest));
    RegroupLog(s.log, first, entries);
  }

  lemma RegroupLog(a: seq<Entry>, b: seq<Entry>, c: seq<Entry>)
    ensures a + b + c == a + (b + c)
  {
  }

  /** A generation that drains undisturbed logs what DrainAndFlush logs, and exits. */
  lemma {:induction false} DrainRun(s: State, g: nat)
    requires CanDrain(s, g)
    ensures RunsTo(s, g, ByWorkerAll(g, StepsLeft(s.gens[g])), LogLeft(g, s.gens[g]))
    decreases |s.gens[g].chan|
  {
    if s.gens[g].chan == [] {
      DrainLast(s, g);
    } else {
      var t := ReceiveInDrain(s, g);
      if t.gens[g].worker.Draining? {
        DrainRun(t, g);
        RunsFrom(s, g, Receive, StepsLeft(t.gens[g]), [], LogLeft(g, t.gens[g]));
        NoEntries(LogLeft(g, t.gens[g]));
      } else {
        DrainRunFull(s, t, g);
      }
    }
  }

  lemma DrainRunFull(s: State, t: State, g: nat)
    requires CanDrain(s, g) && s.gens[g].chan != [] && t == Apply(s, ByWorker(g, Receive))
    requires GenOk(t.gens[g]) && t.gens[g].worker == Flushing(BackToDrain)
    ensures RunsTo(s, g, ByWorkerAll(g, StepsLeft(s.gens[g])), LogLeft(g, s.gens[g]))
    decreases |s.gens[g].chan|, 0
  {
    var u := FlushInDrain(t, g);
    DrainRun(u, g);
    var tail, e, log := StepsLeft(u.gens[g]), FlushOf(g, t.gens[g].batch), LogLeft(g, u.gens[g]);
    RunsFrom(t, g, Flush, tail, [e], log);
    RunsFrom(s, g, Receive, [Flush] + tail, [], [e] + log);
    NoEntries([e] + log);
    TwoSteps(tail);
  }

  lemma NoEntries(log: seq<Entry>)
    ensures [] + log == log
  {
  }

  lemma TwoSteps(tail: seq<WorkerStep>)
    ensures [Receive] + ([Flush] + tail) == [Receive, Flush] + tail
  {
  }

  /** What one receive of the drain adds to the log, and what is left to add. */
  lemma DrainOne(g: nat, log: seq<Entry>, batch: seq<Item>, chan: seq<Item>, n: nat)
    requires |batch| < n && chan != []
    ensures log + DrainLog(g, batch, chan, n) ==
      var more := batch + [chan[0]];
      if |more| < n then log + DrainLog(g, more, chan[1..], n)
      else log + [FlushOf(g, more)] + DrainLog(g, [], chan[1..], n)
  {
  }

  /** The goroutine of NewBatch, between two receives. */
  class Worker {
    const g: nat
    const maxSize: nat
    var batch: seq<Item>
    var lastTopic: string
    var eventCh: seq<Item>
    var published: seq<Envelope>   // what was handed to next
    ghost var log: seq<Entry>      // the flushes so far

    ghost predicate Valid()
      reads this
    {
      && maxSize > 0
      && |batch| < maxSize
      && (batch != [] ==> lastTopic == batch[|batch| - 1].topic)
      && published == Published(log)
    }

    constructor (g: nat, maxSize: nat)
      requires maxSize > 0
      ensures Valid() && this.g == g && this.maxSize == maxSize
      ensures batch == [] && eventCh == [] && log == []
    {
      this.g, this.maxSize := g, maxSize;
      batch, lastTopic, eventCh, published, log := [], "", [], [], [];
    }

    method Flush()
      requires maxSize > 0 && |batch| <= maxSize && published == Published(log)
      requires batch != [] ==> lastTopic == batch[|batch| - 1].topic
      modifies `batch, `published, `log
      ensures Valid() && batch == []
      ensures log == old(log) + if old(batch) == [] then [] else [FlushOf(g, old(batch))]
      ensures if old(batch) != [] && forall item :: item in old(batch) ==> item.marshals
              then |published| == |old(published)| + 1 && published[..|old(published)|] == old(published)
                && Holds(published[|old(published)|], old(batch))
              else published == old(published)
    {
      if |batch| == 0 {
        return;
      }
      FlushPublishes(log, g, batch);
      var payloads: seq<string> := [];
      var marshals := true;
      for i := 0 to |batch|
        invariant |payloads| == i
        invariant forall k :: 0 <= k < i ==> payloads[k] == batch[k].event.payload
        invariant marshals <==> forall k :: 0 <= k < i ==> batch[k].marshals
      {
        payloads := payloads + [batch[i].event.payload];
        marshals := marshals && batch[i].marshals;
      }
      ghost var e := FlushOf(g, batch);
      PublishedGrows(log, e);
      log := log + [e];
      if marshals {
        assert payloads == PayloadsOf(batch);
        assert [e][..0] == [];
        published := published + [Envelope(lastTopic, batch[0].event.source, batch[0].event.kind + "_batch", payloads)];
      }
      batch := [];
    }

    /** One receive of the select: append, remember the topic, flush when full. */
    method Receive()
      requires Valid() && eventCh != []
      modifies `batch, `lastTopic, `eventCh, `published, `log
      ensures Valid() && eventCh == old(eventCh)[1..]
      ensures var more := old(batch) + [old(eventCh)[0]];
        if |more| < maxSize then batch == more && log == old(log)
        else batch == [] && log == old(log) + [FlushOf(g, more)]
    {
      var te := eventCh[0];
      eventCh := eventCh[1..];
      batch := batch + [te];
      lastTopic := te.topic;
      if |batch| >= maxSize {
        Flush();
      }
    }

    /** Empties the channel after the seal: everything held goes out, in order, in pieces
        of maxSize and one rest. */
    method DrainAndFlush()
      requires Valid()
      modifies `batch, `lastTopic, `eventCh, `published, `log
      ensures Valid() && batch == [] && eventCh == []
      ensures log == old(log) + FlushesOf(g, Chunks(old(batch) + old(eventCh), maxSize))
    {
      DrainIsChunks(g, batch, eventCh, maxSize);
      while eventCh != []
        invariant Valid()
        invariant log + DrainLog(g, batch, eventCh, maxSize)
               == old(log) + DrainLog(g, old(batch), old(eventCh), maxSize)
        decreases |eventCh|
      {
        ghost var logged, was, held := log, eventCh, batch;
        Receive();
        DrainOne(g, logged, held, was, maxSize);
      }
      Flush();
    }
  }
}
