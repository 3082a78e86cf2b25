/**
 What a run of the machine does, told from its sequence of actions alone: which generation a
 call goes through, which event it carries, how full the batches are; and runs that show
 what swapping, batching and the flush interval are for.
 */
module HotSwapRuns {
  import opened Wrappers
  import opened Domain
  import opened HotSwap
  import opened HotSwapInvariant
  import opened HotSwapLoss

  // ---- the actions alone

  /** The generation swapped in last; the first one before any swap. */
  function LastInstalled(actions: seq<Action>): nat {
    if actions == [] then 0
    else
      var a := actions[|actions| - 1];
      if a.Install? then a.g else LastInstalled(actions[..|actions| - 1])
  }

  function Loads(actions: seq<Action>): nat {
    if actions == [] then 0
    else Loads(actions[..|actions| - 1]) + if actions[|actions| - 1].Load? then 1 else 0
  }

  /** What the generations built so far were built with. */
  function Shapes(first: Shape, actions: seq<Action>): seq<Shape> {
    if actions == [] then [first]
    else
      var a := actions[|actions| - 1];
      var before := Shapes(first, actions[..|actions| - 1]);
      if a.Build? then before + [a.shape] else before
  }

  // ---- what they make of the machine

  /** A step changes no call's event, generation or place in the list. */
  predicate SameCalls(s: State, t: State) {
    |s.calls| <= |t.calls| && forall c :: 0 <= c < |s.calls| ==>
      t.calls[c].item == s.calls[c].item && t.calls[c].gen == s.calls[c].gen
  }

  lemma StepSameCalls(s: State, a: Action)
    requires Enabled(s, a)
    ensures SameCalls(s, Apply(s, a))
    ensures |Apply(s, a).calls| == |s.calls| + if a.Load? then 1 else 0
  {
  }

  function ShapesOf(gens: seq<Gen>): (r: seq<Shape>)
    ensures |r| == |gens| && forall g :: 0 <= g < |gens| ==> r[g] == gens[g].shape
  {
    seq(|gens|, g requires 0 <= g < |gens| => gens[g].shape)
  }

  lemma StepShapes(s: State, a: Action)
    requires Enabled(s, a) && Shaped(s)
    ensures ShapesOf(Apply(s, a).gens) == if a.Build? then ShapesOf(s.gens) + [a.shape] else ShapesOf(s.gens)
  {
  }

  /** In every run the generation in service is the one swapped in last, the calls are as many
      as were begun, and the generations are those built, each with its shape. */
  lemma {:induction false} RunIsTold(first: Shape, actions: seq<Action>)
    requires first.Valid() && Exec(Init(first), actions).Some?
    ensures var s := Exec(Init(first), actions).value;
      && s.current == LastInstalled(actions) && |s.calls| == Loads(actions)
      && ShapesOf(s.gens) == Shapes(first, actions)
  {
    if actions != [] {
      var front, a := actions[..|actions| - 1], actions[|actions| - 1];
      RunIsTold(first, front);
      var s := Exec(Init(first), front).value;
      InitOk(first);
      ExecKeeps(Init(first), front);
      StepSameCalls(s, a);
      StepShapes(s, a);
    }
  }

  lemma {:induction false} CallsStay(s: State, actions: seq<Action>)
    requires Exec(s, actions).Some?
    ensures SameCalls(s, Exec(s, actions).value)
  {
    if actions != [] {
      var front, a := actions[..|actions| - 1], actions[|actions| - 1];
      CallsStay(s, front);
      StepSameCalls(Exec(s, front).value, a);
    }
  }

  lemma {:induction false} ExecSplits(s: State, a: seq<Action>, b: seq<Action>)
    requires Exec(s, a + b).Some?
    ensures Exec(s, a).Some? && Exec(Exec(s, a).value, b) == Exec(s, a + b)
  {
    if b == [] {
      assert a + b == a;
    } else {
      var front, last := b[..|b| - 1], b[|b| - 1];
      assert a + b == (a + front) + [last];
      ExecSnoc(s, a + front, last);
      ExecSplits(s, a, front);
      ExecSnoc(Exec(s, a).value, front, last);
      assert front + [last] == b;
    }
  }

  /** The call a publish begins goes, for good, through the generation swapped in last before
      it, and carries the event it was given. */
  lemma LoadGoesThroughLastInstalled(first: Shape, actions: seq<Action>, i: nat)
    requires first.Valid() && Exec(Init(first), actions).Some? && i < |actions| && actions[i].Load?
    ensures var s, c := Exec(Init(first), actions).value, Loads(actions[..i]);
      && c < |s.calls| && s.calls[c].gen == LastInstalled(actions[..i])
      && s.calls[c].item == Item(c, actions[i].topic, actions[i].event, actions[i].marshals)
  {
    var before, a, rest := actions[..i], actions[i], actions[i + 1..];
    assert actions == before + [a] + rest;
    ExecSplits(Init(first), before + [a], rest);
    ExecSnoc(Init(first), before, a);
    RunIsTold(first, before);
    CallsStay(Exec(Init(first), before + [a]).value, rest);
  }

  /** A stage may drop an event before the dedup mutex and behind it; the call then leaves, with
      nothing handed on and nothing buffered, as soon as it has given the mutex back. */
  lemma DropLeavesNothing(s: State, c: nat)
    requires Shaped(s) && c < |s.calls| && (s.calls[c].pc.Entered? || s.calls[c].pc.InChain?)
    requires s.gens[s.calls[c].gen].shape.drops
    ensures Enabled(s, ByCall(c, Drop))
    ensures var t := Apply(s, ByCall(c, Drop));
      && t == s.(calls := s.calls[c := s.calls[c].(pc := Leaving, outcome := HotSwap.Outcome.Dropped)])
      && Enabled(t, ByCall(c, if s.calls[c].holdsMutex then Unlock else Leave))
  {
  }

  // ---- what fills a batch

  predicate NoTicks(actions: seq<Action>, g: nat) {
    forall i :: 0 <= i < |actions| ==> actions[i] != ByWorker(g, Tick)
  }

  /** Every batch of g is full, and whatever its worker is about to flush is, unless it is the
      rest that its final drain leaves. */
  predicate Full(s: State, g: nat) {
    g < |s.gens| && s.gens[g].shape.batch.Some? ==>
      var n := s.gens[g].shape.batch.value;
      && (s.gens[g].worker == Flushing(BackToSelect) || s.gens[g].worker == Flushing(BackToDrain) ==>
            |s.gens[g].batch| == n)
      && (s.gens[g].worker != Flushing(ThenExit) && !s.gens[g].worker.Exited? ==>
            forall i :: 0 <= i < |s.log| && s.log[i].Batch? && s.log[i].gen == g ==> |s.log[i].items| == n)
  }

  lemma WorkerStepFull(s: State, g: nat, step: WorkerStep)
    requires Shaped(s) && g < |s.gens| && WorkerEnabled(s.gens[g], step) && step != Tick && Full(s, g)
    ensures Full(Apply(s, ByWorker(g, step)), g)
  {
    assert GenOk(s.gens[g]);
  }

  lemma StepFull(s: State, g: nat, a: Action)
    requires Shaped(s) && Located(s) && Enabled(s, a) && a != ByWorker(g, Tick) && Full(s, g)
    ensures Full(Apply(s, a), g)
  {
    match a
    case ByWorker(h, step) =>
      if h == g {
        WorkerStepFull(s, g, step);
      }
    case ByCall(c, step) =>
    case ByRetirer(h, step) =>
    case Build(shape) =>
      assert forall i :: 0 <= i < |s.log| ==> EntryOk(s, s.log[i]);
    case Load(_, _, _) =>
    case Install(_) =>
  }

  /** Only the flush interval and the final drain send a batch out before it is full. */
  lemma {:induction false} FullUnlessTicked(first: Shape, actions: seq<Action>, g: nat)
    requires first.Valid() && Exec(Init(first), actions).Some? && NoTicks(actions, g)
    ensures Full(Exec(Init(first), actions).value, g)
  {
    if actions != [] {
      var front, a := actions[..|actions| - 1], actions[|actions| - 1];
      FullUnlessTicked(first, front, g);
      InitOk(first);
      ExecKeeps(Init(first), front);
      StepFull(Exec(Init(first), front).value, g, a);
    }
  }

  /** When the flush interval passes, a waiting worker sends out what it holds, be it one
      event, and goes on waiting. */
  lemma IntervalFlushes(s: State, g: nat)
    requires Shaped(s) && g < |s.gens| && s.gens[g].worker.Selecting? && s.gens[g].batch != []
    ensures var r := Exec(s, [ByWorker(g, Tick), ByWorker(g, Flush)]);
      && r.Some? && r.value.gens[g].worker.Selecting? && r.value.gens[g].batch == []
      && r.value.gens[g].chan == s.gens[g].chan && r.value.calls == s.calls
      && r.value.log == s.log + [Batch(g, s.gens[g].lastTopic, s.gens[g].batch, Marshalled(s.gens[g].batch))]
  {
    var a, b := ByWorker(g, Tick), ByWorker(g, Flush);
    ExecSnoc(s, [], a);
    ExecSnoc(s, [a], b);
    assert [] + [a] == [a] && [a] + [b] == [a, b];
  }

  // ---- a run with a swap

  /** A publisher has loaded a generation that batches; another pipeline is built, swapped in,
      and the first one's retirement begins. */
  lemma SwapBehind(topic: string, early: StreamEvent) returns (s: State)
    ensures Reachable(s) && s.current == 1 && s.log == []
    ensures s.calls == [Call(Item(0, topic, early, true), 0, Loaded, false, Undecided)]
    ensures s.gens == [NewGen(Shape(Some(100), false, false)).(phase := Cancelled), NewGen(Shape(None, false, false))]
  {
    var start := Init(Shape(Some(100), false, false));
    assert Exec(start, []) == Some(start);
    assert Reachable(start) by { assert Shape(Some(100), false, false).Valid(); }
    var a := Then(start, Load(topic, early, true));
    var b := Then(a, Build(Shape(None, false, false)));
    var c := Then(b, Install(1));
    s := Then(c, ByRetirer(0, Cancel));
  }

  /** The next publisher goes through the new pipeline at once, while the early one is still
      let into the old pipeline and forwards from there. */
  lemma SwapInFlight(topic: string, early: StreamEvent, late: StreamEvent) returns (s: State)
    ensures Reachable(s) && |s.gens| == 2 && |s.calls| == 2 && s.current == 1
    ensures s.gens[0].phase.Cancelled? && s.gens[1].phase.Serving?
    ensures s.calls[0].gen == 0 && s.calls[1].gen == 1
    ensures s.calls[0].item == Item(0, topic, early, true) && s.calls[1].item == Item(1, topic, late, true)
    ensures s.log == [Single(s.calls[1].item), Single(s.calls[0].item)]
  {
    var d := SwapBehind(topic, early);
    var e := Then(d, Load(topic, late, true));
    var f := ForwardAll(e, 1);
    s := ForwardAll(f, 0);
  }

  /** A whole call that is forwarded: through a pass-through pipeline, or one being retired. */
  lemma ForwardAll(s: State, c: nat) returns (t: State)
    requires Reachable(s) && c < |s.calls| && s.calls[c].gen < |s.gens| && s.calls[c].pc.Loaded?
    requires !s.calls[c].holdsMutex
    requires var gen := s.gens[s.calls[c].gen];
      gen.ReadersAdmitted() && !gen.shape.dedup && (gen.shape.batch.None? || gen.IsCancelled())
    ensures Reachable(t) && t.gens == s.gens && t.current == s.current
    ensures t.calls == s.calls[c := s.calls[c].(pc := Leaving, outcome := HotSwap.Outcome.Forwarded)]
    ensures t.log == s.log + [Single(s.calls[c].item)]
  {
    var d := Then(s, ByCall(c, Enter));
    var e := Then(d, ByCall(c, PassDedup));
    var f := Then(e, ByCall(c, Decide));
    t := Then(f, ByCall(c, Forward));
  }

  // ---- who may pass a batch stage by

  /** Only a call with a binary event, of a pass-through pipeline or of a generation that has
      been cancelled, forwards its event itself. */
  predicate MayForward(k: Call, gen: Gen) {
    k.pc.Forwarding? || k.outcome.Forwarded? ==>
      gen.shape.batch.None? || k.item.event.IsBinary() || gen.IsCancelled()
  }

  predicate AllMayForward(s: State) {
    forall c :: 0 <= c < |s.calls| && s.calls[c].gen < |s.gens| ==> MayForward(s.calls[c], s.gens[s.calls[c].gen])
  }

  lemma CallStepMay(s: State, c: nat, step: CallStep)
    requires CallEnabled(s, c, step) && MayForward(s.calls[c], s.gens[s.calls[c].gen])
    ensures MayForward(CallAfter(s.gens[s.calls[c].gen], s.calls[c], step), s.gens[s.calls[c].gen])
  {
  }

  lemma StepMay(s: State, a: Action)
    requires Shaped(s) && AllMayForward(s) && Enabled(s, a)
    ensures AllMayForward(Apply(s, a))
  {
    match a
    case ByCall(c, step) => CallStepMay(s, c, step);
    case ByRetirer(g, step) => RetireStepMay(s, g, step);
    case _ =>
  }

  lemma RetireStepMay(s: State, g: nat, step: RetireStep)
    requires Shaped(s) && AllMayForward(s) && g < |s.gens| && RetireEnabled(s, g, step)
    ensures AllMayForward(Apply(s, ByRetirer(g, step)))
  {
  }

  lemma {:induction false} RunMay(s: State, actions: seq<Action>)
    requires Inv(s) && AllMayForward(s) && Exec(s, actions).Some?
    ensures AllMayForward(Exec(s, actions).value)
  {
    if actions != [] {
      var front := actions[..|actions| - 1];
      RunMay(s, front);
      ExecKeeps(s, front);
      StepMay(Exec(s, front).value, actions[|actions| - 1]);
    }
  }

  /** A generation in service buffers what it is given: an event that was forwarded past its
      batch stage is binary, or came after the cancellation. */
  lemma BuffersWhileServing(s: State, c: nat)
    requires Reachable(s) && c < |s.calls| && s.calls[c].outcome.Forwarded?
    ensures s.calls[c].gen < |s.gens|
    ensures var gen := s.gens[s.calls[c].gen];
      gen.shape.batch.None? || s.calls[c].item.event.IsBinary() || !gen.phase.Serving?
  {
    var shape: Shape, actions: seq<Action> :| shape.Valid() && Exec(Init(shape), actions) == Some(s);
    InitOk(shape);
    ExecKeeps(Init(shape), actions);
    RunMay(Init(shape), actions);
  }
}
