/**
 A stream from its admission to the end of its removal: the publish path and the supervisor
 as one machine. Sessions load generations only while they last and end only when their
 publish calls have returned; the supervisor's passes are those of its loop; Remove cancels,
 waits for the supervisor, and only then retires the generation in service - on whose full
 buffer publishers may be parked all the while.

 Of a source this assumes what its interface promises: Run returns once its context is
 cancelled. That is, a session begins only finitely many more calls after the cancellation -
 how many is the choice of the cancelling step - and can end as soon as its calls are over.
 */
module Shutdown {
  import opened Wrappers
  import opened Domain
  import opened HotSwap
  import opened HotSwapInvariant
  import opened HotSwapProgress
  import opened Restart
  import opened Supervisor
  import opened SupervisorTheorems
  import opened SupervisorCancel

  datatype System = System(
    path: HotSwap.State,
    rounds: seq<Round>,      // the passes of the supervisor so far
    inSession: bool,         // between the Open and the return of Run
    cancelled: bool,
    credit: nat)             // calls a source still begins after the cancellation

  datatype Step =
    | OnPath(a: Action)
    | BeginSession
    | EndSession(r: Round)
    | SkipSession(r: Round)  // a pass that ends in its sleep or at a failed Open
    | CancelContext(credit: nat)

  function Start(shape: Shape): System {
    System(Init(shape), [], false, false, 0)
  }

  /** The supervisor as its rounds have left it. */
  function Loop(policy: Policy, s: System): Sup {
    Run(policy, s.rounds)
  }

  predicate NoCallsLeft(path: HotSwap.State) {
    forall c :: 0 <= c < |path.calls| ==> path.calls[c].pc.Returned?
  }

  /** A call begins only in a session; no pipeline is swapped in while Remove holds the lock;
      the generation in service is retired only when the supervisor has ended. */
  predicate PathAllowed(policy: Policy, s: System, a: Action) {
    && Enabled(s.path, a)
    && (a.Load? ==> s.inSession && (s.cancelled ==> s.credit > 0))
    && (a.Install? ==> !s.cancelled)
    && (a == ByRetirer(s.path.current, HotSwap.RetireStep.Cancel) ==> Loop(policy, s).done)
  }

  predicate Possible(policy: Policy, s: System, step: Step) {
    match step
    case OnPath(a) => PathAllowed(policy, s, a)
    case BeginSession => !s.inSession && !Loop(policy, s).done
    case EndSession(r) =>
      s.inSession && NoCallsLeft(s.path) && r.slept && r.openError.None? && r.cancelledAfterRun == s.cancelled
    case SkipSession(r) =>
      && !s.inSession && !Loop(policy, s).done && Loop(policy, s).reacquire
      && (!r.slept || r.openError.Some?)
      && (!r.slept ==> s.cancelled)
      && (r.slept ==> r.cancelledAtOpen == s.cancelled)
    case CancelContext(_) => !s.cancelled
  }

  function Next(policy: Policy, s: System, step: Step): System
    requires Possible(policy, s, step)
  {
    match step
    case OnPath(a) => s.(path := Apply(s.path, a), credit := if a.Load? && s.cancelled then s.credit - 1 else s.credit)
    case BeginSession => s.(inSession := true)
    case EndSession(r) => s.(inSession := false, rounds := s.rounds + [r])
    case SkipSession(r) => s.(rounds := s.rounds + [r])
    case CancelContext(credit) => s.(cancelled := true, credit := credit)
  }

  function Follow(policy: Policy, s: System, steps: seq<Step>): Option<System> {
    if steps == [] then Some(s)
    else
      var before := Follow(policy, s, steps[..|steps| - 1]);
      var step := steps[|steps| - 1];
      if before.Some? && Possible(policy, before.value, step) then Some(Next(policy, before.value, step)) else None
  }

  ghost predicate Reached(policy: Policy, s: System) {
    exists shape: Shape, steps: seq<Step> :: shape.Valid() && Follow(policy, Start(shape), steps) == Some(s)
  }

  // ---- what every step keeps

  /** No call outlives its session, no session its supervisor, and no generation in service is
      cancelled before the supervisor has ended. */
  ghost predicate SystemOk(policy: Policy, s: System) {
    && Inv(s.path)
    && (!s.inSession ==> NoCallsLeft(s.path))
    && (s.inSession ==> !Loop(policy, s).done)
    && (s.path.gens[s.path.current].IsCancelled() ==> Loop(policy, s).done)
  }

  lemma ReturnedStaysReturned(s: HotSwap.State, a: Action)
    requires Enabled(s, a) && !a.Load? && NoCallsLeft(s)
    ensures NoCallsLeft(Apply(s, a))
  {
  }

  lemma InServiceStays(s: HotSwap.State, a: Action)
    requires Shaped(s) && Enabled(s, a) && a != ByRetirer(s.current, HotSwap.RetireStep.Cancel)
    requires !s.gens[s.current].IsCancelled()
    ensures Apply(s, a).current < |Apply(s, a).gens|
    ensures !Apply(s, a).gens[Apply(s, a).current].IsCancelled()
  {
  }

  lemma PathKeeps(policy: Policy, s: System, a: Action)
    requires SystemOk(policy, s) && PathAllowed(policy, s, a)
    ensures SystemOk(policy, Next(policy, s, OnPath(a)))
  {
    StepKeeps(s.path, a);
    if !s.inSession {
      ReturnedStaysReturned(s.path, a);
    }
    if !Loop(policy, s).done {
      InServiceStays(s.path, a);
    }
  }

  lemma LoopStep(policy: Policy, s: System, r: Round)
    requires !Loop(policy, s).done
    ensures Run(policy, s.rounds + [r]) == Pass(policy, Loop(policy, s), r)
  {
    RunSnoc(policy, s.rounds, r);
  }

  lemma SystemKeeps(policy: Policy, s: System, step: Step)
    requires SystemOk(policy, s) && Possible(policy, s, step)
    ensures SystemOk(policy, Next(policy, s, step))
  {
    match step
    case OnPath(a) => PathKeeps(policy, s, a);
    case EndSession(r) => LoopStep(policy, s, r);
    case SkipSession(r) => LoopStep(policy, s, r);
    case BeginSession =>
    case CancelContext(_) =>
  }

  lemma {:induction false} FollowKeeps(policy: Policy, s: System, steps: seq<Step>)
    requires SystemOk(policy, s) && Follow(policy, s, steps).Some?
    ensures SystemOk(policy, Follow(policy, s, steps).value)
  {
    if steps != [] {
      FollowKeeps(policy, s, steps[..|steps| - 1]);
      SystemKeeps(policy, Follow(policy, s, steps[..|steps| - 1]).value, steps[|steps| - 1]);
    }
  }

  lemma ReachedOk(policy: Policy, s: System)
    requires Reached(policy, s)
    ensures SystemOk(policy, s)
  {
    var shape: Shape, steps: seq<Step> :| shape.Valid() && Follow(policy, Start(shape), steps) == Some(s);
    InitOk(shape);
    FollowKeeps(policy, Start(shape), steps);
  }

  // ---- the final flush

  lemma StaysDone(policy: Policy, s: System, step: Step)
    requires Loop(policy, s).done && !s.inSession && Possible(policy, s, step)
    ensures Loop(policy, Next(policy, s, step)).done && !Next(policy, s, step).inSession
    ensures !(step.OnPath? && step.a.Load?)
  {
  }

  /** Once the supervisor has ended no publish call is left, and whatever happens afterwards
      none begins: the generation in service is retired with nobody in it or on the way, so its
      final flush is the last thing that happens on the stream. */
  lemma {:induction false} FinalFlushIsLast(policy: Policy, s: System, steps: seq<Step>)
    requires Reached(policy, s) && Loop(policy, s).done && Follow(policy, s, steps).Some?
    ensures NoCallsLeft(s.path)
    ensures var t := Follow(policy, s, steps).value;
      Loop(policy, t).done && !t.inSession && NoCallsLeft(t.path) && t.path.calls == s.path.calls
  {
    ReachedOk(policy, s);
    if steps != [] {
      var front, step := steps[..|steps| - 1], steps[|steps| - 1];
      FinalFlushIsLast(policy, s, front);
      var t := Follow(policy, s, front).value;
      StaysDone(policy, t, step);
      if step.OnPath? {
        NobodyMoves(t.path, step.a);
      }
    }
  }

  lemma NobodyMoves(s: HotSwap.State, a: Action)
    requires NoCallsLeft(s) && Enabled(s, a) && !a.Load?
    ensures Apply(s, a).calls == s.calls
  {
    if a.ByCall? {
      assert false;
    }
  }

  /** As long as the supervisor runs, the generation in service is not cancelled: nothing but
      its own worker makes room in its buffer. */
  lemma InServiceUntilDone(policy: Policy, s: System)
    requires Reached(policy, s) && !Loop(policy, s).done
    ensures s.path.current < |s.path.gens| && s.path.gens[s.path.current].phase.Serving?
  {
    ReachedOk(policy, s);
  }

  // ---- the wait

  /** Whether a step is one on behalf of one of the first n generations. */
  predicate ServesBelow(path: HotSwap.State, a: Action, n: nat) {
    exists g :: 0 <= g < n && Serves(path, a, g)
  }

  /** A step that brings the end of the wait closer: one of the supervisor, or one on behalf of
      a generation that was there when the context was cancelled. */
  predicate Helps(s: System, step: Step, n: nat) {
    match step
    case OnPath(a) => ServesBelow(s.path, a, n)
    case CancelContext(_) => false
    case _ => true
  }

  predicate CallsBelow(path: HotSwap.State, n: nat) {
    forall c :: 0 <= c < |path.calls| ==> path.calls[c].gen < n
  }

  /** The wait has begun, with n generations built. */
  ghost predicate Awaiting(policy: Policy, s: System, n: nat) {
    && SystemOk(policy, s) && s.cancelled
    && s.path.current < n <= |s.path.gens| && CallsBelow(s.path, n)
  }

  /** The wait is over. */
  predicate Over(policy: Policy, s: System) {
    Loop(policy, s).done && NoCallsLeft(s.path)
  }

  lemma AwaitingNow(policy: Policy, s: System)
    requires Reached(policy, s) && s.cancelled
    ensures Awaiting(policy, s, |s.path.gens|)
  {
    ReachedOk(policy, s);
  }

  /** How a session in which nothing was reported ends. */
  function QuietEnd(cancelled: bool): Round {
    Round(true, None, false, None, 0, None, cancelled)
  }

  /** From the cancellation until the wait is over there is always a step that brings its end
      closer, and it is no new call. */
  lemma WaitNeverStuck(policy: Policy, s: System, n: nat) returns (step: Step)
    requires Awaiting(policy, s, n) && !Over(policy, s)
    ensures Possible(policy, s, step) && Helps(s, step, n) && !(step.OnPath? && step.a.Load?)
  {
    if c :| 0 <= c < |s.path.calls| && !s.path.calls[c].pc.Returned? {
      var a := CallNeverStuck(s.path, c);
      step := OnPath(a);
      assert Serves(s.path, a, s.path.calls[c].gen);
    } else if s.inSession {
      step := EndSession(QuietEnd(true));
    } else {
      step := BeginSession;
    }
  }

  // ---- its length

  /** What is left to do for the first n generations. */
  function TotalRemaining(path: HotSwap.State, n: nat): nat
    requires n <= |path.gens|
  {
    if n == 0 then 0 else TotalRemaining(path, n - 1) + Remaining(path, n - 1)
  }

  predicate SpendsAt(path: HotSwap.State, next: HotSwap.State, a: Action, g: nat)
    requires g < |path.gens| && g < |next.gens|
  {
    Remaining(next, g) + (if Serves(path, a, g) then 1 else 0)
      <= Remaining(path, g) + (if Joins(path, a, g) then LOADED else 0)
  }

  lemma {:induction false} TotalSpent(path: HotSwap.State, next: HotSwap.State, a: Action, n: nat)
    requires n <= |path.gens| && n <= |next.gens| && forall g: nat :: g < n ==> SpendsAt(path, next, a, g)
    ensures TotalRemaining(next, n) + (if ServesBelow(path, a, n) then 1 else 0)
         <= TotalRemaining(path, n) + (if a.Load? && path.current < n then LOADED else 0)
  {
    if n > 0 {
      TotalSpent(path, next, a, n - 1);
      ServesOneMore(path, a, n - 1);
      assert SpendsAt(path, next, a, n - 1);
    }
  }

  lemma TotalSpends(path: HotSwap.State, a: Action, n: nat)
    requires Shaped(path) && n <= |path.gens| && Enabled(path, a)
    ensures n <= |Apply(path, a).gens|
    ensures TotalRemaining(Apply(path, a), n) + (if ServesBelow(path, a, n) then 1 else 0)
         <= TotalRemaining(path, n) + (if a.Load? && path.current < n then LOADED else 0)
  {
    forall g: nat | g < |path.gens| ensures g < |Apply(path, a).gens| && SpendsAt(path, Apply(path, a), a, g) {
      StepSpends(path, a, g);
    }
    assert n > 0 ==> n - 1 < |Apply(path, a).gens|;
    TotalSpent(path, Apply(path, a), a, n);
  }

  lemma ServesOneMore(path: HotSwap.State, a: Action, n: nat)
    ensures ServesBelow(path, a, n + 1) <==> ServesBelow(path, a, n) || Serves(path, a, n)
  {
    if ServesBelow(path, a, n) {
      var g :| 0 <= g < n && Serves(path, a, g);
      assert 0 <= g < n + 1;
    }
  }

  /** The passes the supervisor may still make. */
  function LoopWeight(policy: Policy, s: System): nat {
    if Loop(policy, s).done then 0 else if s.inSession then 1 else 2
  }

  /** How many steps can still bring the end of the wait closer. */
  function Budget(policy: Policy, s: System, n: nat): nat
    requires n <= |s.path.gens|
  {
    TotalRemaining(s.path, n) + LOADED * s.credit + LoopWeight(policy, s)
  }

  lemma CallsStayBelow(path: HotSwap.State, a: Action, n: nat)
    requires Enabled(path, a) && path.current < n && CallsBelow(path, n)
    ensures CallsBelow(Apply(path, a), n)
  {
  }

  lemma PathSpends(policy: Policy, s: System, a: Action, n: nat)
    requires Awaiting(policy, s, n) && PathAllowed(policy, s, a)
    ensures var t := Next(policy, s, OnPath(a));
      && Awaiting(policy, t, n)
      && Budget(policy, t, n) + (if Helps(s, OnPath(a), n) then 1 else 0) <= Budget(policy, s, n)
  {
    SystemKeeps(policy, s, OnPath(a));
    CallsStayBelow(s.path, a, n);
    TotalSpends(s.path, a, n);
  }

  /** A pass the cancelled supervisor completes is its last. */
  lemma LastPass(policy: Policy, s: System, step: Step)
    requires s.cancelled && Possible(policy, s, step) && !Loop(policy, s).done
    requires step.EndSession? || step.SkipSession?
    ensures Loop(policy, Next(policy, s, step)).done
  {
    LoopStep(policy, s, step.r);
    PassEnds(policy, Loop(policy, s), step.r);
  }

  lemma WaitSpends(policy: Policy, s: System, step: Step, n: nat)
    requires Awaiting(policy, s, n) && Possible(policy, s, step)
    ensures var t := Next(policy, s, step);
      && Awaiting(policy, t, n)
      && Budget(policy, t, n) + (if Helps(s, step, n) then 1 else 0) <= Budget(policy, s, n)
  {
    match step
    case OnPath(a) => PathSpends(policy, s, a, n);
    case CancelContext(_) => assert false;
    case BeginSession => SystemKeeps(policy, s, step);
    case _ =>
      SystemKeeps(policy, s, step);
      LastPass(policy, s, step);
  }

  /** How many of the steps brought the end of the wait closer. */
  function Helped(policy: Policy, s: System, steps: seq<Step>, n: nat): nat
    requires Follow(policy, s, steps).Some?
  {
    if steps == [] then 0
    else
      var front := steps[..|steps| - 1];
      Helped(policy, s, front, n) + if Helps(Follow(policy, s, front).value, steps[|steps| - 1], n) then 1 else 0
  }

  lemma {:induction false} WaitIsBounded(policy: Policy, s: System, steps: seq<Step>, n: nat)
    requires Awaiting(policy, s, n) && Follow(policy, s, steps).Some?
    ensures var t := Follow(policy, s, steps).value;
      Awaiting(policy, t, n) && Helped(policy, s, steps, n) + Budget(policy, t, n) <= Budget(policy, s, n)
  {
    if steps != [] {
      var front := steps[..|steps| - 1];
      WaitIsBounded(policy, s, front, n);
      WaitSpends(policy, Follow(policy, s, front).value, steps[|steps| - 1], n);
    }
  }

  function Begun(steps: seq<Step>): nat {
    if steps == [] then 0
    else Begun(steps[..|steps| - 1]) + if steps[|steps| - 1].BeginSession? then 1 else 0
  }

  function RoomForSession(policy: Policy, s: System): nat {
    if Loop(policy, s).done || s.inSession then 0 else 1
  }

  lemma RoomShrinks(policy: Policy, s: System, step: Step)
    requires SystemOk(policy, s) && s.cancelled && Possible(policy, s, step)
    ensures Next(policy, s, step).cancelled
    ensures RoomForSession(policy, Next(policy, s, step)) + (if step.BeginSession? then 1 else 0)
         <= RoomForSession(policy, s)
  {
    if step.EndSession? || step.SkipSession? {
      LastPass(policy, s, step);
    }
  }

  /** After the cancellation at most one more session begins, and none if one is under way. */
  lemma {:induction false} OneMoreSession(policy: Policy, s: System, steps: seq<Step>)
    requires SystemOk(policy, s) && s.cancelled && Follow(policy, s, steps).Some?
    ensures var t := Follow(policy, s, steps).value;
      SystemOk(policy, t) && t.cancelled && Begun(steps) + RoomForSession(policy, t) <= RoomForSession(policy, s)
  {
    if steps != [] {
      var front, step := steps[..|steps| - 1], steps[|steps| - 1];
      OneMoreSession(policy, s, front);
      var t := Follow(policy, s, front).value;
      RoomShrinks(policy, t, step);
      SystemKeeps(policy, t, step);
    }
  }

  /** Waiting for a cancelled supervisor ends: however publishers, worker, updates and
      supervisor interleave, only so many steps can bring its end closer, and a run that has
      used them up, or leaves no such step possible, has seen the supervisor end, stopped or
      given up, with every publish call returned. */
  lemma WaitEnds(policy: Policy, s: System, steps: seq<Step>)
    requires Reached(policy, s) && s.cancelled && Follow(policy, s, steps).Some?
    ensures var n, t := |s.path.gens|, Follow(policy, s, steps).value;
      && Helped(policy, s, steps, n) <= Budget(policy, s, n)
      && (Helped(policy, s, steps, n) == Budget(policy, s, n) ==> Over(policy, t))
      && ((forall step :: Possible(policy, t, step) ==> !Helps(t, step, n)) ==> Over(policy, t))
  {
    var n, t := |s.path.gens|, Follow(policy, s, steps).value;
    AwaitingNow(policy, s);
    WaitIsBounded(policy, s, steps, n);
    if !Over(policy, t) {
      var step := WaitNeverStuck(policy, t, n);
      WaitSpends(policy, t, step, n);
    }
  }

  // ---- the machine makes every run of the loop, and a removal

  lemma Then(policy: Policy, s: System, step: Step) returns (t: System)
    requires Reached(policy, s) && Possible(policy, s, step)
    ensures t == Next(policy, s, step) && Reached(policy, t)
  {
    t := Next(policy, s, step);
    var shape: Shape, steps: seq<Step> :| shape.Valid() && Follow(policy, Start(shape), steps) == Some(s);
    assert (steps + [step])[..|steps|] == steps;
    assert Follow(policy, Start(shape), steps + [step]) == Some(t);
  }

  lemma Started(policy: Policy, shape: Shape)
    requires shape.Valid()
    ensures Reached(policy, Start(shape))
  {
    assert Follow(policy, Start(shape), []) == Some(Start(shape));
  }

  /** A round as it can be before any cancellation: whether it has a session or not. */
  predicate Ordinary(r: Round, first: bool) {
    r.slept && !r.cancelledAtOpen && !r.cancelledAfterRun && (first ==> r.openError.None?)
  }

  lemma RoundPossible(policy: Policy, s: System, r: Round) returns (t: System)
    requires Reached(policy, s) && !s.inSession && !s.cancelled && !Loop(policy, s).done
    requires Ordinary(r, !Loop(policy, s).reacquire)
    ensures Reached(policy, t) && t == s.(rounds := s.rounds + [r])
  {
    ReachedOk(policy, s);
    if r.openError.Some? {
      t := Then(policy, s, SkipSession(r));
    } else {
      var a := Then(policy, s, BeginSession);
      t := Then(policy, a, EndSession(r));
    }
  }

  function After(shape: Shape, script: seq<Round>): System {
    Start(shape).(rounds := script)
  }

  /** A script that nobody cancels and that goes on to its end. */
  predicate Playable(policy: Policy, script: seq<Round>) {
    forall i :: 0 <= i < |script| ==> Ordinary(script[i], i == 0) && !Run(policy, script[..i]).done
  }

  lemma PlayableFront(policy: Policy, script: seq<Round>, r: Round)
    requires Playable(policy, script + [r])
    ensures Playable(policy, script) && Ordinary(r, script == []) && !Run(policy, script).done
  {
    var more := script + [r];
    assert more[|script|] == r && more[..|script|] == script;
    forall i | 0 <= i < |script| ensures Ordinary(script[i], i == 0) && !Run(policy, script[..i]).done {
      assert more[i] == script[i] && more[..i] == script[..i];
    }
  }

  lemma ScriptStep(policy: Policy, shape: Shape, script: seq<Round>, r: Round)
    requires Reached(policy, After(shape, script)) && Ordinary(r, script == []) && !Run(policy, script).done
    ensures Reached(policy, After(shape, script + [r]))
  {
    OpensAgain(policy, script);
    var t := RoundPossible(policy, After(shape, script), r);
  }

  /** Every script of the loop that nobody cancels is one of the whole machine's. */
  lemma {:induction false} EveryScriptIsRun(policy: Policy, shape: Shape, script: seq<Round>)
    requires shape.Valid() && Playable(policy, script)
    ensures Reached(policy, After(shape, script))
  {
    if script == [] {
      Started(policy, shape);
    } else {
      var front, r := script[..|script| - 1], script[|script| - 1];
      assert front + [r] == script;
      PlayableFront(policy, front, r);
      EveryScriptIsRun(policy, shape, front);
      ScriptStep(policy, shape, front, r);
    }
  }

  /** However a pass that meets the cancellation goes on - cut short in its sleep, failing to
      open, or through a session - the machine can take it there. */
  lemma CancelledRoundPossible(policy: Policy, s: System, r: Round) returns (t: System)
    requires Reached(policy, s) && !s.inSession && s.cancelled && !Loop(policy, s).done
    requires r.slept ==> r.cancelledAtOpen && r.cancelledAfterRun
    requires !Loop(policy, s).reacquire ==> r.slept && r.openError.None?
    ensures Reached(policy, t) && t == s.(rounds := s.rounds + [r]) && Loop(policy, t).done
  {
    ReachedOk(policy, s);
    if !r.slept || r.openError.Some? {
      LastPass(policy, s, SkipSession(r));
      t := Then(policy, s, SkipSession(r));
    } else {
      var a := Then(policy, s, BeginSession);
      LastPass(policy, a, EndSession(r));
      t := Then(policy, a, EndSession(r));
    }
  }

  /** A removal: the stream is cancelled in a session; the source begins one more call, which is
      forwarded through the generation still in service; the session ends, and with it the
      supervisor, stopped; and only then is the generation retired. */
  lemma Removal(policy: Policy, topic: string, event: StreamEvent) returns (s: System)
    ensures Reached(policy, s) && s.cancelled && Over(policy, s) && Loop(policy, s).status.Stopped?
    ensures s.path.log == [Single(Item(0, topic, event, true))]
    ensures s.path.current < |s.path.gens| && s.path.gens[s.path.current].phase.Cancelled?
  {
    var b := CancelledInSession(policy);
    var c := Then(policy, b, OnPath(Load(topic, event, true)));
    var d := LateCall(policy, c, topic, event);
    var e := EndOfLoop(policy, d);
    s := Then(policy, e, OnPath(ByRetirer(0, HotSwap.RetireStep.Cancel)));
  }

  lemma CancelledInSession(policy: Policy) returns (s: System)
    ensures Reached(policy, s)
    ensures s == System(Init(Shape(None, false, false)), [], true, true, 1)
  {
    Started(policy, Shape(None, false, false));
    var a := Then(policy, Start(Shape(None, false, false)), BeginSession);
    s := Then(policy, a, CancelContext(1));
  }

  lemma EndOfLoop(policy: Policy, s: System) returns (t: System)
    requires Reached(policy, s) && s.inSession && s.cancelled && NoCallsLeft(s.path) && s.rounds == []
    ensures Reached(policy, t) && t == s.(inSession := false, rounds := [QuietEnd(true)])
    ensures Loop(policy, t).done && Loop(policy, t).status.Stopped?
  {
    ReachedOk(policy, s);
    t := Then(policy, s, EndSession(QuietEnd(true)));
    LoopStep(policy, s, QuietEnd(true));
    assert s.rounds + [QuietEnd(true)] == [QuietEnd(true)];
  }

  lemma OneCallMoves(policy: Policy, s: System, step: CallStep) returns (t: System)
    requires Reached(policy, s) && |s.path.calls| == 1 && CallEnabled(s.path, 0, step)
    requires !step.Enqueue? && !step.Forward?
    ensures Reached(policy, t)
    ensures t == s.(path := s.path.(calls := [CallAfter(s.path.gens[s.path.calls[0].gen], s.path.calls[0], step)]))
  {
    t := Then(policy, s, OnPath(ByCall(0, step)));
  }

  lemma LateCall(policy: Policy, s: System, topic: string, event: StreamEvent) returns (t: System)
    requires Reached(policy, s) && s.path.gens == [NewGen(Shape(None, false, false))]
    requires s.path.calls == [Call(Item(0, topic, event, true), 0, Loaded, false, Undecided)] && s.path.log == []
    ensures Reached(policy, t)
    ensures t == s.(path := s.path.(
      calls := [Call(Item(0, topic, event, true), 0, Returned, false, HotSwap.Outcome.Forwarded)],
      log := [Single(Item(0, topic, event, true))]))
  {
    var a := OneCallMoves(policy, s, Enter);
    var b := OneCallMoves(policy, a, PassDedup);
    var c := OneCallMoves(policy, b, Decide);
    assert c.path.calls == [Call(Item(0, topic, event, true), 0, Forwarding, false, Undecided)];
    t := LateForward(policy, c, Item(0, topic, event, true));
  }

  lemma LateForward(policy: Policy, s: System, item: Item) returns (t: System)
    requires Reached(policy, s) && |s.path.gens| == 1 && s.path.log == []
    requires s.path.calls == [Call(item, 0, Forwarding, false, Undecided)]
    ensures Reached(policy, t)
    ensures t == s.(path := s.path.(
      calls := [Call(item, 0, Returned, false, HotSwap.Outcome.Forwarded)], log := [Single(item)]))
  {
    var d := Then(policy, s, OnPath(ByCall(0, Forward)));
    assert d.path.log == [Single(item)];
    assert d.path.calls == [Call(item, 0, Leaving, false, HotSwap.Outcome.Forwarded)];
    t := OneCallMoves(policy, d, Leave);
  }
}
