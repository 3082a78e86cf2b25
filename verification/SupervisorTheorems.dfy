/**
 What the supervisor guarantees, whatever the source, the clock and the operator do: the
 restart budget, the pairing of Open, Run and Close, the ladder it actually sleeps, and
 the bound on what happens after a cancellation.
 */
module SupervisorTheorems {
  import opened Wrappers
  import opened Restart
  import opened Supervisor

  // ---- reading a trace

  function Restarts(trace: seq<Event>): nat {
    if trace == [] then 0
    else Restarts(trace[..|trace| - 1]) + if trace[|trace| - 1].Restarted? then 1 else 0
  }

  function Resets(trace: seq<Event>): nat {
    if trace == [] then 0
    else Resets(trace[..|trace| - 1]) + if trace[|trace| - 1].Earned? then 1 else 0
  }

  /** The attempts given back by sessions that stayed up. */
  function Surrendered(trace: seq<Event>): nat {
    if trace == [] then 0
    else
      var e := trace[|trace| - 1];
      Surrendered(trace[..|trace| - 1]) + if e.Earned? then e.surrendered else 0
  }

  /** The restarts since the budget was last earned back. */
  function Rung(trace: seq<Event>): nat {
    if trace == [] then 0
    else
      var e := trace[|trace| - 1];
      if e.Earned? then 0 else Rung(trace[..|trace| - 1]) + if e.Restarted? then 1 else 0
  }

  function Sessions(trace: seq<Event>): nat {
    if trace == [] then 0
    else Sessions(trace[..|trace| - 1]) + if trace[|trace| - 1].SessionBegan? then 1 else 0
  }

  function FailedOpens(trace: seq<Event>): nat {
    if trace == [] then 0
    else FailedOpens(trace[..|trace| - 1]) + if trace[|trace| - 1].OpenFailed? then 1 else 0
  }

  /** The source as the trace drives it. It is opened before the supervisor starts. */
  datatype Resource = Held | InSession | Released | Misused

  function After(trace: seq<Event>): Resource {
    if trace == [] then Held
    else
      var r := After(trace[..|trace| - 1]);
      match trace[|trace| - 1]
      case SessionBegan => if r.Held? then InSession else Misused
      case Closed => if r.InSession? then Released else Misused
      case Opened => if r.Released? then Held else Misused
      case OpenFailed => if r.Released? then Released else Misused
      case _ => r
  }

  lemma Push(trace: seq<Event>, e: Event)
    ensures Restarts(trace + [e]) == Restarts(trace) + if e.Restarted? then 1 else 0
    ensures Resets(trace + [e]) == Resets(trace) + if e.Earned? then 1 else 0
    ensures Surrendered(trace + [e]) == Surrendered(trace) + if e.Earned? then e.surrendered else 0
    ensures Rung(trace + [e]) == if e.Earned? then 0 else Rung(trace) + if e.Restarted? then 1 else 0
    ensures Sessions(trace + [e]) == Sessions(trace) + if e.SessionBegan? then 1 else 0
    ensures FailedOpens(trace + [e]) == FailedOpens(trace) + if e.OpenFailed? then 1 else 0
  {
    assert (trace + [e])[..|trace|] == trace;
  }

  lemma PushResource(trace: seq<Event>, e: Event)
    ensures After(trace + [e]) ==
      (var r := After(trace);
       match e
       case SessionBegan => if r.Held? then InSession else Misused
       case Closed => if r.InSession? then Released else Misused
       case Opened => if r.Released? then Held else Misused
       case OpenFailed => if r.Released? then Released else Misused
       case _ => r)
  {
    assert (trace + [e])[..|trace|] == trace;
  }

  // ---- the invariant of the loop

  predicate Budgeted(policy: Policy, s: Sup) {
    && s.restarts == Restarts(s.trace)
    && s.restarts == Surrendered(s.trace) + s.attempt
    && s.attempt == Rung(s.trace)
    && (policy.maxAttempts >= 0 ==>
          s.attempt <= policy.maxAttempts && Surrendered(s.trace) <= policy.maxAttempts * Resets(s.trace))
  }

  predicate Paired(s: Sup) {
    && (After(s.trace) == if s.reacquire then Released else Held)
    && (s.done ==> s.reacquire)
  }

  /** While nobody stops it, every pass ends in a restart or in giving up. */
  predicate Accounted(policy: Policy, s: Sup) {
    && (s.done ==> s.status.Stopped? || s.status.Errored?)
    && (!s.done ==> Sessions(s.trace) + FailedOpens(s.trace) == s.restarts && !s.status.Errored? && !s.status.Stopped?)
    && (s.status.Errored? ==>
          && s.done
          && Sessions(s.trace) + FailedOpens(s.trace) == 1 + s.restarts
          && s.lastError.Some?
          && policy.maxAttempts != UNLIMITED_ATTEMPTS
          && s.attempt >= policy.maxAttempts)
  }

  predicate Kept(policy: Policy, s: Sup) {
    Budgeted(policy, s) && Paired(s) && Accounted(policy, s)
  }

  /** The sleeping half of a pass, and the session half, on what the budget counts. */
  predicate MidPass(policy: Policy, s: Sup) {
    && Budgeted(policy, s)
    && !s.done && !s.status.Errored? && !s.status.Stopped?
    && Sessions(s.trace) + FailedOpens(s.trace) == s.restarts + 1
    && After(s.trace) == Released && s.reacquire
  }

  lemma SpendKeeps(policy: Policy, s: Sup, error: Option<string>)
    requires MidPass(policy, s)
    ensures Kept(policy, Spend(policy, s, error))
  {
    var f := Failure(Reason(error));
    var last := if policy.Next(s.attempt).1 then Restarted else GaveUp;
    Push(s.trace, f);
    Push(s.trace + [f], last);
    PushResource(s.trace, f);
    PushResource(s.trace + [f], last);
    assert s.trace + [f] + [last] == s.trace + [f, last];
  }

  lemma BudgetStep(k: int, resets: nat)
    ensures k * (resets + 1) == k * resets + k
  {
  }

  lemma SessionMid(policy: Policy, s: Sup, cancelled: bool) returns (t: seq<Event>)
    requires Budgeted(policy, s) && !s.done && After(s.trace) == Held
    requires Sessions(s.trace) + FailedOpens(s.trace) == s.restarts
    ensures t == s.trace + [SessionBegan, Closed] + [SawContext(cancelled)]
    ensures Restarts(t) == Restarts(s.trace) && Resets(t) == Resets(s.trace) && Rung(t) == Rung(s.trace)
    ensures Surrendered(t) == Surrendered(s.trace) && FailedOpens(t) == FailedOpens(s.trace)
    ensures Sessions(t) == Sessions(s.trace) + 1 && After(t) == Released
  {
    var a, b := s.trace + [SessionBegan], s.trace + [SessionBegan] + [Closed];
    Push(s.trace, SessionBegan);
    Push(a, Closed);
    Push(b, SawContext(cancelled));
    PushResource(s.trace, SessionBegan);
    PushResource(a, Closed);
    PushResource(b, SawContext(cancelled));
    assert b == s.trace + [SessionBegan, Closed];
    t := b + [SawContext(cancelled)];
  }

  lemma SessionKeeps(policy: Policy, s: Sup, r: Round)
    requires Budgeted(policy, s) && !s.done && After(s.trace) == Held
    requires Sessions(s.trace) + FailedOpens(s.trace) == s.restarts
    ensures Kept(policy, Session(policy, s, r))
  {
    var t := SessionMid(policy, s, r.cancelledAfterRun);
    if !r.cancelledAfterRun {
      var status := if r.readyAt.Some? then Running else Connecting;
      var u := s.(reacquire := true, status := status, trace := t);
      if StayedUp(policy, r) {
        Push(t, Earned(s.attempt));
        PushResource(t, Earned(s.attempt));
        BudgetStep(policy.maxAttempts, Resets(t));
        SpendKeeps(policy, u.(attempt := 0, trace := t + [Earned(s.attempt)]), r.runError);
      } else {
        SpendKeeps(policy, u, r.runError);
      }
    }
  }

  /** The trace of a restart whose Open failed. */
  lemma ReopenFailed(t: seq<Event>, cancelled: bool) returns (u: seq<Event>)
    requires After(t) == Released
    ensures u == t + [OpenFailed] + [SawContext(cancelled)]
    ensures Restarts(u) == Restarts(t) && Resets(u) == Resets(t) && Rung(u) == Rung(t)
    ensures Surrendered(u) == Surrendered(t) && Sessions(u) == Sessions(t)
    ensures FailedOpens(u) == FailedOpens(t) + 1 && After(u) == Released
  {
    Push(t, OpenFailed);
    PushResource(t, OpenFailed);
    Push(t + [OpenFailed], SawContext(cancelled));
    PushResource(t + [OpenFailed], SawContext(cancelled));
    u := t + [OpenFailed] + [SawContext(cancelled)];
  }

  lemma RestartKeeps(policy: Policy, s: Sup, r: Round)
    requires Kept(policy, s) && !s.done && s.reacquire
    ensures Kept(policy, Pass(policy, s, r))
  {
    var slept := Slept(policy.Delay(s.attempt), r.slept);
    var t := s.trace + [slept];
    Push(s.trace, slept);
    PushResource(s.trace, slept);
    if r.slept {
      var w := s.(status := Reconnecting, trace := t);
      if r.openError.None? {
        Push(t, Opened);
        PushResource(t, Opened);
        SessionKeeps(policy, w.(trace := t + [Opened]), r);
      } else {
        var u := ReopenFailed(t, r.cancelledAtOpen);
        assert u == t + [OpenFailed, SawContext(r.cancelledAtOpen)];
        if !r.cancelledAtOpen {
          SpendKeeps(policy, w.(trace := u), r.openError);
        }
      }
    }
  }

  lemma PassKeeps(policy: Policy, s: Sup, r: Round)
    requires Kept(policy, s) && !s.done
    ensures Kept(policy, Pass(policy, s, r))
  {
    if s.reacquire {
      RestartKeeps(policy, s, r);
    } else {
      SessionKeeps(policy, s, r);
    }
  }

  lemma {:induction false} RunKeeps(policy: Policy, script: seq<Round>)
    ensures Kept(policy, Run(policy, script))
  {
    if script != [] {
      var front := script[..|script| - 1];
      RunKeeps(policy, front);
      if !Run(policy, front).done {
        PassKeeps(policy, Run(policy, front), script[|script| - 1]);
      }
    }
  }

  // ---- the budget

  predicate WithinBudget(policy: Policy, s: Sup) {
    policy.maxAttempts >= 0 ==> s.restarts <= policy.maxAttempts * (Resets(s.trace) + 1)
  }

  lemma BudgetBounds(policy: Policy, s: Sup)
    requires Budgeted(policy, s)
    ensures WithinBudget(policy, s)
  {
    BudgetStep(policy.maxAttempts, Resets(s.trace));
  }

  /** The restarts of any run are the attempts surrendered at each reset plus the current
      attempt; so a budget of k allows at most k restarts per reset, and k more. */
  lemma RestartBudget(policy: Policy, script: seq<Round>)
    ensures Run(policy, script).restarts == Surrendered(Run(policy, script).trace) + Run(policy, script).attempt
    ensures WithinBudget(policy, Run(policy, script))
  {
    RunKeeps(policy, script);
    BudgetBounds(policy, Run(policy, script));
  }

  /** An unlimited policy never gives up. */
  lemma UnlimitedNeverFails(policy: Policy, script: seq<Round>)
    requires policy.maxAttempts == UNLIMITED_ATTEMPTS
    ensures !Run(policy, script).status.Errored?
  {
    RunKeeps(policy, script);
  }

  // ---- what earns the budget back, told by the rounds' own times

  /** A round in which nobody cancels. */
  predicate Undisturbed(r: Round) {
    r.slept && !r.cancelledAtOpen && !r.cancelledAfterRun
  }

  /** The session became ready, at a positive time, and ended at least resetAfter later. */
  predicate Lasts(policy: Policy, r: Round) {
    exists t: int :: r.readyAt == Some(t) && 0 < t <= r.endedAt - policy.resetAfter
  }

  lemma StayedUpIff(policy: Policy, r: Round)
    ensures StayedUp(policy, r) <==> Lasts(policy, r)
  {
    if StayedUp(policy, r) {
      var t := r.readyAt.value;
      assert r.readyAt == Some(t) && 0 < t <= r.endedAt - policy.resetAfter;
    }
  }

  /** A round in which nobody cancels and no session lasts. */
  predicate Flapping(policy: Policy, r: Round) {
    Undisturbed(r) && !Lasts(policy, r)
  }

  lemma FlappingPass(policy: Policy, s: Sup, r: Round)
    requires !s.done && s.attempt == s.restarts && Flapping(policy, r) && policy.maxAttempts >= 0
    ensures var t := Pass(policy, s, r);
      if s.attempt < policy.maxAttempts
      then !t.done && t.attempt == t.restarts == s.restarts + 1
      else t.done && t.status.Errored? && t.restarts == s.restarts
  {
    StayedUpIff(policy, r);
  }

  /** A source none of whose sessions lasts is given up after exactly k restarts, in pass
      k + 1: never before, and always by then. */
  lemma {:induction false} FlappingIsGivenUp(policy: Policy, script: seq<Round>)
    requires policy.maxAttempts >= 0
    requires forall i :: 0 <= i < |script| ==> Flapping(policy, script[i])
    ensures var s := Run(policy, script);
      if |script| <= policy.maxAttempts then !s.done && s.attempt == s.restarts == |script|
      else s.done && s.status.Errored? && s.restarts == policy.maxAttempts
  {
    if script != [] {
      var n := |script| - 1;
      FlappingIsGivenUp(policy, script[..n]);
      if !Run(policy, script[..n]).done {
        FlappingPass(policy, Run(policy, script[..n]), script[n]);
      }
    }
  }

  lemma LastingPass(policy: Policy, s: Sup, r: Round)
    requires !s.done && Undisturbed(r) && r.openError.None? && Lasts(policy, r)
    requires policy.maxAttempts >= 1 || policy.maxAttempts == UNLIMITED_ATTEMPTS
    ensures var t := Pass(policy, s, r); !t.done && t.attempt == 1 && t.restarts == s.restarts + 1
    ensures Surrendered(Pass(policy, s, r).trace) == Surrendered(s.trace) + s.attempt
    ensures Resets(Pass(policy, s, r).trace) == Resets(s.trace) + 1
  {
    StayedUpIff(policy, r);
    PassCounts(policy, s, r);
  }

  /** With a budget of at least one, a source all of whose sessions last is never given up,
      and at the end of each session gives back the attempt it took to get it. */
  lemma {:induction false} LastingIsNeverGivenUp(policy: Policy, script: seq<Round>)
    requires policy.maxAttempts >= 1 || policy.maxAttempts == UNLIMITED_ATTEMPTS
    requires forall i :: 0 <= i < |script| ==>
      Undisturbed(script[i]) && script[i].openError.None? && Lasts(policy, script[i])
    ensures var s := Run(policy, script);
      && !s.done && s.restarts == Resets(s.trace) == |script|
      && (script != [] ==> s.attempt == 1 && Surrendered(s.trace) == |script| - 1)
  {
    if script != [] {
      var n := |script| - 1;
      LastingIsNeverGivenUp(policy, script[..n]);
      LastingPass(policy, Run(policy, script[..n]), script[n]);
      RunKeeps(policy, script[..n]);
    }
  }

  /** Whether the i-th round is run, has a session - the first always has, for admission
      opened the source - and its end finds the context uncancelled and the session lasting. */
  predicate Earns(policy: Policy, script: seq<Round>, i: nat)
    requires i < |script|
  {
    && !Run(policy, script[..i]).done
    && (i == 0 || (script[i].slept && script[i].openError.None?))
    && !script[i].cancelledAfterRun
    && Lasts(policy, script[i])
  }

  function Earnings(policy: Policy, script: seq<Round>): nat {
    if script == [] then 0
    else Earnings(policy, script[..|script| - 1]) + if Earns(policy, script, |script| - 1) then 1 else 0
  }

  /** The events a pass adds, one at a time. */
  lemma PassCounts(policy: Policy, s: Sup, r: Round)
    requires !s.done
    ensures var session := !s.reacquire || (r.slept && r.openError.None?);
      var earns := session && !r.cancelledAfterRun && StayedUp(policy, r);
      && Resets(Pass(policy, s, r).trace) == Resets(s.trace) + (if earns then 1 else 0)
      && Surrendered(Pass(policy, s, r).trace) == Surrendered(s.trace) + (if earns then s.attempt else 0)
  {
    if !s.reacquire {
      SessionCounts(policy, s, r);
    } else {
      var t := s.trace + [Slept(policy.Delay(s.attempt), r.slept)];
      Push(s.trace, Slept(policy.Delay(s.attempt), r.slept));
      if r.slept && r.openError.None? {
        Push(t, Opened);
        SessionCounts(policy, s.(status := Reconnecting, trace := t + [Opened]), r);
      } else if r.slept {
        PushTwo(t, OpenFailed, SawContext(r.cancelledAtOpen));
        if !r.cancelledAtOpen {
          SpendCounts(policy, s.(status := Reconnecting, trace := t + [OpenFailed, SawContext(false)]), r.openError);
        } else {
          assert t + [OpenFailed] + [SawContext(true)] == t + [OpenFailed, SawContext(true)];
        }
      }
    }
  }

  lemma PushTwo(trace: seq<Event>, e: Event, f: Event)
    requires !e.Earned? && !f.Earned?
    ensures Resets(trace + [e, f]) == Resets(trace) && Surrendered(trace + [e, f]) == Surrendered(trace)
  {
    Push(trace, e);
    Push(trace + [e], f);
    assert trace + [e] + [f] == trace + [e, f];
  }

  lemma SpendCounts(policy: Policy, s: Sup, error: Option<string>)
    ensures Resets(Spend(policy, s, error).trace) == Resets(s.trace)
    ensures Surrendered(Spend(policy, s, error).trace) == Surrendered(s.trace)
  {
    PushTwo(s.trace, Failure(Reason(error)), if policy.Next(s.attempt).1 then Restarted else GaveUp);
  }

  lemma SessionCounts(policy: Policy, s: Sup, r: Round)
    ensures var earns := !r.cancelledAfterRun && StayedUp(policy, r);
      && Resets(Session(policy, s, r).trace) == Resets(s.trace) + (if earns then 1 else 0)
      && Surrendered(Session(policy, s, r).trace) == Surrendered(s.trace) + (if earns then s.attempt else 0)
  {
    var t := s.trace + [SessionBegan, Closed];
    PushTwo(s.trace, SessionBegan, Closed);
    Push(t, SawContext(r.cancelledAfterRun));
    if !r.cancelledAfterRun {
      var u := t + [SawContext(false)];
      Push(u, Earned(s.attempt));
      var up := s.(reacquire := true, status := if r.readyAt.Some? then Running else Connecting, trace := u);
      var v := if StayedUp(policy, r) then up.(attempt := 0, trace := u + [Earned(s.attempt)]) else up;
      SpendCounts(policy, v, r.runError);
    }
  }

  lemma PassOpens(policy: Policy, s: Sup, r: Round)
    ensures Pass(policy, s, r).reacquire
  {
  }

  lemma {:induction false} OpensAgain(policy: Policy, script: seq<Round>)
    ensures Run(policy, script).reacquire <==> script != []
  {
    if script != [] {
      var n := |script| - 1;
      OpensAgain(policy, script[..n]);
      if Run(policy, script[..n]).done {
        RunKeeps(policy, script[..n]);
      } else {
        PassOpens(policy, Run(policy, script[..n]), script[n]);
      }
    }
  }

  /** In every run the budget is earned back exactly as often as a session lasted. */
  lemma {:induction false} EarnedByLasting(policy: Policy, script: seq<Round>)
    ensures Resets(Run(policy, script).trace) == Earnings(policy, script)
  {
    if script != [] {
      var n := |script| - 1;
      var s := Run(policy, script[..n]);
      EarnedByLasting(policy, script[..n]);
      OpensAgain(policy, script[..n]);
      if !s.done {
        PassCounts(policy, s, script[n]);
        StayedUpIff(policy, script[n]);
      }
    }
  }

  // ---- what the stream shows

  /** Between two passes the runtime says how the last one went, and why. */
  lemma ShowsLastRound(policy: Policy, script: seq<Round>)
    requires script != [] && !Run(policy, script).done
    ensures var s, r := Run(policy, script), script[|script| - 1];
      var session := |script| == 1 || r.openError.None?;
      && s.status == (if !session then Reconnecting else if r.readyAt.Some? then Running else Connecting)
      && s.lastError == Some((if session then r.runError else r.openError).GetOr(ERR_SESSION_CLOSED))
  {
    OpensAgain(policy, script[..|script| - 1]);
  }

  // ---- resources

  /** At every moment of every run the source is used in order: Run only while it is open
      and unused, one Close after each Run, no Open before the Close. When the supervisor
      ends nothing is held; and when it gives up, every session and every failed Open has
      been paid for, and the reason is recorded. */
  lemma ResourcesPaired(policy: Policy, script: seq<Round>)
    ensures var s := Run(policy, script);
      && (forall n :: 0 <= n <= |s.trace| ==> !After(s.trace[..n]).Misused?)
      && (s.done ==> After(s.trace) == Released)
      && (s.status.Errored? ==>
            1 + s.restarts == Sessions(s.trace) + FailedOpens(s.trace) && s.lastError.Some?)
  {
    RunKeeps(policy, script);
    var trace := Run(policy, script).trace;
    forall n | 0 <= n <= |trace| ensures !After(trace[..n]).Misused? {
      MisuseShows(trace, n);
    }
  }

  lemma {:induction false} MisuseShows(trace: seq<Event>, n: nat)
    requires n <= |trace| && !After(trace).Misused?
    ensures !After(trace[..n]).Misused?
  {
    if n < |trace| {
      assert trace[..|trace| - 1][..n] == trace[..n];
      MisuseShows(trace[..|trace| - 1], n);
    } else {
      assert trace[..n] == trace;
    }
  }

  // ---- the ladder actually slept

  /** Every backoff is the ladder's delay for the restarts since the last reset. */
  predicate OnLadder(policy: Policy, trace: seq<Event>) {
    trace == [] ||
    var front, e := trace[..|trace| - 1], trace[|trace| - 1];
    OnLadder(policy, front) && (e.Slept? ==> e.d == policy.Delay(Rung(front)))
  }

  lemma {:induction false} LadderPlus(policy: Policy, trace: seq<Event>, more: seq<Event>)
    requires OnLadder(policy, trace) && forall i :: 0 <= i < |more| ==> !more[i].Slept?
    ensures OnLadder(policy, trace + more)
  {
    if more == [] {
      assert trace + more == trace;
    } else {
      var n := |more| - 1;
      LadderPlus(policy, trace, more[..n]);
      assert (trace + more)[..|trace| + n] == trace + more[..n];
    }
  }

  lemma SessionOnLadder(policy: Policy, s: Sup, r: Round)
    requires OnLadder(policy, s.trace)
    ensures OnLadder(policy, Session(policy, s, r).trace)
  {
    var t := s.trace + [SessionBegan, Closed];
    LadderPlus(policy, s.trace, [SessionBegan, Closed]);
    LadderPlus(policy, t, [SawContext(r.cancelledAfterRun)]);
    if !r.cancelledAfterRun {
      var u := t + [SawContext(false)];
      LadderPlus(policy, u, [Earned(s.attempt)]);
      var earned := StayedUp(policy, r);
      var v := if earned then u + [Earned(s.attempt)] else u;
      var failure := Failure(Reason(r.runError));
      LadderPlus(policy, v, [failure, if policy.Next(if earned then 0 else s.attempt).1 then Restarted else GaveUp]);
    }
  }

  lemma PassOnLadder(policy: Policy, s: Sup, r: Round)
    requires Kept(policy, s) && OnLadder(policy, s.trace)
    ensures OnLadder(policy, Pass(policy, s, r).trace)
  {
    if !s.reacquire {
      SessionOnLadder(policy, s, r);
    } else {
      var t := s.trace + [Slept(policy.Delay(s.attempt), r.slept)];
      assert t[..|t| - 1] == s.trace;
      if r.slept && r.openError.None? {
        LadderPlus(policy, t, [Opened]);
        SessionOnLadder(policy, s.(status := Reconnecting, trace := t + [Opened]), r);
      } else if r.slept {
        var u := Pass(policy, s, r).trace;
        assert u == t + u[|t|..];
        LadderPlus(policy, t, u[|t|..]);
      }
    }
  }

  lemma {:induction false} RunOnLadder(policy: Policy, script: seq<Round>)
    ensures OnLadder(policy, Run(policy, script).trace)
  {
    if script != [] {
      var front := script[..|script| - 1];
      RunOnLadder(policy, front);
      RunKeeps(policy, front);
      if !Run(policy, front).done {
        PassOnLadder(policy, Run(policy, front), script[|script| - 1]);
      }
    }
  }

  lemma {:induction false} LadderAt(policy: Policy, trace: seq<Event>, i: nat)
    requires OnLadder(policy, trace) && i < |trace| && trace[i].Slept?
    ensures trace[i].d == policy.Delay(Rung(trace[..i]))
  {
    var n := |trace| - 1;
    if i < n {
      assert trace[..n][..i] == trace[..i];
      LadderAt(policy, trace[..n], i);
    }
  }

  /** In every run, the wait before the n-th restart since the last reset is the n-th rung of
      the ladder, between the configured floor and cap. */
  lemma SleepsTheLadder(policy: Policy, script: seq<Round>, i: nat)
    requires i < |Run(policy, script).trace| && Run(policy, script).trace[i].Slept?
    ensures var trace := Run(policy, script).trace;
      && trace[i].d == policy.Delay(Rung(trace[..i]))
      && (policy.Sound() ==>
            && trace[i].d == Ladder(policy, Rung(trace[..i])).Floor
            && policy.initialBackoff <= trace[i].d <= policy.maxBackoff)
  {
    var trace := Run(policy, script).trace;
    RunOnLadder(policy, script);
    LadderAt(policy, trace, i);
    if policy.Sound() {
      DelayBounded(policy, Rung(trace[..i]));
      DelayIsRung(policy, Rung(trace[..i]));
    }
  }

  /** Nothing was earned back from the i-th event to before the j-th. */
  predicate NoneEarned(trace: seq<Event>, i: nat, j: nat) {
    forall k :: i <= k < j && k < |trace| ==> !trace[k].Earned?
  }

  lemma {:induction false} RungGrows(trace: seq<Event>, i: nat, j: nat)
    requires i <= j <= |trace| && NoneEarned(trace, i, j)
    ensures Rung(trace[..i]) <= Rung(trace[..j])
    decreases j - i
  {
    if i < j {
      RungGrows(trace, i, j - 1);
      Push(trace[..j - 1], trace[j - 1]);
      assert trace[..j] == trace[..j - 1] + [trace[j - 1]];
    }
  }

  /** Until the budget is earned back, no wait of a run is shorter than one before it. */
  lemma WaitsGrow(policy: Policy, script: seq<Round>, i: nat, j: nat)
    requires policy.Sound() && i <= j < |Run(policy, script).trace|
    requires Run(policy, script).trace[i].Slept? && Run(policy, script).trace[j].Slept?
    requires NoneEarned(Run(policy, script).trace, i, j)
    ensures Run(policy, script).trace[i].d <= Run(policy, script).trace[j].d
  {
    var trace := Run(policy, script).trace;
    SleepsTheLadder(policy, script, i);
    SleepsTheLadder(policy, script, j);
    RungGrows(trace, i, j);
    DelayMonotone(policy, Rung(trace[..i]), Rung(trace[..j]));
  }
}
