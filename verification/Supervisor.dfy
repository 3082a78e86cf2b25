/**
 The supervisor: the only retry loop of the process. Its environment - the source, the
 clock, the operator - is a script of rounds, one per pass of the loop, and the run is a
 trace of what happened, in order. Nothing is assumed of the script, so a statement about
 every script is a statement about every finite part of every run.
 */
module Supervisor {
  import opened Wrappers
  import opened Restart

  const ERR_SESSION_CLOSED := "session ended without reporting an error"

  datatype Status = Connecting | Running | Reconnecting | Stopped | Errored

  /** What one pass meets: whether the backoff was slept through, how Open ended and whether
      the context was cancelled when a failed Open was examined, when ready was called, if
      ever, when and how Run ended, and whether the context was cancelled by then. */
  datatype Round = Round(
    slept: bool,
    openError: Option<string>,
    cancelledAtOpen: bool,
    readyAt: Option<int>,
    endedAt: int,
    runError: Option<string>,
    cancelledAfterRun: bool)

  datatype Event =
    | Slept(d: int, through: bool)
    | Opened
    | OpenFailed
    | SawContext(cancelled: bool)   // ctx.Err() was read
    | SessionBegan
    | Closed
    | Earned(surrendered: nat)      // the session stayed up: the attempt count goes back to 0
    | Failure(reason: string)
    | Restarted
    | GaveUp

  /** The supervisor between two passes. `restarts`, `status` and `lastError` are the fields
      of the stream's runtime; the rest are the loop's own variables and its history. */
  datatype Sup = Sup(
    attempt: nat,
    reacquire: bool,
    restarts: nat,
    status: Status,
    lastError: Option<string>,
    done: bool,
    trace: seq<Event>)

  /** What is known right after admission, which opened the source. */
  function Admitted(): Sup {
    Sup(0, false, 0, Connecting, None, false, [])
  }

  function Reason(error: Option<string>): string {
    error.GetOr(ERR_SESSION_CLOSED)
  }

  function StayedUp(policy: Policy, r: Round): bool {
    r.readyAt.GetOr(0) > 0 && r.endedAt - r.readyAt.GetOr(0) >= policy.resetAfter
  }

  /** The tail every failed pass shares: record, then spend an attempt or give up. */
  function Spend(policy: Policy, s: Sup, error: Option<string>): Sup {
    var t := s.(lastError := Some(Reason(error)));
    var (next, ok) := policy.Next(s.attempt);
    if ok then
      t.(attempt := next, restarts := s.restarts + 1, trace := s.trace + [Failure(Reason(error)), Restarted])
    else
      t.(status := Errored, done := true, trace := s.trace + [Failure(Reason(error)), GaveUp])
  }

  function Halt(s: Sup, seen: Event): Sup {
    s.(status := Stopped, done := true, trace := s.trace + [seen])
  }

  /** From the moment the source is open: one session, and what follows from its end. */
  function Session(policy: Policy, s: Sup, r: Round): Sup {
    SessionEnd(policy,
               s.(reacquire := true,
                  status := if r.readyAt.Some? then Running else Connecting,
                  trace := s.trace + [SessionBegan, Closed]),
               r)
  }

  /** What follows from the end of a session. */
  function SessionEnd(policy: Policy, up: Sup, r: Round): Sup {
    if r.cancelledAfterRun then Halt(up, SawContext(true))
    else
      var t := up.(trace := up.trace + [SawContext(false)]);
      var u := if StayedUp(policy, r) then t.(attempt := 0, trace := t.trace + [Earned(t.attempt)]) else t;
      Spend(policy, u, r.runError)
  }

  /** One pass of the loop. */
  function Pass(policy: Policy, s: Sup, r: Round): Sup {
    if !s.reacquire then Session(policy, s, r)
    else
      var d := policy.Delay(s.attempt);
      var w := s.(status := Reconnecting);
      if !r.slept then Halt(w, Slept(d, false))
      else
        var t := w.(trace := s.trace + [Slept(d, true)]);
        if r.openError.None? then Session(policy, t.(trace := t.trace + [Opened]), r)
        else if r.cancelledAtOpen then Halt(t.(trace := t.trace + [OpenFailed]), SawContext(true))
        else Spend(policy, t.(trace := t.trace + [OpenFailed, SawContext(false)]), r.openError)
  }

  function Run(policy: Policy, script: seq<Round>): Sup {
    if script == [] then Admitted()
    else
      var before := Run(policy, script[..|script| - 1]);
      if before.done then before else Pass(policy, before, script[|script| - 1])
  }

  lemma RunSnoc(policy: Policy, script: seq<Round>, r: Round)
    ensures Run(policy, script + [r]) ==
      if Run(policy, script).done then Run(policy, script) else Pass(policy, Run(policy, script), r)
  {
    assert (script + [r])[..|script|] == script;
  }

  lemma OneMore(script: seq<Round>, more: seq<Round>)
    requires more != []
    ensures script + more[..|more| - 1] + [more[|more| - 1]] == script + more
  {
  }

  lemma {:induction false} DoneStays(policy: Policy, script: seq<Round>, more: seq<Round>)
    requires Run(policy, script).done
    ensures Run(policy, script + more) == Run(policy, script)
  {
    if more == [] {
      assert script + more == script;
    } else {
      var front, r := more[..|more| - 1], more[|more| - 1];
      DoneStays(policy, script, front);
      RunSnoc(policy, script + front, r);
      OneMore(script, more);
    }
  }

  lemma Ended(policy: Policy, script: seq<Round>, i: nat)
    requires i <= |script| && (i == |script| || Run(policy, script[..i]).done)
    ensures Run(policy, script) == Run(policy, script[..i])
  {
    assert script == script[..i] + script[i..];
    if i == |script| {
      assert script[..i] == script;
    } else {
      DoneStays(policy, script[..i], script[i..]);
    }
  }

  lemma PrefixGrows(script: seq<Round>, i: nat)
    requires i < |script|
    ensures script[..i] + [script[i]] == script[..i + 1]
  {
  }

  /** The loop of supervise, run against a script; `done` is its return. */
  method Supervise(policy: Policy, script: seq<Round>) returns (s: Sup)
    ensures s == Run(policy, script)
  {
    var attempt, restarts, status, lastError := 0, 0, Connecting, None;
    var reacquire, done, trace := false, false, [];
    var i := 0;
    ghost var seen, spec := [], Admitted();
    while i < |script| && !done
      invariant 0 <= i <= |script|
      invariant seen == script[..i] && spec == Run(policy, seen)
      invariant spec == Sup(attempt, reacquire, restarts, status, lastError, done, trace)
    {
      var r := script[i];
      RunSnoc(policy, seen, r);
      PrefixGrows(script, i);
      seen, spec := seen + [r], Pass(policy, spec, r);
      i := i + 1;
      if reacquire {
        status := Reconnecting;
        trace := trace + [Slept(policy.Delay(attempt), r.slept)];
        if !r.slept {
          status, done := Stopped, true;
          continue;
        }
        if r.openError.Some? {
          trace := trace + [OpenFailed];
          if r.cancelledAtOpen {
            status, done, trace := Stopped, true, trace + [SawContext(true)];
            continue;
          }
          trace := trace + [SawContext(false)];
          lastError := r.openError;
          var (next, ok) := policy.Next(attempt);
          if !ok {
            status, done, trace := Errored, true, trace + [Failure(Reason(r.openError)), GaveUp];
            continue;
          }
          attempt, restarts, trace := next, restarts + 1, trace + [Failure(Reason(r.openError)), Restarted];
          continue;
        }
        trace := trace + [Opened];
      }
      reacquire := true;
      status := Connecting;
      if r.readyAt.Some? {
        status := Running;
      }
      trace := trace + [SessionBegan, Closed];
      if r.cancelledAfterRun {
        status, done, trace := Stopped, true, trace + [SawContext(true)];
        continue;
      }
      trace := trace + [SawContext(false)];
      var ra := r.readyAt.GetOr(0);
      if ra > 0 && r.endedAt - ra >= policy.resetAfter {
        attempt, trace := 0, trace + [Earned(attempt)];
      }
      lastError := Some(Reason(r.runError));
      var (next, ok) := policy.Next(attempt);
      if !ok {
        status, done, trace := Errored, true, trace + [Failure(Reason(r.runError)), GaveUp];
        continue;
      }
      attempt, restarts, trace := next, restarts + 1, trace + [Failure(Reason(r.runError)), Restarted];
    }
    Ended(policy, script, i);
    s := Sup(attempt, reacquire, restarts, status, lastError, done, trace);
  }
}
