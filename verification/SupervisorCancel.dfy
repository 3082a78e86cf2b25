/**
 What a cancellation still lets happen. It may fall between any two events of the trace;
 every look at the context after it sees it, and a sleep is cut short only by it - though
 a sleep after it may also run through, the timer and the cancellation racing.
 */
module SupervisorCancel {
  import opened Wrappers
  import opened Restart
  import opened Supervisor
  import opened SupervisorTheorems

  /** The trace fits a cancellation that fell just before its event p. */
  predicate CancelledAt(trace: seq<Event>, p: nat) {
    forall i :: 0 <= i < |trace| ==>
      && (trace[i].SawContext? ==> (trace[i].cancelled <==> i >= p))
      && (trace[i].Slept? && !trace[i].through ==> i >= p)
  }

  /** The event by which the supervisor notices a cancellation. */
  predicate Notices(e: Event) {
    e.SawContext? || (e.Slept? && !e.through)
  }

  function Opens(trace: seq<Event>): nat {
    if trace == [] then 0
    else
      var e := trace[|trace| - 1];
      Opens(trace[..|trace| - 1]) + if e.Opened? || e.OpenFailed? then 1 else 0
  }

  /** At most one of each. */
  predicate AtMostOnce(trace: seq<Event>) {
    Restarts(trace) <= 1 && Opens(trace) <= 1 && Sessions(trace) <= 1
  }

  predicate NoneBegun(trace: seq<Event>) {
    Opens(trace) == 0 && Sessions(trace) == 0
  }

  lemma {:induction false} CountsAdd(a: seq<Event>, b: seq<Event>)
    ensures Restarts(a + b) == Restarts(a) + Restarts(b)
    ensures Opens(a + b) == Opens(a) + Opens(b)
    ensures Sessions(a + b) == Sessions(a) + Sessions(b)
  {
    if b == [] {
      assert a + b == a;
    } else {
      var n := |b| - 1;
      CountsAdd(a, b[..n]);
      assert (a + b)[..|a| + n] == a + b[..n];
    }
  }

  lemma SuffixCountsLess(trace: seq<Event>, p: nat)
    requires p <= |trace|
    ensures Restarts(trace[p..]) <= Restarts(trace)
    ensures Opens(trace[p..]) <= Opens(trace)
    ensures Sessions(trace[p..]) <= Sessions(trace)
  {
    assert trace[..p] + trace[p..] == trace;
    CountsAdd(trace[..p], trace[p..]);
  }

  lemma OneEvent(e: Event)
    ensures Restarts([e]) == if e.Restarted? then 1 else 0
    ensures Opens([e]) == if e.Opened? || e.OpenFailed? then 1 else 0
    ensures Sessions([e]) == if e.SessionBegan? then 1 else 0
  {
    assert [e][..0] == [];
  }

  /** What a pass adds to the trace: up to the first look at the context that decides it,
      that look, and what follows it. */
  function Before(s: Sup, policy: Policy, r: Round): seq<Event> {
    var d := policy.Delay(s.attempt);
    if !s.reacquire then [SessionBegan, Closed]
    else if !r.slept then []
    else if r.openError.None? then [Slept(d, true), Opened, SessionBegan, Closed]
    else [Slept(d, true), OpenFailed]
  }

  function Look(s: Sup, policy: Policy, r: Round): Event {
    if s.reacquire && !r.slept then Slept(policy.Delay(s.attempt), false)
    else if s.reacquire && r.openError.Some? then SawContext(r.cancelledAtOpen)
    else SawContext(r.cancelledAfterRun)
  }

  function Afterwards(s: Sup, policy: Policy, r: Round): seq<Event> {
    var unopened := s.reacquire && r.openError.Some?;
    var earned := !unopened && StayedUp(policy, r);
    if Look(s, policy, r) != SawContext(false) then []
    else (if earned then [Earned(s.attempt)] else []) +
         Spent(policy, if earned then 0 else s.attempt, if unopened then r.openError else r.runError)
  }

  function Spent(policy: Policy, attempt: nat, error: Option<string>): seq<Event> {
    [Failure(Reason(error)), if policy.Next(attempt).1 then Restarted else GaveUp]
  }

  lemma SessionShape(policy: Policy, s: Sup, r: Round)
    ensures Session(policy, s, r).trace == s.trace + ([SessionBegan, Closed] + [SawContext(r.cancelledAfterRun)] +
      if r.cancelledAfterRun then []
      else (if StayedUp(policy, r) then [Earned(s.attempt)] else []) +
           Spent(policy, if StayedUp(policy, r) then 0 else s.attempt, r.runError))
  {
  }

  lemma PassShape(policy: Policy, s: Sup, r: Round)
    requires !s.done
    ensures Pass(policy, s, r).trace ==
      s.trace + (Before(s, policy, r) + [Look(s, policy, r)] + Afterwards(s, policy, r))
  {
    if !s.reacquire {
      SessionShape(policy, s, r);
    } else if r.slept && r.openError.None? {
      var d := policy.Delay(s.attempt);
      SessionShape(policy, s.(status := Reconnecting, trace := s.trace + [Slept(d, true)] + [Opened]), r);
      ReopenedShape(s.trace, d, [Look(s, policy, r)], Afterwards(s, policy, r));
    }
  }

  lemma ReopenedShape(trace: seq<Event>, d: int, look: seq<Event>, after: seq<Event>)
    ensures trace + [Slept(d, true)] + [Opened] + ([SessionBegan, Closed] + look + after)
         == trace + ([Slept(d, true), Opened, SessionBegan, Closed] + look + after)
  {
  }

  lemma PassEnds(policy: Policy, s: Sup, r: Round)
    requires !s.done
    ensures var look, after, t := Look(s, policy, r), Afterwards(s, policy, r), Pass(policy, s, r);
      if look == SawContext(false)
      then !t.status.Stopped? && (forall i :: 0 <= i < |after| ==> !Notices(after[i]))
      else t.done && t.status.Stopped? && after == []
  {
  }

  lemma SpentCounts(policy: Policy, attempt: nat, error: Option<string>)
    ensures NoneBegun(Spent(policy, attempt, error)) && Restarts(Spent(policy, attempt, error)) <= 1
  {
    var spent := Spent(policy, attempt, error);
    OneEvent(spent[0]);
    OneEvent(spent[1]);
    CountsAdd([spent[0]], [spent[1]]);
    assert [spent[0]] + [spent[1]] == spent;
  }

  lemma AfterwardsCounts(policy: Policy, s: Sup, r: Round)
    ensures NoneBegun(Afterwards(s, policy, r)) && Restarts(Afterwards(s, policy, r)) <= 1
  {
    if Look(s, policy, r) == SawContext(false) {
      var unopened := s.reacquire && r.openError.Some?;
      var earned := !unopened && StayedUp(policy, r);
      var attempt, error := if earned then 0 else s.attempt, if unopened then r.openError else r.runError;
      SpentCounts(policy, attempt, error);
      OneEvent(Earned(s.attempt));
      CountsAdd(if earned then [Earned(s.attempt)] else [], Spent(policy, attempt, error));
    }
  }

  lemma BeforeCounts(policy: Policy, s: Sup, r: Round)
    ensures Restarts(Before(s, policy, r) + [Look(s, policy, r)]) == 0
    ensures Opens(Before(s, policy, r) + [Look(s, policy, r)]) <= 1
    ensures Sessions(Before(s, policy, r) + [Look(s, policy, r)]) <= 1
  {
    var b, look := Before(s, policy, r), Look(s, policy, r);
    OneEvent(look);
    CountsAdd(b, [look]);
    SessionPair();
    if s.reacquire && r.slept {
      var slept := Slept(policy.Delay(s.attempt), true);
      OneEvent(slept);
      OneEvent(Opened);
      OneEvent(OpenFailed);
      CountsAdd([slept], [Opened]);
      CountsAdd([slept], [OpenFailed]);
      CountsAdd([slept] + [Opened], [SessionBegan, Closed]);
      assert [slept] + [Opened] + [SessionBegan, Closed] == [slept, Opened, SessionBegan, Closed];
      assert [slept] + [OpenFailed] == [slept, OpenFailed];
    }
  }

  lemma SessionPair()
    ensures Restarts([SessionBegan, Closed]) == 0 && Opens([SessionBegan, Closed]) == 0
    ensures Sessions([SessionBegan, Closed]) == 1
  {
    OneEvent(SessionBegan);
    OneEvent(Closed);
    CountsAdd([SessionBegan], [Closed]);
    assert [SessionBegan] + [Closed] == [SessionBegan, Closed];
  }

  /** A pass that begins after the cancellation ends the run, stopped, without a restart. */
  lemma PassAfterCancel(policy: Policy, s: Sup, r: Round, p: nat)
    requires !s.done && p <= |s.trace| && CancelledAt(Pass(policy, s, r).trace, p)
    ensures Pass(policy, s, r).done && Pass(policy, s, r).status.Stopped?
    ensures var more := Pass(policy, s, r).trace[|s.trace|..];
      Restarts(more) == 0 && Opens(more) <= 1 && Sessions(more) <= 1
  {
    var t := Pass(policy, s, r);
    PassShape(policy, s, r);
    PassEnds(policy, s, r);
    BeforeCounts(policy, s, r);
    var at := |s.trace| + |Before(s, policy, r)|;
    assert t.trace[at] == Look(s, policy, r);
    assert t.trace[|s.trace|..] == Before(s, policy, r) + [Look(s, policy, r)];
  }

  /** What is left of a pass from p on. */
  lemma CutCounts(trace: seq<Event>, before: seq<Event>, after: seq<Event>, p: nat)
    requires |trace| <= p <= |trace| + |before| + |after|
    requires Restarts(before) == 0 && Opens(before) <= 1 && Sessions(before) <= 1
    requires NoneBegun(after) && Restarts(after) <= 1
    ensures AtMostOnce((trace + (before + after))[p..])
    ensures p >= |trace| + |before| ==> NoneBegun((trace + (before + after))[p..])
  {
    if p >= |trace| + |before| {
      DropTwo(trace, before, after, p);
      SuffixCountsLess(after, p - |trace| - |before|);
    } else {
      DropPrefix(trace, before + after, p);
      CountsAdd(before, after);
      SuffixCountsLess(before + after, p - |trace|);
    }
  }

  /** If the run goes on, the cancellation came after the pass's look at the context. */
  lemma LookedBefore(policy: Policy, s: Sup, r: Round, p: nat)
    requires !s.done && CancelledAt(Pass(policy, s, r).trace, p) && !Pass(policy, s, r).done
    ensures p >= |s.trace| + |Before(s, policy, r)| + 1
  {
    PassShape(policy, s, r);
    PassEnds(policy, s, r);
    assert Pass(policy, s, r).trace[|s.trace| + |Before(s, policy, r)|] == Look(s, policy, r);
  }

  /** A pass the cancellation falls into: one of each at most, and if it does not end the
      run, neither an Open nor a session any more. */
  lemma PassDuringCancel(policy: Policy, s: Sup, r: Round, p: nat)
    requires !s.done && |s.trace| < p <= |Pass(policy, s, r).trace|
    requires CancelledAt(Pass(policy, s, r).trace, p)
    ensures AtMostOnce(Pass(policy, s, r).trace[p..])
    ensures !Pass(policy, s, r).done ==> NoneBegun(Pass(policy, s, r).trace[p..])
  {
    PassShape(policy, s, r);
    BeforeCounts(policy, s, r);
    AfterwardsCounts(policy, s, r);
    CutCounts(s.trace, Before(s, policy, r) + [Look(s, policy, r)], Afterwards(s, policy, r), p);
    if !Pass(policy, s, r).done {
      LookedBefore(policy, s, r, p);
    }
  }

  lemma DropPrefix(a: seq<Event>, b: seq<Event>, p: nat)
    requires |a| <= p <= |a| + |b|
    ensures (a + b)[p..] == b[p - |a|..]
  {
  }

  lemma DropTwo(a: seq<Event>, b: seq<Event>, c: seq<Event>, p: nat)
    requires |a| + |b| <= p <= |a| + |b| + |c|
    ensures (a + (b + c))[p..] == c[p - |a| - |b|..]
  {
  }

  lemma CancelledEarlier(a: seq<Event>, b: seq<Event>, p: nat)
    requires a <= b && CancelledAt(b, p)
    ensures CancelledAt(a, p)
  {
    forall i | 0 <= i < |a|
      ensures (a[i].SawContext? ==> (a[i].cancelled <==> i >= p)) && (a[i].Slept? && !a[i].through ==> i >= p)
    {
      assert a[i] == b[i];
    }
  }

  /** A pass the cancellation came before, after a run in which it had begun nothing. */
  lemma LatePass(policy: Policy, s: Sup, r: Round, p: nat)
    requires !s.done && p <= |s.trace| && CancelledAt(Pass(policy, s, r).trace, p)
    requires NoneBegun(s.trace[p..]) && AtMostOnce(s.trace[p..])
    ensures Pass(policy, s, r).done && AtMostOnce(Pass(policy, s, r).trace[p..])
  {
    var t := Pass(policy, s, r).trace;
    PassShape(policy, s, r);
    PassAfterCancel(policy, s, r, p);
    CountsAdd(s.trace[p..], t[|s.trace|..]);
    SuffixSplit(s.trace, t, p);
  }

  lemma SuffixSplit(a: seq<Event>, b: seq<Event>, p: nat)
    requires a <= b && p <= |a|
    ensures a[p..] + b[|a|..] == b[p..]
  {
  }

  lemma PassExtends(policy: Policy, s: Sup, r: Round, p: nat)
    requires !s.done && CancelledAt(Pass(policy, s, r).trace, p)
    ensures |s.trace| <= |Pass(policy, s, r).trace| && CancelledAt(s.trace, p)
  {
    PassShape(policy, s, r);
    CancelledEarlier(s.trace, Pass(policy, s, r).trace, p);
  }

  /** After the instant of the cancellation at most one more restart is counted and at most
      one more Open and one more session begin; the pass under way or the next one ends the
      run; and while it has not ended, none has begun. */
  lemma {:induction false} CancellationBound(policy: Policy, script: seq<Round>, p: nat)
    requires CancelledAt(Run(policy, script).trace, p) && p <= |Run(policy, script).trace|
    ensures AtMostOnce(Run(policy, script).trace[p..])
    ensures !Run(policy, script).done ==> NoneBegun(Run(policy, script).trace[p..])
    ensures script != [] && p <= |Run(policy, script[..|script| - 1]).trace| ==> Run(policy, script).done
  {
    if script != [] {
      var front, r := script[..|script| - 1], script[|script| - 1];
      var s := Run(policy, front);
      if s.done {
        CancellationBound(policy, front, p);
      } else {
        PassExtends(policy, s, r, p);
        if p <= |s.trace| {
          CancellationBound(policy, front, p);
          LatePass(policy, s, r, p);
        } else {
          PassDuringCancel(policy, s, r, p);
        }
      }
    }
  }

  /** Whether some event of a trace shows that the cancellation was seen. */
  predicate Seen(trace: seq<Event>) {
    exists i :: 0 <= i < |trace| && Notices(trace[i]) && trace[i] != SawContext(false)
  }

  lemma SeenAdd(a: seq<Event>, b: seq<Event>)
    ensures Seen(a + b) <==> Seen(a) || Seen(b)
  {
    if Seen(a) {
      var i :| 0 <= i < |a| && Notices(a[i]) && a[i] != SawContext(false);
      assert (a + b)[i] == a[i];
    }
    if Seen(b) {
      var i :| 0 <= i < |b| && Notices(b[i]) && b[i] != SawContext(false);
      assert (a + b)[|a| + i] == b[i];
    }
  }

  lemma PassSeen(policy: Policy, s: Sup, r: Round)
    requires !s.done
    ensures Seen(Pass(policy, s, r).trace) <==> Seen(s.trace) || Look(s, policy, r) != SawContext(false)
  {
    PassShape(policy, s, r);
    PassEnds(policy, s, r);
    var before, look, after := Before(s, policy, r), Look(s, policy, r), Afterwards(s, policy, r);
    SeenAdd(s.trace, before + [look] + after);
    SeenAdd(before + [look], after);
    SeenAdd(before, [look]);
    assert [look][0] == look;
  }

  /** A run that ended is stopped exactly if its trace shows that the cancellation was seen. */
  lemma {:induction false} StoppedIffSeen(policy: Policy, script: seq<Round>)
    ensures Run(policy, script).status.Stopped? <==> Seen(Run(policy, script).trace)
  {
    if script != [] {
      var n := |script| - 1;
      var s := Run(policy, script[..n]);
      StoppedIffSeen(policy, script[..n]);
      RunKeeps(policy, script[..n]);
      if !s.done {
        PassSeen(policy, s, script[n]);
        PassEnds(policy, s, script[n]);
      }
    }
  }

  /** A cancelled run that ended is in the failed state if and only if the cancellation came
      after the last look at the context: the final budget decision had passed its check. */
  lemma CancelledEndsStopped(policy: Policy, script: seq<Round>, p: nat)
    requires CancelledAt(Run(policy, script).trace, p) && Run(policy, script).done
    ensures Run(policy, script).status.Errored? <==>
      forall i :: p <= i < |Run(policy, script).trace| ==> !Notices(Run(policy, script).trace[i])
  {
    RunKeeps(policy, script);
    StoppedIffSeen(policy, script);
  }
}
