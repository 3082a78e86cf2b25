/**
 The deduplication cache on values, and an independent account of it: what it holds and
 drops, said of the arrival history alone.
 */
module DedupSpec {
  import opened Wrappers

  datatype Entry = Entry(hash: nat, ts: int)

  datatype Arrival = Arrival(hash: nat, now: int)

  function Hashes(entries: seq<Entry>): (r: seq<nat>)
    ensures |r| == |entries|
    ensures forall i :: 0 <= i < |entries| ==> r[i] == entries[i].hash
  {
    seq(|entries|, i requires 0 <= i < |entries| => entries[i].hash)
  }

  lemma {:induction false} FirstPlace(s: seq<nat>, h: nat) returns (i: nat)
    requires h in s
    ensures IsFirst(s, h, i)
  {
    if s[0] == h {
      i := 0;
    } else {
      var j := FirstPlace(s[1..], h);
      i := j + 1;
      assert forall k :: 0 < k < i ==> s[k] == s[1..][k - 1];
    }
  }

  predicate IsFirst(s: seq<nat>, h: nat, i: nat) {
    i < |s| && s[i] == h && forall j :: 0 <= j < i ==> s[j] != h
  }

  lemma FirstIsUnique(s: seq<nat>, h: nat)
    requires h in s
    ensures exists i: nat :: IsFirst(s, h, i)
    ensures forall i: nat, j: nat :: IsFirst(s, h, i) && IsFirst(s, h, j) ==> i == j
  {
    var i := FirstPlace(s, h);
  }

  /** Where h is first, or |s| if it is nowhere. */
  function IndexOf(s: seq<nat>, h: nat): (i: nat)
    ensures i <= |s|
    ensures i < |s| ==> s[i] == h
    ensures forall j :: 0 <= j < i ==> s[j] != h
  {
    if h in s then
      FirstIsUnique(s, h);
      var i: nat :| IsFirst(s, h, i); i
    else |s|
  }

  function RemoveAt<T>(s: seq<T>, i: nat): seq<T> {
    if i < |s| then s[..i] + s[i + 1..] else s
  }

  predicate Distinct(s: seq<nat>) {
    forall i, j :: 0 <= i < j < |s| ==> s[i] != s[j]
  }

  // ---- the cache, front of the list first

  /** What the eviction leaves: the oldest entry goes if the cache is full. */
  function Evicted(entries: seq<Entry>, cap: nat): seq<Entry> {
    if |entries| >= cap && entries != [] then entries[..|entries| - 1] else entries
  }

  function Fresh(entries: seq<Entry>, a: Arrival, ttl: int): bool {
    var i := IndexOf(Hashes(entries), a.hash);
    i < |entries| && a.now - entries[i].ts <= ttl
  }

  function Without(entries: seq<Entry>, h: nat): seq<Entry> {
    RemoveAt(entries, IndexOf(Hashes(entries), h))
  }

  /** A duplicate moves to the front but keeps its time. */
  function Touched(entries: seq<Entry>, h: nat): seq<Entry> {
    var i := IndexOf(Hashes(entries), h);
    if i < |entries| then [entries[i]] + RemoveAt(entries, i) else entries
  }

  /** Anything else comes in new, after what is known of its hash and, if need be, the oldest
      entry have gone. */
  function Admitted(entries: seq<Entry>, a: Arrival, cap: nat): seq<Entry> {
    [Entry(a.hash, a.now)] + Evicted(Without(entries, a.hash), cap)
  }

  /** The cache after one arrival. */
  function After(entries: seq<Entry>, a: Arrival, ttl: int, cap: nat): seq<Entry> {
    if Fresh(entries, a, ttl) then Touched(entries, a.hash) else Admitted(entries, a, cap)
  }

  function Cache(history: seq<Arrival>, ttl: int, cap: nat): seq<Entry> {
    if history == [] then []
    else After(Cache(history[..|history| - 1], ttl, cap), history[|history| - 1], ttl, cap)
  }

  // ---- the reference

  /** The distinct hashes of a history, the one that arrived last in front. */
  function Recent(history: seq<Arrival>): seq<nat> {
    if history == [] then []
    else
      ToFront(Recent(history[..|history| - 1]), history[|history| - 1].hash)
  }

  function ToFront(s: seq<nat>, h: nat): seq<nat> {
    [h] + RemoveAt(s, IndexOf(s, h))
  }

  predicate Arrived(history: seq<Arrival>, h: nat) {
    exists i :: 0 <= i < |history| && history[i].hash == h
  }

  function FirstOf(s: seq<nat>, cap: nat): seq<nat> {
    if |s| <= cap then s else s[..cap]
  }

  function Top(history: seq<Arrival>, cap: nat): seq<nat> {
    FirstOf(Recent(history), cap)
  }

  /** When h was last let through, given what the reference decided at each arrival. */
  function LastForwarded(history: seq<Arrival>, h: nat, ttl: int, cap: nat): Option<int>
    decreases |history|, 0
  {
    if history == [] then None
    else
      var front, a := history[..|history| - 1], history[|history| - 1];
      if a.hash == h && !Drops(front, a, ttl, cap) then Some(a.now)
      else LastForwarded(front, h, ttl, cap)
  }

  /** An arrival is a duplicate iff its hash is among the cap most recently arrived distinct
      ones and was last let through at most ttl ago. */
  predicate Drops(history: seq<Arrival>, a: Arrival, ttl: int, cap: nat)
    decreases |history|, 1
  {
    a.hash in Top(history, cap) &&
    var last := LastForwarded(history, a.hash, ttl, cap);
    last.Some? && a.now - last.value <= ttl
  }

  /** The hashes the reference lets through, in order. */
  function LetThrough(history: seq<Arrival>, ttl: int, cap: nat): seq<nat> {
    if history == [] then []
    else
      var front, a := history[..|history| - 1], history[|history| - 1];
      LetThrough(front, ttl, cap) + if Drops(front, a, ttl, cap) then [] else [a.hash]
  }

  // ---- the cache is the reference

  lemma IndexDistinct(s: seq<nat>, i: nat)
    requires Distinct(s) && i < |s|
    ensures IndexOf(s, s[i]) == i
  {
  }

  lemma RemovedMembers(s: seq<nat>, h: nat, x: nat)
    requires Distinct(s)
    ensures x in RemoveAt(s, IndexOf(s, h)) <==> x in s && x != h
  {
    var i := IndexOf(s, h);
    if x in s && x != h {
      var k :| 0 <= k < |s| && s[k] == x;
      assert RemoveAt(s, i)[if k < i then k else k - 1] == x;
    }
  }

  lemma ToFrontMembers(s: seq<nat>, h: nat)
    requires Distinct(s)
    ensures Distinct(ToFront(s, h))
    ensures forall x :: x in ToFront(s, h) <==> x == h || x in s
  {
    forall x ensures x in ToFront(s, h) <==> x == h || x in s {
      RemovedMembers(s, h, x);
    }
    RemovedMembers(s, h, h);
  }

  /** Every hash that arrived is in Recent once, and nothing else is. */
  lemma {:induction false} RecentDistinct(history: seq<Arrival>)
    ensures Distinct(Recent(history))
    ensures forall h :: h in Recent(history) <==> Arrived(history, h)
  {
    if history != [] {
      var front, a := history[..|history| - 1], history[|history| - 1];
      RecentDistinct(front);
      ToFrontMembers(Recent(front), a.hash);
      assert history == front + [a];
      forall h ensures h in Recent(history) <==> Arrived(history, h) {
        ArrivedStep(front, a, h);
        assert h in Recent(front) <==> Arrived(front, h);
      }
    }
  }

  lemma ArrivedStep(front: seq<Arrival>, a: Arrival, h: nat)
    ensures Arrived(front + [a], h) <==> Arrived(front, h) || a.hash == h
  {
    if Arrived(front, h) {
      var i :| 0 <= i < |front| && front[i].hash == h;
      assert (front + [a])[i].hash == h;
    }
    assert (front + [a])[|front|] == a;
  }

  /** The cache holds exactly the reference's hashes in the reference's order, each with the
      time it was last let through. */
  ghost predicate Agrees(entries: seq<Entry>, history: seq<Arrival>, ttl: int, cap: nat) {
    && Hashes(entries) == Top(history, cap)
    && forall i :: 0 <= i < |entries| ==>
         LastForwarded(history, entries[i].hash, ttl, cap) == Some(entries[i].ts)
  }

  lemma HashesOfRemoved(entries: seq<Entry>, i: nat)
    ensures Hashes(RemoveAt(entries, i)) == RemoveAt(Hashes(entries), i)
  {
  }

  /** Where the element at position j > 0 of a sequence with position i taken out came from. */
  function CameFrom(i: nat, j: nat): nat
    requires j > 0
  {
    if j - 1 < i then j - 1 else j
  }

  lemma ToFrontAt(s: seq<nat>, h: nat, j: nat)
    requires Distinct(s) && 0 < j < |ToFront(s, h)|
    ensures CameFrom(IndexOf(s, h), j) < |s|
    ensures ToFront(s, h)[j] == s[CameFrom(IndexOf(s, h), j)] != h
  {
  }

  lemma IndexInTop(recent: seq<nat>, h: nat, cap: nat)
    requires Distinct(recent)
    ensures IndexOf(FirstOf(recent, cap), h) ==
            if IndexOf(recent, h) < |FirstOf(recent, cap)| then IndexOf(recent, h) else |FirstOf(recent, cap)|
  {
    var top := FirstOf(recent, cap);
    assert forall j :: 0 <= j < |top| ==> top[j] == recent[j];
    var k := IndexOf(top, h);
    if k < |top| {
      IndexDistinct(recent, k);
    }
  }

  /** Taking h to the front commutes with looking at the first cap hashes only. */
  lemma TopOfMoved(recent: seq<nat>, h: nat, cap: nat)
    requires Distinct(recent) && cap > 0
    ensures FirstOf(ToFront(recent, h), cap) == FirstOf(ToFront(FirstOf(recent, cap), h), cap)
  {
    IndexInTop(recent, h, cap);
    TopOfRemoved(recent, IndexOf(recent, h), cap);
  }

  lemma TopOfRemoved(recent: seq<nat>, i: nat, cap: nat)
    requires cap > 0 && i <= |recent|
    ensures var top := FirstOf(recent, cap);
      FirstOf(RemoveAt(recent, i), cap - 1) == FirstOf(RemoveAt(top, if i < |top| then i else |top|), cap - 1)
  {
    var top := FirstOf(recent, cap);
    if |recent| > cap {
      if i < cap {
        assert RemoveAt(top, i) == recent[..i] + recent[i + 1..cap];
        assert FirstOf(RemoveAt(recent, i), cap - 1) == recent[..i] + recent[i + 1..cap];
      } else {
        assert FirstOf(RemoveAt(recent, i), cap - 1) == recent[..cap - 1];
      }
    }
  }

  lemma TopDistinct(history: seq<Arrival>, cap: nat)
    ensures Distinct(Top(history, cap))
  {
    RecentDistinct(history);
  }

  lemma HashesOfEvicted(entries: seq<Entry>, cap: nat)
    ensures |entries| >= cap && entries != [] ==> Hashes(Evicted(entries, cap)) == Hashes(entries)[..|entries| - 1]
  {
  }

  lemma HashesOfFront(e: Entry, entries: seq<Entry>)
    ensures Hashes([e] + entries) == [e.hash] + Hashes(entries)
  {
  }

  lemma AfterHashes(entries: seq<Entry>, a: Arrival, ttl: int, cap: nat)
    requires 0 < cap && |entries| <= cap
    ensures Hashes(After(entries, a, ttl, cap)) == FirstOf(ToFront(Hashes(entries), a.hash), cap)
  {
    var i := IndexOf(Hashes(entries), a.hash);
    var rest := RemoveAt(entries, i);
    HashesOfRemoved(entries, i);
    if Fresh(entries, a, ttl) {
      HashesOfFront(entries[i], rest);
    } else {
      HashesOfFront(Entry(a.hash, a.now), Evicted(rest, cap));
      HashesOfEvicted(rest, cap);
    }
  }

  lemma LastOfOther(history: seq<Arrival>, a: Arrival, h: nat, ttl: int, cap: nat)
    requires h != a.hash || Drops(history, a, ttl, cap)
    ensures LastForwarded(history + [a], h, ttl, cap) == LastForwarded(history, h, ttl, cap)
  {
    assert (history + [a])[..|history|] == history;
  }

  lemma StepDecides(entries: seq<Entry>, history: seq<Arrival>, a: Arrival, ttl: int, cap: nat)
    requires cap > 0 && Agrees(entries, history, ttl, cap)
    ensures Fresh(entries, a, ttl) <==> Drops(history, a, ttl, cap)
  {
    var i := IndexOf(Hashes(entries), a.hash);
    if i < |entries| {
      assert a.hash in Hashes(entries);
    } else {
      assert a.hash !in Hashes(entries);
    }
  }

  lemma StepHashes(entries: seq<Entry>, history: seq<Arrival>, a: Arrival, ttl: int, cap: nat)
    requires cap > 0 && Hashes(entries) == Top(history, cap)
    ensures Hashes(After(entries, a, ttl, cap)) == Top(history + [a], cap)
  {
    assert (history + [a])[..|history|] == history;
    RecentDistinct(history);
    TopOfMoved(Recent(history), a.hash, cap);
    AfterHashes(entries, a, ttl, cap);
  }

  /** Every entry behind the new front was there before, under another hash. */
  lemma AfterAt(entries: seq<Entry>, a: Arrival, ttl: int, cap: nat, k: nat)
    requires Distinct(Hashes(entries)) && 0 < k < |After(entries, a, ttl, cap)|
    ensures var j := CameFrom(IndexOf(Hashes(entries), a.hash), k);
      j < |entries| && After(entries, a, ttl, cap)[k] == entries[j] && entries[j].hash != a.hash
  {
    if Fresh(entries, a, ttl) {
      RemovedAt(entries, a.hash, k - 1);
    } else {
      EvictedAt(Without(entries, a.hash), cap, k - 1);
      RemovedAt(entries, a.hash, k - 1);
    }
  }

  lemma EvictedAt(entries: seq<Entry>, cap: nat, k: nat)
    requires k < |Evicted(entries, cap)|
    ensures k < |entries| && Evicted(entries, cap)[k] == entries[k]
  {
  }

  lemma RemovedAt(entries: seq<Entry>, h: nat, k: nat)
    requires Distinct(Hashes(entries)) && k < |Without(entries, h)|
    ensures var j := CameFrom(IndexOf(Hashes(entries), h), k + 1);
      j < |entries| && Without(entries, h)[k] == entries[j] && entries[j].hash != h
  {
    var i := IndexOf(Hashes(entries), h);
    var j := CameFrom(i, k + 1);
    assert Without(entries, h)[k] == entries[j];
    assert Hashes(entries)[j] == entries[j].hash;
  }

  lemma StepTimes(entries: seq<Entry>, history: seq<Arrival>, a: Arrival, ttl: int, cap: nat, k: nat)
    requires cap > 0 && Agrees(entries, history, ttl, cap) && Distinct(Hashes(entries))
    requires k < |After(entries, a, ttl, cap)|
    ensures var e := After(entries, a, ttl, cap)[k];
      LastForwarded(history + [a], e.hash, ttl, cap) == Some(e.ts)
  {
    if k > 0 {
      AfterAt(entries, a, ttl, cap, k);
      LastOfOther(history, a, After(entries, a, ttl, cap)[k].hash, ttl, cap);
    } else {
      StepDecides(entries, history, a, ttl, cap);
      assert (history + [a])[..|history|] == history;
      if Fresh(entries, a, ttl) {
        LastOfOther(history, a, a.hash, ttl, cap);
      }
    }
  }

  lemma StepAgrees(entries: seq<Entry>, history: seq<Arrival>, a: Arrival, ttl: int, cap: nat)
    requires cap > 0 && Agrees(entries, history, ttl, cap) && Distinct(Hashes(entries))
    ensures Agrees(After(entries, a, ttl, cap), history + [a], ttl, cap)
  {
    StepHashes(entries, history, a, ttl, cap);
    var after := After(entries, a, ttl, cap);
    forall k | 0 <= k < |after|
      ensures LastForwarded(history + [a], after[k].hash, ttl, cap) == Some(after[k].ts)
    {
      StepTimes(entries, history, a, ttl, cap, k);
    }
  }

  lemma CacheSnoc(history: seq<Arrival>, a: Arrival, ttl: int, cap: nat)
    ensures Cache(history + [a], ttl, cap) == After(Cache(history, ttl, cap), a, ttl, cap)
  {
    assert (history + [a])[..|history|] == history;
  }

  /** For every history and every clock: the cache is the cap most recently arrived distinct
      hashes, newest first, each with the time of its last forwarded occurrence. */
  ghost predicate CacheIsReference(history: seq<Arrival>, ttl: int, cap: nat) {
    var entries := Cache(history, ttl, cap);
    Agrees(entries, history, ttl, cap) && Distinct(Hashes(entries))
  }

  lemma CacheStep(history: seq<Arrival>, a: Arrival, ttl: int, cap: nat)
    requires cap > 0 && CacheIsReference(history, ttl, cap)
    ensures CacheIsReference(history + [a], ttl, cap)
  {
    var after := After(Cache(history, ttl, cap), a, ttl, cap);
    StepAgrees(Cache(history, ttl, cap), history, a, ttl, cap);
    CacheSnoc(history, a, ttl, cap);
    TopDistinct(history + [a], cap);
    assert Distinct(Hashes(after));
  }

  lemma NoMore(history: seq<Arrival>, more: seq<Arrival>)
    requires more == []
    ensures history + more == history
  {
  }

  lemma {:induction false} CacheStays(history: seq<Arrival>, more: seq<Arrival>, ttl: int, cap: nat)
    requires cap > 0 && CacheIsReference(history, ttl, cap)
    ensures CacheIsReference(history + more, ttl, cap)
    decreases |more|
  {
    if more == [] {
      NoMore(history, more);
    } else {
      CacheStep(history, more[0], ttl, cap);
      CacheStays(history + [more[0]], more[1..], ttl, cap);
      FirstOver(history, more);
    }
  }

  lemma FirstOver(history: seq<Arrival>, more: seq<Arrival>)
    requires more != []
    ensures history + [more[0]] + more[1..] == history + more
  {
  }

  lemma CacheAgrees(history: seq<Arrival>, ttl: int, cap: nat)
    requires cap > 0
    ensures CacheIsReference(history, ttl, cap)
  {
    CacheStays([], history, ttl, cap);
    assert [] + history == history;
  }

  /** The cache drops an arrival if and only if the reference does. */
  lemma CacheDecides(history: seq<Arrival>, a: Arrival, ttl: int, cap: nat)
    requires cap > 0
    ensures Fresh(Cache(history, ttl, cap), a, ttl) <==> Drops(history, a, ttl, cap)
  {
    CacheAgrees(history, ttl, cap);
    StepDecides(Cache(history, ttl, cap), history, a, ttl, cap);
  }

  /** A larger cache holds every hash a smaller one holds, after any history. */
  lemma LargerHoldsMore(history: seq<Arrival>, ttl: int, ttl': int, cap: nat, cap': nat)
    requires 0 < cap <= cap'
    ensures Hashes(Cache(history, ttl, cap)) <= Hashes(Cache(history, ttl', cap'))
  {
    CacheAgrees(history, ttl, cap);
    CacheAgrees(history, ttl', cap');
  }

  /** When h last arrived, as an index into the history. */
  function LastArrival(history: seq<Arrival>, h: nat): int {
    if history == [] then -1
    else if history[|history| - 1].hash == h then |history| - 1
    else LastArrival(history[..|history| - 1], h)
  }

  /** Recent is ordered by last arrival, newest first. */
  lemma {:induction false} RecentOrdered(history: seq<Arrival>, i: nat, j: nat)
    requires i < j < |Recent(history)|
    ensures LastArrival(history, Recent(history)[j]) < LastArrival(history, Recent(history)[i])
  {
    var front, a := history[..|history| - 1], history[|history| - 1];
    var before := Recent(front);
    RecentDistinct(front);
    var k := IndexOf(before, a.hash);
    ToFrontAt(before, a.hash, j);
    if i == 0 {
      LastArrivalBound(front, before[CameFrom(k, j)]);
    } else {
      ToFrontAt(before, a.hash, i);
      RecentOrdered(front, CameFrom(k, i), CameFrom(k, j));
    }
  }

  lemma {:induction false} LastArrivalBound(history: seq<Arrival>, h: nat)
    ensures LastArrival(history, h) < |history|
  {
    if history != [] {
      LastArrivalBound(history[..|history| - 1], h);
    }
  }

  // ---- last seen, or last forwarded

  /** When h last arrived, forwarded or not. */
  function LastSeen(history: seq<Arrival>, h: nat): Option<int> {
    if history == [] then None
    else if history[|history| - 1].hash == h then Some(history[|history| - 1].now)
    else LastSeen(history[..|history| - 1], h)
  }

  /** The decision the documentation describes: fresh for ttl since it was last seen. */
  predicate SeenDrops(history: seq<Arrival>, a: Arrival, ttl: int, cap: nat) {
    a.hash in Top(history, cap) &&
    var last := LastSeen(history, a.hash);
    last.Some? && a.now - last.value <= ttl
  }

  predicate Clocked(history: seq<Arrival>) {
    forall i, j :: 0 <= i < j < |history| ==> history[i].now <= history[j].now
  }

  lemma {:induction false} SeenIsPast(history: seq<Arrival>, h: nat)
    requires Clocked(history) && LastSeen(history, h).Some?
    ensures history != [] && LastSeen(history, h).value <= history[|history| - 1].now
  {
    if history[|history| - 1].hash != h {
      SeenIsPast(history[..|history| - 1], h);
    }
  }

  /** Nothing was forwarded later than it was last seen. */
  lemma {:induction false} ForwardedBeforeSeen(history: seq<Arrival>, h: nat, ttl: int, cap: nat)
    requires Clocked(history) && LastForwarded(history, h, ttl, cap).Some?
    ensures LastSeen(history, h).Some?
    ensures LastForwarded(history, h, ttl, cap).value <= LastSeen(history, h).value
  {
    var front, a := history[..|history| - 1], history[|history| - 1];
    if a.hash != h {
      ForwardedBeforeSeen(front, h, ttl, cap);
    } else if Drops(front, a, ttl, cap) {
      ForwardedBeforeSeen(front, h, ttl, cap);
      SeenIsPast(front, h);
    }
  }

  lemma {:induction false} SeenIfArrived(history: seq<Arrival>, h: nat)
    ensures LastSeen(history, h).Some? <==> Arrived(history, h)
  {
    if history != [] {
      var front, a := history[..|history| - 1], history[|history| - 1];
      SeenIfArrived(front, h);
      ArrivedStep(front, a, h);
      assert history == front + [a];
    }
  }

  lemma TopHasTimes(history: seq<Arrival>, h: nat, ttl: int, cap: nat)
    requires cap > 0 && h in Top(history, cap)
    ensures LastForwarded(history, h, ttl, cap).Some? && LastSeen(history, h).Some?
  {
    CacheAgrees(history, ttl, cap);
    var entries := Cache(history, ttl, cap);
    var i :| 0 <= i < |entries| && Hashes(entries)[i] == h;
    assert LastForwarded(history, entries[i].hash, ttl, cap) == Some(entries[i].ts);
    RecentDistinct(history);
    assert Arrived(history, h);
    SeenIfArrived(history, h);
  }

  /** With a clock that does not run backwards, what the filter drops the documented rule
      drops too. */
  lemma DropsIsSeen(history: seq<Arrival>, a: Arrival, ttl: int, cap: nat)
    requires cap > 0 && Clocked(history)
    ensures Drops(history, a, ttl, cap) ==> SeenDrops(history, a, ttl, cap)
  {
    if a.hash in Top(history, cap) {
      TopHasTimes(history, a.hash, ttl, cap);
      ForwardedBeforeSeen(history, a.hash, ttl, cap);
    }
  }

  /** The hashes the documented rule lets through, in order. */
  function SeenThrough(history: seq<Arrival>, ttl: int, cap: nat): seq<nat> {
    if history == [] then []
    else
      var front, a := history[..|history| - 1], history[|history| - 1];
      if SeenDrops(front, a, ttl, cap) then SeenThrough(front, ttl, cap) else SeenThrough(front, ttl, cap) + [a.hash]
  }

  /** When the run of h that is still going on began: its latest arrival that the documented
      rule would let through. It is read off the arrivals alone. */
  function RunStart(history: seq<Arrival>, h: nat, ttl: int, cap: nat): Option<int> {
    if history == [] then None
    else
      var front, a := history[..|history| - 1], history[|history| - 1];
      if a.hash == h && !SeenDrops(front, a, ttl, cap) then Some(a.now) else RunStart(front, h, ttl, cap)
  }

  /** Whether an arrival that continues a run comes within ttl of the run's beginning. */
  predicate InRun(history: seq<Arrival>, a: Arrival, ttl: int, cap: nat) {
    var start := RunStart(history, a.hash, ttl, cap);
    SeenDrops(history, a, ttl, cap) ==> start.Some? && a.now - start.value <= ttl
  }

  /** No run of one hash lasts longer than ttl. */
  predicate ShortRuns(history: seq<Arrival>, ttl: int, cap: nat) {
    forall i :: 0 <= i < |history| ==> InRun(history[..i], history[i], ttl, cap)
  }

  lemma ThroughSnoc(history: seq<Arrival>, a: Arrival, ttl: int, cap: nat)
    ensures LetThrough(history + [a], ttl, cap) ==
      if Drops(history, a, ttl, cap) then LetThrough(history, ttl, cap) else LetThrough(history, ttl, cap) + [a.hash]
    ensures SeenThrough(history + [a], ttl, cap) ==
      if SeenDrops(history, a, ttl, cap) then SeenThrough(history, ttl, cap)
      else SeenThrough(history, ttl, cap) + [a.hash]
  {
    assert (history + [a])[..|history|] == history;
    assert LetThrough(history, ttl, cap) + [] == LetThrough(history, ttl, cap);
  }

  lemma StartSnoc(history: seq<Arrival>, a: Arrival, h: nat, ttl: int, cap: nat)
    ensures RunStart(history + [a], h, ttl, cap) ==
      if a.hash == h && !SeenDrops(history, a, ttl, cap) then Some(a.now) else RunStart(history, h, ttl, cap)
    ensures LastForwarded(history + [a], h, ttl, cap) ==
      if a.hash == h && !Drops(history, a, ttl, cap) then Some(a.now) else LastForwarded(history, h, ttl, cap)
  {
    assert (history + [a])[..|history|] == history;
  }

  lemma ShortSnoc(history: seq<Arrival>, a: Arrival, ttl: int, cap: nat)
    ensures ShortRuns(history + [a], ttl, cap) <==> ShortRuns(history, ttl, cap) && InRun(history, a, ttl, cap)
  {
    var more := history + [a];
    assert forall i :: 0 <= i < |history| ==> more[..i] == history[..i] && more[i] == history[i];
    assert more[..|history|] == history && more[|history|] == a;
    if ShortRuns(more, ttl, cap) {
      forall i | 0 <= i < |history| ensures InRun(history[..i], history[i], ttl, cap) {
        assert InRun(more[..i], more[i], ttl, cap);
      }
      assert InRun(more[..|history|], more[|history|], ttl, cap);
    }
  }

  lemma ClockedFront(history: seq<Arrival>, a: Arrival)
    requires Clocked(history + [a])
    ensures Clocked(history)
  {
    forall i, j | 0 <= i < j < |history| ensures history[i].now <= history[j].now {
      assert (history + [a])[i] == history[i] && (history + [a])[j] == history[j];
    }
  }

  /** Where every run began, something was forwarded last. */
  ghost predicate SameStarts(history: seq<Arrival>, ttl: int, cap: nat) {
    forall h :: LastForwarded(history, h, ttl, cap) == RunStart(history, h, ttl, cap)
  }

  /** Where the two rules start out alike, they decide alike exactly inside a short run. */
  lemma DecideAlikeIff(history: seq<Arrival>, a: Arrival, ttl: int, cap: nat)
    requires cap > 0 && Clocked(history) && SameStarts(history, ttl, cap)
    ensures (Drops(history, a, ttl, cap) <==> SeenDrops(history, a, ttl, cap)) <==> InRun(history, a, ttl, cap)
  {
    DropsIsSeen(history, a, ttl, cap);
    if SeenDrops(history, a, ttl, cap) {
      TopHasTimes(history, a.hash, ttl, cap);
      assert LastForwarded(history, a.hash, ttl, cap) == RunStart(history, a.hash, ttl, cap);
    }
  }

  lemma StartsStep(history: seq<Arrival>, a: Arrival, ttl: int, cap: nat)
    requires SameStarts(history, ttl, cap) && (Drops(history, a, ttl, cap) <==> SeenDrops(history, a, ttl, cap))
    ensures SameStarts(history + [a], ttl, cap)
  {
    forall h ensures LastForwarded(history + [a], h, ttl, cap) == RunStart(history + [a], h, ttl, cap) {
      StartSnoc(history, a, h, ttl, cap);
    }
  }

  /** While the runs are short the two rules agree; after the first long one the documented
      rule has let less through, and stays behind. */
  ghost predicate Compared(history: seq<Arrival>, ttl: int, cap: nat) {
    if ShortRuns(history, ttl, cap)
    then SameStarts(history, ttl, cap) && LetThrough(history, ttl, cap) == SeenThrough(history, ttl, cap)
    else |SeenThrough(history, ttl, cap)| < |LetThrough(history, ttl, cap)|
  }

  lemma ComparedStep(history: seq<Arrival>, a: Arrival, ttl: int, cap: nat)
    requires cap > 0 && Clocked(history) && Compared(history, ttl, cap)
    ensures Compared(history + [a], ttl, cap)
  {
    ThroughSnoc(history, a, ttl, cap);
    ShortSnoc(history, a, ttl, cap);
    DropsIsSeen(history, a, ttl, cap);
    if ShortRuns(history, ttl, cap) {
      DecideAlikeIff(history, a, ttl, cap);
      if InRun(history, a, ttl, cap) {
        StartsStep(history, a, ttl, cap);
      }
    }
  }

  lemma {:induction false} AllCompared(history: seq<Arrival>, ttl: int, cap: nat)
    requires cap > 0 && Clocked(history)
    ensures Compared(history, ttl, cap)
  {
    if history != [] {
      var front, a := history[..|history| - 1], history[|history| - 1];
      assert history == front + [a];
      ClockedFront(front, a);
      AllCompared(front, ttl, cap);
      ComparedStep(front, a, ttl, cap);
    }
  }

  /** With a clock that does not run backwards, the filter lets through what the documented
      rule lets through if and only if every arrival that continues a run of its hash - one
      within ttl of another, and so on - comes within ttl of the arrival that began the run. */
  lemma SeenAgreesIff(history: seq<Arrival>, ttl: int, cap: nat)
    requires cap > 0 && Clocked(history)
    ensures LetThrough(history, ttl, cap) == SeenThrough(history, ttl, cap) <==> ShortRuns(history, ttl, cap)
  {
    AllCompared(history, ttl, cap);
  }

  /** One hash at 0, 40 and 70 under a ttl of 60: the filter lets the third one through,
      which the documented rule would drop. */
  lemma SeenDiffers(h: nat, cap: nat)
    requires cap > 0
    ensures var history := [Arrival(h, 0), Arrival(h, 40)];
      !Drops(history, Arrival(h, 70), 60, cap) && SeenDrops(history, Arrival(h, 70), 60, cap)
  {
    var first, history := [Arrival(h, 0)], [Arrival(h, 0), Arrival(h, 40)];
    assert first[..0] == [] && history[..1] == first;
    assert Recent(first) == [h] && Recent(history) == [h];
    assert LastForwarded(first, h, 60, cap) == Some(0);
    assert Drops(first, Arrival(h, 40), 60, cap);
    assert LastForwarded(history, h, 60, cap) == Some(0);
    assert LastSeen(history, h) == Some(40);
  }
}
