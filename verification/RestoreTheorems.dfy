/**
 Restoring a manager from its store. The persisted configurations are admitted in the order
 of their ids, so what comes out depends on what is stored and not on how it was listed.
 */
module RestoreTheorems {
  import opened Wrappers
  import opened Config
  import opened Ports
  import opened PipelineBuilder
  import opened Registry
  import opened RegistryTheorems

  // ---- the order of ids

  /** Go's order on strings. */
  predicate Less(a: string, b: string) {
    b != "" && (a == "" || a[0] < b[0] || (a[0] == b[0] && Less(a[1..], b[1..])))
  }

  lemma {:induction false} LessTotal(a: string, b: string)
    ensures a == b || Less(a, b) || Less(b, a)
    ensures !(Less(a, b) && Less(b, a)) && !Less(a, a)
  {
    if a != "" {
      LessTotal(a[1..], a[1..]);
    }
    if a != "" && b != "" && a[0] == b[0] {
      LessTotal(a[1..], b[1..]);
      assert a[1..] == b[1..] ==> a == [a[0]] + a[1..] == [b[0]] + b[1..] == b;
    }
  }

  lemma {:induction false} LessTransitive(a: string, b: string, c: string)
    requires Less(a, b) && Less(b, c)
    ensures Less(a, c)
  {
    if a != "" && a[0] == b[0] == c[0] {
      LessTransitive(a[1..], b[1..], c[1..]);
    }
  }

  predicate Sorted(configs: seq<StreamSourceConfig>) {
    forall i, j :: 0 <= i < j < |configs| ==> Less(configs[i].id, configs[j].id)
  }

  predicate DistinctIds(configs: seq<StreamSourceConfig>) {
    forall c, d :: c in configs && d in configs && c.id == d.id ==> c == d
  }

  /** No configuration is listed twice. */
  predicate NoRepeat(configs: seq<StreamSourceConfig>) {
    forall c :: c in configs ==> multiset(configs)[c] == 1
  }

  function Insert(c: StreamSourceConfig, sorted: seq<StreamSourceConfig>): (r: seq<StreamSourceConfig>)
    ensures multiset(r) == multiset(sorted) + multiset{c}
  {
    if sorted == [] || Less(c.id, sorted[0].id) then [c] + sorted
    else
      assert sorted == [sorted[0]] + sorted[1..];
      [sorted[0]] + Insert(c, sorted[1..])
  }

  /** sort.Slice by id. */
  function SortById(configs: seq<StreamSourceConfig>): (r: seq<StreamSourceConfig>)
    ensures multiset(r) == multiset(configs)
  {
    if configs == [] then []
    else
      assert configs == [configs[0]] + configs[1..];
      Insert(configs[0], SortById(configs[1..]))
  }

  lemma SameMembers(a: seq<StreamSourceConfig>, b: seq<StreamSourceConfig>, c: StreamSourceConfig)
    requires multiset(a) == multiset(b)
    ensures c in a <==> c in b
  {
    assert c in a <==> c in multiset(a);
    assert c in b <==> c in multiset(b);
  }

  lemma InsertMembers(c: StreamSourceConfig, sorted: seq<StreamSourceConfig>, d: StreamSourceConfig)
    ensures d in Insert(c, sorted) <==> d == c || d in sorted
  {
    assert d in Insert(c, sorted) <==> d in multiset(Insert(c, sorted));
    assert d in sorted <==> d in multiset(sorted);
  }

  predicate AllAbove(id: string, configs: seq<StreamSourceConfig>) {
    forall d :: d in configs ==> Less(id, d.id)
  }

  lemma SortedCons(first: StreamSourceConfig, rest: seq<StreamSourceConfig>)
    ensures Sorted([first] + rest) <==> Sorted(rest) && AllAbove(first.id, rest)
  {
    var all := [first] + rest;
    if Sorted(all) {
      forall d | d in rest ensures Less(first.id, d.id) {
        var k :| 0 <= k < |rest| && rest[k] == d;
        assert all[0] == first && all[k + 1] == d;
      }
      forall i, j | 0 <= i < j < |rest| ensures Less(rest[i].id, rest[j].id) {
        assert all[i + 1] == rest[i] && all[j + 1] == rest[j];
      }
    }
  }

  lemma AboveAll(c: StreamSourceConfig, first: StreamSourceConfig, rest: seq<StreamSourceConfig>)
    requires Less(c.id, first.id) && AllAbove(first.id, rest)
    ensures AllAbove(c.id, [first] + rest)
  {
    forall d | d in [first] + rest ensures Less(c.id, d.id) {
      if d != first {
        LessTransitive(c.id, first.id, d.id);
      }
    }
  }

  lemma {:induction false} InsertSorted(c: StreamSourceConfig, sorted: seq<StreamSourceConfig>)
    requires Sorted(sorted) && forall d :: d in sorted ==> d.id != c.id
    ensures Sorted(Insert(c, sorted))
  {
    if sorted != [] {
      var first, rest := sorted[0], sorted[1..];
      assert sorted == [first] + rest;
      SortedCons(first, rest);
      LessTotal(c.id, first.id);
      if Less(c.id, first.id) {
        AboveAll(c, first, rest);
        SortedCons(c, sorted);
      } else {
        assert first in sorted;
        InsertSorted(c, rest);
        forall d | d in Insert(c, rest) ensures Less(first.id, d.id) {
          InsertMembers(c, rest, d);
        }
        SortedCons(first, Insert(c, rest));
      }
    }
  }

  lemma {:induction false} SortByIdSorts(configs: seq<StreamSourceConfig>)
    requires DistinctIds(configs) && NoRepeat(configs)
    ensures Sorted(SortById(configs))
  {
    if configs != [] {
      var c, rest := configs[0], configs[1..];
      assert configs == [c] + rest;
      assert multiset(configs) == multiset{c} + multiset(rest);
      forall d | d in rest ensures multiset(rest)[d] == 1 && d.id != c.id {
        assert d in configs && multiset(configs)[d] == 1;
      }
      SortByIdSorts(rest);
      forall d | d in SortById(rest) ensures d.id != c.id {
        SameMembers(SortById(rest), rest, d);
      }
      InsertSorted(c, SortById(rest));
    }
  }

  lemma LeastIsFirst(a: seq<StreamSourceConfig>, b: seq<StreamSourceConfig>)
    requires Sorted(a) && Sorted(b) && multiset(a) == multiset(b) && a != []
    ensures b != [] && a[0] == b[0]
  {
    assert a[0] in multiset(a);
    var j :| 0 <= j < |b| && b[j] == a[0];
    assert b[0] in multiset(b);
    SameMembers(a, b, b[0]);
    var i :| 0 <= i < |a| && a[i] == b[0];
    LessTotal(a[0].id, b[0].id);
  }

  lemma TailsMatch(first: StreamSourceConfig, a: seq<StreamSourceConfig>, b: seq<StreamSourceConfig>)
    requires multiset([first] + a) == multiset([first] + b)
    ensures multiset(a) == multiset(b)
  {
    assert multiset([first] + a) == multiset{first} + multiset(a);
    assert multiset([first] + b) == multiset{first} + multiset(b);
    assert multiset(a) == (multiset{first} + multiset(a)) - multiset{first};
  }

  lemma {:induction false} SortedUnique(a: seq<StreamSourceConfig>, b: seq<StreamSourceConfig>)
    requires Sorted(a) && Sorted(b) && multiset(a) == multiset(b)
    ensures a == b
  {
    if a == [] {
      assert |multiset(b)| == 0;
    } else {
      LeastIsFirst(a, b);
      assert a == [a[0]] + a[1..] && b == [a[0]] + b[1..];
      TailsMatch(a[0], a[1..], b[1..]);
      SortedUnique(a[1..], b[1..]);
    }
  }

  // ---- restore

  function Restore(s: State, w: Outside, listing: seq<StreamSourceConfig>): State {
    RestoreInOrder(s, w, SortById(listing))
  }

  /** Any order the store lists its entries in gives the same registry. */
  lemma RestoreDeterministic(s: State, w: Outside, listing: seq<StreamSourceConfig>, other: seq<StreamSourceConfig>)
    requires DistinctIds(listing) && NoRepeat(listing) && multiset(listing) == multiset(other)
    ensures Restore(s, w, listing) == Restore(s, w, other)
  {
    forall c ensures c in listing <==> c in other {
      SameMembers(listing, other, c);
    }
    SortByIdSorts(listing);
    SortByIdSorts(other);
    SortedUnique(SortById(listing), SortById(other));
  }

  const KINDS := {"websocket", "sse", "rest_poller", "webhook", "grpc"}

  /** Whether a configuration would be admitted if nobody else wanted its port. */
  predicate Admissible(w: Outside, c: StreamSourceConfig) {
    w.valid(c) && c.kind in KINDS && Builds(c.pipeline) && w.opens(c)
  }

  predicate Registered(t: State, c: StreamSourceConfig) {
    c.id in t.configs && t.configs[c.id] == c && c.id in t.runtimes
  }

  /** No configuration of the sequence before the i-th wants the i-th's port. */
  predicate FirstOnPort(configs: seq<StreamSourceConfig>, i: nat)
    requires i < |configs|
  {
    forall j :: 0 <= j < i ==> ConnectorPort(configs[j]) != ConnectorPort(configs[i])
  }

  predicate PortTaken(configs: seq<StreamSourceConfig>, port: string) {
    exists i :: 0 <= i < |configs| && ConnectorPort(configs[i]) == port
  }

  predicate AllRegistered(t: State, configs: seq<StreamSourceConfig>) {
    forall i :: 0 <= i < |configs| ==> Registered(t, configs[i])
  }

  predicate Listed(configs: seq<StreamSourceConfig>, id: string) {
    exists i :: 0 <= i < |configs| && configs[i].id == id
  }

  predicate OnlyListed(t: State, configs: seq<StreamSourceConfig>) {
    forall id :: id in t.configs ==> Listed(configs, id)
  }

  /** The i-th configuration runs if and only if nothing speaks against it but itself. */
  predicate RunsAt(t: State, w: Outside, configs: seq<StreamSourceConfig>, i: nat)
    requires i < |configs|
  {
    configs[i].id in t.generations <==>
      Admissible(w, configs[i]) && (ConnectorPort(configs[i]) == "" || FirstOnPort(configs, i))
  }

  predicate HoldsAt(t: State, configs: seq<StreamSourceConfig>, i: nat)
    requires i < |configs|
  {
    var port := ConnectorPort(configs[i]);
    port != "" && FirstOnPort(configs, i) ==> port in t.portClaims && t.portClaims[port] == configs[i].id
  }

  predicate OnlyTaken(t: State, configs: seq<StreamSourceConfig>) {
    forall port :: port in t.portClaims ==> PortTaken(configs, port)
  }

  predicate AllHold(t: State, configs: seq<StreamSourceConfig>) {
    forall i :: 0 <= i < |configs| ==> HoldsAt(t, configs, i)
  }

  predicate BlocksMatch(t: State) {
    forall id :: id in t.generations && id in t.configs ==> t.generations[id].block == t.configs[id].pipeline
  }

  /** Why a configuration fails, given the claims there are: the first check it does not pass. */
  function Reason(claims: map<string, string>, w: Outside, c: StreamSourceConfig, contested: bool): Cause {
    if !w.valid(c) then InvalidConfig
    else if c.kind !in KINDS then UnsupportedKind
    else if contested && ConnectorPort(c) in claims then Refused(PortConflict(claims[ConnectorPort(c)]))
    else if !Builds(c.pipeline) then Refused(BuildFailed)
    else Refused(OpenFailed)
  }

  /** Whether an earlier configuration wants the i-th one's port. */
  predicate Contested(configs: seq<StreamSourceConfig>, i: nat)
    requires i < |configs|
  {
    ConnectorPort(configs[i]) != "" && !FirstOnPort(configs, i)
  }

  /** The i-th configuration runs, or is in error for the reason it has. */
  predicate ReasonAt(t: State, w: Outside, configs: seq<StreamSourceConfig>, i: nat)
    requires i < |configs|
  {
    && configs[i].id in t.runtimes
    && t.runtimes[configs[i].id] ==
         if Admissible(w, configs[i]) && !Contested(configs, i) then Live
         else Failed(Reason(t.portClaims, w, configs[i], Contested(configs, i)))
  }

  /** What restoring a sorted sequence of configurations has made of each of them. */
  predicate Outcome(t: State, w: Outside, configs: seq<StreamSourceConfig>) {
    && (forall i :: 0 <= i < |configs| ==> ReasonAt(t, w, configs, i))
    && AllRegistered(t, configs) && OnlyListed(t, configs)
    && (forall i :: 0 <= i < |configs| ==> RunsAt(t, w, configs, i))
    && AllHold(t, configs) && OnlyTaken(t, configs)
    && BlocksMatch(t)
  }

  lemma {:induction false} FirstExists(configs: seq<StreamSourceConfig>, port: string) returns (i: nat)
    requires PortTaken(configs, port)
    ensures i < |configs| && ConnectorPort(configs[i]) == port && FirstOnPort(configs, i)
  {
    var n := |configs| - 1;
    if PortTaken(configs[..n], port) {
      i := FirstExists(configs[..n], port);
      assert forall j :: 0 <= j <= i ==> configs[..n][j] == configs[j];
    } else {
      i := n;
      forall j | 0 <= j < n ensures ConnectorPort(configs[j]) != port {
        assert configs[..n][j] == configs[j];
      }
    }
  }

  lemma ClaimedIffTaken(t: State, configs: seq<StreamSourceConfig>, port: string)
    requires AllHold(t, configs) && OnlyTaken(t, configs) && port != ""
    ensures port in t.portClaims <==> PortTaken(configs, port)
  {
    if PortTaken(configs, port) {
      var i := FirstExists(configs, port);
      assert HoldsAt(t, configs, i);
    }
  }

  /** One configuration is either installed, or registered as failed for a recorded reason. */
  lemma RestoreOneIs(t: State, w: Outside, c: StreamSourceConfig) returns (u: State)
    requires c.id != "" && c.id !in t.runtimes
    ensures if Admissible(w, c) && (ConnectorPort(c) == "" || ConnectorPort(c) !in t.portClaims)
            then RestoreOne(t, w, c) == Install(t, c, false)
            else (u == t || u == Wasted(t)) && RestoreOne(t, w, c) == AdmitFailed(u, c, ReasonNow(t, w, c))
  {
    u := if w.valid(c) && Supported(c.kind) then Admit(t, c, false, w.opens(c), true).0 else t;
  }

  function ReasonNow(t: State, w: Outside, c: StreamSourceConfig): Cause {
    Reason(t.portClaims, w, c, ConnectorPort(c) != "")
  }

  /** What the next state has in common with this one, whether c was installed or failed. */
  predicate Appended(t: State, c: StreamSourceConfig, u: State) {
    && u.configs == t.configs[c.id := c] && u.runtimes.Keys == t.runtimes.Keys + {c.id}
    && (u.generations == t.generations || u.generations == t.generations[c.id := Generation(t.built, c.pipeline)])
    && u.portClaims == Claimed(t.portClaims, c)
    && u.store == t.store
    && (forall id :: id in t.runtimes && id != c.id ==> id in u.runtimes && u.runtimes[id] == t.runtimes[id])
  }

  /** How the new stream stands. */
  predicate Stands(t: State, w: Outside, c: StreamSourceConfig, u: State) {
    && c.id in u.runtimes
    && u.runtimes[c.id] ==
         if Admissible(w, c) && (ConnectorPort(c) == "" || ConnectorPort(c) !in t.portClaims) then Live
         else Failed(ReasonNow(t, w, c))
  }

  lemma InstallAppends(t: State, c: StreamSourceConfig)
    requires ConnectorPort(c) == "" || ConnectorPort(c) !in t.portClaims
    ensures Appended(t, c, Install(t, c, false)) && c.id in Install(t, c, false).generations
    ensures Install(t, c, false).runtimes[c.id] == Live
  {
  }

  lemma AdmitFailedAppends(t: State, c: StreamSourceConfig, u: State, cause: Cause)
    requires u == t || u == Wasted(t)
    ensures Appended(t, c, AdmitFailed(u, c, cause)) && AdmitFailed(u, c, cause).generations == t.generations
    ensures AdmitFailed(u, c, cause).runtimes[c.id] == Failed(cause)
  {
  }

  lemma RestoreOneAppends(t: State, w: Outside, c: StreamSourceConfig)
    requires c.id != "" && c.id !in t.runtimes && c.id !in t.generations
    ensures Appended(t, c, RestoreOne(t, w, c)) && Stands(t, w, c, RestoreOne(t, w, c))
    ensures c.id in RestoreOne(t, w, c).generations <==>
      Admissible(w, c) && (ConnectorPort(c) == "" || ConnectorPort(c) !in t.portClaims)
  {
    var u := RestoreOneIs(t, w, c);
    if Admissible(w, c) && (ConnectorPort(c) == "" || ConnectorPort(c) !in t.portClaims) {
      InstallAppends(t, c);
    } else {
      AdmitFailedAppends(t, c, u, ReasonNow(t, w, c));
    }
  }

  // ---- what one more configuration changes

  lemma FirstOfOld(configs: seq<StreamSourceConfig>, c: StreamSourceConfig, i: nat)
    requires i < |configs|
    ensures (configs + [c])[i] == configs[i]
    ensures FirstOnPort(configs + [c], i) <==> FirstOnPort(configs, i)
  {
    assert forall j :: 0 <= j <= i ==> (configs + [c])[j] == configs[j];
  }

  lemma FirstOfNew(configs: seq<StreamSourceConfig>, c: StreamSourceConfig)
    ensures (configs + [c])[|configs|] == c
    ensures FirstOnPort(configs + [c], |configs|) <==> !PortTaken(configs, ConnectorPort(c))
  {
    assert forall j :: 0 <= j < |configs| ==> (configs + [c])[j] == configs[j];
  }

  lemma TakenOfMore(configs: seq<StreamSourceConfig>, c: StreamSourceConfig, port: string)
    ensures PortTaken(configs, port) || port == ConnectorPort(c) ==> PortTaken(configs + [c], port)
  {
    assert (configs + [c])[|configs|] == c;
    if PortTaken(configs, port) {
      var i :| 0 <= i < |configs| && ConnectorPort(configs[i]) == port;
      assert (configs + [c])[i] == configs[i];
    }
  }

  lemma RunsOld(t: State, w: Outside, configs: seq<StreamSourceConfig>, c: StreamSourceConfig, u: State, i: nat)
    requires i < |configs| && Appended(t, c, u) && configs[i].id != c.id && RunsAt(t, w, configs, i)
    ensures RunsAt(u, w, configs + [c], i)
  {
    FirstOfOld(configs, c, i);
  }

  lemma HoldsOld(t: State, configs: seq<StreamSourceConfig>, c: StreamSourceConfig, u: State, i: nat)
    requires i < |configs| && Appended(t, c, u) && HoldsAt(t, configs, i)
    ensures HoldsAt(u, configs + [c], i)
  {
    FirstOfOld(configs, c, i);
  }

  lemma ReasonOld(t: State, w: Outside, configs: seq<StreamSourceConfig>, c: StreamSourceConfig, u: State, i: nat)
    requires AllHold(t, configs) && OnlyTaken(t, configs) && Appended(t, c, u)
    requires i < |configs| && configs[i].id != c.id && ReasonAt(t, w, configs, i)
    ensures ReasonAt(u, w, configs + [c], i)
  {
    FirstOfOld(configs, c, i);
    if Contested(configs, i) {
      assert PortTaken(configs, ConnectorPort(configs[i]));
      ClaimedIffTaken(t, configs, ConnectorPort(configs[i]));
    }
  }

  lemma ReasonNew(t: State, w: Outside, configs: seq<StreamSourceConfig>, c: StreamSourceConfig, u: State)
    requires AllHold(t, configs) && OnlyTaken(t, configs) && Appended(t, c, u) && Stands(t, w, c, u)
    ensures ReasonAt(u, w, configs + [c], |configs|)
  {
    FirstOfNew(configs, c);
    if ConnectorPort(c) != "" {
      ClaimedIffTaken(t, configs, ConnectorPort(c));
    }
  }

  lemma NewAt(t: State, w: Outside, configs: seq<StreamSourceConfig>, c: StreamSourceConfig, u: State)
    requires AllHold(t, configs) && OnlyTaken(t, configs) && Appended(t, c, u)
    requires c.id in u.generations <==>
      Admissible(w, c) && (ConnectorPort(c) == "" || ConnectorPort(c) !in t.portClaims)
    ensures RunsAt(u, w, configs + [c], |configs|) && HoldsAt(u, configs + [c], |configs|)
  {
    FirstOfNew(configs, c);
    if ConnectorPort(c) != "" {
      ClaimedIffTaken(t, configs, ConnectorPort(c));
    }
  }

  lemma TakenAfter(t: State, configs: seq<StreamSourceConfig>, c: StreamSourceConfig, u: State)
    requires OnlyTaken(t, configs) && Appended(t, c, u)
    ensures OnlyTaken(u, configs + [c])
  {
    forall port | port in u.portClaims ensures PortTaken(configs + [c], port) {
      TakenOfMore(configs, c, port);
    }
  }

  lemma BlocksAfter(t: State, c: StreamSourceConfig, u: State)
    requires BlocksMatch(t) && t.generations.Keys <= t.configs.Keys && c.id !in t.configs && Appended(t, c, u)
    ensures BlocksMatch(u)
  {
  }

  lemma RegisteredAfter(t: State, configs: seq<StreamSourceConfig>, c: StreamSourceConfig, u: State)
    requires AllRegistered(t, configs) && c.id !in t.configs && Appended(t, c, u)
    ensures AllRegistered(u, configs + [c])
  {
    forall i | 0 <= i < |configs + [c]| ensures Registered(u, (configs + [c])[i]) {
      if i < |configs| {
        assert (configs + [c])[i] == configs[i] && Registered(t, configs[i]);
      } else {
        assert (configs + [c])[i] == c;
      }
    }
  }

  lemma ListedAfter(t: State, configs: seq<StreamSourceConfig>, c: StreamSourceConfig, u: State)
    requires OnlyListed(t, configs) && Appended(t, c, u)
    ensures OnlyListed(u, configs + [c])
  {
    forall id | id in u.configs ensures Listed(configs + [c], id) {
      assert (configs + [c])[|configs|] == c;
      if id != c.id {
        var i :| 0 <= i < |configs| && configs[i].id == id;
        assert (configs + [c])[i] == configs[i];
      }
    }
  }

  lemma EachStep(t: State, w: Outside, configs: seq<StreamSourceConfig>, c: StreamSourceConfig, u: State, i: nat)
    requires Outcome(t, w, configs) && c.id !in t.configs && i <= |configs|
    requires Appended(t, c, u) && Stands(t, w, c, u)
    requires c.id in u.generations <==>
      Admissible(w, c) && (ConnectorPort(c) == "" || ConnectorPort(c) !in t.portClaims)
    ensures RunsAt(u, w, configs + [c], i) && HoldsAt(u, configs + [c], i) && ReasonAt(u, w, configs + [c], i)
  {
    if i < |configs| {
      assert Registered(t, configs[i]);
      RunsOld(t, w, configs, c, u, i);
      HoldsOld(t, configs, c, u, i);
      ReasonOld(t, w, configs, c, u, i);
    } else {
      NewAt(t, w, configs, c, u);
      ReasonNew(t, w, configs, c, u);
    }
  }

  lemma OutcomeStep(t: State, w: Outside, configs: seq<StreamSourceConfig>, c: StreamSourceConfig, u: State)
    requires Outcome(t, w, configs) && t.generations.Keys <= t.configs.Keys && c.id !in t.configs
    requires Appended(t, c, u) && Stands(t, w, c, u)
    requires c.id in u.generations <==>
      Admissible(w, c) && (ConnectorPort(c) == "" || ConnectorPort(c) !in t.portClaims)
    ensures Outcome(u, w, configs + [c])
  {
    RegisteredAfter(t, configs, c, u);
    ListedAfter(t, configs, c, u);
    TakenAfter(t, configs, c, u);
    BlocksAfter(t, c, u);
    var more := configs + [c];
    forall i | 0 <= i < |more| ensures RunsAt(u, w, more, i) && HoldsAt(u, more, i) && ReasonAt(u, w, more, i) {
      EachStep(t, w, configs, c, u, i);
    }
  }

  lemma RestoreOneKeeps(t: State, w: Outside, c: StreamSourceConfig)
    requires Consistent(t) && c.id != "" && c.id !in t.runtimes
    ensures Consistent(RestoreOne(t, w, c))
  {
    var u := RestoreOneIs(t, w, c);
    if Admissible(w, c) && (ConnectorPort(c) == "" || ConnectorPort(c) !in t.portClaims) {
      InstallKeeps(t, c, false);
    } else {
      WastedKeeps(t);
      AdmitFailedKeeps(u, c, ReasonNow(t, w, c));
    }
  }

  lemma {:induction false} RestoredInOrder(store: Store, w: Outside, configs: seq<StreamSourceConfig>)
    requires Sorted(configs) && forall c :: c in configs ==> c.id != ""
    ensures var t := RestoreInOrder(Fresh(store), w, configs);
      Outcome(t, w, configs) && Consistent(t) && t.store == store
  {
    if configs != [] {
      var front, c := configs[..|configs| - 1], configs[|configs| - 1];
      assert Sorted(front) && front + [c] == configs;
      RestoredInOrder(store, w, front);
      var t := RestoreInOrder(Fresh(store), w, front);
      NewId(configs, t, w);
      RestoreOneAppends(t, w, c);
      OutcomeStep(t, w, front, c, RestoreOne(t, w, c));
      RestoreOneKeeps(t, w, c);
    }
  }

  lemma NewId(configs: seq<StreamSourceConfig>, t: State, w: Outside)
    requires configs != [] && Sorted(configs) && KeysFit(t) && Outcome(t, w, configs[..|configs| - 1])
    ensures configs[|configs| - 1].id !in t.runtimes
  {
    var n := |configs| - 1;
    if configs[n].id in t.configs {
      var i :| 0 <= i < n && configs[..n][i].id == configs[n].id;
      LessTotal(configs[i].id, configs[n].id);
      assert false;
    }
  }

  /** The streams that want one port, in a registry restored from a listing. */
  lemma LeastHolds(configs: seq<StreamSourceConfig>, i: nat, j: nat)
    requires Sorted(configs) && i < |configs| && j < |configs|
    requires FirstOnPort(configs, i) && ConnectorPort(configs[i]) == ConnectorPort(configs[j])
    ensures i == j || Less(configs[i].id, configs[j].id)
  {
  }

  /** A sorted listing without the entry that has no id; there is at most one, in front. */
  function Named(sorted: seq<StreamSourceConfig>): seq<StreamSourceConfig> {
    if sorted != [] && sorted[0].id == "" then sorted[1..] else sorted
  }

  lemma NamedMembers(sorted: seq<StreamSourceConfig>)
    requires Sorted(sorted)
    ensures Sorted(Named(sorted))
    ensures forall c :: c in Named(sorted) <==> c in sorted && c.id != ""
  {
    if Named(sorted) != sorted {
      assert sorted == [sorted[0]] + sorted[1..];
      forall c | c in sorted[1..] ensures c.id != "" {
        var i :| 1 <= i < |sorted| && sorted[i] == c;
        assert Less(sorted[0].id, sorted[i].id);
      }
    } else {
      forall c | c in sorted ensures c.id != "" {
        var i :| 0 <= i < |sorted| && sorted[i] == c;
        assert i > 0 ==> Less(sorted[0].id, sorted[i].id);
      }
    }
  }

  /** An entry without an id is skipped. */
  lemma {:induction false} NamelessSkipped(s: State, w: Outside, sorted: seq<StreamSourceConfig>)
    ensures RestoreInOrder(s, w, sorted) == RestoreInOrder(s, w, Named(sorted))
  {
    if |sorted| > 1 && sorted[0].id == "" {
      var front := sorted[..|sorted| - 1];
      NamelessSkipped(s, w, front);
      assert front[1..] == sorted[1..][..|sorted| - 2];
    }
  }

  /** What the listing holds, in the order it is restored. */
  lemma RestoredListing(store: Store, w: Outside, listing: seq<StreamSourceConfig>)
    returns (configs: seq<StreamSourceConfig>)
    requires DistinctIds(listing) && NoRepeat(listing)
    ensures Sorted(configs) && forall d :: d in configs <==> d in listing && d.id != ""
    ensures var t := Restore(Fresh(store), w, listing);
      Outcome(t, w, configs) && Consistent(t) && t.store == store
  {
    var sorted := SortById(listing);
    configs := Named(sorted);
    SortByIdSorts(listing);
    NamedMembers(sorted);
    forall d ensures d in configs <==> d in listing && d.id != "" {
      SameMembers(sorted, listing, d);
    }
    RestoredInOrder(store, w, configs);
    NamelessSkipped(Fresh(store), w, sorted);
  }

  /** Who holds the i-th configuration's port: the first that wants it. */
  lemma HolderIs(t: State, configs: seq<StreamSourceConfig>, i: nat)
    requires AllHold(t, configs) && Sorted(configs) && i < |configs| && ConnectorPort(configs[i]) != ""
    ensures var port := ConnectorPort(configs[i]);
      port in t.portClaims && (t.portClaims[port] == configs[i].id <==> FirstOnPort(configs, i))
  {
    assert PortTaken(configs, ConnectorPort(configs[i]));
    var k := FirstExists(configs, ConnectorPort(configs[i]));
    assert HoldsAt(t, configs, k) && HoldsAt(t, configs, i);
    if k != i {
      LeastHolds(configs, k, i);
      LessTotal(configs[k].id, configs[i].id);
    }
  }

  lemma OutcomeAt(t: State, w: Outside, configs: seq<StreamSourceConfig>, i: nat)
    requires Outcome(t, w, configs) && KeysFit(t) && Sorted(configs) && i < |configs|
    ensures var c, port := configs[i], ConnectorPort(configs[i]);
      && Registered(t, c)
      && (t.runtimes[c.id].Live? <==> Admissible(w, c) && (port == "" || FirstOnPort(configs, i)))
      && (port != "" ==> port in t.portClaims && (t.portClaims[port] == c.id <==> FirstOnPort(configs, i)))
      && (!t.runtimes[c.id].Live? ==>
            t.runtimes[c.id] == Failed(Reason(t.portClaims, w, c, port != "" && !FirstOnPort(configs, i))))
  {
    assert Registered(t, configs[i]) && RunsAt(t, w, configs, i) && ReasonAt(t, w, configs, i);
    if ConnectorPort(configs[i]) != "" {
      HolderIs(t, configs, i);
    }
  }

  /** What Restore makes of any listing of distinct ids, one of which may be missing: every
      stored stream is registered; it runs if and only if its own checks pass and no stored
      stream with a smaller id configures its port - otherwise it is in error with the reason
      recorded; and each configured port is claimed by the least id that configures it. */
  lemma RestoreOutcome(store: Store, w: Outside, listing: seq<StreamSourceConfig>, c: StreamSourceConfig)
    requires DistinctIds(listing) && NoRepeat(listing) && c in listing && c.id != ""
    ensures var t := Restore(Fresh(store), w, listing);
      var port := ConnectorPort(c);
      && Consistent(t) && Registered(t, c) && t.store == store
      && (t.runtimes[c.id].Live? <==> Admissible(w, c) && (port == "" || LeastOn(listing, c)))
      && (port != "" ==> port in t.portClaims && (t.portClaims[port] == c.id <==> LeastOn(listing, c)))
      && (!t.runtimes[c.id].Live? ==>
            t.runtimes[c.id] == Failed(Reason(t.portClaims, w, c, port != "" && !LeastOn(listing, c))))
  {
    var configs := RestoredListing(store, w, listing);
    var i :| 0 <= i < |configs| && configs[i] == c;
    FirstIsLeast(configs, listing, i);
    OutcomeAt(Restore(Fresh(store), w, listing), w, configs, i);
  }

  /** No other stream of the listing with this port has a smaller id. */
  predicate LeastOn(listing: seq<StreamSourceConfig>, c: StreamSourceConfig) {
    forall d :: d in listing && d.id != "" && ConnectorPort(d) == ConnectorPort(c) ==> !Less(d.id, c.id)
  }

  lemma FirstIsLeast(configs: seq<StreamSourceConfig>, listing: seq<StreamSourceConfig>, i: nat)
    requires Sorted(configs) && i < |configs| && forall d :: d in configs <==> d in listing && d.id != ""
    ensures FirstOnPort(configs, i) <==> LeastOn(listing, configs[i])
  {
    if FirstOnPort(configs, i) {
      forall d | d in listing && d.id != "" && ConnectorPort(d) == ConnectorPort(configs[i])
        ensures !Less(d.id, configs[i].id)
      {
        var j :| 0 <= j < |configs| && configs[j] == d;
        LeastHolds(configs, i, j);
        LessTotal(d.id, configs[i].id);
      }
    } else {
      var j :| 0 <= j < i && ConnectorPort(configs[j]) == ConnectorPort(configs[i]);
      assert configs[j] in configs && Less(configs[j].id, configs[i].id);
    }
  }

  // ---- across a shutdown

  /** The listing is the store's content, in some order. */
  predicate Lists(listing: seq<StreamSourceConfig>, stored: map<string, StreamSourceConfig>) {
    && NoRepeat(listing)
    && (forall c :: c in listing ==> c.id in stored && stored[c.id] == c)
    && (forall id :: id in stored ==> stored[id] in listing && stored[id].id == id)
  }

  /** Restoring what a store holds: the registered configurations are the stored ones, and
      every stream that runs was built from its stored block. */
  lemma RestoreAgrees(stored: map<string, StreamSourceConfig>, w: Outside, listing: seq<StreamSourceConfig>)
    requires Lists(listing, stored) && "" !in stored
    ensures var t := Restore(Fresh(Some(stored)), w, listing);
      Consistent(t) && Agrees(t) && t.configs == stored
  {
    assert DistinctIds(listing);
    var configs := RestoredListing(Some(stored), w, listing);
    SameConfigs(stored, Restore(Fresh(Some(stored)), w, listing), w, configs, listing);
  }

  /** No other of the configurations has a smaller id and this one's port. */
  predicate LeastAmong(configs: map<string, StreamSourceConfig>, id: string)
    requires id in configs
  {
    forall other :: other in configs && ConnectorPort(configs[other]) == ConnectorPort(configs[id]) ==> !Less(other, id)
  }

  lemma LeastOnListing(stored: map<string, StreamSourceConfig>, listing: seq<StreamSourceConfig>, id: string)
    requires Lists(listing, stored) && "" !in stored && id in stored
    ensures LeastOn(listing, stored[id]) <==> LeastAmong(stored, id)
  {
    if LeastOn(listing, stored[id]) {
      forall other | other in stored && ConnectorPort(stored[other]) == ConnectorPort(stored[id])
        ensures !Less(other, id)
      {
        assert stored[other] in listing && stored[other].id == other;
      }
    }
  }

  /** StopAll, then Restore into a fresh manager: the same configurations are registered; a
      stream is live again - whether or not it was before - if and only if it is still
      admissible and no registered stream with a smaller id configures its port; and every
      stream that runs again runs the pipeline block it had. */
  lemma ShutdownAndRestore(s: State, w: Outside, listing: seq<StreamSourceConfig>)
    requires Consistent(s) && Agrees(s) && s.store.Some? && "" !in s.configs
    requires Lists(listing, StopAll(s).store.value)
    ensures var t := Restore(Fresh(StopAll(s).store), w, listing);
      && Consistent(t) && Agrees(t)
      && t.configs == s.configs
      && (forall id :: id in t.generations ==> t.generations[id].block == s.configs[id].pipeline)
      && (forall id :: id in s.configs ==>
            (id in t.generations <==>
               Admissible(w, s.configs[id]) && (ConnectorPort(s.configs[id]) == "" || LeastAmong(s.configs, id))))
  {
    RestoreAgrees(s.configs, w, listing);
    forall id | id in s.configs
      ensures id in Restore(Fresh(StopAll(s).store), w, listing).generations <==>
        Admissible(w, s.configs[id]) && (ConnectorPort(s.configs[id]) == "" || LeastAmong(s.configs, id))
    {
      LiveAgainIff(s.configs, w, listing, id);
    }
  }

  lemma LiveAgainIff(stored: map<string, StreamSourceConfig>, w: Outside, listing: seq<StreamSourceConfig>, id: string)
    requires Lists(listing, stored) && "" !in stored && id in stored
    ensures id in Restore(Fresh(Some(stored)), w, listing).generations <==>
      Admissible(w, stored[id]) && (ConnectorPort(stored[id]) == "" || LeastAmong(stored, id))
  {
    assert DistinctIds(listing);
    assert stored[id] in listing && stored[id].id == id;
    RestoreOutcome(Some(stored), w, listing, stored[id]);
    LeastOnListing(stored, listing, id);
  }

  // ---- a port can change hands across a shutdown

  function OnPort(id: string): StreamSourceConfig {
    StreamSourceConfig(id, "webhook", "", "", None, None, None, None)
  }

  function Pair(a: string, b: string): map<string, StreamSourceConfig> {
    map[a := OnPort(a), b := OnPort(b)]
  }

  lemma PairListed(a: string, b: string)
    requires a != b
    ensures Lists([OnPort(b), OnPort(a)], Pair(a, b))
  {
    assert multiset([OnPort(b), OnPort(a)]) == multiset{OnPort(a), OnPort(b)};
  }

  lemma PairLeast(a: string, b: string)
    requires Less(a, b)
    ensures LeastAmong(Pair(a, b), a) && !LeastAmong(Pair(a, b), b)
  {
    LessTotal(a, b);
    LessTotal(a, a);
    assert ConnectorPort(OnPort(a)) == ConnectorPort(OnPort(b));
  }

  lemma PairHolder(w: Outside, a: string, b: string)
    requires (forall c :: w.valid(c) && w.opens(c)) && Less(a, b) && a != ""
    ensures var t := Restore(Fresh(Some(Pair(a, b))), w, [OnPort(b), OnPort(a)]);
      "8081" in t.portClaims && t.portClaims["8081"] == a && t.store == Some(Pair(a, b))
  {
    LessTotal(a, b);
    PairListed(a, b);
    PairLeast(a, b);
    LeastOnListing(Pair(a, b), [OnPort(b), OnPort(a)], a);
    assert OnPort(a) in [OnPort(b), OnPort(a)];
    RestoreOutcome(Some(Pair(a, b)), w, [OnPort(b), OnPort(a)], OnPort(a));
  }

  lemma PairRegistered(w: Outside, a: string, b: string)
    requires a != b && a != "" && b != ""
    ensures var t := Restore(Fresh(Some(Pair(a, b))), w, [OnPort(b), OnPort(a)]);
      Consistent(t) && t.configs == Pair(a, b)
  {
    PairListed(a, b);
    RestoreAgrees(Pair(a, b), w, [OnPort(b), OnPort(a)]);
  }

  lemma OnlyOne(t: State, a: string, b: string)
    requires KeysFit(t) && t.configs == Pair(a, b) && a in t.generations && b !in t.generations
    ensures t.generations.Keys == {a}
  {
  }

  /** Of two streams restored on one port the one with the smaller id runs. */
  lemma PairRestored(w: Outside, a: string, b: string)
    requires (forall c :: w.valid(c) && w.opens(c)) && Less(a, b) && a != "" && b != "" && a != b
    ensures var t := Restore(Fresh(Some(Pair(a, b))), w, [OnPort(b), OnPort(a)]);
      Consistent(t) && t.configs == Pair(a, b) && t.generations.Keys == {a}
  {
    PairRegistered(w, a, b);
    PairAlive(w, a, b, a);
    PairAlive(w, a, b, b);
    PairLeast(a, b);
    OnlyOne(Restore(Fresh(Some(Pair(a, b))), w, [OnPort(b), OnPort(a)]), a, b);
  }

  lemma PairAlive(w: Outside, a: string, b: string, id: string)
    requires (forall c :: w.valid(c) && w.opens(c)) && a != b && a != "" && b != "" && id in Pair(a, b)
    ensures id in Restore(Fresh(Some(Pair(a, b))), w, [OnPort(b), OnPort(a)]).generations
       <==> LeastAmong(Pair(a, b), id)
  {
    PairListed(a, b);
    LiveAgainIff(Pair(a, b), w, [OnPort(b), OnPort(a)], id);
  }

  /** What restoring "b" and "c" gives: "b" runs and holds the port. */
  predicate HeldByB(t: State) {
    && t.configs == Pair("b", "c") && t.store == Some(Pair("b", "c")) && t.runtimes.Keys == t.configs.Keys
    && t.generations.Keys == {"b"}
    && "8081" in t.portClaims && t.portClaims["8081"] == "b"
  }

  lemma RemovedB(t: State)
    requires HeldByB(t) && KeysFit(t)
    ensures var u := Do(t, Deregister("b", true));
      && u.configs == map["c" := OnPort("c")] && u.store == Some(map["c" := OnPort("c")])
      && u.generations == map[] && "8081" !in u.portClaims && u.runtimes.Keys == {"c"}
  {
    PairWithout("b", "c");
    RemoveSucceedsIff(t, "b", true);
  }

  lemma PairWithout(a: string, b: string)
    requires a != b
    ensures Pair(a, b) - {a} == map[b := OnPort(b)]
  {
  }

  lemma RegisteredD(t: State)
    requires t.configs == map["c" := OnPort("c")] && t.store == Some(map["c" := OnPort("c")])
    requires t.generations == map[] && "8081" !in t.portClaims && t.runtimes.Keys == {"c"}
    ensures var u := Do(t, Register(OnPort("d"), true, true));
      && u.configs == Pair("c", "d") && u.store == Some(Pair("c", "d")) && u.generations.Keys == {"d"}
  {
    assert Refusal(t, OnPort("d"), true, true, true).None?;
    assert map["c" := OnPort("c")]["d" := OnPort("d")] == Pair("c", "d");
  }

  lemma DoTwo(s: State, a: Op, b: Op)
    requires !a.Commit? && !b.Commit?
    ensures DoAll(s, [a, b]) == Some(Do(Do(s, a), b))
  {
    assert [a, b][..1] == [a] && [a][..0] == [];
    assert DoAll(s, [a]) == Some(Do(s, a));
  }

  lemma MovedToD(t: State)
    requires HeldByB(t) && KeysFit(t)
    ensures var s := DoAll(t, [Deregister("b", true), Register(OnPort("d"), true, true)]);
      s.Some? && s.value.store == Some(Pair("c", "d")) && s.value.generations.Keys == {"d"}
  {
    RemovedB(t);
    RegisteredD(Do(t, Deregister("b", true)));
    DoTwo(t, Deregister("b", true), Register(OnPort("d"), true, true));
  }

  /** The streams "b" and "c" are restored on one port; "b" is removed and "d" registered on
      it. Then "d" runs and "c" does not - until a shutdown, after which it is the other way
      round. */
  lemma PortChangesHands(w: Outside)
    requires forall c :: w.valid(c) && w.opens(c)
    ensures var t := Restore(Fresh(Some(Pair("b", "c"))), w, [OnPort("c"), OnPort("b")]);
      var s := DoAll(t, [Deregister("b", true), Register(OnPort("d"), true, true)]);
      && s.Some? && s.value.generations.Keys == {"d"}
      && (var u := Restore(Fresh(StopAll(s.value).store), w, [OnPort("d"), OnPort("c")]);
          u.generations.Keys == {"c"} && "d" in u.configs)
  {
    Letters();
    PairRestored(w, "b", "c");
    PairHolder(w, "b", "c");
    MovedToD(Restore(Fresh(Some(Pair("b", "c"))), w, [OnPort("c"), OnPort("b")]));
    PairRestored(w, "c", "d");
  }

  lemma Letters()
    ensures Less("b", "c") && Less("c", "d") && !Less("c", "b") && !Less("d", "c")
  {
    LessTotal("b", "c");
    LessTotal("c", "d");
  }

  lemma SameConfigs(stored: map<string, StreamSourceConfig>, t: State, w: Outside, configs: seq<StreamSourceConfig>,
                    listing: seq<StreamSourceConfig>)
    requires Lists(listing, stored) && "" !in stored
    requires Outcome(t, w, configs) && forall d :: d in configs <==> d in listing && d.id != ""
    ensures t.configs == stored
  {
    forall id ensures id in t.configs <==> id in stored
      ensures id in t.configs && id in stored ==> t.configs[id] == stored[id]
    {
      if id in t.configs {
        RestoredWasStored(t, w, configs, listing, stored, id);
      }
      if id in stored {
        StoredIsRestored(t, w, configs, stored[id]);
      }
    }
  }

  lemma RestoredWasStored(t: State, w: Outside, configs: seq<StreamSourceConfig>, listing: seq<StreamSourceConfig>,
                          stored: map<string, StreamSourceConfig>, id: string)
    requires Outcome(t, w, configs) && id in t.configs
    requires Lists(listing, stored) && forall d :: d in configs ==> d in listing
    ensures id in stored && stored[id] == t.configs[id]
  {
    var i :| 0 <= i < |configs| && configs[i].id == id;
    assert Registered(t, configs[i]) && configs[i] in configs;
  }

  lemma StoredIsRestored(t: State, w: Outside, configs: seq<StreamSourceConfig>, c: StreamSourceConfig)
    requires Outcome(t, w, configs) && c in configs
    ensures c.id in t.configs && t.configs[c.id] == c
  {
    var i :| 0 <= i < |configs| && configs[i] == c;
    assert Registered(t, configs[i]);
  }
}
