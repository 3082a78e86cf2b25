/**
 The deduplication middleware as it is written: a doubly linked list, newest arrival in
 front, and a map from hashes to its nodes, both updated in place.
 */
module Dedup {
  import opened DedupSpec

  class Node {
    const hash: nat
    const ts: int
    var prev: Node?
    var next: Node?

    constructor (hash: nat, ts: int)
      ensures this.hash == hash && this.ts == ts
    {
      this.hash, this.ts := hash, ts;
      prev, next := null, null;
    }
  }

  ghost predicate AllDifferent(nodes: seq<Node>) {
    forall i, j :: 0 <= i < j < |nodes| ==> nodes[i] != nodes[j]
  }

  ghost function At(nodes: seq<Node>, i: int): Node? {
    if 0 <= i < |nodes| then nodes[i] else null
  }

  ghost predicate Linked(nodes: seq<Node>, i: nat)
    requires i < |nodes|
    reads nodes[i]
  {
    nodes[i].prev == At(nodes, i - 1) && nodes[i].next == At(nodes, i + 1)
  }

  lemma WithoutOne(nodes: seq<Node>, i: nat)
    requires i < |nodes| && AllDifferent(nodes)
    ensures AllDifferent(RemoveAt(nodes, i)) && nodes[i] !in RemoveAt(nodes, i)
    ensures |RemoveAt(nodes, i)| == |nodes| - 1
    ensures forall k :: 0 <= k < |nodes| - 1 ==> RemoveAt(nodes, i)[k] == nodes[if k < i then k else k + 1]
  {
  }

  /** The j-th node's links once the i-th node's neighbours point past it. */
  ghost predicate Bridged(nodes: seq<Node>, i: nat, j: nat)
    requires j < |nodes|
    reads nodes[j]
  {
    && nodes[j].prev == At(nodes, if j == i + 1 then i - 1 else j - 1)
    && nodes[j].next == At(nodes, if j == i - 1 then i + 1 else j + 1)
  }

  lemma LinkedWithout(nodes: seq<Node>, i: nat, k: nat)
    requires i < |nodes| && AllDifferent(nodes) && k < |nodes| - 1
    requires Bridged(nodes, i, if k < i then k else k + 1)
    ensures |RemoveAt(nodes, i)| == |nodes| - 1 && Linked(RemoveAt(nodes, i), k)
  {
    WithoutOne(nodes, i);
    assert forall m: int :: At(RemoveAt(nodes, i), m) == At(nodes, if m < i then m else m + 1);
  }

  /** Everything Handle needs of a linked list. `nodes` is what it holds, front to back. */
  class LinkedList {
    var head: Node?
    var tail: Node?
    ghost var nodes: seq<Node>
    ghost var Repr: set<object>

    ghost predicate Valid()
      reads this, Repr
    {
      && this in Repr
      && (forall i :: 0 <= i < |nodes| ==> nodes[i] in Repr)
      && AllDifferent(nodes)
      && head == At(nodes, 0)
      && tail == At(nodes, |nodes| - 1)
      && (forall i :: 0 <= i < |nodes| ==> Linked(nodes, i))
    }

    constructor ()
      ensures Valid() && nodes == [] && fresh(Repr)
    {
      head, tail, nodes := null, null, [];
      Repr := {this};
    }

    method PushFront(n: Node)
      requires Valid() && n !in nodes
      modifies Repr, n
      ensures Valid() && nodes == [n] + old(nodes) && Repr == old(Repr) + {n}
    {
      assert nodes != [] ==> Linked(nodes, 0);
      n.prev, n.next := null, head;
      if head == null {
        tail := n;
      } else {
        head.prev := n;
      }
      head := n;
      ghost var was := nodes;
      nodes := [n] + nodes;
      Repr := Repr + {n};
      forall k | 0 <= k < |nodes| ensures Linked(nodes, k) {
        assert k > 0 ==> old(Linked(was, k - 1));
      }
    }

    /** Lets the neighbours of n point past it; `i` says where it is. */
    method Unlink(n: Node, ghost i: nat)
      requires Valid() && i < |nodes| && nodes[i] == n
      modifies Repr
      ensures nodes == old(nodes) && Repr == old(Repr)
      ensures head == At(nodes, if i == 0 then 1 else 0)
      ensures tail == At(nodes, if i == |nodes| - 1 then i - 1 else |nodes| - 1)
      ensures forall j :: 0 <= j < |nodes| && j != i ==> Bridged(nodes, i, j)
    {
      assert Linked(nodes, i);
      assert i > 0 ==> Linked(nodes, i - 1);
      assert i + 1 < |nodes| ==> Linked(nodes, i + 1);
      if n.prev == null {
        head := n.next;
      } else {
        n.prev.next := n.next;
      }
      if n.next == null {
        tail := n.prev;
      } else {
        n.next.prev := n.prev;
      }
      n.prev, n.next := null, null;
      forall j | 0 <= j < |nodes| && j != i ensures Bridged(nodes, i, j) {
        assert old(Linked(nodes, j));
      }
    }

    /** Unlinks n; `i` says where it is. */
    method Remove(n: Node, ghost i: nat)
      requires Valid() && i < |nodes| && nodes[i] == n
      modifies Repr
      ensures Valid() && nodes == RemoveAt(old(nodes), i) && n !in nodes && Repr == old(Repr)
    {
      Unlink(n, i);
      ghost var was := nodes;
      nodes := RemoveAt(was, i);
      WithoutOne(was, i);
      forall k | 0 <= k < |nodes| ensures Linked(nodes, k) {
        assert Bridged(was, i, if k < i then k else k + 1);
        LinkedWithout(was, i, k);
      }
    }

    method MoveToFront(n: Node, ghost i: nat)
      requires Valid() && i < |nodes| && nodes[i] == n
      modifies Repr
      ensures Valid() && nodes == [n] + RemoveAt(old(nodes), i) && Repr == old(Repr)
    {
      Remove(n, i);
      PushFront(n);
    }
  }

  function EntriesOf(nodes: seq<Node>): (r: seq<Entry>)
    ensures |r| == |nodes|
    ensures forall i :: 0 <= i < |nodes| ==> r[i] == Entry(nodes[i].hash, nodes[i].ts)
  {
    seq(|nodes|, i requires 0 <= i < |nodes| => Entry(nodes[i].hash, nodes[i].ts))
  }

  /** The map points one-to-one at the nodes. */
  ghost predicate Points(cache: map<nat, Node>, nodes: seq<Node>) {
    && (forall n :: n in nodes ==> n.hash in cache && cache[n.hash] == n)
    && (forall h :: h in cache ==> cache[h] in nodes && cache[h].hash == h)
    && |nodes| == |cache|
  }

  lemma NodesWithout(nodes: seq<Node>, i: nat, n: Node)
    requires i < |nodes| && AllDifferent(nodes)
    ensures n in RemoveAt(nodes, i) <==> n in nodes && n != nodes[i]
  {
    assert nodes == nodes[..i] + [nodes[i]] + nodes[i + 1..];
    assert n in nodes <==> n in nodes[..i] || n == nodes[i] || n in nodes[i + 1..];
    assert n in RemoveAt(nodes, i) <==> n in nodes[..i] || n in nodes[i + 1..];
  }

  /** `less` is `nodes` without `elem`, as sets. */
  lemma PointsLess(cache: map<nat, Node>, nodes: seq<Node>, elem: Node, less: seq<Node>)
    requires Points(cache, nodes) && elem in nodes && |less| == |nodes| - 1
    requires forall n :: n in less <==> n in nodes && n != elem
    ensures Points(cache - {elem.hash}, less)
  {
    var rest := cache - {elem.hash};
    assert rest.Keys == cache.Keys - {elem.hash};
    assert |rest.Keys| == |cache.Keys| - 1;
  }

  lemma PointsWithout(cache: map<nat, Node>, nodes: seq<Node>, i: nat)
    requires Points(cache, nodes) && i < |nodes| && AllDifferent(nodes)
    ensures Points(cache - {nodes[i].hash}, RemoveAt(nodes, i))
  {
    forall n ensures n in RemoveAt(nodes, i) <==> n in nodes && n != nodes[i] {
      NodesWithout(nodes, i, n);
    }
    PointsLess(cache, nodes, nodes[i], RemoveAt(nodes, i));
  }

  lemma PointsSame(cache: map<nat, Node>, nodes: seq<Node>, moved: seq<Node>)
    requires Points(cache, nodes) && |moved| == |nodes|
    requires forall n :: n in moved <==> n in nodes
    ensures Points(cache, moved)
  {
  }

  lemma PointsMoved(cache: map<nat, Node>, nodes: seq<Node>, i: nat)
    requires Points(cache, nodes) && i < |nodes| && AllDifferent(nodes)
    ensures Points(cache, [nodes[i]] + RemoveAt(nodes, i))
  {
    forall n ensures n in [nodes[i]] + RemoveAt(nodes, i) <==> n in nodes {
      NodesWithout(nodes, i, n);
    }
    PointsSame(cache, nodes, [nodes[i]] + RemoveAt(nodes, i));
  }

  lemma PointsPlus(cache: map<nat, Node>, nodes: seq<Node>, n: Node)
    requires Points(cache, nodes) && n.hash !in cache && n !in nodes
    ensures Points(cache[n.hash := n], [n] + nodes)
  {
    assert cache[n.hash := n].Keys == cache.Keys + {n.hash};
  }

  lemma IndexOfNode(cache: map<nat, Node>, nodes: seq<Node>, h: nat)
    requires Points(cache, nodes) && h in cache
    ensures IndexOf(Hashes(EntriesOf(nodes)), h) < |nodes|
    ensures nodes[IndexOf(Hashes(EntriesOf(nodes)), h)] == cache[h]
  {
    var hashes := Hashes(EntriesOf(nodes));
    var k :| 0 <= k < |nodes| && nodes[k] == cache[h];
    assert hashes[k] == h;
    var i := IndexOf(hashes, h);
    assert nodes[i] in nodes && nodes[i].hash == h;
  }

  lemma AbsentHash(cache: map<nat, Node>, nodes: seq<Node>, h: nat)
    requires Points(cache, nodes) && h !in cache
    ensures IndexOf(Hashes(EntriesOf(nodes)), h) == |nodes|
  {
    forall k | 0 <= k < |nodes| ensures nodes[k].hash != h {
      assert nodes[k] in nodes;
    }
  }

  lemma EntriesWithout(nodes: seq<Node>, i: nat)
    ensures EntriesOf(RemoveAt(nodes, i)) == RemoveAt(EntriesOf(nodes), i)
  {
  }

  lemma EntriesPlus(n: Node, nodes: seq<Node>)
    ensures EntriesOf([n] + nodes) == [Entry(n.hash, n.ts)] + EntriesOf(nodes)
  {
  }

  lemma EntriesMoved(nodes: seq<Node>, i: nat)
    requires i < |nodes| && i == IndexOf(Hashes(EntriesOf(nodes)), nodes[i].hash)
    ensures Touched(EntriesOf(nodes), nodes[i].hash) == EntriesOf([nodes[i]] + RemoveAt(nodes, i))
  {
    EntriesWithout(nodes, i);
    EntriesPlus(nodes[i], RemoveAt(nodes, i));
  }

  /** Map, list and entries say the same. */
  ghost predicate Mirrors(cache: map<nat, Node>, nodes: seq<Node>, entries: seq<Entry>) {
    Points(cache, nodes) && entries == EntriesOf(nodes)
  }

  lemma MirrorsForgotten(cache: map<nat, Node>, nodes: seq<Node>, entries: seq<Entry>, i: nat)
    requires Mirrors(cache, nodes, entries) && i < |nodes| && AllDifferent(nodes)
    ensures Mirrors(cache - {nodes[i].hash}, RemoveAt(nodes, i), RemoveAt(entries, i))
  {
    PointsWithout(cache, nodes, i);
    EntriesWithout(nodes, i);
  }

  lemma MirrorsRemembered(cache: map<nat, Node>, nodes: seq<Node>, entries: seq<Entry>, n: Node)
    requires Mirrors(cache, nodes, entries) && n.hash !in cache && n !in nodes
    ensures Mirrors(cache[n.hash := n], [n] + nodes, [Entry(n.hash, n.ts)] + entries)
  {
    PointsPlus(cache, nodes, n);
    EntriesPlus(n, nodes);
  }

  lemma MirrorsTouched(cache: map<nat, Node>, nodes: seq<Node>, entries: seq<Entry>, i: nat)
    requires Mirrors(cache, nodes, entries) && i < |nodes| && AllDifferent(nodes)
    requires i == IndexOf(Hashes(entries), nodes[i].hash)
    ensures Mirrors(cache, [nodes[i]] + RemoveAt(nodes, i), Touched(entries, nodes[i].hash))
  {
    PointsMoved(cache, nodes, i);
    EntriesMoved(nodes, i);
  }

  class Middleware {
    const ttl: int
    const cacheSize: nat
    const ll: LinkedList
    var cache: map<nat, Node>
    var forwarded: seq<nat>   // the hashes handed to next, in order
    ghost var entries: seq<Entry>

    ghost predicate Valid()
      reads this, ll, ll.Repr
    {
      cacheSize > 0 && this !in ll.Repr && ll.Valid() && Mirrors(cache, ll.nodes, entries)
    }

    constructor (ttl: int, cacheSize: nat)
      requires cacheSize > 0
      ensures Valid() && fresh(ll.Repr) && this.ttl == ttl && this.cacheSize == cacheSize
      ensures entries == [] && forwarded == [] && ll.nodes == []
    {
      this.ttl, this.cacheSize := ttl, cacheSize;
      ll := new LinkedList();
      cache, forwarded, entries := map[], [], [];
    }

    /** Takes an element out of list and map; `i` says where it is. */
    method Forget(elem: Node, ghost i: nat)
      requires Valid() && i < |ll.nodes| && ll.nodes[i] == elem
      modifies `cache, `entries, ll.Repr
      ensures Valid() && entries == RemoveAt(old(entries), i)
      ensures cache == old(cache) - {elem.hash}
      ensures ll.Repr == old(ll.Repr)
    {
      MirrorsForgotten(cache, ll.nodes, entries, i);
      entries := RemoveAt(entries, i);
      ll.Remove(elem, i);
      cache := cache - {elem.hash};
      assert Mirrors(cache, ll.nodes, entries);
    }

    /** Puts a new element in front. */
    method Remember(elem: Node)
      requires Valid() && elem.hash !in cache && elem !in ll.nodes
      modifies `cache, `entries, ll.Repr, elem
      ensures Valid() && entries == [Entry(elem.hash, elem.ts)] + old(entries)
      ensures ll.Repr == old(ll.Repr) + {elem}
    {
      MirrorsRemembered(cache, ll.nodes, entries, elem);
      ll.PushFront(elem);
      cache := cache[elem.hash := elem];
      entries := [Entry(elem.hash, elem.ts)] + entries;
      assert Mirrors(cache, ll.nodes, entries);
    }

    method MarkSeen(hash: nat, now: int)
      requires Valid() && hash !in cache
      modifies `cache, `entries, ll.Repr
      ensures Valid() && entries == [Entry(hash, now)] + old(entries)
      ensures fresh(ll.Repr - old(ll.Repr))
    {
      var elem := new Node(hash, now);
      assert forall i :: 0 <= i < |ll.nodes| ==> ll.nodes[i] in ll.Repr;
      Remember(elem);
    }

    /** A duplicate: to the front, with the time it had. */
    method Touch(elem: Node, ghost i: nat)
      requires Valid() && i < |ll.nodes| && ll.nodes[i] == elem && i == IndexOf(Hashes(entries), elem.hash)
      modifies `entries, ll.Repr
      ensures Valid() && entries == Touched(old(entries), elem.hash)
      ensures ll.Repr == old(ll.Repr)
    {
      MirrorsTouched(cache, ll.nodes, entries, i);
      entries := Touched(entries, elem.hash);
      ll.MoveToFront(elem, i);
      assert Mirrors(cache, ll.nodes, entries);
    }

    /** Makes room for one more. */
    method Evict()
      requires Valid()
      modifies `cache, `entries, ll.Repr
      ensures Valid() && entries == Evicted(old(entries), cacheSize)
      ensures ll.Repr == old(ll.Repr)
      ensures cache.Keys <= old(cache).Keys
    {
      if |cache| >= cacheSize {
        var oldest := ll.tail;
        if oldest != null {
          Forget(oldest, |ll.nodes| - 1);
        }
      }
    }

    /** Takes out what is known of this hash, if anything. */
    method Expire(hash: nat)
      requires Valid()
      modifies `cache, `entries, ll.Repr
      ensures Valid() && hash !in cache
      ensures entries == Without(old(entries), hash)
      ensures ll.Repr == old(ll.Repr)
    {
      if hash in cache {
        IndexOfNode(cache, ll.nodes, hash);
        Forget(cache[hash], IndexOf(Hashes(entries), hash));
      } else {
        AbsentHash(cache, ll.nodes, hash);
      }
    }

    /** The entry that makes this hash a duplicate now, if there is one. */
    method Lookup(hash: nat, now: int) returns (elem: Node?)
      requires Valid()
      ensures elem != null <==> Fresh(entries, Arrival(hash, now), ttl)
      ensures elem != null ==>
        var i := IndexOf(Hashes(entries), hash); i < |ll.nodes| && ll.nodes[i] == elem && elem.hash == hash
    {
      if hash in cache {
        IndexOfNode(cache, ll.nodes, hash);
        if now - cache[hash].ts <= ttl {
          return cache[hash];
        }
      } else {
        AbsentHash(cache, ll.nodes, hash);
      }
      return null;
    }

    /** Lets a hash in that is not a duplicate now. */
    method Admit(hash: nat, now: int)
      requires Valid()
      modifies `cache, `entries, ll.Repr
      ensures Valid() && fresh(ll.Repr - old(ll.Repr))
      ensures entries == Admitted(old(entries), Arrival(hash, now), cacheSize)
    {
      Expire(hash);
      Evict();
      MarkSeen(hash, now);
    }

    /** One event, by the hash of its body: list and map become what the specification says,
        and the event goes on unless it is a duplicate. */
    method Handle(hash: nat, now: int)
      requires Valid()
      modifies this, ll.Repr
      ensures Valid() && fresh(ll.Repr - old(ll.Repr))
      ensures entries == After(old(entries), Arrival(hash, now), ttl, cacheSize)
      ensures forwarded == old(forwarded) +
        if Fresh(old(entries), Arrival(hash, now), ttl) then [] else [hash]
    {
      var dup := Lookup(hash, now);
      if dup != null {
        Touch(dup, IndexOf(Hashes(entries), hash));
      } else {
        forwarded := forwarded + [hash];
        Admit(hash, now);
      }
    }
  }

  /** Every event of a stream in arrival order: the list ends as the reference's account of
      the history, and what was let through is what the reference lets through. */
  method HandleAll(ttl: int, cacheSize: nat, arrivals: seq<Arrival>) returns (m: Middleware)
    requires cacheSize > 0
    ensures m.Valid() && Agrees(m.entries, arrivals, ttl, cacheSize)
    ensures m.forwarded == LetThrough(arrivals, ttl, cacheSize)
  {
    m := new Middleware(ttl, cacheSize);
    for k := 0 to |arrivals|
      invariant fresh(m) && fresh(m.ll.Repr) && m.ttl == ttl && m.cacheSize == cacheSize
      invariant m.Valid() && m.entries == Cache(arrivals[..k], ttl, cacheSize)
      invariant m.forwarded == LetThrough(arrivals[..k], ttl, cacheSize)
    {
      HistoryGrows(arrivals, k, ttl, cacheSize);
      m.Handle(arrivals[k].hash, arrivals[k].now);
    }
    assert arrivals[..|arrivals|] == arrivals;
    CacheAgrees(arrivals, ttl, cacheSize);
  }

  lemma HistoryGrows(arrivals: seq<Arrival>, k: nat, ttl: int, cap: nat)
    requires k < |arrivals| && cap > 0
    ensures Cache(arrivals[..k + 1], ttl, cap) == After(Cache(arrivals[..k], ttl, cap), arrivals[k], ttl, cap)
    ensures LetThrough(arrivals[..k + 1], ttl, cap) == LetThrough(arrivals[..k], ttl, cap) +
      if Fresh(Cache(arrivals[..k], ttl, cap), arrivals[k], ttl) then [] else [arrivals[k].hash]
  {
    assert arrivals[..k + 1][..k] == arrivals[..k];
    CacheDecides(arrivals[..k], arrivals[k], ttl, cap);
  }
}
