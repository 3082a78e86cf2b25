/** Walking a path of names and positions through a decoded document. */
module JsonPath {
  import opened Wrappers
  import opened Text
  import opened Ports

  datatype Json =
    | Null
    | Bool(b: bool)
    | Number(n: real)
    | Str(s: string)
    | List(items: seq<Json>)
    | Object(fields: map<string, Json>)

  function Step(v: Json, part: string): Option<Json> {
    match v
    case Object(fields) => if part in fields then Some(fields[part]) else None
    case List(items) =>
      var i := Atoi(part);
      if i.Some? && 0 <= i.value < |items| then Some(items[i.value]) else None
    case _ => None
  }

  function Walk(v: Json, parts: seq<string>): Option<Json> {
    if parts == [] then Some(v)
    else
      var next := Step(v, parts[0]);
      if next.None? then None else Walk(next.value, parts[1..])
  }

  function Extract(v: Json, path: string): Option<Json> {
    Walk(v, Split(path, '.'))
  }

  method ExtractValue(obj: Json, path: string) returns (r: Option<Json>)
    ensures r == Extract(obj, path)
  {
    var parts := Split(path, '.');
    var current := obj;
    for i := 0 to |parts|
      invariant Walk(obj, parts) == Walk(current, parts[i..])
    {
      assert parts[i..][1..] == parts[i + 1..];
      match current
      case Object(fields) =>
        if parts[i] !in fields {
          return None;
        }
        current := fields[parts[i]];
      case List(items) =>
        var idx := Atoi(parts[i]);
        if idx.None? || idx.value < 0 || idx.value >= |items| {
          return None;
        }
        current := items[idx.value];
      case _ =>
        return None;
    }
    return Some(current);
  }

  lemma {:induction false} WalkAppends(v: Json, a: seq<string>, b: seq<string>)
    ensures Walk(v, a + b) == if Walk(v, a).None? then None else Walk(Walk(v, a).value, b)
  {
    if a == [] {
      assert a + b == b;
    } else {
      assert (a + b)[1..] == a[1..] + b;
      var next := Step(v, a[0]);
      if next.Some? {
        WalkAppends(next.value, a[1..], b);
      }
    }
  }

  /** A dotted path is walked in two stretches, cut at any of its dots. */
  lemma ExtractComposes(v: Json, a: string, b: string)
    ensures Extract(v, a + "." + b) == if Extract(v, a).None? then None else Extract(Extract(v, a).value, b)
  {
    SplitAppend(a, b, '.');
    assert a + "." + b == a + ['.'] + b;
    WalkAppends(v, Split(a, '.'), Split(b, '.'));
  }

  // ---- the same, told by the document's own structure

  /** One step into a document: to the field of a name, or to the element at a position. */
  datatype Hop = ByName(name: string) | ByIndex(i: nat)

  predicate Leads(v: Json, route: seq<Hop>, target: Json) {
    if route == [] then target == v
    else
      match route[0]
      case ByName(name) => v.Object? && name in v.fields && Leads(v.fields[name], route[1..], target)
      case ByIndex(i) => v.List? && i < |v.items| && Leads(v.items[i], route[1..], target)
  }

  /** A part of a path spells a hop: the name itself, or any spelling of the position. */
  predicate Spells(part: string, hop: Hop) {
    match hop
    case ByName(name) => part == name
    case ByIndex(i) => Atoi(part) == Some(i)
  }

  predicate SpellsAll(parts: seq<string>, route: seq<Hop>) {
    |parts| == |route| && forall k :: 0 <= k < |parts| ==> Spells(parts[k], route[k])
  }

  ghost predicate Reaches(v: Json, parts: seq<string>, target: Json) {
    exists route :: SpellsAll(parts, route) && Leads(v, route, target)
  }

  lemma ReachesNone(v: Json, target: Json)
    ensures Reaches(v, [], target) <==> target == v
  {
    assert SpellsAll([], []) && (Leads(v, [], target) <==> target == v);
  }

  lemma ReachesByHop(v: Json, parts: seq<string>, hop: Hop, next: Json, target: Json)
    requires parts != [] && Spells(parts[0], hop) && Leads(v, [hop], next) && Reaches(next, parts[1..], target)
    ensures Reaches(v, parts, target)
  {
    var rest :| SpellsAll(parts[1..], rest) && Leads(next, rest, target);
    var route := [hop] + rest;
    assert route[0] == hop && route[1..] == rest && [hop][1..] == [];
    assert forall k :: 1 <= k < |parts| ==> parts[k] == parts[1..][k - 1] && route[k] == rest[k - 1];
    assert SpellsAll(parts, route) && Leads(v, route, target);
  }

  lemma ReachesInSteps(v: Json, parts: seq<string>, target: Json)
    requires parts != [] && Reaches(v, parts, target)
    ensures Step(v, parts[0]).Some? && Reaches(Step(v, parts[0]).value, parts[1..], target)
  {
    var route :| SpellsAll(parts, route) && Leads(v, route, target);
    assert Spells(parts[0], route[0]);
    forall k | 0 <= k < |parts| - 1 ensures Spells(parts[1..][k], route[1..][k]) {
      assert Spells(parts[k + 1], route[k + 1]);
    }
    assert SpellsAll(parts[1..], route[1..]);
  }

  lemma {:induction false} WalkReaches(v: Json, parts: seq<string>, target: Json)
    ensures Walk(v, parts) == Some(target) <==> Reaches(v, parts, target)
  {
    if parts == [] {
      ReachesNone(v, target);
    } else {
      var next := Step(v, parts[0]);
      if next.Some? {
        WalkReaches(next.value, parts[1..], target);
        var hop := if v.Object? then ByName(parts[0]) else ByIndex(Atoi(parts[0]).value);
        assert [hop][1..] == [] && Leads(v, [hop], next.value);
        if Reaches(next.value, parts[1..], target) {
          ReachesByHop(v, parts, hop, next.value, target);
        }
      }
      if Reaches(v, parts, target) {
        ReachesInSteps(v, parts, target);
      }
    }
  }

  /** A dotted path gives a value of the document if and only if a route its parts spell - names
      into objects, positions into lists - leads there. */
  lemma ExtractIff(v: Json, path: string, target: Json)
    ensures Extract(v, path) == Some(target) <==> Reaches(v, Split(path, '.'), target)
  {
    WalkReaches(v, Split(path, '.'), target);
  }
}
