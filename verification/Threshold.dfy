/**
 The threshold filter: the table of last forwarded values, one for each group, and what it
 makes of a whole history of readings.
 */
module Threshold {
  import opened Wrappers
  import opened JsonPath

  datatype Reading = Reading(group: string, value: real)

  /** How text is read as a number, and how any value is printed as a group's key. */
  datatype Reader = Reader(parseFloat: string -> Option<real>, sprint: Json -> string)

  /** A payload as decoded, or nothing if there is nothing to decode. */
  type Doc = Option<Json>

  function NumberOf(w: Reader, v: Json): Option<real> {
    match v
    case Number(n) => Some(n)
    case Str(s) => w.parseFloat(s)
    case _ => None
  }

  /** What an event says: a group and a number, or nothing that can be judged. */
  function Read(w: Reader, path: string, groupBy: string, doc: Doc): Option<Reading> {
    if doc.None? then None
    else
      var v := Extract(doc.value, path);
      var number := if v.None? then None else NumberOf(w, v.value);
      var key := if groupBy == "" then None else Extract(doc.value, groupBy);
      if number.None? || (groupBy != "" && key.None?) then None
      else Some(Reading(if key.None? then "" else w.sprint(key.value), number.value))
  }

  /** A value measures x: it is that number, or text that is read as it. */
  predicate Measures(w: Reader, v: Json, x: real) {
    v == Number(x) || (v.Str? && w.parseFloat(v.s) == Some(x))
  }

  /** An event is judged if and only if its path leads to something that measures a number and,
      where events are grouped, the other path leads anywhere; its group is what stands there,
      printed. */
  lemma ReadIff(w: Reader, path: string, groupBy: string, doc: Doc, r: Reading)
    ensures Read(w, path, groupBy, doc) == Some(r) <==>
      && doc.Some?
      && (exists v :: Extract(doc.value, path) == Some(v) && Measures(w, v, r.value))
      && (if groupBy == "" then r.group == ""
          else exists key :: Extract(doc.value, groupBy) == Some(key) && r.group == w.sprint(key))
  {
    if doc.Some? && Extract(doc.value, path).Some? {
      var v := Extract(doc.value, path).value;
      assert NumberOf(w, v) == Some(r.value) <==> Measures(w, v, r.value);
    }
  }

  function Abs(x: real): real {
    if x < 0.0 then -x else x
  }

  /** The value a group last forwarded. */
  function Last(history: seq<Reading>, group: string, delta: real): Option<real> {
    if history == [] then None
    else
      var before := Last(history[..|history| - 1], group, delta);
      var r := history[|history| - 1];
      if r.group == group && (before.None? || Abs(r.value - before.value) >= delta) then Some(r.value) else before
  }

  predicate Forwards(history: seq<Reading>, r: Reading, delta: real) {
    var last := Last(history, r.group, delta);
    last.None? || Abs(r.value - last.value) >= delta
  }

  /** The history after an event, and whether the event goes on. */
  function Next(history: seq<Reading>, r: Option<Reading>): seq<Reading> {
    if r.Some? then history + [r.value] else history
  }

  predicate Goes(history: seq<Reading>, r: Option<Reading>, delta: real) {
    r.Some? ==> Forwards(history, r.value, delta)
  }

  function Kept(history: seq<Reading>, delta: real): seq<Reading> {
    if history == [] then []
    else
      var front, r := history[..|history| - 1], history[|history| - 1];
      Kept(front, delta) + if Forwards(front, r, delta) then [r] else []
  }

  datatype GroupState = GroupState(hasLast: bool, lastVal: real)

  class Filter {
    const path: string
    const groupBy: string
    const delta: real
    var states: map<string, GroupState>
    ghost var history: seq<Reading>

    /** The table says what the history says. */
    ghost predicate Valid()
      reads this
    {
      forall g: string :: Last(history, g, delta) ==
        if g in states && states[g].hasLast then Some(states[g].lastVal) else None
    }

    constructor (path: string, groupBy: string, delta: real)
      ensures Valid() && history == []
      ensures this.path == path && this.groupBy == groupBy && this.delta == delta
    {
      this.path, this.groupBy, this.delta := path, groupBy, delta;
      states := map["" := GroupState(false, 0.0)];
      history := [];
    }

    /** Whether an event goes on. One without a reading always does, and leaves no trace. */
    method Handle(w: Reader, doc: Doc) returns (forward: bool)
      requires Valid()
      modifies this
      ensures Valid()
      ensures history == Next(old(history), Read(w, path, groupBy, doc))
      ensures forward <==> Goes(old(history), Read(w, path, groupBy, doc), delta)
      ensures Read(w, path, groupBy, doc).None? ==> states == old(states)
    {
      if doc.None? {
        return true;
      }
      var extracted := ExtractValue(doc.value, path);
      if extracted.None? {
        return true;
      }
      var currentVal: real;
      match extracted.value {
        case Number(n) =>
          currentVal := n;
        case Str(s) =>
          var parsed := w.parseFloat(s);
          if parsed.None? {
            return true;
          }
          currentVal := parsed.value;
        case _ =>
          return true;
      }
      var groupKey := "";
      if groupBy != "" {
        var groupValue := ExtractValue(doc.value, groupBy);
        if groupValue.None? {
          return true;
        }
        groupKey := w.sprint(groupValue.value);
      }
      forward := Judge(Reading(groupKey, currentVal));
    }

    method Judge(r: Reading) returns (forward: bool)
      requires Valid()
      modifies this
      ensures Valid() && history == old(history) + [r]
      ensures forward <==> Forwards(old(history), r, delta)
    {
      var groupState := if r.group in states then states[r.group] else GroupState(false, 0.0);
      forward := !groupState.hasLast || Abs(r.value - groupState.lastVal) >= delta;
      forall g: string {
        LastSnoc(history, r, g, delta);
      }
      history := history + [r];
      if forward {
        states := states[r.group := GroupState(true, r.value)];
      }
    }
  }

  /** The readings of a stream, in order. */
  function Readings(w: Reader, path: string, groupBy: string, docs: seq<Doc>): seq<Reading> {
    if docs == [] then []
    else
      var r := Read(w, path, groupBy, docs[|docs| - 1]);
      Readings(w, path, groupBy, docs[..|docs| - 1]) + if r.Some? then [r.value] else []
  }

  /** The events of a stream that have no reading, in order. */
  function Unread(w: Reader, path: string, groupBy: string, docs: seq<Doc>): seq<Doc> {
    if docs == [] then []
    else
      var doc := docs[|docs| - 1];
      Unread(w, path, groupBy, docs[..|docs| - 1]) + if Read(w, path, groupBy, doc).None? then [doc] else []
  }

  lemma StreamSnoc(w: Reader, path: string, groupBy: string, docs: seq<Doc>, doc: Doc)
    ensures Readings(w, path, groupBy, docs + [doc]) == Readings(w, path, groupBy, docs) +
      if Read(w, path, groupBy, doc).Some? then [Read(w, path, groupBy, doc).value] else []
    ensures Unread(w, path, groupBy, docs + [doc]) == Unread(w, path, groupBy, docs) +
      if Read(w, path, groupBy, doc).None? then [doc] else []
  {
    assert (docs + [doc])[..|docs|] == docs;
  }

  /** What is known after some events: the readings among them, and what went on. */
  predicate Tracks(f: (Reader, string, string, real), docs: seq<Doc>, kept: seq<Doc>, history: seq<Reading>) {
    var (w, path, groupBy, delta) := f;
    && history == Readings(w, path, groupBy, docs)
    && Readings(w, path, groupBy, kept) == Kept(history, delta)
    && Unread(w, path, groupBy, kept) == Unread(w, path, groupBy, docs)
  }

  lemma TracksNext(f: (Reader, string, string, real), docs: seq<Doc>, kept: seq<Doc>, history: seq<Reading>, doc: Doc)
    requires Tracks(f, docs, kept, history)
    ensures var r := Read(f.0, f.1, f.2, doc);
      Tracks(f, docs + [doc], if Goes(history, r, f.3) then kept + [doc] else kept, Next(history, r))
  {
    var r := Read(f.0, f.1, f.2, doc);
    StreamSnoc(f.0, f.1, f.2, docs, doc);
    StreamSnoc(f.0, f.1, f.2, kept, doc);
    if r.Some? {
      KeptSnoc(history, r.value, f.3);
    }
  }

  /** A whole stream: of the events with a reading those of `Kept` go on, and all others do. */
  method HandleAll(w: Reader, path: string, groupBy: string, delta: real, docs: seq<Doc>) returns (kept: seq<Doc>)
    ensures Readings(w, path, groupBy, kept) == Kept(Readings(w, path, groupBy, docs), delta)
    ensures Unread(w, path, groupBy, kept) == Unread(w, path, groupBy, docs)
  {
    var m := new Filter(path, groupBy, delta);
    kept := [];
    ghost var f := (w, path, groupBy, delta);
    for i := 0 to |docs|
      invariant fresh(m) && m.Valid() && m.path == path && m.groupBy == groupBy && m.delta == delta
      invariant Tracks(f, docs[..i], kept, m.history)
    {
      TracksNext(f, docs[..i], kept, m.history, docs[i]);
      assert docs[..i + 1] == docs[..i] + [docs[i]];
      var forward := m.Handle(w, docs[i]);
      if forward {
        kept := kept + [docs[i]];
      }
    }
    assert docs[..|docs|] == docs;
  }

  // ---- histories

  function Group(history: seq<Reading>, g: string): (r: seq<Reading>)
    ensures forall x :: x in r ==> x.group == g && x in history
  {
    if history == [] then []
    else
      var r := history[|history| - 1];
      Group(history[..|history| - 1], g) + if r.group == g then [r] else []
  }

  lemma LastSnoc(history: seq<Reading>, r: Reading, g: string, delta: real)
    ensures Last(history + [r], g, delta) ==
      if r.group == g && Forwards(history, r, delta) then Some(r.value) else Last(history, g, delta)
  {
    assert (history + [r])[..|history|] == history;
  }

  lemma KeptSnoc(history: seq<Reading>, r: Reading, delta: real)
    ensures Kept(history + [r], delta) ==
      if Forwards(history, r, delta) then Kept(history, delta) + [r] else Kept(history, delta)
  {
    assert (history + [r])[..|history|] == history;
  }

  lemma GroupSnoc(history: seq<Reading>, r: Reading, g: string)
    ensures Group(history + [r], g) == if r.group == g then Group(history, g) + [r] else Group(history, g)
  {
    assert (history + [r])[..|history|] == history;
  }

  lemma GroupKeptSnoc(history: seq<Reading>, r: Reading, g: string, delta: real)
    ensures Group(Kept(history + [r], delta), g) ==
      if r.group == g && Forwards(history, r, delta) then Group(Kept(history, delta), g) + [r]
      else Group(Kept(history, delta), g)
  {
    KeptSnoc(history, r, delta);
    if Forwards(history, r, delta) {
      GroupSnoc(Kept(history, delta), r, g);
    }
  }

  /** What a group last forwarded is decided by its own readings. */
  lemma {:induction false} LastIsOwn(history: seq<Reading>, g: string, delta: real)
    ensures Last(history, g, delta) == Last(Group(history, g), g, delta)
  {
    if history != [] {
      var front, r := history[..|history| - 1], history[|history| - 1];
      assert history == front + [r];
      LastIsOwn(front, g, delta);
      LastSnoc(front, r, g, delta);
      GroupSnoc(front, r, g);
      if r.group == g {
        LastSnoc(Group(front, g), r, g, delta);
      }
    }
  }

  lemma ForwardsIsOwn(front: seq<Reading>, r: Reading, delta: real)
    ensures Forwards(front, r, delta) <==> Forwards(Group(front, r.group), r, delta)
  {
    LastIsOwn(front, r.group, delta);
  }

  lemma OwnStep(front: seq<Reading>, r: Reading, delta: real)
    requires Group(Kept(front, delta), r.group) == Kept(Group(front, r.group), delta)
    ensures Group(Kept(front + [r], delta), r.group) == Kept(Group(front + [r], r.group), delta)
  {
    ForwardsIsOwn(front, r, delta);
    GroupKeptSnoc(front, r, r.group, delta);
    GroupSnoc(front, r, r.group);
    KeptSnoc(Group(front, r.group), r, delta);
  }

  lemma OtherStep(front: seq<Reading>, r: Reading, g: string, delta: real)
    requires r.group != g
    ensures Group(Kept(front + [r], delta), g) == Group(Kept(front, delta), g)
    ensures Group(front + [r], g) == Group(front, g)
  {
    GroupKeptSnoc(front, r, g, delta);
    GroupSnoc(front, r, g);
  }

  /** Of any interleaving, a group forwards what it would have forwarded on its own. */
  lemma {:induction false} OwnSubsequence(history: seq<Reading>, g: string, delta: real)
    ensures Group(Kept(history, delta), g) == Kept(Group(history, g), delta)
  {
    if history != [] {
      var front, r := history[..|history| - 1], history[|history| - 1];
      assert history == front + [r];
      OwnSubsequence(front, g, delta);
      if r.group == g {
        OwnStep(front, r, delta);
      } else {
        OtherStep(front, r, g, delta);
      }
    }
  }

  function Newest(kept: seq<Reading>): Option<real> {
    if kept == [] then None else Some(kept[|kept| - 1].value)
  }

  /** The value remembered for a group is the last one it let through. */
  lemma {:induction false} LastIsKept(history: seq<Reading>, g: string, delta: real)
    ensures Last(history, g, delta) == Newest(Group(Kept(history, delta), g))
  {
    if history != [] {
      var front, r := history[..|history| - 1], history[|history| - 1];
      assert history == front + [r];
      LastIsKept(front, g, delta);
      LastSnoc(front, r, g, delta);
      GroupKeptSnoc(front, r, g, delta);
    }
  }

  /** The first reading of every group goes through. */
  lemma {:induction false} FirstGoesThrough(history: seq<Reading>, g: string, delta: real)
    ensures
      var all, kept := Group(history, g), Group(Kept(history, delta), g);
      all != [] ==> kept != [] && kept[0] == all[0]
  {
    if history != [] {
      var front, r := history[..|history| - 1], history[|history| - 1];
      assert history == front + [r];
      FirstGoesThrough(front, g, delta);
      GroupSnoc(front, r, g);
      GroupKeptSnoc(front, r, g, delta);
      LastIsOwn(front, g, delta);
      OwnSubsequence(front, g, delta);
    }
  }

  predicate Spaced(kept: seq<Reading>, delta: real) {
    forall i :: 0 < i < |kept| ==> Abs(kept[i].value - kept[i - 1].value) >= delta
  }

  lemma SpacedPlus(kept: seq<Reading>, r: Reading, more: bool, delta: real)
    requires Spaced(kept, delta)
    requires more ==> Newest(kept).None? || Abs(r.value - Newest(kept).value) >= delta
    ensures Spaced(if more then kept + [r] else kept, delta)
  {
  }

  lemma SpacedStep(front: seq<Reading>, r: Reading, g: string, delta: real)
    requires Spaced(Group(Kept(front, delta), g), delta)
    ensures Spaced(Group(Kept(front + [r], delta), g), delta)
  {
    GroupKeptSnoc(front, r, g, delta);
    LastIsKept(front, g, delta);
    SpacedPlus(Group(Kept(front, delta), g), r, r.group == g && Forwards(front, r, delta), delta);
  }

  /** Any two neighbours among what a group lets through are at least delta apart. */
  lemma {:induction false} KeptIsSpaced(history: seq<Reading>, g: string, delta: real)
    ensures Spaced(Group(Kept(history, delta), g), delta)
  {
    if history != [] {
      var front, r := history[..|history| - 1], history[|history| - 1];
      assert history == front + [r];
      KeptIsSpaced(front, g, delta);
      SpacedStep(front, r, g, delta);
    }
  }

  /** The last of these is r itself, or closer to it than delta. */
  predicate EndsNear(kept: seq<Reading>, r: Reading, delta: real) {
    kept != [] && (kept[|kept| - 1] == r || Abs(r.value - kept[|kept| - 1].value) < delta)
  }

  lemma NewestAfter(kept: seq<Reading>, r: Reading, forwards: bool, delta: real)
    requires !forwards ==> Newest(kept).Some? && Abs(r.value - Newest(kept).value) < delta
    ensures EndsNear(if forwards then kept + [r] else kept, r, delta)
  {
  }

  /** What goes through is never delta or more behind what came in: after any history, a
      group's last reading is the last one let through, or closer to it than delta. */
  lemma NeverFarBehind(history: seq<Reading>, r: Reading, delta: real)
    ensures EndsNear(Group(Kept(history + [r], delta), r.group), r, delta)
  {
    LastIsKept(history, r.group, delta);
    NewestAfter(Group(Kept(history, delta), r.group), r, Forwards(history, r, delta), delta);
    GroupKeptSnoc(history, r, r.group, delta);
  }
}
