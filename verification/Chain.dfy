/**
 A middleware chain as a handler: each stage wraps the next one. What a stage decides from
 its own memory or from JSON text is left open: the Choices.
 */
module Chain {
  import opened Domain
  import opened PipelineBuilder

  datatype Result =
    | Dropped(stage: Stage)
    | Delivered(event: StreamEvent)
    | Buffered(event: StreamEvent)
    | Panicked

  /** What comes of decoding a payload into a map of fields: JSON's null gives no error and no
      map either. */
  datatype Decoded = NotAMap | NilMap | AMap

  type Handler = StreamEvent -> Result

  /** Any state of the stateful stages, and any reading of JSON payloads. */
  datatype Choices = Choices(
    parses: string -> bool,              // as any JSON value
    decodes: string -> Decoded,          // as an object
    transformed: (map<string, string>, string) -> string,
    enriched: (map<string, string>, string) -> string,
    duplicate: string -> bool,           // by the hash of the body
    tooSmall: StreamEvent -> bool,
    cancelled: bool)

  function Wrap(w: Choices, stage: Stage, next: Handler): Handler {
    match stage
    case Filter(types) => (e: StreamEvent) => if e.kind in types then next(e) else Dropped(stage)
    case Transform(mapping) => (e: StreamEvent) =>
      if e.payload == "" || !w.parses(e.payload) then next(e)
      else next(e.(payload := w.transformed(mapping, e.payload)))
    case Dedup(_, _) => (e: StreamEvent) => if w.duplicate(e.Body()) then Dropped(stage) else next(e)
    case Enrich(tags) => (e: StreamEvent) =>
      if e.payload == "" || w.decodes(e.payload).NotAMap? then next(e)
      else if w.decodes(e.payload).NilMap? then Panicked
      else next(e.(payload := w.enriched(tags, e.payload)))
    case Threshold(_, _, _) => (e: StreamEvent) =>
      if e.payload == "" || !w.tooSmall(e) then next(e) else Dropped(stage)
    case Batch(_, _) => (e: StreamEvent) => if e.IsBinary() || w.cancelled then next(e) else Buffered(e)
  }

  function Fold(w: Choices, stages: seq<Stage>, publish: Handler): Handler {
    if stages == [] then publish else Wrap(w, stages[0], Fold(w, stages[1..], publish))
  }

  /** Execute: wraps from the last stage to the first, so the first stage sees an event first. */
  method Execute(w: Choices, stages: seq<Stage>, publish: Handler) returns (handler: Handler)
    ensures handler == Fold(w, stages, publish)
  {
    handler := publish;
    var i := |stages|;
    assert stages[i..] == [];
    while i > 0
      invariant 0 <= i <= |stages|
      invariant handler == Fold(w, stages[i..], publish)
    {
      i := i - 1;
      assert stages[i..][1..] == stages[i + 1..];
      handler := Wrap(w, stages[i], handler);
    }
    assert stages[0..] == stages;
  }

  /** Chains compose: running one after another is running their concatenation. */
  lemma {:induction false} FoldAppends(w: Choices, a: seq<Stage>, b: seq<Stage>, publish: Handler)
    ensures Fold(w, a + b, publish) == Fold(w, a, Fold(w, b, publish))
  {
    if a == [] {
      assert a + b == b;
    } else {
      FoldAppends(w, a[1..], b, publish);
      assert (a + b)[1..] == a[1..] + b;
    }
  }

  /** Whether a stage turns a binary event away: only a filter or a dedup stage ever does. */
  predicate TurnsAway(w: Choices, stage: Stage, e: StreamEvent) {
    match stage
    case Filter(types) => e.kind !in types
    case Dedup(_, _) => w.duplicate(e.data)
    case _ => false
  }

  predicate FirstToTurnAway(w: Choices, stages: seq<Stage>, i: nat, e: StreamEvent) {
    i < |stages| && TurnsAway(w, stages[i], e) && forall j :: 0 <= j < i ==> !TurnsAway(w, stages[j], e)
  }

  /** Through any chain, in any state: a binary event without payload is handed on untouched,
      unless a filter or a dedup stage turns it away - the first such stage, if any. */
  lemma {:induction false} BinaryUntouched(w: Choices, stages: seq<Stage>, publish: Handler, e: StreamEvent)
    requires e.IsBinary() && e.payload == ""
    ensures (forall i :: 0 <= i < |stages| ==> !TurnsAway(w, stages[i], e))
        ==> Fold(w, stages, publish)(e) == publish(e)
    ensures forall i: nat :: FirstToTurnAway(w, stages, i, e) ==> Fold(w, stages, publish)(e) == Dropped(stages[i])
  {
    if stages != [] {
      BinaryUntouched(w, stages[1..], publish, e);
      assert forall i :: 1 <= i < |stages| ==> stages[i] == stages[1..][i - 1];
      if TurnsAway(w, stages[0], e) {
        assert Fold(w, stages, publish)(e) == Dropped(stages[0]);
      } else {
        assert Fold(w, stages, publish)(e) == Fold(w, stages[1..], publish)(e);
        forall i: nat | FirstToTurnAway(w, stages, i, e)
          ensures Fold(w, stages, publish)(e) == Dropped(stages[i])
        {
          assert i > 0 && stages[1..][i - 1] == stages[i];
          assert FirstToTurnAway(w, stages[1..], i - 1, e);
        }
      }
    }
  }

  /** A payload that decodes to no map makes the enrich stage write into a nil map. */
  lemma NilMapPanics(w: Choices, tags: map<string, string>, rest: seq<Stage>, publish: Handler, e: StreamEvent)
    requires e.payload != "" && w.decodes(e.payload).NilMap?
    ensures Fold(w, [Enrich(tags)] + rest, publish)(e).Panicked?
  {
    assert ([Enrich(tags)] + rest)[1..] == rest;
  }

  /** What transform and enrich put out is an object. */
  ghost predicate PutsOutObjects(w: Choices) {
    && (forall mapping, payload :: w.decodes(w.transformed(mapping, payload)) != NilMap)
    && (forall tags, payload :: w.decodes(w.enriched(tags, payload)) != NilMap)
  }

  /** Nothing else does: no chain panics on an event whose own payload is not such a one. */
  lemma {:induction false} OnlyNilMapPanics(w: Choices, stages: seq<Stage>, publish: Handler, e: StreamEvent)
    requires PutsOutObjects(w) && forall x :: !publish(x).Panicked?
    requires w.decodes(e.payload) != NilMap
    ensures !Fold(w, stages, publish)(e).Panicked?
  {
    if stages != [] {
      var rest := stages[1..];
      OnlyNilMapPanics(w, rest, publish, e);
      match stages[0]
      case Transform(mapping) => OnlyNilMapPanics(w, rest, publish, e.(payload := w.transformed(mapping, e.payload)));
      case Enrich(tags) => OnlyNilMapPanics(w, rest, publish, e.(payload := w.enriched(tags, e.payload)));
      case _ =>
    }
  }

  // ---- the journey of any event, stage by stage

  /** What an event is when it leaves a stage that hands it on. */
  function Leaving(w: Choices, stage: Stage, e: StreamEvent): StreamEvent {
    match stage
    case Transform(mapping) =>
      if e.payload != "" && w.parses(e.payload) then e.(payload := w.transformed(mapping, e.payload)) else e
    case Enrich(tags) =>
      if e.payload != "" && w.decodes(e.payload).AMap? then e.(payload := w.enriched(tags, e.payload)) else e
    case _ => e
  }

  function LeavingAll(w: Choices, stages: seq<Stage>, e: StreamEvent): StreamEvent {
    if stages == [] then e else LeavingAll(w, stages[1..], Leaving(w, stages[0], e))
  }

  /** Whether the journey ends at a stage, and how. */
  predicate EndsAt(w: Choices, stage: Stage, e: StreamEvent, r: Result) {
    || (stage.Filter? && e.kind !in stage.types && r == Dropped(stage))
    || (stage.Dedup? && w.duplicate(e.Body()) && r == Dropped(stage))
    || (stage.Threshold? && e.payload != "" && w.tooSmall(e) && r == Dropped(stage))
    || (stage.Enrich? && e.payload != "" && w.decodes(e.payload).NilMap? && r == Panicked)
    || (stage.Batch? && !e.IsBinary() && !w.cancelled && r == Buffered(e))
  }

  ghost predicate GoesOn(w: Choices, stage: Stage, e: StreamEvent) {
    forall r :: !EndsAt(w, stage, e, r)
  }

  /** The event goes on past the first n stages. */
  ghost predicate GoesOnPast(w: Choices, stages: seq<Stage>, e: StreamEvent, n: nat)
    requires n <= |stages|
  {
    forall i :: 0 <= i < n ==> GoesOn(w, stages[i], LeavingAll(w, stages[..i], e))
  }

  lemma OneStage(w: Choices, stage: Stage, next: Handler, e: StreamEvent)
    ensures GoesOn(w, stage, e) ==> Wrap(w, stage, next)(e) == next(Leaving(w, stage, e))
    ensures forall r :: EndsAt(w, stage, e, r) ==> Wrap(w, stage, next)(e) == r
  {
    assert EndsAt(w, stage, e, Dropped(stage)) || EndsAt(w, stage, e, Panicked) || EndsAt(w, stage, e, Buffered(e))
      || GoesOn(w, stage, e);
  }

  lemma GoesOnPastTail(w: Choices, stages: seq<Stage>, e: StreamEvent, n: nat)
    requires stages != [] && n < |stages|
    ensures GoesOnPast(w, stages, e, n + 1) <==>
      GoesOn(w, stages[0], e) && GoesOnPast(w, stages[1..], Leaving(w, stages[0], e), n)
    ensures LeavingAll(w, stages[..n + 1], e) == LeavingAll(w, stages[1..][..n], Leaving(w, stages[0], e))
  {
    forall i | 0 <= i < |stages| - 1
      ensures stages[..i + 1] == [stages[0]] + stages[1..][..i]
      ensures LeavingAll(w, stages[..i + 1], e) == LeavingAll(w, stages[1..][..i], Leaving(w, stages[0], e))
    {
      assert stages[..i + 1][1..] == stages[1..][..i];
    }
    assert stages[..n + 1][1..] == stages[1..][..n];
    assert stages[..0] == [];
    if GoesOnPast(w, stages, e, n + 1) {
      assert GoesOn(w, stages[0], LeavingAll(w, stages[..0], e));
      forall i | 0 <= i < n
        ensures GoesOn(w, stages[1..][i], LeavingAll(w, stages[1..][..i], Leaving(w, stages[0], e)))
      {
        assert GoesOn(w, stages[i + 1], LeavingAll(w, stages[..i + 1], e));
      }
    }
    if GoesOn(w, stages[0], e) && GoesOnPast(w, stages[1..], Leaving(w, stages[0], e), n) {
      forall i | 0 <= i < n + 1 ensures GoesOn(w, stages[i], LeavingAll(w, stages[..i], e)) {
        if i > 0 {
          assert GoesOn(w, stages[1..][i - 1], LeavingAll(w, stages[1..][..i - 1], Leaving(w, stages[0], e)));
        }
      }
    }
  }

  /** Any event, through any chain, in any state: it is published as the stages have left it if
      it goes on past all of them, and else the first stage where its journey ends says how. */
  lemma {:induction false} Journey(w: Choices, stages: seq<Stage>, publish: Handler, e: StreamEvent)
    ensures GoesOnPast(w, stages, e, |stages|) ==> Fold(w, stages, publish)(e) == publish(LeavingAll(w, stages, e))
    ensures forall n: nat, r ::
      n < |stages| && GoesOnPast(w, stages, e, n) && EndsAt(w, stages[n], LeavingAll(w, stages[..n], e), r) ==>
        Fold(w, stages, publish)(e) == r
  {
    if stages != [] {
      var rest, left := stages[1..], Leaving(w, stages[0], e);
      OneStage(w, stages[0], Fold(w, rest, publish), e);
      Journey(w, rest, publish, left);
      GoesOnPastTail(w, stages, e, |stages| - 1);
      assert stages[..|stages|] == stages && rest[..|rest|] == rest;
      forall n: nat, r | n < |stages| && GoesOnPast(w, stages, e, n)
        && EndsAt(w, stages[n], LeavingAll(w, stages[..n], e), r)
        ensures Fold(w, stages, publish)(e) == r
      {
        if n > 0 {
          GoesOnPastTail(w, stages, e, n - 1);
          assert stages[n] == rest[n - 1];
        } else {
          assert stages[..0] == [];
        }
      }
    }
  }
}
