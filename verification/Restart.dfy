/**
 The restart policy of a stream: what a configuration resolves to, what the validator
 accepts, and the capped geometric ladder of delays. Durations are whole nanoseconds, or
 what time.ParseDuration made of the text; the ladder is computed over exact reals and cut
 to whole nanoseconds at the end, where delay computes in float64 and converts.
 */
module Restart {
  import opened Wrappers

  const SECOND := 1_000_000_000
  const DEFAULT_INITIAL_BACKOFF := SECOND
  const DEFAULT_MAX_BACKOFF := 30 * SECOND
  const DEFAULT_BACKOFF_FACTOR := 2.0
  const DEFAULT_RESET_AFTER := 60 * SECOND
  const DEFAULT_PUSH_ATTEMPTS := 5
  const UNLIMITED_ATTEMPTS := -1

  /** A duration field: empty, not a duration, or so many nanoseconds. */
  datatype DurationField = Omitted | Malformed | Parsed(ns: int)

  datatype RestartConfig = RestartConfig(
    maxAttempts: Option<int>,
    initialBackoff: DurationField,
    maxBackoff: DurationField,
    factor: real,
    resetAfter: DurationField)

  datatype RestartError = NegativeAttempts | FactorBelowOne | BadDuration | CapBelowFloor

  datatype Policy = Policy(maxAttempts: int, initialBackoff: int, maxBackoff: int, factor: real, resetAfter: int) {
    /** One more attempt, and whether the limit allows it. */
    function Next(attempt: nat): (nat, bool) {
      if maxAttempts == UNLIMITED_ATTEMPTS then (attempt + 1, true)
      else (attempt + 1, attempt + 1 <= maxAttempts)
    }

    /** Up to the first attempt the floor, from there up the ladder to the cap. */
    function Delay(attempt: nat): int {
      if attempt <= 1 then initialBackoff
      else
        Min(Grown(initialBackoff as real, factor, attempt - 1), maxBackoff as real).Floor
    }

    /** What every accepted configuration resolves to. */
    predicate Sound() {
      && (maxAttempts == UNLIMITED_ATTEMPTS || maxAttempts >= 0)
      && 0 < initialBackoff <= maxBackoff
      && factor >= 1.0
      && resetAfter > 0
    }
  }

  function Min(x: real, y: real): real {
    if x <= y then x else y
  }

  function Grown(start: real, factor: real, n: nat): real {
    start * Pow(factor, n)
  }

  function Pow(x: real, n: nat): real {
    if n == 0 then 1.0 else x * Pow(x, n - 1)
  }

  predicate PullKind(kind: string) {
    kind == "websocket" || kind == "sse" || kind == "rest_poller"
  }

  function OrDefault(field: DurationField, default: int): int {
    if field.Parsed? then field.ns else default
  }

  /** Each field as written, or else as the kind of stream has it. */
  function PolicyFor(kind: string, config: Option<RestartConfig>): Policy {
    var attempts := if PullKind(kind) then UNLIMITED_ATTEMPTS else DEFAULT_PUSH_ATTEMPTS;
    match config
    case None =>
      Policy(attempts, DEFAULT_INITIAL_BACKOFF, DEFAULT_MAX_BACKOFF, DEFAULT_BACKOFF_FACTOR, DEFAULT_RESET_AFTER)
    case Some(rc) =>
      Policy(rc.maxAttempts.GetOr(attempts),
             OrDefault(rc.initialBackoff, DEFAULT_INITIAL_BACKOFF),
             OrDefault(rc.maxBackoff, DEFAULT_MAX_BACKOFF),
             if rc.factor > 0.0 then rc.factor else DEFAULT_BACKOFF_FACTOR,
             OrDefault(rc.resetAfter, DEFAULT_RESET_AFTER))
  }

  /** An empty field passes as 0; text that is no duration, or not a positive one, does not. */
  function ValidateDuration(field: DurationField): Option<int> {
    match field
    case Omitted => Some(0)
    case Malformed => None
    case Parsed(ns) => if ns <= 0 then None else Some(ns)
  }

  /** The first complaint about a restart block, if there is one. */
  function ValidateRestart(config: Option<RestartConfig>): Option<RestartError> {
    if config.None? then None
    else
      var rc := config.value;
      if rc.maxAttempts.Some? && rc.maxAttempts.value < 0 then Some(NegativeAttempts)
      else if rc.factor != 0.0 && rc.factor < 1.0 then Some(FactorBelowOne)
      else
        var initial, maximum := ValidateDuration(rc.initialBackoff), ValidateDuration(rc.maxBackoff);
        var reset := ValidateDuration(rc.resetAfter);
        if initial.None? || maximum.None? || reset.None? then Some(BadDuration)
        else
          var effectiveInitial := if initial.value > 0 then initial.value else DEFAULT_INITIAL_BACKOFF;
          var effectiveMax := if maximum.value > 0 then maximum.value else DEFAULT_MAX_BACKOFF;
          if effectiveMax < effectiveInitial then Some(CapBelowFloor) else None
  }

  /** Whether the policy runs a duration field as written. */
  predicate Honoured(field: DurationField, resolved: int, default: int) {
    match field
    case Omitted => resolved == default
    case Malformed => false
    case Parsed(ns) => resolved == ns
  }

  /** The validator accepts exactly the blocks whose every written field is run as written,
      in a policy that makes sense: never a silent substitution, never a shrinking ladder. */
  lemma AcceptedIffHonoured(kind: string, rc: RestartConfig)
    ensures ValidateRestart(Some(rc)).None? <==>
      var p := PolicyFor(kind, Some(rc));
      && p.Sound()
      && Honoured(rc.initialBackoff, p.initialBackoff, DEFAULT_INITIAL_BACKOFF)
      && Honoured(rc.maxBackoff, p.maxBackoff, DEFAULT_MAX_BACKOFF)
      && Honoured(rc.resetAfter, p.resetAfter, DEFAULT_RESET_AFTER)
      && p.factor == (if rc.factor == 0.0 then 2.0 else rc.factor)
      && (rc.maxAttempts.Some? ==> p.maxAttempts == rc.maxAttempts.value != UNLIMITED_ATTEMPTS)
      && (rc.maxAttempts.None? ==> p.maxAttempts == if PullKind(kind) then UNLIMITED_ATTEMPTS else 5)
  {
  }

  /** No block at all is a block with nothing written in it: a pull stream retries for ever, a
      push stream five times, one second at first and thirty at most, doubling, and a session
      that lasts a minute earns the attempts back. */
  lemma NoBlockIsEmptyBlock(kind: string)
    ensures PolicyFor(kind, None) == PolicyFor(kind, Some(RestartConfig(None, Omitted, Omitted, 0.0, Omitted)))
    ensures PolicyFor(kind, None) ==
      Policy(if kind in {"websocket", "sse", "rest_poller"} then UNLIMITED_ATTEMPTS else 5,
             1_000_000_000, 30_000_000_000, 2.0, 60_000_000_000)
  {
  }

  /** A complaint is about the field that is at fault. */
  lemma ComplaintIsTrue(kind: string, rc: RestartConfig)
    ensures match ValidateRestart(Some(rc))
      case None => true
      case Some(NegativeAttempts) => rc.maxAttempts.Some? && rc.maxAttempts.value < 0
      case Some(FactorBelowOne) => rc.factor != 0.0 && rc.factor < 1.0
      case Some(BadDuration) =>
        var p := PolicyFor(kind, Some(rc));
        || !Honoured(rc.initialBackoff, p.initialBackoff, DEFAULT_INITIAL_BACKOFF) || p.initialBackoff <= 0
        || !Honoured(rc.maxBackoff, p.maxBackoff, DEFAULT_MAX_BACKOFF) || p.maxBackoff <= 0
        || !Honoured(rc.resetAfter, p.resetAfter, DEFAULT_RESET_AFTER) || p.resetAfter <= 0
      case Some(CapBelowFloor) => PolicyFor(kind, Some(rc)).maxBackoff < PolicyFor(kind, Some(rc)).initialBackoff
  {
  }

  /** An accepted configuration is sound, and unlimited iff a pull kind sets no limit. */
  lemma AcceptedPolicy(kind: string, config: Option<RestartConfig>)
    requires ValidateRestart(config).None?
    ensures PolicyFor(kind, config).Sound()
    ensures PolicyFor(kind, config).maxAttempts == UNLIMITED_ATTEMPTS <==>
      PullKind(kind) && (config.None? || config.value.maxAttempts.None?)
  {
    if config.Some? {
      AcceptedIffHonoured(kind, config.value);
    }
  }

  // ---- the ladder

  lemma {:induction false} PowAtLeastOne(x: real, n: nat)
    requires x >= 1.0
    ensures Pow(x, n) >= 1.0
  {
    if n > 0 {
      PowAtLeastOne(x, n - 1);
      assert Pow(x, n) - Pow(x, n - 1) == (x - 1.0) * Pow(x, n - 1);
    }
  }

  lemma PowGrows(x: real, n: nat)
    requires x >= 1.0
    ensures Pow(x, n) <= Pow(x, n + 1)
  {
    PowAtLeastOne(x, n);
    assert Pow(x, n + 1) - Pow(x, n) == (x - 1.0) * Pow(x, n);
  }

  lemma ScaleKeepsOrder(k: real, x: real, y: real)
    requires k > 0.0 && x <= y
    ensures k * x <= k * y
  {
  }

  lemma GrownFromStart(start: real, factor: real, n: nat)
    requires start > 0.0 && factor >= 1.0
    ensures start <= Grown(start, factor, n)
  {
    PowAtLeastOne(factor, n);
    ScaleKeepsOrder(start, 1.0, Pow(factor, n));
  }

  lemma GrownGrows(start: real, factor: real, n: nat)
    requires start > 0.0 && factor >= 1.0
    ensures Grown(start, factor, n) <= Grown(start, factor, n + 1)
  {
    PowGrows(factor, n);
    ScaleKeepsOrder(start, Pow(factor, n), Pow(factor, n + 1));
  }

  /** Every delay lies between the floor and the cap. */
  lemma DelayBounded(p: Policy, attempt: nat)
    requires p.Sound()
    ensures p.initialBackoff <= p.Delay(attempt) <= p.maxBackoff
  {
    if attempt > 1 {
      GrownFromStart(p.initialBackoff as real, p.factor, attempt - 1);
      var grown := Grown(p.initialBackoff as real, p.factor, attempt - 1);
      assert p.initialBackoff as real <= Min(grown, p.maxBackoff as real) <= p.maxBackoff as real;
    }
  }

  lemma DelayStep(p: Policy, attempt: nat)
    requires p.Sound()
    ensures p.Delay(attempt) <= p.Delay(attempt + 1)
  {
    if attempt > 1 {
      var start := p.initialBackoff as real;
      GrownGrows(start, p.factor, attempt - 1);
      CutKeepsOrder(Grown(start, p.factor, attempt - 1), Grown(start, p.factor, attempt), p.maxBackoff as real);
    } else {
      DelayBounded(p, attempt + 1);
    }
  }

  lemma CutKeepsOrder(x: real, y: real, cap: real)
    requires x <= y
    ensures Min(x, cap).Floor <= Min(y, cap).Floor
  {
  }

  /** A later attempt never waits less. */
  lemma {:induction false} DelayMonotone(p: Policy, earlier: nat, later: nat)
    requires p.Sound() && earlier <= later
    ensures p.Delay(earlier) <= p.Delay(later)
    decreases later - earlier
  {
    if earlier < later {
      DelayStep(p, earlier);
      DelayMonotone(p, earlier + 1, later);
    }
  }

  /** The capped ladder, rung by rung: the floor, then each time the factor, never past the
      cap. */
  function Ladder(p: Policy, n: nat): real {
    if n <= 1 then p.initialBackoff as real else Up(p.factor, Ladder(p, n - 1), p.maxBackoff as real)
  }

  function Up(factor: real, x: real, cap: real): real {
    Min(factor * x, cap)
  }

  /** Cutting at the cap before or after another step is the same. */
  lemma CutCommutes(factor: real, x: real, cap: real)
    requires factor >= 1.0 && cap > 0.0
    ensures Up(factor, Min(x, cap), cap) == Up(factor, x, cap)
  {
    if x > cap {
      ScaleKeepsOrder(factor, cap, x);
      ScaleKeepsOrder(cap, 1.0, factor);
      assert factor * cap == cap * factor;
    }
  }

  lemma Swap(a: real, b: real, c: real)
    ensures a * (b * c) == b * (a * c)
  {
  }

  lemma GrownStep(start: real, factor: real, n: nat)
    ensures Grown(start, factor, n + 1) == factor * Grown(start, factor, n)
  {
    Swap(start, factor, Pow(factor, n));
  }

  lemma GrownNone(start: real, factor: real)
    ensures Grown(start, factor, 0) == start
  {
  }

  lemma RungStep(start: real, factor: real, n: nat, rung: real, cap: real)
    requires factor >= 1.0 && cap > 0.0 && rung == Min(Grown(start, factor, n), cap)
    ensures Up(factor, rung, cap) == Min(Grown(start, factor, n + 1), cap)
  {
    CutCommutes(factor, Grown(start, factor, n), cap);
    GrownStep(start, factor, n);
  }

  lemma {:induction false} LadderIsCutOnce(p: Policy, n: nat)
    requires p.Sound() && n >= 1
    ensures Ladder(p, n) == Min(Grown(p.initialBackoff as real, p.factor, n - 1), p.maxBackoff as real)
  {
    if n == 1 {
      GrownNone(p.initialBackoff as real, p.factor);
    } else {
      LadderIsCutOnce(p, n - 1);
      RungStep(p.initialBackoff as real, p.factor, n - 2, Ladder(p, n - 1), p.maxBackoff as real);
    }
  }

  /** Every delay is the ladder's rung, cut to whole nanoseconds. */
  lemma DelayIsRung(p: Policy, attempt: nat)
    requires p.Sound()
    ensures p.Delay(attempt) == Ladder(p, attempt).Floor
  {
    if attempt > 1 {
      LadderIsCutOnce(p, attempt);
    }
  }

  predicate Whole(x: real) {
    x == x.Floor as real
  }

  lemma WholeInt(d: int)
    ensures (d as real).Floor == d
  {
  }

  lemma WholeUp(k: nat, d: int, cap: int)
    ensures Up(k as real, d as real, cap as real) == (if k * d <= cap then k * d else cap) as real
  {
    assert k as real * d as real == (k * d) as real;
  }

  lemma {:induction false} WholeRungs(p: Policy, k: nat, n: nat)
    requires p.Sound() && p.factor == k as real
    ensures Whole(Ladder(p, n))
  {
    if n > 1 {
      WholeRungs(p, k, n - 1);
      WholeUp(k, Ladder(p, n - 1).Floor, p.maxBackoff);
    }
  }

  /** With a whole-number factor each wait is that many times the one before, or the cap. */
  lemma WholeFactorDelays(p: Policy, k: nat, attempt: nat)
    requires p.Sound() && p.factor == k as real && attempt >= 1
    ensures var next := k * p.Delay(attempt);
      p.Delay(attempt + 1) == if next <= p.maxBackoff then next else p.maxBackoff
  {
    DelayIsRung(p, attempt);
    DelayIsRung(p, attempt + 1);
    WholeRungs(p, k, attempt);
    var d := Ladder(p, attempt).Floor;
    assert Ladder(p, attempt) == d as real;
    WholeUp(k, d, p.maxBackoff);
    WholeInt(if k * d <= p.maxBackoff then k * d else p.maxBackoff);
  }

  /** Bernoulli's inequality. */
  lemma {:induction false} PowBernoulli(x: real, n: nat)
    requires x >= 1.0
    ensures Pow(x, n) >= 1.0 + n as real * (x - 1.0)
  {
    if n > 0 {
      PowBernoulli(x, n - 1);
      PowAtLeastOne(x, n - 1);
      ScaleKeepsOrder(x, 1.0 + (n - 1) as real * (x - 1.0), Pow(x, n - 1));
      var d := x - 1.0;
      assert x * (1.0 + (n - 1) as real * d) == 1.0 + n as real * d + (n - 1) as real * (d * d);
      assert d * d >= 0.0;
      assert (n - 1) as real * (d * d) >= 0.0;
    }
  }

  /** How many attempts are enough to reach the cap. */
  function EnoughAttempts(p: Policy): (n: nat)
    requires p.Sound() && p.factor > 1.0
    ensures n > 1
  {
    2 + ((p.maxBackoff as real / p.initialBackoff as real) / (p.factor - 1.0)).Floor as nat
  }

  lemma EnoughRungs(p: Policy)
    requires p.Sound() && p.factor > 1.0
    ensures Grown(p.initialBackoff as real, p.factor, EnoughAttempts(p) - 1) >= p.maxBackoff as real
  {
    var n := EnoughAttempts(p) - 1;
    var ratio := p.maxBackoff as real / p.initialBackoff as real;
    assert n as real >= ratio / (p.factor - 1.0);
    PowReaches(p.factor, n, ratio);
    ScaleKeepsOrder(p.initialBackoff as real, ratio, Pow(p.factor, n));
    TimesQuotient(p.initialBackoff as real, p.maxBackoff as real);
  }

  lemma TimesQuotient(d: real, x: real)
    requires d > 0.0
    ensures d * (x / d) == x
  {
  }

  lemma PowReaches(x: real, n: nat, ratio: real)
    requires x > 1.0 && n as real >= ratio / (x - 1.0)
    ensures Pow(x, n) >= ratio
  {
    var d := x - 1.0;
    PowBernoulli(x, n);
    ScaleKeepsOrder(d, ratio / d, n as real);
    TimesQuotient(d, ratio);
    assert d * n as real == n as real * d;
  }

  lemma DelayCapped(p: Policy, attempt: nat)
    requires p.Sound() && attempt > 1
    requires Grown(p.initialBackoff as real, p.factor, attempt - 1) >= p.maxBackoff as real
    ensures p.Delay(attempt) == p.maxBackoff
  {
    var grown := Grown(p.initialBackoff as real, p.factor, attempt - 1);
    assert Min(grown, p.maxBackoff as real) == p.maxBackoff as real;
  }

  /** A growing ladder reaches its cap after finitely many attempts and stays there. */
  lemma DelayReachesCap(p: Policy, attempt: nat)
    requires p.Sound() && p.factor > 1.0 && attempt >= EnoughAttempts(p)
    ensures p.Delay(attempt) == p.maxBackoff
  {
    var enough := EnoughAttempts(p);
    EnoughRungs(p);
    DelayCapped(p, enough);
    DelayMonotone(p, enough, attempt);
    DelayBounded(p, attempt);
  }
}
