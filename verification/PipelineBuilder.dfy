/**
 Building a pipeline from its configuration, and the validator that promises it can be
 built as written.
 */
module PipelineBuilder {
  import opened Wrappers
  import opened Restart
  import opened Config

  const DEFAULT_DEDUP_TTL := 60 * SECOND
  const DEFAULT_DEDUP_CACHE_SIZE := 1000
  const DEFAULT_FLUSH_INTERVAL := SECOND
  const DEFAULT_MAX_BATCH_SIZE := 100
  const MAX_DEDUP_CACHE_SIZE := 1_000_000
  const MAX_BATCH_SIZE := 100_000

  /** One middleware, with its settings resolved. */
  datatype Stage =
    | Filter(types: seq<string>)
    | Transform(mapping: map<string, string>)
    | Dedup(ttl: int, cacheSize: int)
    | Enrich(tags: map<string, string>)
    | Threshold(path: string, delta: real, groupBy: string)
    | Batch(maxSize: int, flushInterval: int)
  {
    /** The place of a stage in the chain. */
    function Rank(): nat {
      match this
      case Filter(_) => 1
      case Transform(_) => 2
      case Dedup(_, _) => 3
      case Enrich(_) => 4
      case Threshold(_, _, _) => 5
      case Batch(_, _) => 6
    }
  }

  function ResolveDuration(raw: DurationField, default: int): Option<int> {
    match raw
    case Omitted => Some(default)
    case Malformed => None
    case Parsed(ns) => if ns <= 0 then None else Some(ns)
  }

  function ResolveCount(raw: int, default: int, limit: int): Option<int> {
    if raw == 0 then Some(default)
    else if raw < 0 || raw > limit then None
    else Some(raw)
  }

  datatype ConfigError = EmptyFilter | EmptyTransform | EmptyEnrich | BadDedup | BadThreshold | BadBatch

  /** What is wrong with a pipeline, the first thing first; a switched-off stage is held to
      the same rules. */
  function ValidateConfig(config: Option<PipelineConfig>): Option<ConfigError> {
    if config.None? then None
    else
      var cfg := config.value;
      if cfg.filter.Some? && (cfg.filter.value.matchTypes == [] || "" in cfg.filter.value.matchTypes)
      then Some(EmptyFilter)
      else if cfg.transform.Some? && BadMapping(cfg.transform.value.mapping) then Some(EmptyTransform)
      else if cfg.enrich.Some? && (cfg.enrich.value.tags == map[] || "" in cfg.enrich.value.tags) then Some(EmptyEnrich)
      else if cfg.dedup.Some? && (
        ResolveDuration(cfg.dedup.value.ttl, DEFAULT_DEDUP_TTL).None? ||
        ResolveCount(cfg.dedup.value.cacheSize, DEFAULT_DEDUP_CACHE_SIZE, MAX_DEDUP_CACHE_SIZE).None?)
      then Some(BadDedup)
      else if cfg.threshold.Some? && ((cfg.threshold.value.enabled && cfg.threshold.value.path == "") ||
                                      cfg.threshold.value.delta < 0.0)
      then Some(BadThreshold)
      else if cfg.batch.Some? && (
        ResolveDuration(cfg.batch.value.flushInterval, DEFAULT_FLUSH_INTERVAL).None? ||
        ResolveCount(cfg.batch.value.maxBatchSize, DEFAULT_MAX_BATCH_SIZE, MAX_BATCH_SIZE).None?)
      then Some(BadBatch)
      else None
  }

  predicate BadMapping(mapping: map<string, string>) {
    mapping == map[] || "" in mapping || exists key :: key in mapping && mapping[key] == ""
  }

  // ---- one constructor per middleware: no stage for an inactive block, or an error

  function NewFilter(c: Option<FilterConfig>): Option<Stage> {
    if c.None? || c.value.matchTypes == [] then None else Some(Filter(c.value.matchTypes))
  }

  function NewTransform(c: Option<TransformConfig>): Option<Stage> {
    if c.None? || c.value.mapping == map[] then None else Some(Transform(c.value.mapping))
  }

  function NewEnrich(c: Option<EnrichConfig>): Option<Stage> {
    if c.None? || c.value.tags == map[] then None else Some(Enrich(c.value.tags))
  }

  function NewThreshold(c: Option<ThresholdConfig>): Option<Stage> {
    if c.None? || !c.value.enabled || c.value.path == "" then None
    else Some(Threshold(c.value.path, c.value.delta, c.value.groupBy))
  }

  datatype Built = NoStage | Stage(stage: Stage) | Unbuildable

  function NewDedup(c: Option<DedupConfig>): Built {
    if c.None? || !c.value.enabled then NoStage
    else
      var ttl := ResolveDuration(c.value.ttl, DEFAULT_DEDUP_TTL);
      var size := ResolveCount(c.value.cacheSize, DEFAULT_DEDUP_CACHE_SIZE, MAX_DEDUP_CACHE_SIZE);
      if ttl.None? || size.None? then Unbuildable else Built.Stage(Dedup(ttl.value, size.value))
  }

  function NewBatch(c: Option<BatchConfig>): Built {
    if c.None? || !c.value.enabled then NoStage
    else
      var size := ResolveCount(c.value.maxBatchSize, DEFAULT_MAX_BATCH_SIZE, MAX_BATCH_SIZE);
      var interval := ResolveDuration(c.value.flushInterval, DEFAULT_FLUSH_INTERVAL);
      if size.None? || interval.None? then Unbuildable else Built.Stage(Batch(size.value, interval.value))
  }

  /** Whether the builder takes a configuration: only an enabled dedup or batch can fail. */
  predicate Builds(config: Option<PipelineConfig>) {
    config.None? || (!NewDedup(config.value.dedup).Unbuildable? && !NewBatch(config.value.batch).Unbuildable?)
  }

  /** Whether the configuration asks for a stage of this rank: the block is there and, where
      it has a switch, switched on. */
  predicate Asked(cfg: PipelineConfig, rank: nat) {
    || (rank == 1 && cfg.filter.Some?)
    || (rank == 2 && cfg.transform.Some?)
    || (rank == 3 && cfg.dedup.Some? && cfg.dedup.value.enabled)
    || (rank == 4 && cfg.enrich.Some?)
    || (rank == 5 && cfg.threshold.Some? && cfg.threshold.value.enabled)
    || (rank == 6 && cfg.batch.Some? && cfg.batch.value.enabled)
  }

  /** Every count a stage allocates by is within its ceiling, every duration positive. */
  predicate Bounded(stage: Stage) {
    match stage
    case Dedup(ttl, size) => ttl > 0 && 1 <= size <= MAX_DEDUP_CACHE_SIZE
    case Batch(size, interval) => interval > 0 && 1 <= size <= MAX_BATCH_SIZE
    case Threshold(path, _, _) => path != ""
    case _ => true
  }

  predicate InOrder(stages: seq<Stage>) {
    forall i, j :: 0 <= i < j < |stages| ==> stages[i].Rank() < stages[j].Rank()
  }

  predicate Has(stages: seq<Stage>, rank: nat) {
    exists i :: 0 <= i < |stages| && stages[i].Rank() == rank
  }

  /** What the settings of a built stage are: those of its block, defaults filled in. */
  predicate FromBlock(cfg: PipelineConfig, stage: Stage) {
    match stage
    case Filter(types) => cfg.filter == Some(FilterConfig(types))
    case Transform(mapping) => cfg.transform == Some(TransformConfig(mapping))
    case Enrich(tags) => cfg.enrich == Some(EnrichConfig(tags))
    case Threshold(path, delta, groupBy) => cfg.threshold == Some(ThresholdConfig(true, path, delta, groupBy))
    case Dedup(ttl, size) =>
      cfg.dedup.Some? && Honoured(cfg.dedup.value.ttl, ttl, DEFAULT_DEDUP_TTL) &&
      size == if cfg.dedup.value.cacheSize == 0 then DEFAULT_DEDUP_CACHE_SIZE else cfg.dedup.value.cacheSize
    case Batch(size, interval) =>
      cfg.batch.Some? && Honoured(cfg.batch.value.flushInterval, interval, DEFAULT_FLUSH_INTERVAL) &&
      size == if cfg.batch.value.maxBatchSize == 0 then DEFAULT_MAX_BATCH_SIZE else cfg.batch.value.maxBatchSize
  }

  /** The stages so far are in order, all below this rank, each resolved from its block. */
  predicate Partial(cfg: PipelineConfig, stages: seq<Stage>, rank: nat) {
    && InOrder(stages)
    && forall i :: 0 <= i < |stages| ==> stages[i].Rank() < rank && Bounded(stages[i]) && FromBlock(cfg, stages[i])
  }

  function AsStage(b: Built): Option<Stage> {
    if b.Stage? then Some(b.stage) else None
  }

  function Plus(stages: seq<Stage>, stage: Option<Stage>): seq<Stage> {
    if stage.Some? then stages + [stage.value] else stages
  }

  function StagesOf(cfg: PipelineConfig): seq<Stage> {
    var a := Plus(Plus([], NewFilter(cfg.filter)), NewTransform(cfg.transform));
    var b := Plus(Plus(a, AsStage(NewDedup(cfg.dedup))), NewEnrich(cfg.enrich));
    Plus(Plus(b, NewThreshold(cfg.threshold)), AsStage(NewBatch(cfg.batch)))
  }

  /** buildFromConfig: the active blocks' stages, appended one after the other. It fails
      exactly on an enabled dedup or batch block it cannot resolve. */
  method Build(config: Option<PipelineConfig>) returns (r: Option<seq<Stage>>)
    ensures r.Some? <==> Builds(config)
    ensures r.Some? ==> r.value == if config.None? then [] else StagesOf(config.value)
  {
    if config.None? {
      return Some([]);
    }
    var cfg := config.value;
    var stages: seq<Stage> := [];
    var filter := NewFilter(cfg.filter);
    if filter.Some? {
      stages := stages + [filter.value];
    }
    var transform := NewTransform(cfg.transform);
    if transform.Some? {
      stages := stages + [transform.value];
    }
    var dedup := NewDedup(cfg.dedup);
    if dedup.Unbuildable? {
      return None;
    }
    if dedup.Stage? {
      stages := stages + [dedup.stage];
    }
    var enrich := NewEnrich(cfg.enrich);
    if enrich.Some? {
      stages := stages + [enrich.value];
    }
    var threshold := NewThreshold(cfg.threshold);
    if threshold.Some? {
      stages := stages + [threshold.value];
    }
    var batch := NewBatch(cfg.batch);
    if batch.Unbuildable? {
      return None;
    }
    if batch.Stage? {
      stages := stages + [batch.stage];
    }
    return Some(stages);
  }

  /** A stage at its place in the chain, resolved from its block. */
  predicate Fits(cfg: PipelineConfig, stage: Option<Stage>, rank: nat) {
    stage.Some? ==> stage.value.Rank() == rank && Bounded(stage.value) && FromBlock(cfg, stage.value)
  }

  lemma Extend(cfg: PipelineConfig, stages: seq<Stage>, stage: Option<Stage>, rank: nat, r: nat)
    requires Partial(cfg, stages, rank) && Fits(cfg, stage, rank)
    ensures Partial(cfg, Plus(stages, stage), rank + 1)
    ensures Has(Plus(stages, stage), r) <==> Has(stages, r) || (stage.Some? && r == rank)
  {
    var more := Plus(stages, stage);
    if Has(stages, r) {
      var i :| 0 <= i < |stages| && stages[i].Rank() == r;
      assert more[i].Rank() == r;
    }
    if stage.Some? {
      assert more[|stages|] == stage.value;
    }
  }

  function StageAt(cfg: PipelineConfig, rank: nat): Option<Stage> {
    match rank
    case 1 => NewFilter(cfg.filter)
    case 2 => NewTransform(cfg.transform)
    case 3 => AsStage(NewDedup(cfg.dedup))
    case 4 => NewEnrich(cfg.enrich)
    case 5 => NewThreshold(cfg.threshold)
    case 6 => AsStage(NewBatch(cfg.batch))
    case _ => None
  }

  function StagesUpTo(cfg: PipelineConfig, rank: nat): seq<Stage> {
    if rank == 0 then [] else Plus(StagesUpTo(cfg, rank - 1), StageAt(cfg, rank))
  }

  lemma StageFits(cfg: PipelineConfig, rank: nat)
    requires Builds(Some(cfg))
    ensures Fits(cfg, StageAt(cfg, rank), rank)
    ensures ValidateConfig(Some(cfg)).None? || rank == 6 ==> (StageAt(cfg, rank).Some? <==> Asked(cfg, rank))
  {
  }

  lemma {:induction false} StagesUpToShape(cfg: PipelineConfig, rank: nat, r: nat)
    requires Builds(Some(cfg))
    ensures Partial(cfg, StagesUpTo(cfg, rank), rank + 1)
    ensures ValidateConfig(Some(cfg)).None? || r == 6 ==>
      (Has(StagesUpTo(cfg, rank), r) <==> Asked(cfg, r) && r <= rank)
  {
    if rank > 0 {
      StagesUpToShape(cfg, rank - 1, r);
      StageFits(cfg, rank);
      Extend(cfg, StagesUpTo(cfg, rank - 1), StageAt(cfg, rank), rank, r);
    }
  }

  lemma StagesAreUpToSix(cfg: PipelineConfig)
    ensures StagesOf(cfg) == StagesUpTo(cfg, 6)
  {
    assert StagesUpTo(cfg, 2) == Plus(Plus(StagesUpTo(cfg, 0), StageAt(cfg, 1)), StageAt(cfg, 2));
    assert StagesUpTo(cfg, 4) == Plus(Plus(StagesUpTo(cfg, 2), StageAt(cfg, 3)), StageAt(cfg, 4));
    assert StagesUpTo(cfg, 6) == Plus(Plus(StagesUpTo(cfg, 4), StageAt(cfg, 5)), StageAt(cfg, 6));
  }

  lemma StagesOfShape(cfg: PipelineConfig, r: nat)
    requires Builds(Some(cfg))
    ensures Partial(cfg, StagesOf(cfg), 7)
    ensures ValidateConfig(Some(cfg)).None? || r == 6 ==> (Has(StagesOf(cfg), r) <==> Asked(cfg, r))
  {
    StagesAreUpToSix(cfg);
    StagesUpToShape(cfg, 6, r);
  }

  /** What the validator accepts builds, into exactly one stage for every block that asks for
      one, in the fixed order, each with the settings written or defaulted, all bounded. */
  lemma ValidatedBuildsAsWritten(cfg: PipelineConfig)
    requires ValidateConfig(Some(cfg)).None?
    ensures Builds(Some(cfg))
    ensures InOrder(StagesOf(cfg))
    ensures forall rank: nat :: Has(StagesOf(cfg), rank) <==> Asked(cfg, rank)
    ensures forall i :: 0 <= i < |StagesOf(cfg)| ==> Bounded(StagesOf(cfg)[i]) && FromBlock(cfg, StagesOf(cfg)[i])
  {
    forall rank: nat ensures Has(StagesOf(cfg), rank) <==> Asked(cfg, rank) {
      StagesOfShape(cfg, rank);
    }
    StagesOfShape(cfg, 0);
  }

  /** How many stages start a worker when the chain is assembled. */
  function Workers(stages: seq<Stage>): nat {
    if stages == [] then 0
    else Workers(stages[..|stages| - 1]) + if stages[|stages| - 1].Batch? then 1 else 0
  }

  lemma {:induction false} WorkersOfOrdered(stages: seq<Stage>)
    requires InOrder(stages)
    ensures Workers(stages) == if Has(stages, 6) then 1 else 0
  {
    if stages != [] {
      var n := |stages| - 1;
      var front := stages[..n];
      WorkersOfOrdered(front);
      assert forall i :: 0 <= i < n ==> front[i].Rank() < stages[n].Rank() <= 6;
      assert !Has(front, 6);
      assert Has(stages, 6) <==> stages[n].Rank() == 6;
    }
  }

  /** A generation that builds has one worker if batching is enabled, and none otherwise. */
  lemma OneWorkerIffBatching(cfg: PipelineConfig)
    requires Builds(Some(cfg))
    ensures Workers(StagesOf(cfg)) == if cfg.batch.Some? && cfg.batch.value.enabled then 1 else 0
  {
    StagesOrdered(cfg);
    OneWorkerIfOrdered(cfg, StagesOf(cfg));
  }

  lemma StagesOrdered(cfg: PipelineConfig)
    requires Builds(Some(cfg))
    ensures InOrder(StagesOf(cfg)) && (Has(StagesOf(cfg), 6) <==> Asked(cfg, 6))
  {
    StagesOfShape(cfg, 6);
  }

  lemma OneWorkerIfOrdered(cfg: PipelineConfig, stages: seq<Stage>)
    requires InOrder(stages) && (Has(stages, 6) <==> Asked(cfg, 6))
    ensures Workers(stages) == if Asked(cfg, 6) then 1 else 0
  {
    WorkersOfOrdered(stages);
  }

  // ---- what the validator asks of each block

  /** A duration that is left out, or written and positive. */
  predicate GoodDuration(field: DurationField) {
    field.Omitted? || (field.Parsed? && field.ns >= 1)
  }

  /** A block that is there, switched on or not, does something and says it well: each kind of
      complaint is about one block. */
  predicate Fine(cfg: PipelineConfig, about: ConfigError) {
    match about
    case EmptyFilter =>
      cfg.filter.Some? ==>
        var types := cfg.filter.value.matchTypes;
        |types| >= 1 && forall t :: t in types ==> |t| >= 1
    case EmptyTransform =>
      cfg.transform.Some? ==>
        var m := cfg.transform.value.mapping;
        |m| >= 1 && forall key :: key in m ==> |key| >= 1 && |m[key]| >= 1
    case EmptyEnrich =>
      cfg.enrich.Some? ==> |cfg.enrich.value.tags| >= 1 && forall tag :: tag in cfg.enrich.value.tags ==> |tag| >= 1
    case BadDedup =>
      cfg.dedup.Some? ==> GoodDuration(cfg.dedup.value.ttl) && 0 <= cfg.dedup.value.cacheSize <= 1_000_000
    case BadThreshold =>
      cfg.threshold.Some? ==>
        0.0 <= cfg.threshold.value.delta && (cfg.threshold.value.enabled ==> |cfg.threshold.value.path| >= 1)
    case BadBatch =>
      cfg.batch.Some? ==> GoodDuration(cfg.batch.value.flushInterval) && 0 <= cfg.batch.value.maxBatchSize <= 100_000
  }

  /** The blocks in the order they are looked at. */
  const BLOCKS := [EmptyFilter, EmptyTransform, EmptyEnrich, BadDedup, BadThreshold, BadBatch]

  lemma FineIff(cfg: PipelineConfig)
    ensures Fine(cfg, EmptyFilter) <==>
      !(cfg.filter.Some? && (cfg.filter.value.matchTypes == [] || "" in cfg.filter.value.matchTypes))
    ensures Fine(cfg, EmptyTransform) <==> !(cfg.transform.Some? && BadMapping(cfg.transform.value.mapping))
    ensures Fine(cfg, EmptyEnrich) <==>
      !(cfg.enrich.Some? && (cfg.enrich.value.tags == map[] || "" in cfg.enrich.value.tags))
  {
  }

  /** The validator accepts exactly the pipelines all of whose blocks are fine, and otherwise
      complains about the first that is not. */
  lemma AcceptsIffFine(cfg: PipelineConfig)
    ensures ValidateConfig(Some(cfg)).None? <==> forall about :: Fine(cfg, about)
    ensures forall i :: 0 <= i < |BLOCKS| ==>
      (ValidateConfig(Some(cfg)) == Some(BLOCKS[i]) <==>
         !Fine(cfg, BLOCKS[i]) && forall j :: 0 <= j < i ==> Fine(cfg, BLOCKS[j]))
  {
    FirstFault(cfg);
    forall i | 0 <= i < |BLOCKS|
      ensures ValidateConfig(Some(cfg)) == Some(BLOCKS[i]) <==>
        !Fine(cfg, BLOCKS[i]) && forall j :: 0 <= j < i ==> Fine(cfg, BLOCKS[j])
    {
      assert BLOCKS[0] == EmptyFilter && BLOCKS[1] == EmptyTransform && BLOCKS[2] == EmptyEnrich;
      assert BLOCKS[3] == BadDedup && BLOCKS[4] == BadThreshold && BLOCKS[5] == BadBatch;
    }
    if ValidateConfig(Some(cfg)).None? {
      forall about ensures Fine(cfg, about) {
        match about
        case EmptyFilter => case EmptyTransform => case EmptyEnrich =>
        case BadDedup => case BadThreshold => case BadBatch =>
      }
    }
  }

  lemma FirstFault(cfg: PipelineConfig)
    ensures ValidateConfig(Some(cfg)) ==
      if !Fine(cfg, EmptyFilter) then Some(EmptyFilter)
      else if !Fine(cfg, EmptyTransform) then Some(EmptyTransform)
      else if !Fine(cfg, EmptyEnrich) then Some(EmptyEnrich)
      else if !Fine(cfg, BadDedup) then Some(BadDedup)
      else if !Fine(cfg, BadThreshold) then Some(BadThreshold)
      else if !Fine(cfg, BadBatch) then Some(BadBatch)
      else None
  {
    FineIff(cfg);
  }

  /** Only a dedup or batch block that is switched on can keep a pipeline from being built, and
      it does if its duration or count cannot be honoured. */
  lemma BuildsIff(cfg: PipelineConfig)
    ensures Builds(Some(cfg)) <==>
      && (cfg.dedup.Some? && cfg.dedup.value.enabled ==> Fine(cfg, BadDedup))
      && (cfg.batch.Some? && cfg.batch.value.enabled ==> Fine(cfg, BadBatch))
    ensures Builds(None) && ValidateConfig(None).None?
  {
  }
}
