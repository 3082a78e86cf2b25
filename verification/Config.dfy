/** The configuration of a stream, as decoded. Durations are kept as what parsing them gave. */
module Config {
  import opened Wrappers
  import opened Restart

  datatype FilterConfig = FilterConfig(matchTypes: seq<string>)
  datatype TransformConfig = TransformConfig(mapping: map<string, string>)
  datatype EnrichConfig = EnrichConfig(tags: map<string, string>)
  datatype DedupConfig = DedupConfig(enabled: bool, cacheSize: int, ttl: DurationField)
  datatype ThresholdConfig = ThresholdConfig(enabled: bool, path: string, delta: real, groupBy: string)
  datatype BatchConfig = BatchConfig(enabled: bool, maxBatchSize: int, flushInterval: DurationField)

  datatype PipelineConfig = PipelineConfig(
    filter: Option<FilterConfig>,
    transform: Option<TransformConfig>,
    enrich: Option<EnrichConfig>,
    dedup: Option<DedupConfig>,
    threshold: Option<ThresholdConfig>,
    batch: Option<BatchConfig>)

  datatype WebhookConfig = WebhookConfig(port: string, path: string, authToken: string)
  datatype GrpcConfig = GrpcConfig(port: string)

  /** The fields of a stream's configuration that the registry looks at. */
  datatype StreamSourceConfig = StreamSourceConfig(
    id: string,
    kind: string,
    url: string,
    topic: string,
    webhook: Option<WebhookConfig>,
    grpc: Option<GrpcConfig>,
    pipeline: Option<PipelineConfig>,
    restart: Option<RestartConfig>)
}
