/** Value types the exporters and the test collector consume. Their real
    definitions live in the telemetry SDK and in the OTLP protobuf packages;
    only the parts the core looks at are kept, the rest is abstracted to
    strings. */
module Telemetry {

  /** `context.Context`: an opaque token the exporter passes through. */
  datatype Context = Context(id: nat)

  /** Errors the core returns or forwards. `AlreadyStarted` is the
      exporter's own `errAlreadyStarted`; every other error comes from a
      collaborator (the client or the transform) and is forwarded as is. */
  datatype Error = AlreadyStarted | ClientError(message: string)

  /** `commonpb.KeyValue`: an attribute; the value is kept as its text. */
  datatype KeyValue = KeyValue(key: string, value: string)

  /** `metricpb.Metric`, reduced to its identifying fields. */
  datatype Metric = Metric(name: string, description: string, unit: string)

  /** `metricpb.InstrumentationLibraryMetrics`. */
  datatype InstrumentationLibraryMetrics =
    InstrumentationLibraryMetrics(library: string, metrics: seq<Metric>)

  /** `metricpb.ResourceMetrics`: the resource's attributes and the metrics
      of each instrumentation library. */
  datatype ResourceMetrics = ResourceMetrics(
    resource: seq<KeyValue>,
    instrumentationLibraryMetrics: seq<InstrumentationLibraryMetrics>)

  /** `collectormetricpb.ExportMetricsServiceRequest`. */
  datatype ExportMetricsServiceRequest =
    ExportMetricsServiceRequest(resourceMetrics: seq<ResourceMetrics>)

  /** `tracepb.ResourceSpans`, reduced to the resource and the span names. */
  datatype ResourceSpans = ResourceSpans(resource: seq<KeyValue>, spanNames: seq<string>)

  /** `tracesdk.ReadOnlySpan`: a finished span handed over by the batcher. */
  datatype ReadOnlySpan = ReadOnlySpan(name: string)

  /** `metricsdk.CheckpointSet`: a snapshot of aggregated instrument values. */
  datatype CheckpointSet = CheckpointSet(records: seq<string>)

  /** `metric.Descriptor`: the instrument an export kind is chosen for. */
  datatype Descriptor = Descriptor(name: string, instrumentKind: string)

  /** `aggregation.Kind`: the aggregator's kind (Sum, Histogram, ...). */
  datatype AggregationKind = AggregationKind(name: string)

  /** `metricsdk.ExportKind`: aggregation temporality. */
  datatype ExportKind = CumulativeExportKind | DeltaExportKind

  /** `metricsdk.ExportKindSelector`: a pure mapping from an instrument and
      its aggregator kind to a temporality. */
  type ExportKindSelector = (Descriptor, AggregationKind) -> ExportKind

  /** `metricsdk.CumulativeExportKindSelector()`: cumulative for everything. */
  function CumulativeExportKindSelector(): ExportKindSelector
  {
    (d: Descriptor, k: AggregationKind) => CumulativeExportKind
  }
}
