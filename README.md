# OTLP exporter lifecycle, in Dafny

A model of the lifecycle core of the OpenTelemetry Go OTLP exporters, with
proofs about it. The model covers:

- the trace `Exporter` and the metric `Exporter`. Each owns one transport
  `Client`, a `started` flag and two one-shot gates (`startOnce`,
  `stopOnce`). `Start` lets only its first caller reach `Client.Start`.
  `Shutdown` lets only the first caller after a start reach `Client.Stop`.
  Export hands non-empty transformed batches to the client's upload;
- the metric exporter's options. An option list is folded left to right
  over a default configuration whose export kind selector is cumulative;
- the test collector's `MetricsStorage` and its resource-string helpers.

The modules:

- `Lifecycle` (lifecycle.dfy) is the pure state machine both exporters
  share. `StartStep` and `ShutdownStep` are one call each. `Run` and
  `Replies` fold a sequence of calls; each call carries the answer the
  client would give if it were reached. The lemmas about those sequences
  prove the properties of the lifecycle: exactly-once start, at-most-once
  stop, stop after a failed start, and a stopped exporter that stays stopped.
- `OtlpMetric` and `OtlpTrace` are classes with the source's fields. Each
  `Start` and `Shutdown` is proved to be exactly one `Lifecycle` step on
  `State()`, and to keep `Valid()` (the lifecycle invariant). So every
  sequence of method calls is a `Lifecycle` run, and the run lemmas apply
  to it. `State()` counts the client calls the exporter itself made, in
  ghost fields of the exporter, so several exporters may share one client
  and the client may be called directly.
- The `Client` is a stub class. Its answers are configured and its calls
  are logged in ghost fields.
- `OtlpMetricOptions`, `OtlpMetricTest`, and `Telemetry` (the SDK and
  protobuf value types, reduced to the parts the core reads).

Go's `error` is `Option<Error>`, with `None` for `nil`. `context.Context`
is an opaque token that is passed through. The transforms
(`transform.Spans`, `transform.CheckpointSet`) and `KeyValue.String()` are
function-valued parameters, so every proof holds for any transform and
any formatting.

Concurrent `Shutdown` callers do not share the error of the caller that
ran the gate body. The code keeps `err` in a local variable, so a caller
whose gate body does not run returns `nil`, and `ShutdownStep` models
exactly that.

## Model

| member | source | states |
|---|---|---|
| `Lifecycle.RunKeepsInv` | exporters/otlp/otlpmetric/exporter.go:62-94 | From an invariant state, any sequence of Start/Shutdown calls keeps the invariant. The invariant says: `started` holds only between the start body and the stop body; each gate is tripped exactly when its client method has been called once. |
| `Lifecycle.ClientCalledAtMostOnce` | exporters/otlp/otlpmetric/exporter.go:62-94 | From a new exporter, any calls with any client answers reach Client.Start at most once and Client.Stop at most once. Stop is never reached without Start. |
| `Lifecycle.StartDoneIffStartCalled` | exporters/otlp/otlpmetric/exporter.go:63-69 | The start gate is tripped after a run exactly when it was tripped before or the run contains a Start call. |
| `Lifecycle.ClientStartedExactlyOnce` | exporters/otlp/otlpmetric/exporter.go:62-72 | Client.Start is called exactly once if the calls contain a Start, and never otherwise. |
| `Lifecycle.NoStartStaysFresh` | exporters/otlp/otlptrace/exporter.go:49-55 | Shutdown calls made before any Start leave a new exporter unchanged. |
| `Lifecycle.ShutdownBeforeStartIsNil` | exporters/otlp/otlpmetric/exporter.go:76-82 | A Shutdown on an exporter that was never started returns nil and calls no client method. |
| `Lifecycle.FirstStartReturnsClientResult` | exporters/otlp/otlpmetric/exporter.go:62-72 | The first Start returns Client.Start's result unchanged. Afterwards `started` is set and Client.Start has been called once, even when that result is an error. |
| `Lifecycle.LaterStartIsRejected` | exporters/otlp/otlpmetric/exporter.go:63-64 | Every Start after an earlier Start returns AlreadyStarted and changes nothing, whatever the first call's outcome. |
| `Lifecycle.StartedPlateau` | exporters/otlp/otlptrace/exporter.go:35-45 | Between the first Start and the next Shutdown, further Starts leave the state exactly as the first Start left it. |
| `Lifecycle.ShutdownAfterStartStops` | exporters/otlp/otlptrace/exporter.go:57-66 | The first Shutdown after the first Start, failed or not, returns Client.Stop's result. Afterwards Stop has been called once and `started` is clear. |
| `Lifecycle.StoppedIsTerminal` | exporters/otlp/otlptrace/exporter.go:49-64 | Once stopped, any further calls change nothing. Every Shutdown returns nil, with no second Stop. Every Start returns AlreadyStarted. |
| `OtlpMetricOptions.WithSelectorSets` | exporters/otlp/otlpmetric/options.go:16-20 | Applying WithMetricExportKindSelector(s) to any config gives the config whose selector is s. |
| `OtlpMetricOptions.WithSelectorIdempotent` | exporters/otlp/otlpmetric/options.go:17-19 | Applying the same selector option twice gives the same config as applying it once. |
| `OtlpMetricOptions.NoOptionsIsCumulative` | exporters/otlp/otlpmetric/exporter.go:43-48 | With no options, the selector answers cumulative for every descriptor and aggregator kind. |
| `OtlpMetricOptions.LastSelectorWins` | exporters/otlp/otlpmetric/exporter.go:50-52 | Folding selector options left to right from any config gives the last selector. With no options, the config is unchanged. |
| `OtlpMetric.MetricClient.Start` | exporters/otlp/otlpmetric/clients.go:18 | Stub: returns the configured start result and logs the context. |
| `OtlpMetric.MetricClient.Stop` | exporters/otlp/otlpmetric/clients.go:26 | Stub: returns the configured stop result and logs the context. |
| `OtlpMetric.MetricClient.UploadMetrics` | exporters/otlp/otlpmetric/clients.go:31 | Stub: returns the configured upload result and logs the batch and context, unchanged. |
| `OtlpMetric.Exporter.NewUnstartedExporter` | exporters/otlp/otlpmetric/exporter.go:42-60 | The selector is the default config with the options applied left to right (the loop). The lifecycle is fresh and no client method is called. |
| `OtlpMetric.Exporter.Start` | exporters/otlp/otlpmetric/exporter.go:62-72 | Exactly one `StartStep`, with the client's configured answer. Client.Start is called, with the caller's context, only when the gate was untripped. Keeps `Valid()`. |
| `OtlpMetric.Exporter.Shutdown` | exporters/otlp/otlpmetric/exporter.go:74-94 | Exactly one `ShutdownStep`, with the client's configured answer. Client.Stop is called only when `started` was set. Keeps `Valid()`. |
| `OtlpMetric.Exporter.Export` | exporters/otlp/otlpmetric/exporter.go:96-106 | A transform error is returned with no upload. Zero records return nil with no upload. Otherwise exactly that batch is uploaded once, and the upload's result is returned. |
| `OtlpMetric.ExportKindForConfigured` | exporters/otlp/otlpmetric/exporter.go:108-110 | For an exporter configured with selector options, ExportKindFor is cumulative for every input when there were none. Otherwise it is exactly the last selector's answer. |
| `OtlpMetric.NewExporter` | exporters/otlp/otlpmetric/exporter.go:34-40 | Client.Start is called once and its result returned. On an error there is no exporter. On success the exporter is valid, started, has its start gate tripped, and carries the configured selector. |
| `OtlpTrace.TraceClient.Start` | exporters/otlp/otlptrace/clients.go:18 | Stub: returns the configured start result and logs the context. |
| `OtlpTrace.TraceClient.Stop` | exporters/otlp/otlptrace/clients.go:26 | Stub: returns the configured stop result and logs the context. |
| `OtlpTrace.TraceClient.UploadTraces` | exporters/otlp/otlptrace/clients.go:30 | Stub: returns the configured upload result and logs the batch and context, unchanged. |
| `OtlpTrace.Exporter.NewUnstartedExporter` | exporters/otlp/otlptrace/exporter.go:81-87 | `started` is false, neither gate is tripped, the exporter holds the given client and no client method is called. |
| `OtlpTrace.Exporter.ExportSpans` | exporters/otlp/otlptrace/exporter.go:26-33 | An empty transformed batch returns nil and never calls UploadTraces. Otherwise the batch is uploaded once, unchanged, and the upload's result is returned. |
| `OtlpTrace.Exporter.Start` | exporters/otlp/otlptrace/exporter.go:35-45 | Exactly one `StartStep`. Client.Start is called only by the first Start. Keeps `Valid()`. |
| `OtlpTrace.Exporter.Shutdown` | exporters/otlp/otlptrace/exporter.go:47-67 | Exactly one `ShutdownStep`. Client.Stop is called only when `started` was set. Keeps `Valid()`. |
| `OtlpTrace.NewExporter` | exporters/otlp/otlptrace/exporter.go:72-78 | Client.Start's error is propagated and no exporter is returned. On success the exporter comes back started. |
| `OtlpMetricTest.FlattenedConcat` | exporters/otlp/otlpmetric/internal/otlpmetrictest/collector.go:46-51 | Flattening two lists of resources one after the other equals flattening their concatenation. |
| `OtlpMetricTest.FlattenedLength` | exporters/otlp/otlpmetric/internal/otlpmetrictest/collector.go:46-50 | The flattened length is the sum of the first-library metric counts of the resources. |
| `OtlpMetricTest.EmptyResourcesContributeNothing` | exporters/otlp/otlpmetric/internal/otlpmetrictest/collector.go:48 | Dropping the resources that have no instrumentation library leaves the flattened metrics unchanged. |
| `OtlpMetricTest.FlattenedMembers` | exporters/otlp/otlpmetric/internal/otlpmetrictest/collector.go:46-51 | A metric is flattened exactly when it is in the first instrumentation library of some resource. |
| `OtlpMetricTest.MetricsStorage.NewMetricsStorage` | exporters/otlp/otlpmetric/internal/otlpmetrictest/collector.go:40-42 | The new storage holds no metrics. |
| `OtlpMetricTest.MetricsStorage.AddMetrics` | exporters/otlp/otlpmetric/internal/otlpmetrictest/collector.go:45-52 | The old metrics stay as a prefix. Then come, resource by resource, the metrics of each first library. The length grows by the sum of those counts. |
| `OtlpMetricTest.MetricsStorage.GetMetrics` | exporters/otlp/otlpmetric/internal/otlpmetrictest/collector.go:55-59 | Returns exactly the stored metrics and changes nothing. |
| `OtlpMetricTest.SortedIsNonDecreasing` | exporters/otlp/otlpmetric/internal/otlpmetrictest/collector.go:71-73 | In a key-sorted sequence, keys are non-decreasing under Go's string order. |
| `OtlpMetricTest.SortedIsCanonical` | exporters/otlp/otlpmetric/internal/otlpmetrictest/collector.go:70-75 | Two key-sorted permutations of the same attributes with distinct keys are equal. |
| `OtlpMetricTest.MinKeyIndex` | exporters/otlp/otlpmetric/internal/otlpmetrictest/collector.go:71-73 | Returns an index at or after `from` whose key no later attribute's key is below. |
| `OtlpMetricTest.SortedAttributes` | exporters/otlp/otlpmetric/internal/otlpmetrictest/collector.go:70-75 | Returns the same array, sorted in place: a permutation of its old contents, non-decreasing by key. |
| `OtlpMetricTest.ResourceString` | exporters/otlp/otlpmetric/internal/otlpmetrictest/collector.go:61-68 | Sorts the resource's attributes in place. Returns their texts concatenated in that key-sorted order. |
| `OtlpMetricTest.DistinctKeysAtMostOnce` | exporters/otlp/otlpmetric/internal/otlpmetrictest/collector.go:70-75 | When the attribute keys are distinct, no attribute occurs twice. |
| `OtlpMetricTest.DistinctKeysPermuted` | exporters/otlp/otlpmetric/internal/otlpmetrictest/collector.go:70-75 | Any permutation of attributes with distinct keys, such as the sorted one, again has distinct keys. |
| `OtlpMetricTest.ResourceStringIgnoresOrder` | exporters/otlp/otlpmetric/internal/otlpmetrictest/collector.go:61-68 | Any two orderings of the same attributes with distinct keys, once each is sorted by key, concatenate to the same resource string. |

## Left out

- Concurrency: `sync.Once` and `sync.RWMutex` are modelled sequentially. A gate is a boolean its first caller trips, and lock/unlock do nothing. Blocking, happens-before, and the waiting of concurrent Start/Shutdown callers are not modelled. A state where `started` is set and the stop gate is already tripped can only arise concurrently. `ShutdownStep` still gives it the code's answer, `nil`.
- Order inside a once-body: the flag is set before `Client.Start` is called, and cleared after `Client.Stop` returns. Only a concurrent reader could observe that order. The model captures its consequence: a failed Start leaves `started` set, so a later Shutdown still stops the client.
- `NewExportPipeline` and `InstallNewPipeline` (both exporters): they only wire SDK processors, controllers and providers that are not part of this model. They also set process-wide state or start a ticking controller.
- The transport behind `Client`: connections, retries and wire encoding. The interface is a stub with configured answers.
- `transform.Spans` and `transform.CheckpointSet`: foreign packages, taken as arbitrary functions passed in. The metric transform is given the exporter's selector, which `ExportKindFor` delegates to.
- `context.Context`: an opaque token that is forwarded and logged; cancellation is not modelled.
- Protobuf message contents: metrics, spans and attribute values are reduced to strings. `KeyValue.String()` formatting is a parameter.
- `AddMetrics` with a nil request pointer: the protobuf getter treats it as a request with no resource metrics. The model takes the request by value, so that case is the request with an empty list.
- Pointer aliasing in `GetMetrics`: the Go copy shares the `*Metric` pointers with the storage. The model's sequences are values, so the copy and the storage cannot alias.
- `sortedAttributes`: `sort.Slice` is not stable, and the model proves only what it promises (sorted by key and a permutation). It uses a selection sort that the source does not have. Go compares strings by UTF-8 bytes; the model compares by code point, which gives the same order on valid UTF-8.
- The interface assertions (`var _ ... = (*Exporter)(nil)`) are compile-time checks only.
