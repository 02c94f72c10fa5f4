/** The metric exporter (exporters/otlp/otlpmetric/exporter.go) and a stub of
    the Client it drives (exporters/otlp/otlpmetric/clients.go). Locks and
    `sync.Once` are taken sequentially: a gate is a boolean tripped by its
    first caller, and lock/unlock do nothing. */
module OtlpMetric {
  import opened Wrappers
  import opened Telemetry
  import opened OtlpMetricOptions
  import Lifecycle

  /** One UploadMetrics call the client received. */
  datatype MetricUpload = MetricUpload(ctx: Context, resourceMetrics: seq<ResourceMetrics>)

  /** `transform.CheckpointSet(ctx, selector, checkpointSet, numWorkers)`: the
      conversion into wire records, which asks the selector per instrument. */
  type MetricTransform = (Context, ExportKindSelector, CheckpointSet, nat) -> Result<seq<ResourceMetrics>, Error>

  /** A Client whose answers are configured and whose calls are logged. */
  class MetricClient {
    var startResult: Option<Error>
    var stopResult: Option<Error>
    var uploadResult: Option<Error>
    ghost var startCalls: seq<Context>
    ghost var stopCalls: seq<Context>
    ghost var uploads: seq<MetricUpload>

    constructor (startResult: Option<Error>, stopResult: Option<Error>, uploadResult: Option<Error>)
      ensures this.startResult == startResult && this.stopResult == stopResult
      ensures this.uploadResult == uploadResult
      ensures startCalls == [] && stopCalls == [] && uploads == []
    {
      this.startResult := startResult;
      this.stopResult := stopResult;
      this.uploadResult := uploadResult;
      startCalls, stopCalls, uploads := [], [], [];
    }

    method Start(ctx: Context) returns (err: Option<Error>)
      modifies this`startCalls
      ensures err == startResult && startCalls == old(startCalls) + [ctx]
    {
      err := startResult;
      startCalls := startCalls + [ctx];
    }

    method Stop(ctx: Context) returns (err: Option<Error>)
      modifies this`stopCalls
      ensures err == stopResult && stopCalls == old(stopCalls) + [ctx]
    {
      err := stopResult;
      stopCalls := stopCalls + [ctx];
    }

    method UploadMetrics(ctx: Context, rms: seq<ResourceMetrics>) returns (err: Option<Error>)
      modifies this`uploads
      ensures err == uploadResult && uploads == old(uploads) + [MetricUpload(ctx, rms)]
    {
      err := uploadResult;
      uploads := uploads + [MetricUpload(ctx, rms)];
    }
  }

  class Exporter {
    const client: MetricClient
    const exportKindSelector: ExportKindSelector
    var started: bool
    /** `startOnce`, true once tripped. */
    var startOnce: bool
    /** `stopOnce`, true once tripped. */
    var stopOnce: bool
    /** The Client.Start and Client.Stop calls this exporter has made. */
    ghost var clientStarts: int
    ghost var clientStops: int

    /** The lifecycle state, with the client calls this exporter made. */
    ghost function State(): Lifecycle.State
      reads this
    {
      Lifecycle.State(started, startOnce, stopOnce, clientStarts, clientStops)
    }

    ghost predicate Valid()
      reads this
    {
      Lifecycle.Inv(State())
    }

    /** NewUnstartedExporter: the default configuration with the options
        applied left to right; nothing started and no client call. */
    constructor NewUnstartedExporter(client: MetricClient, opts: seq<ExporterOption>)
      ensures Valid() && State() == Lifecycle.Fresh
      ensures this.client == client
      ensures exportKindSelector == ApplyOptions(DefaultConfig(), opts).exportKindSelector
    {
      var cfg := DefaultConfig();
      var i := 0;
      while i < |opts|
        invariant 0 <= i <= |opts|
        invariant ApplyOptions(cfg, opts[i..]) == ApplyOptions(DefaultConfig(), opts)
      {
        assert opts[i..][1..] == opts[i + 1..];
        cfg := opts[i](cfg);
        i := i + 1;
      }
      this.client := client;
      exportKindSelector := cfg.exportKindSelector;
      started, startOnce, stopOnce := false, false, false;
      clientStarts, clientStops := 0, 0;
    }

    /** Start: only the first call runs the body, which sets `started` and then
        calls Client.Start; every other call returns AlreadyStarted. */
    method Start(ctx: Context) returns (err: Option<Error>)
      requires Valid()
      modifies this`started, this`startOnce, this`clientStarts, client`startCalls
      ensures Valid()
      ensures Lifecycle.StartStep(old(State()), old(client.startResult)) == Lifecycle.Step(State(), err)
      ensures client.startCalls == if old(startOnce) then old(client.startCalls) else old(client.startCalls) + [ctx]
    {
      err := Some(AlreadyStarted);
      if !startOnce {
        startOnce := true;
        started := true;
        err := client.Start(ctx);
        clientStarts := clientStarts + 1;
      }
    }

    /** Shutdown: nil when not started; otherwise the stop gate's first caller
        calls Client.Stop and then clears `started`. */
    method Shutdown(ctx: Context) returns (err: Option<Error>)
      requires Valid()
      modifies this`started, this`stopOnce, this`clientStops, client`stopCalls
      ensures Valid()
      ensures Lifecycle.ShutdownStep(old(State()), old(client.stopResult)) == Lifecycle.Step(State(), err)
      ensures client.stopCalls == if old(started) then old(client.stopCalls) + [ctx] else old(client.stopCalls)
    {
      var isStarted := started;
      if !isStarted {
        return None;
      }
      err := None;
      if !stopOnce {
        stopOnce := true;
        err := client.Stop(ctx);
        clientStops := clientStops + 1;
        started := false;
      }
    }

    /** Export: a transform error is returned, an empty batch is success, and
        any other batch is handed to UploadMetrics unchanged. */
    method Export(ctx: Context, checkpointSet: CheckpointSet, transform: MetricTransform) returns (err: Option<Error>)
      modifies client`uploads
      ensures match transform(ctx, exportKindSelector, checkpointSet, 1)
        case Failure(e) => err == Some(e) && client.uploads == old(client.uploads)
        case Success(rms) =>
          if rms == [] then err == None && client.uploads == old(client.uploads)
          else err == client.uploadResult && client.uploads == old(client.uploads) + [MetricUpload(ctx, rms)]
    {
      var t := transform(ctx, exportKindSelector, checkpointSet, 1);
      if t.Failure? {
        return Some(t.error);
      }
      var rms := t.value;
      if |rms| == 0 {
        return None;
      }
      err := client.UploadMetrics(ctx, rms);
    }

    /** ExportKindFor: the configured selector's answer. */
    function ExportKindFor(descriptor: Descriptor, aggregatorKind: AggregationKind): ExportKind
    {
      exportKindSelector(descriptor, aggregatorKind)
    }
  }

  /** ExportKindFor of an exporter built with selector options answers
      cumulative when there were none, and otherwise exactly what the last
      selector answers. */
  lemma ExportKindForConfigured(e: Exporter, selectors: seq<ExportKindSelector>, d: Descriptor, k: AggregationKind)
    requires e.exportKindSelector == ApplyOptions(DefaultConfig(), SelectorOptions(selectors)).exportKindSelector
    ensures e.ExportKindFor(d, k) ==
      if selectors == [] then CumulativeExportKind else selectors[|selectors| - 1](d, k)
  {
    LastSelectorWins(DefaultConfig(), selectors);
  }

  /** NewExporter: an unstarted exporter, then Start. On an error the exporter
      is dropped and the error returned; otherwise it comes back started. */
  method NewExporter(ctx: Context, client: MetricClient, opts: seq<ExporterOption>)
    returns (exp: Exporter?, err: Option<Error>)
    modifies client`startCalls
    ensures err == old(client.startResult)
    ensures client.startCalls == old(client.startCalls) + [ctx]
    ensures err.Some? ==> exp == null
    ensures err.None? ==> exp != null && fresh(exp) && exp.client == client && exp.Valid()
    ensures err.None? ==> exp.State() == Lifecycle.State(true, true, false, 1, 0)
    ensures err.None? ==> exp.exportKindSelector == ApplyOptions(DefaultConfig(), opts).exportKindSelector
  {
    var e := new Exporter.NewUnstartedExporter(client, opts);
    err := e.Start(ctx);
    if err.Some? {
      return null, err;
    }
    exp := e;
  }
}
