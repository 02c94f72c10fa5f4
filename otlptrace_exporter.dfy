/** The trace exporter (exporters/otlp/otlptrace/exporter.go) and a stub of
    the Client it drives (exporters/otlp/otlptrace/clients.go). Its Start
    and Shutdown are the metric exporter's; locks and `sync.Once` are taken
    sequentially, a gate being a boolean tripped by its first caller. */
module OtlpTrace {
  import opened Wrappers
  import opened Telemetry
  import Lifecycle

  /** One UploadTraces call the client received. */
  datatype TraceUpload = TraceUpload(ctx: Context, resourceSpans: seq<ResourceSpans>)

  /** `transform.Spans`: the conversion of spans into wire records. */
  type SpanTransform = seq<ReadOnlySpan> -> seq<ResourceSpans>

  /** A Client whose answers are configured and whose calls are logged. */
  class TraceClient {
    var startResult: Option<Error>
    var stopResult: Option<Error>
    var uploadResult: Option<Error>
    ghost var startCalls: seq<Context>
    ghost var stopCalls: seq<Context>
    ghost var uploads: seq<TraceUpload>

    constructor (startResult: Option<Error>, stopResult: Option<Error>, uploadResult: Option<Error>)
      ensures this.startResult == startResult && this.stopResult == stopResult
      ensures this.uploadResult == uploadResult
      ensures startCalls == [] && stopCalls == [] && uploads == []
    {
      this.startResult := startResult;
      this.stopResult := stopResult;
      this.uploadResult := uploadResult;
      startCalls, stopCalls, uploads := [], [], [];
    }

    method Start(ctx: Context) returns (err: Option<Error>)
      modifies this`startCalls
      ensures err == startResult && startCalls == old(startCalls) + [ctx]
    {
      err := startResult;
      startCalls := startCalls + [ctx];
    }

    method Stop(ctx: Context) returns (err: Option<Error>)
      modifies this`stopCalls
      ensures err == stopResult && stopCalls == old(stopCalls) + [ctx]
    {
      err := stopResult;
      stopCalls := stopCalls + [ctx];
    }

    method UploadTraces(ctx: Context, protoSpans: seq<ResourceSpans>) returns (err: Option<Error>)
      modifies this`uploads
      ensures err == uploadResult && uploads == old(uploads) + [TraceUpload(ctx, protoSpans)]
    {
      err := uploadResult;
      uploads := uploads + [TraceUpload(ctx, protoSpans)];
    }
  }

  class Exporter {
    const client: TraceClient
    var started: bool
    /** `startOnce`, true once tripped. */
    var startOnce: bool
    /** `stopOnce`, true once tripped. */
    var stopOnce: bool
    /** The Client.Start and Client.Stop calls this exporter has made. */
    ghost var clientStarts: int
    ghost var clientStops: int

    /** The lifecycle state, with the client calls this exporter made. */
    ghost function State(): Lifecycle.State
      reads this
    {
      Lifecycle.State(started, startOnce, stopOnce, clientStarts, clientStops)
    }

    ghost predicate Valid()
      reads this
    {
      Lifecycle.Inv(State())
    }

    /** NewUnstartedExporter: `started` false, neither gate tripped, no
        client call. */
    constructor NewUnstartedExporter(client: TraceClient)
      ensures Valid() && State() == Lifecycle.Fresh
      ensures this.client == client
    {
      this.client := client;
      started, startOnce, stopOnce := false, false, false;
      clientStarts, clientStops := 0, 0;
    }

    /** ExportSpans: an empty transformed batch is success without a client
        call; any other is handed to UploadTraces unchanged. */
    method ExportSpans(ctx: Context, ss: seq<ReadOnlySpan>, transform: SpanTransform) returns (err: Option<Error>)
      modifies client`uploads
      ensures transform(ss) == [] ==> err == None && client.uploads == old(client.uploads)
      ensures transform(ss) != [] ==>
        err == client.uploadResult && client.uploads == old(client.uploads) + [TraceUpload(ctx, transform(ss))]
    {
      var protoSpans := transform(ss);
      if |protoSpans| == 0 {
        return None;
      }
      err := client.UploadTraces(ctx, protoSpans);
    }

    /** Start: only the first call runs the body, which sets `started` and then
        calls Client.Start; every other call returns AlreadyStarted. */
    method Start(ctx: Context) returns (err: Option<Error>)
      requires Valid()
      modifies this`started, this`startOnce, this`clientStarts, client`startCalls
      ensures Valid()
      ensures Lifecycle.StartStep(old(State()), old(client.startResult)) == Lifecycle.Step(State(), err)
      ensures client.startCalls == if old(startOnce) then old(client.startCalls) else old(client.startCalls) + [ctx]
    {
      err := Some(AlreadyStarted);
      if !startOnce {
        startOnce := true;
        started := true;
        err := client.Start(ctx);
        clientStarts := clientStarts + 1;
      }
    }

    /** Shutdown: nil when not started; otherwise the stop gate's first caller
        calls Client.Stop and then clears `started`. */
    method Shutdown(ctx: Context) returns (err: Option<Error>)
      requires Valid()
      modifies this`started, this`stopOnce, this`clientStops, client`stopCalls
      ensures Valid()
      ensures Lifecycle.ShutdownStep(old(State()), old(client.stopResult)) == Lifecycle.Step(State(), err)
      ensures client.stopCalls == if old(started) then old(client.stopCalls) + [ctx] else old(client.stopCalls)
    {
      var isStarted := started;
      if !isStarted {
        return None;
      }
      err := None;
      if !stopOnce {
        stopOnce := true;
        err := client.Stop(ctx);
        clientStops := clientStops + 1;
        started := false;
      }
    }
  }

  /** NewExporter: an unstarted exporter, then Start. On an error the exporter
      is dropped and the error returned; otherwise it comes back started. */
  method NewExporter(ctx: Context, client: TraceClient) returns (exp: Exporter?, err: Option<Error>)
    modifies client`startCalls
    ensures err == old(client.startResult)
    ensures client.startCalls == old(client.startCalls) + [ctx]
    ensures err.Some? ==> exp == null
    ensures err.None? ==> exp != null && fresh(exp) && exp.client == client && exp.Valid()
    ensures err.None? ==> exp.State() == Lifecycle.State(true, true, false, 1, 0)
  {
    var e := new Exporter.NewUnstartedExporter(client);
    err := e.Start(ctx);
    if err.Some? {
      return null, err;
    }
    exp := e;
  }

  /** The failed-start regression scenario: a Start whose client fails,
      then two Shutdowns. Stop is called once, its result reaches the first
      Shutdown, and the second gets nil. */
  method FailedStartThenShutdown(ctx: Context, startErr: Error, stopResult: Option<Error>)
  {
    var client := new TraceClient(Some(startErr), stopResult, None);
    var e := new Exporter.NewUnstartedExporter(client);
    var err := e.Start(ctx);
    assert err == Some(startErr) && e.started;
    err := e.Start(ctx);
    assert err == Some(AlreadyStarted) && |client.startCalls| == 1;
    err := e.Shutdown(ctx);
    assert err == stopResult && !e.started && |client.stopCalls| == 1;
    err := e.Shutdown(ctx);
    assert err == None && |client.stopCalls| == 1;
  }

  /** Two exporters over one client: the second one's Shutdown before its
      Start is nil without a Stop, and its first Start reaches the client. */
  method SharedClient(ctx: Context)
  {
    var client := new TraceClient(None, None, None);
    var a := new Exporter.NewUnstartedExporter(client);
    var b := new Exporter.NewUnstartedExporter(client);
    var err := a.Start(ctx);
    assert err == None && b.Valid();
    err := b.Shutdown(ctx);
    assert err == None && client.stopCalls == [];
    err := b.Start(ctx);
    assert err == None && client.startCalls == [ctx, ctx];
    assert a.State().clientStarts == 1 && b.State().clientStarts == 1;
  }
}
