/** The lifecycle state machine shared by the trace and the metric exporter
    (exporters/otlp/otlptrace/exporter.go and exporters/otlp/otlpmetric/exporter.go
    hold the same Start and Shutdown). One exporter call is one step; a run
    of calls is folded left to right from the state of a new exporter. The
    exporter classes tie each of their Start and Shutdown calls to one step. */
module Lifecycle {
  import opened Wrappers
  import opened Telemetry

  /** The `started` flag, the two one-shot gates (true once tripped) and the
      number of Client.Start and Client.Stop calls the exporter has made. */
  datatype State = State(
    started: bool,
    startDone: bool,
    stopDone: bool,
    clientStarts: int,
    clientStops: int)

  /** An exporter as NewUnstartedExporter builds it. */
  const Fresh: State := State(false, false, false, 0, 0)

  /** The state one call leaves behind and the error it returns. */
  datatype Step = Step(state: State, err: Option<Error>)

  /** One exporter call, with what the client would answer if it is reached. */
  datatype Call = StartCall(startResult: Option<Error>) | ShutdownCall(stopResult: Option<Error>)

  /** What every state reachable by sequential calls satisfies: each gate has
      let the client through exactly when it is tripped, and `started` holds
      exactly between the start body and the stop body. */
  predicate Inv(s: State)
  {
    && (s.started ==> s.startDone && !s.stopDone)
    && (s.stopDone ==> s.startDone && !s.started)
    && s.clientStarts == (if s.startDone then 1 else 0)
    && s.clientStops == (if s.stopDone then 1 else 0)
  }

  /** Start: the first call sets `started`, then calls Client.Start and
      returns its result; every other call returns AlreadyStarted. */
  function StartStep(s: State, clientResult: Option<Error>): Step
  {
    if s.startDone then Step(s, Some(AlreadyStarted))
    else Step(s.(started := true, startDone := true, clientStarts := s.clientStarts + 1), clientResult)
  }

  /** Shutdown: nil when not started; otherwise the stop gate's first caller
      calls Client.Stop, clears `started` and returns Stop's result, and a
      caller that finds the gate already tripped returns nil. */
  function ShutdownStep(s: State, clientResult: Option<Error>): Step
  {
    if !s.started then Step(s, None)
    else if s.stopDone then Step(s, None)
    else Step(s.(stopDone := true, clientStops := s.clientStops + 1, started := false), clientResult)
  }

  function Apply(s: State, c: Call): Step
  {
    match c
    case StartCall(r) => StartStep(s, r)
    case ShutdownCall(r) => ShutdownStep(s, r)
  }

  /** The state after the calls, in order. */
  function Run(s: State, calls: seq<Call>): State
    decreases |calls|
  {
    if calls == [] then s
    else Apply(Run(s, calls[..|calls| - 1]), calls[|calls| - 1]).state
  }

  /** The error each of the calls returns, in order. */
  function Replies(s: State, calls: seq<Call>): (r: seq<Option<Error>>)
    ensures |r| == |calls|
    decreases |calls|
  {
    if calls == [] then []
    else Replies(s, calls[..|calls| - 1]) + [Apply(Run(s, calls[..|calls| - 1]), calls[|calls| - 1]).err]
  }

  /** One step preserves the invariant. */
  lemma ApplyKeepsInv(s: State, c: Call)
    requires Inv(s)
    ensures Inv(Apply(s, c).state)
  {
  }

  /** Extending a run by one call is one more step. */
  lemma RunSnoc(s: State, calls: seq<Call>, i: nat)
    requires i < |calls|
    ensures Run(s, calls[..i + 1]) == Apply(Run(s, calls[..i]), calls[i]).state
  {
    assert calls[..i + 1][..i] == calls[..i];
  }

  /** Every state a run reaches from an invariant state keeps the invariant. */
  lemma {:induction false} RunKeepsInv(s: State, calls: seq<Call>)
    requires Inv(s)
    ensures Inv(Run(s, calls))
    decreases |calls|
  {
    if calls != [] {
      RunKeepsInv(s, calls[..|calls| - 1]);
      ApplyKeepsInv(Run(s, calls[..|calls| - 1]), calls[|calls| - 1]);
    }
  }

  /** Whatever the calls and whatever the client answers, an exporter calls
      Client.Start at most once and Client.Stop at most once. */
  lemma ClientCalledAtMostOnce(calls: seq<Call>)
    ensures 0 <= Run(Fresh, calls).clientStarts <= 1
    ensures 0 <= Run(Fresh, calls).clientStops <= 1
    ensures Run(Fresh, calls).clientStops <= Run(Fresh, calls).clientStarts
  {
    RunKeepsInv(Fresh, calls);
  }

  /** The reply to the i-th call is that call applied to the state the
      earlier calls left. */
  lemma {:induction false} ReplyAt(s: State, calls: seq<Call>, i: nat)
    requires i < |calls|
    ensures Replies(s, calls)[i] == Apply(Run(s, calls[..i]), calls[i]).err
    decreases |calls|
  {
    var n := |calls| - 1;
    var init := calls[..n];
    assert calls == init + [calls[n]];
    if n > 0 {
      ReplyAt(s, init, if i < n then i else 0);
    }
    if i < n {
      assert init[..i] == calls[..i];
    } else {
      assert init == calls[..i];
    }
  }

  /** The start gate is tripped after a run exactly when it was before or
      the run holds a Start call. */
  lemma {:induction false} StartDoneIffStartCalled(s: State, calls: seq<Call>)
    ensures Run(s, calls).startDone <==>
      s.startDone || exists k :: 0 <= k < |calls| && calls[k].StartCall?
    decreases |calls|
  {
    if calls != [] {
      var n := |calls| - 1;
      StartDoneIffStartCalled(s, calls[..n]);
      assert forall k :: 0 <= k < n ==> calls[..n][k] == calls[k];
    }
  }

  /** Client.Start is called exactly once when the calls hold some Start, and
      never otherwise. */
  lemma ClientStartedExactlyOnce(calls: seq<Call>)
    ensures Run(Fresh, calls).clientStarts ==
      (if exists k :: 0 <= k < |calls| && calls[k].StartCall? then 1 else 0)
  {
    RunKeepsInv(Fresh, calls);
    StartDoneIffStartCalled(Fresh, calls);
  }

  /** Before any Start, calls change nothing. */
  lemma {:induction false} NoStartStaysFresh(calls: seq<Call>)
    requires forall k :: 0 <= k < |calls| ==> calls[k].ShutdownCall?
    ensures Run(Fresh, calls) == Fresh
    decreases |calls|
  {
    if calls != [] {
      var n := |calls| - 1;
      assert forall k :: 0 <= k < n ==> calls[..n][k] == calls[k];
      NoStartStaysFresh(calls[..n]);
    }
  }

  /** Shutdown on an exporter that was never started returns nil and calls no
      client method. */
  lemma ShutdownBeforeStartIsNil(calls: seq<Call>, j: nat)
    requires j < |calls| && calls[j].ShutdownCall?
    requires forall k :: 0 <= k < j ==> calls[k].ShutdownCall?
    ensures Replies(Fresh, calls)[j] == None
    ensures Run(Fresh, calls[..j + 1]) == Fresh
  {
    assert forall k :: 0 <= k < j ==> calls[..j][k] == calls[k];
    NoStartStaysFresh(calls[..j]);
    ReplyAt(Fresh, calls, j);
    RunSnoc(Fresh, calls, j);
  }

  /** The first Start calls Client.Start once, returns its result unchanged and
      leaves `started` set, even when that result is an error. */
  lemma FirstStartReturnsClientResult(calls: seq<Call>, i: nat)
    requires i < |calls| && calls[i].StartCall?
    requires forall k :: 0 <= k < i ==> calls[k].ShutdownCall?
    ensures Replies(Fresh, calls)[i] == calls[i].startResult
    ensures Run(Fresh, calls[..i + 1]) == State(true, true, false, 1, 0)
  {
    assert forall k :: 0 <= k < i ==> calls[..i][k] == calls[k];
    NoStartStaysFresh(calls[..i]);
    ReplyAt(Fresh, calls, i);
    RunSnoc(Fresh, calls, i);
  }

  /** Every Start after a first one returns AlreadyStarted and does not reach
      the client, whatever the first one's outcome. */
  lemma LaterStartIsRejected(calls: seq<Call>, i: nat, j: nat)
    requires i < j < |calls| && calls[i].StartCall? && calls[j].StartCall?
    ensures Replies(Fresh, calls)[j] == Some(AlreadyStarted)
    ensures Run(Fresh, calls[..j + 1]) == Run(Fresh, calls[..j])
  {
    assert calls[..j][i] == calls[i];
    StartDoneIffStartCalled(Fresh, calls[..j]);
    ReplyAt(Fresh, calls, j);
    RunSnoc(Fresh, calls, j);
  }

  /** Between the first Start and the next Shutdown, further Starts leave the
      state as the first Start left it. */
  lemma {:induction false} StartedPlateau(calls: seq<Call>, i: nat, k: nat)
    requires i < k <= |calls| && calls[i].StartCall?
    requires forall m :: 0 <= m < i ==> calls[m].ShutdownCall?
    requires forall m :: i < m < k ==> calls[m].StartCall?
    ensures Run(Fresh, calls[..k]) == State(true, true, false, 1, 0)
    decreases k
  {
    if k == i + 1 {
      FirstStartReturnsClientResult(calls, i);
    } else {
      StartedPlateau(calls, i, k - 1);
      RunSnoc(Fresh, calls, k - 1);
    }
  }

  /** The first Shutdown after the first Start, including a failed one, calls
      Client.Stop once, returns its result and clears `started`. */
  lemma ShutdownAfterStartStops(calls: seq<Call>, i: nat, j: nat)
    requires i < j < |calls| && calls[i].StartCall? && calls[j].ShutdownCall?
    requires forall m :: 0 <= m < i ==> calls[m].ShutdownCall?
    requires forall m :: i < m < j ==> calls[m].StartCall?
    ensures Replies(Fresh, calls)[j] == calls[j].stopResult
    ensures Run(Fresh, calls[..j + 1]) == State(false, true, true, 1, 1)
  {
    StartedPlateau(calls, i, j);
    ReplyAt(Fresh, calls, j);
    RunSnoc(Fresh, calls, j);
  }

  /** Once stopped, an exporter stays as it is: every later Shutdown returns
      nil without calling Client.Stop again and every later Start returns
      AlreadyStarted. */
  lemma {:induction false} StoppedIsTerminal(s: State, calls: seq<Call>)
    requires Inv(s) && s.stopDone
    ensures Run(s, calls) == s
    ensures forall k :: 0 <= k < |calls| ==>
      Replies(s, calls)[k] == (if calls[k].StartCall? then Some(AlreadyStarted) else None)
    decreases |calls|
  {
    if calls != [] {
      var n := |calls| - 1;
      StoppedIsTerminal(s, calls[..n]);
      assert forall k :: 0 <= k < n ==> calls[..n][k] == calls[k];
    }
  }
}
