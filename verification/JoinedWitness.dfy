/**
 Joined runs that exist: for every host-started upload one whose results are all captured, and one in which `finalize`
 interrupts the last result, so that RESULTS_COMPLETE is reported and the capture is not complete.
 */
module JoinedWitness {
  import opened Basics
  import opened CaptureStore
  import opened BatchWriter
  import opened RunBuilder
  import opened CaptureTicks
  import opened JoinedRun
  import Definition
  import W = Workflow
  import Safety = WorkflowSafety
  import Progress = WorkflowProgress
  import Refusal = WorkflowRefusal

  /** Some events, uninterrupted by `finalize` if asked for, lead from the beginning to `j`. */
  ghost predicate Leads(r: Beginning, j: Joined, uninterrupted: bool)
    requires r.Proper()
  {
    exists events :: LeadsBy(r, j, uninterrupted, events)
  }

  ghost predicate LeadsBy(r: Beginning, j: Joined, uninterrupted: bool, events: seq<JoinedEvent>)
    requires r.Proper()
  {
    && AllSeparate(events) && Undemanding(events) && r.After(events) == j
    && (uninterrupted ==> NeverInterrupts(r.Start(), events, r.builder))
  }

  lemma LeadsFromTheStart(r: Beginning)
    requires r.Proper()
    ensures Leads(r, r.Start(), true)
  {
    assert LeadsBy(r, r.Start(), true, []);
  }

  lemma LeadsOn(r: Beginning, j: Joined, uninterrupted: bool, e: JoinedEvent, still: bool)
    requires r.Proper() && Leads(r, j, uninterrupted)
    requires Separate(e) && (e.Capture? ==> Plain(e.event))
    requires still ==> uninterrupted && !(e.Capture? && e.event.BeginFinalize? && j.asked.Some?)
    ensures Leads(r, Happen(j, e, r.builder), still)
  {
    var events :| LeadsBy(r, j, uninterrupted, events);
    var more := events + [e];
    assert more[..|events|] == events;
    PrefixInterruptsAlike(r.Start(), more, |events|, r.builder);
    assert forall x :: x in more ==> x in events || x == e;
    assert LeadsBy(r, Happen(j, e, r.builder), still, more);
  }

  lemma LeadsReaction(r: Beginning, j: Joined, a: W.Action)
    requires r.Proper() && Leads(r, j, true) && j.asked.None? && !(a.DoMessage? && a.message.TestResult?)
    ensures Leads(r, j.(connection := W.Step(j.connection, a).state), true)
  {
    LeadsOn(r, j, true, Reaction(a), true);
  }

  lemma {:induction false} LeadsActions(r: Beginning, j: Joined, actions: seq<W.Action>)
    requires r.Proper() && Leads(r, j, true) && j.asked.None?
    requires forall a :: a in actions ==> !(a.DoMessage? && a.message.TestResult?)
    ensures Leads(r, j.(connection := W.Run(j.connection, actions)), true)
    decreases |actions|
  {
    if actions == [] {
      assert j.(connection := W.Run(j.connection, actions)) == j;
    } else {
      var n := |actions| - 1;
      assert actions[n] in actions && forall a :: a in actions[..n] ==> a in actions;
      LeadsActions(r, j, actions[..n]);
      LeadsReaction(r, j.(connection := W.Run(j.connection, actions[..n])), actions[n]);
    }
  }

  lemma LedMatches(r: Beginning, j: Joined, uninterrupted: bool)
    requires r.Proper() && r.earlier == [] && Leads(r, j, uninterrupted) && j.connection.active == Some(r.upload)
    ensures Matched(j, r.upload, r.builder) && Healthy(j.capture)
  {
    var events :| LeadsBy(r, j, uninterrupted, events);
    StartMatches(r);
    HealthyBefore(W.Expected(r.upload), r.batchSize, r.capacity, []);
    JoinAllMatches(r.Start(), events, r.upload, r.builder);
    JoinAllIsHealthy(r.Start(), events, r.upload, r.builder);
  }

  // ---------- Up to START ----------

  /** A connection with a confirmed session and the builder bound, ready to queue the upload. */
  lemma BoundBeginning(timeout: int, u: W.Upload, b: W.Builder, batchSize: nat, capacity: nat) returns (r: Beginning)
    requires W.Expected(u) > 0 && batchSize > 0 && W.Belongs(b, u)
    ensures r.Proper() && r.upload == u && r.builder == b && r.earlier == [] && r.established
    ensures r.batchSize == batchSize && r.capacity == capacity
    ensures Progress.Unfinished(r.Start().connection, u) && r.Start().connection.nextResult == 0
  {
    var s := Refusal.SessionIsConfirmed(timeout);
    Refusal.ReachableStep(s, W.DoBind(b, false));
    var bound := W.Step(s, W.DoBind(b, false)).state;
    Refusal.QueueingSucceeds(bound, u);
    r := Beginning(bound, u, b, true, batchSize, capacity, []);
    Safety.ReachableStatesAreSound(bound);
    Progress.QueuedUploadStarts(bound, u);
  }

  /** The capture has taken everything and waits for more. */
  predicate Quiet(b: Builder) {
    b.queue == [] && b.accepting && b.closing.None? && b.writer.mode.Running?
  }

  lemma StartIsReached(r: Beginning) returns (j: Joined)
    requires r.Proper() && r.earlier == [] && r.upload.startMode == Definition.HostCommand && r.established
    requires Progress.Unfinished(r.Start().connection, r.upload) && r.Start().connection.nextResult == 0
    ensures Leads(r, j, true) && j.asked.None? && j.capture == r.Start().capture
    ensures Refusal.RunningWith(j.connection, r.upload, 0)
  {
    var u, start := r.upload, r.Start();
    LeadsFromTheStart(r);
    var actions := Progress.ValidationIsInReach(start.connection, u);
    LeadsActions(r, start, actions);
    var ready := start.(connection := W.Run(start.connection, actions));
    Refusal.ValidatedIsIdle(ready.connection, u);
    j := StartIsRun(r, ready);
  }

  lemma StartIsRun(r: Beginning, ready: Joined) returns (j: Joined)
    requires r.Proper() && Leads(r, ready, true) && ready.asked.None?
    requires Refusal.CanStart(ready.connection, r.upload) && r.upload.startMode == Definition.HostCommand
    requires ready.connection.nextResult == 0
    ensures Leads(r, j, true) && j.asked.None? && j.capture == ready.capture
    ensures Refusal.RunningWith(j.connection, r.upload, 0)
  {
    var u, s := r.upload, ready.connection;
    var request, message := Safety.StartRequest(u.id), W.StartControl(u.id);
    Refusal.StartIsAsked(s, u);
    LeadsReaction(r, ready, W.DoStart);
    var asked := Refusal.After(s, W.DoStart);
    Refusal.AskingIsSent(asked, request, message);
    LeadsReaction(r, ready.(connection := asked), W.DoSubmit(true, W.StatusOk));
    var sent := Refusal.After(asked, W.DoSubmit(true, W.StatusOk));
    Refusal.AskingIsConfirmed(sent, request, message);
    LeadsReaction(r, ready.(connection := sent), W.DoEvent(W.DeliveryConfirmed(0)));
    var confirmed := Refusal.After(sent, W.DoEvent(W.DeliveryConfirmed(0)));
    Refusal.StartIsAnswered(confirmed, u);
    LeadsReaction(r, ready.(connection := confirmed), Refusal.Started(u.id));
    j := ready.(connection := Refusal.After(confirmed, Refusal.Started(u.id)));
  }

  // ---------- Results ----------

  /** The upload is executing with `n` results in, or all of them. */
  predicate Executing(s: W.State, u: W.Upload, n: nat) {
    && !s.closed && s.started && s.active == Some(u) && s.nextResult == n
    && (n == W.Expected(u) ==> s.phase == W.ResultsComplete)
  }

  lemma ResultIsAsked(j: Joined, u: W.Upload, b: W.Builder, n: nat, result: TickResult)
    requires Matched(j, u, b) && j.asked.None? && Executing(j.connection, u, n) && n < W.Expected(u)
    requires Quiet(j.capture) && result.tick == n
    ensures var t := Happen(j, Result(u.id, result, true), b);
      && t == j.(capture := t.capture, asked := Some(result))
      && t.capture == j.capture.(checked := j.capture.checked[CONNECTION := Row(Tick(result))])
  {
  }

  lemma ResultIsCounted(s: W.State, u: W.Upload, b: W.Builder, n: nat)
    requires Executing(s, u, n) && n < W.Expected(u) && s.builder == Some(b)
    ensures Executing(Answered(s, n, true), u, n + 1)
  {
  }

  lemma ResultIsPut(j: Joined, result: TickResult)
    requires j.asked == Some(result) && j.capture.queue == [] && j.capture.capacity > 0
    requires CONNECTION in j.capture.checked && j.capture.checked[CONNECTION] == Row(Tick(result))
    ensures var t := PutAsked(j);
      && t.connection == Answered(j.connection, result.tick, true) && t.asked.None?
      && t.capture == j.capture.(checked := j.capture.checked - {CONNECTION}, queue := [Row(Tick(result))],
                                 accepted := j.capture.accepted + [Tick(result)])
  {
    LateRecordGoesIn(j.capture, CONNECTION);
  }

  lemma RecordIsTaken(b: Builder, n: nat, r: Record)
    requires Sound(b) && TickNumbers(b.accepted) == Safety.Count(n) && Healthy(b)
    requires b.queue == [Row(r)] && b.accepting && b.closing.None? && b.writer.mode.Running?
    ensures Quiet(TakeNext(b, 0))
  {
    TurnSucceeds(b, n, Taken(b.queue[0], 0));
    OnlyFinalizeFinishes(b.writer, Taken(b.queue[0], 0));
  }

  /** One result arrives, is put and is taken by the writer. */
  lemma NextResult(r: Beginning, j: Joined, n: nat, result: TickResult) returns (t: Joined)
    requires r.Proper() && r.earlier == [] && r.capacity > 0 && Leads(r, j, true) && j.asked.None?
    requires Executing(j.connection, r.upload, n) && n < W.Expected(r.upload) && Quiet(j.capture) && result.tick == n
    requires j.capture.capacity == r.capacity
    ensures Leads(r, t, true) && t.asked.None? && Executing(t.connection, r.upload, n + 1) && Quiet(t.capture)
    ensures t.capture.capacity == r.capacity
  {
    LedMatches(r, j, true);
    ResultIsAsked(j, r.upload, r.builder, n, result);
    LeadsOn(r, j, true, Result(r.upload.id, result, true), true);
    var asked := Happen(j, Result(r.upload.id, result, true), r.builder);
    ResultIsPut(asked, result);
    ResultIsCounted(j.connection, r.upload, r.builder, n);
    LeadsOn(r, asked, true, PutResult, true);
    var put := Happen(asked, PutResult, r.builder);
    LedMatches(r, put, true);
    RecordIsTaken(put.capture, n + 1, Tick(result));
    LeadsOn(r, put, true, Capture(WriterTakes(0)), true);
    t := Happen(put, Capture(WriterTakes(0)), r.builder);
  }

  /** What the rig measures, tick by tick. */
  ghost predicate Measures(results: nat -> TickResult) {
    forall k: nat :: results(k).tick == k
  }

  lemma {:induction false} ResultsAreTaken(r: Beginning, started: Joined, n: nat, results: nat -> TickResult)
    returns (j: Joined)
    requires r.Proper() && r.earlier == [] && r.capacity > 0 && Measures(results) && n <= W.Expected(r.upload)
    requires Leads(r, started, true) && started.asked.None? && Refusal.RunningWith(started.connection, r.upload, 0)
    requires Quiet(started.capture) && started.capture.capacity == r.capacity
    ensures Leads(r, j, true) && j.asked.None? && Executing(j.connection, r.upload, n) && Quiet(j.capture)
    ensures j.capture.capacity == r.capacity
    decreases n
  {
    if n == 0 {
      j := started;
    } else {
      var before := ResultsAreTaken(r, started, n - 1, results);
      j := NextResult(r, before, n - 1, results(n - 1));
    }
  }

  /** The run up to `n` results. */
  lemma RunUpTo(timeout: int, u: W.Upload, b: W.Builder, batchSize: nat, capacity: nat, n: nat,
      results: nat -> TickResult)
    returns (r: Beginning, j: Joined)
    requires u.startMode == Definition.HostCommand && W.Expected(u) > 0 && W.Belongs(b, u)
    requires batchSize > 0 && capacity > 0 && Measures(results) && n <= W.Expected(u)
    ensures r.Proper() && r.upload == u && r.builder == b && r.earlier == [] && r.capacity == capacity
    ensures Leads(r, j, true) && j.asked.None? && Executing(j.connection, u, n) && Quiet(j.capture)
    ensures j.capture.capacity == capacity
  {
    r := BoundBeginning(timeout, u, b, batchSize, capacity);
    var started := StartIsReached(r);
    j := ResultsAreTaken(r, started, n, results);
  }

  // ---------- Finalising ----------

  /** Acceptance stops, the request goes in, and the writer takes it. */
  function Closed(b: Builder): Builder {
    React(React(React(b, BeginFinalize(None)), QueueFinalize), WriterTakes(0))
  }

  lemma ClosingFinishes(b: Builder)
    requires Sound(b) && Healthy(b) && Quiet(b) && b.capacity > 0
    ensures var t := Closed(b);
      && t.writer.mode.Finished? && t.queue == [] && t.checked == b.checked && t.capacity == b.capacity
  {
    var stopped := React(b, BeginFinalize(None));
    ReactKeeps(b, BeginFinalize(None));
    FinalizeGoesIn(stopped);
    ReactKeeps(stopped, QueueFinalize);
    RunBuilder.FinalizeFinishes(React(stopped, QueueFinalize));
  }

  lemma LeadsToClosed(r: Beginning, j: Joined)
    requires r.Proper() && Leads(r, j, true)
    ensures Leads(r, j.(capture := Closed(j.capture)), j.asked.None?)
  {
    LeadsOn(r, j, true, Capture(BeginFinalize(None)), j.asked.None?);
    var stopped := Happen(j, Capture(BeginFinalize(None)), r.builder);
    LeadsOn(r, stopped, j.asked.None?, Capture(QueueFinalize), j.asked.None?);
    var asked := Happen(stopped, Capture(QueueFinalize), r.builder);
    LeadsOn(r, asked, j.asked.None?, Capture(WriterTakes(0)), j.asked.None?);
  }

  /**
   For every host-started upload with expected results and every builder that belongs to it there is a run without
   interruption in which all results arrive, RESULTS_COMPLETE is reported and the capture is finalised COMPLETE.
   */
  lemma EveryUploadCanBeCaptured(
      timeout: int, u: W.Upload, b: W.Builder, batchSize: nat, capacity: nat, results: nat -> TickResult)
    returns (r: Beginning, events: seq<JoinedEvent>)
    requires u.startMode == Definition.HostCommand && W.Expected(u) > 0 && W.Belongs(b, u)
    requires batchSize > 0 && capacity > 0 && Measures(results)
    ensures r.Proper() && r.upload == u && r.builder == b && r.earlier == []
    ensures AllSeparate(events) && Undemanding(events) && NeverInterrupts(r.Start(), events, r.builder)
    ensures var t := r.After(events);
      && t.connection.active == Some(u) && t.connection.phase == W.ResultsComplete
      && t.capture.writer.mode.Finished? && t.capture.writer.store.status == Complete
  {
    var j: Joined;
    r, j := RunUpTo(timeout, u, b, batchSize, capacity, W.Expected(u), results);
    LedMatches(r, j, true);
    ClosingFinishes(j.capture);
    LeadsToClosed(r, j);
    var t := j.(capture := Closed(j.capture));
    events :| LeadsBy(r, t, true, events);
    UndemandingRunNeverFails(r, events);
  }

  lemma InterruptedRun(r: Beginning, j: Joined, n: nat, result: TickResult) returns (t: Joined)
    requires r.Proper() && r.earlier == [] && r.capacity > 0 && Leads(r, j, true) && j.asked.None?
    requires Executing(j.connection, r.upload, n) && n < W.Expected(r.upload) && Quiet(j.capture) && result.tick == n
    requires j.capture.capacity == r.capacity
    ensures Leads(r, t, false) && Executing(t.connection, r.upload, n + 1)
    ensures t.capture.writer.mode.Finished? && TicksIn(t.capture.queue) == [n]
  {
    LedMatches(r, j, true);
    ResultIsAsked(j, r.upload, r.builder, n, result);
    LeadsOn(r, j, true, Result(r.upload.id, result, true), true);
    var asked := Happen(j, Result(r.upload.id, result, true), r.builder);
    LedMatches(r, asked, true);
    ClosingFinishes(asked.capture);
    LeadsToClosed(r, asked);
    var closed := asked.(capture := Closed(asked.capture));
    ResultIsPut(closed, result);
    ResultIsCounted(j.connection, r.upload, r.builder, n);
    LeadsOn(r, closed, false, PutResult, false);
    t := PutAsked(closed);
    TicksOfOne(Row(Tick(result)));
  }

  /**
   And there is one in which another thread's `finalize` comes between the check and the put of the last result: it is
   counted and RESULTS_COMPLETE is reported, but the capture lacks it and is INCOMPLETE.
   */
  lemma InterruptedResultIsLost(
      timeout: int, u: W.Upload, b: W.Builder, batchSize: nat, capacity: nat, results: nat -> TickResult)
    returns (r: Beginning, events: seq<JoinedEvent>)
    requires u.startMode == Definition.HostCommand && W.Expected(u) > 0 && W.Belongs(b, u)
    requires batchSize > 0 && capacity > 0 && Measures(results)
    ensures r.Proper() && r.upload == u && r.builder == b && r.earlier == []
    ensures AllSeparate(events) && Undemanding(events)
    ensures var t := r.After(events);
      && t.connection.active == Some(u) && t.connection.phase == W.ResultsComplete
      && t.capture.writer.mode.Finished? && t.capture.writer.store.status == Incomplete
      && t.capture.writer.store.ticks.Keys == Below(W.Expected(u) - 1)
  {
    var j: Joined;
    var n := W.Expected(u) - 1;
    r, j := RunUpTo(timeout, u, b, batchSize, capacity, n, results);
    var t := InterruptedRun(r, j, n, results(n));
    events :| LeadsBy(r, t, false, events);
    UndemandingRunNeverFails(r, events);
    CapturedTicksAreCounted(r, events);
  }
}
