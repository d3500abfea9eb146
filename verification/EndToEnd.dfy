/**
 The parts put together: from an accepted test definition to what the rig was told before START, and
 from the results the connection accepted to what an overall PASS means.
 */
module EndToEnd {
  import opened Basics
  import opened Definition
  import opened Compiler
  import opened Lowering
  import opened CaptureStore
  import Api
  import AssertionMeaning
  import CaptureTicks
  import Connection
  import JoinedRun
  import OutputMeaning
  import Workflow
  import WorkflowSafety
  import WorkflowTheorems
  import WorkflowWires
  import Writer = BatchWriter
  import opened Evidence
  import Verdicts
  import Handlers
  import Evaluator

  // ---------- From definition to START ----------

  /** What a rig makes of a message stream: its configuration, and the sparse messages in order. */
  function Received(wires: seq<Workflow.Wire>): seq<SparseMessage> {
    if wires == [] then []
    else
      var last := wires[|wires| - 1];
      Received(wires[..|wires| - 1]) + if last.TestInstruction? then [last.message] else []
  }

  /** The outputs a rig drives at a tick after receiving a stream that starts with a configuration. */
  function Drives(wires: seq<Workflow.Wire>, t: int): Outputs
    requires wires != [] && wires[0].TestConfiguration?
  {
    RigOutputs(wires[0].configuration, Received(wires), t)
  }

  lemma {:induction false} UploadIsReceived(u: Workflow.Upload, n: nat)
    requires 1 <= n <= Workflow.MessageCount(u)
    ensures Received(WorkflowWires.FirstWires(u, n)) == u.instructions[..n - 1]
  {
    var wires := WorkflowWires.FirstWires(u, n);
    assert wires[..n - 1] == WorkflowWires.FirstWires(u, n - 1);
    if n == 1 {
      assert wires[..0] == [];
    } else {
      UploadIsReceived(u, n - 1);
      assert u.instructions[..n - 1] == u.instructions[..n - 2] + [u.instructions[n - 2]];
    }
  }

  lemma WholeUploadDrivesTheTest(u: Workflow.Upload, d: TestDefinition, c: CompiledTest, t: nat)
    requires WellCompiled(d, c) && Connection.Carries(u, c)
    ensures var wires := WorkflowWires.FirstWires(u, Workflow.MessageCount(u));
      && wires != [] && wires[0].TestConfiguration?
      && DenseFrame(d, t).Some? && Drives(wires, t) == Render(DenseFrame(d, t).value)
      && OutputMeaning.Shows(d, t, Drives(wires, t))
  {
    UploadIsReceived(u, Workflow.MessageCount(u));
    assert u.instructions[..Workflow.MessageCount(u) - 1] == u.instructions;
    LoweringPreservesMeaning(d, c, t);
    OutputMeaning.RigShowsTheTest(d, c, t);
  }

  /** The messages sent for the wire ID of the START at log position `p`, before it. */
  function SentBefore(s: Workflow.State, p: nat): seq<Workflow.Wire>
    requires p < |s.log| && s.log[p].Submitted? && s.log[p].wire.StartControl?
  {
    WorkflowWires.WiresSent(s.log[..p], s.log[p].wire.id)
  }

  /** Every upload queued under this wire ID was built by the adapter for `c`. */
  ghost predicate OnlyCarries(s: Workflow.State, id: nat, c: CompiledTest) {
    forall u :: Workflow.Queued(u) in s.log && u.id == id ==> Connection.Carries(u, c)
  }

  /**
   The stimulus theorem. In every run of the connection, when START is submitted for an upload that the adapter
   built from a compiled test, the messages sent so far make the rig drive, at every tick, exactly the outputs
   of naively executing the user's own instruction list tick by tick.
   */
  lemma StartedRigDrivesTheTest(s: Workflow.State, p: nat, d: TestDefinition, c: CompiledTest, t: nat)
    requires Workflow.Reachable(s) && p < |s.log| && s.log[p].Submitted? && s.log[p].wire.StartControl?
    requires WellCompiled(d, c) && OnlyCarries(s, s.log[p].wire.id, c)
    ensures SentBefore(s, p) != [] && SentBefore(s, p)[0].TestConfiguration?
    ensures DenseFrame(d, t).Some? && Drives(SentBefore(s, p), t) == Render(DenseFrame(d, t).value)
    ensures OutputMeaning.Shows(d, t, Drives(SentBefore(s, p), t))
  {
    var id := s.log[p].wire.id;
    WorkflowWires.StartFollowsTheWholeUpload(s, p);
    var u: Workflow.Upload :| u.id == id && Workflow.Queued(u) in s.log[..p]
      && WorkflowWires.WiresSent(s.log[..p], id) == WorkflowWires.FirstWires(u, Workflow.MessageCount(u));
    assert Workflow.Queued(u) in s.log;
    WholeUploadDrivesTheTest(u, d, c, t);
  }

  /** Every test that the public builders let through and that compiles has such an upload, and is driven as written. */
  lemma AcceptedTestRunsAsWritten(s: Workflow.State, p: nat, d: TestDefinition, c: CompiledTest, t: nat)
    requires Workflow.Reachable(s) && p < |s.log| && s.log[p].Submitted? && s.log[p].wire.StartControl?
    requires Api.Accepted(d) && Compiles(d, Success(c)) && OnlyCarries(s, s.log[p].wire.id, c)
    ensures ConfigurationMessage(c).Some? && SparseInstructions(c).Some?
    ensures SentBefore(s, p) != [] && SentBefore(s, p)[0].TestConfiguration?
    ensures DenseFrame(d, t).Some? && Drives(SentBefore(s, p), t) == Render(DenseFrame(d, t).value)
    ensures OutputMeaning.Shows(d, t, Drives(SentBefore(s, p), t))
  {
    Api.AcceptanceImpliesLowering(d, Success(c));
    StartedRigDrivesTheTest(s, p, d, c, t);
  }

  // ---------- The same of a connection object ----------

  lemma {:induction false} UploadsWereQueuedByCallers(timeout: int, script: seq<Workflow.Action>, u: Workflow.Upload)
    returns (k: nat)
    requires Workflow.Queued(u) in Workflow.Run(Workflow.Initial(timeout), script).log
    ensures k < |script| && script[k].DoQueueUpload? && script[k].upload == u
    decreases |script|
  {
    var n := |script| - 1;
    var s := Workflow.Run(Workflow.Initial(timeout), script[..n]);
    var t := Workflow.Step(s, script[n]).state;
    if Workflow.Queued(u) in s.log {
      k := UploadsWereQueuedByCallers(timeout, script[..n], u);
    } else {
      WorkflowTheorems.StepAppends(s, script[n]);
      assert t.log == s.log + t.log[|s.log|..];
      assert Workflow.Queued(u) in t.log[|s.log|..];
      k := n;
    }
  }

  lemma {:induction false} QueuedEntryHasItsId(log: seq<Workflow.Entry>, u: Workflow.Upload)
    requires Workflow.Queued(u) in log
    ensures u.id in WorkflowSafety.QueuedIds(log)
  {
    var front := log[..|log| - 1];
    assert log == front + [log[|log| - 1]];
    if Workflow.Queued(u) in front {
      QueuedEntryHasItsId(front, u);
    }
  }

  lemma PrefixHasNoDuplicates(before: seq<nat>, all: seq<nat>)
    requires before <= all && WorkflowSafety.NoDuplicates(all)
    ensures WorkflowSafety.NoDuplicates(before)
  {
    assert forall i :: 0 <= i < |before| ==> before[i] == all[i];
  }

  lemma LastIdIsNew(before: seq<nat>, id: nat)
    requires WorkflowSafety.NoDuplicates(before + [id])
    ensures id !in before
  {
    var all := before + [id];
    assert forall i :: 0 <= i < |before| ==> all[i] == before[i] && all[i] != all[|before|];
  }

  lemma {:induction false} OneUploadPerId(log: seq<Workflow.Entry>, u: Workflow.Upload, v: Workflow.Upload)
    requires WorkflowSafety.NoDuplicates(WorkflowSafety.QueuedIds(log))
    requires Workflow.Queued(u) in log && Workflow.Queued(v) in log && u.id == v.id
    ensures u == v
  {
    var front, last := log[..|log| - 1], log[|log| - 1];
    var before := WorkflowSafety.QueuedIds(front);
    assert log == front + [last];
    if last.Queued? {
      LastIdIsNew(before, last.upload.id);
    }
    if Workflow.Queued(u) in front && Workflow.Queued(v) in front {
      PrefixHasNoDuplicates(before, WorkflowSafety.QueuedIds(log));
      OneUploadPerId(front, u, v);
    } else if Workflow.Queued(u) in front {
      QueuedEntryHasItsId(front, u);
    } else if Workflow.Queued(v) in front {
      QueuedEntryHasItsId(front, v);
    }
  }

  /**
   After these messages the rig drives, at every tick and for every definition that compiles to `c`, what the naive
   execution of the definition gives, which is what its instructions ask for.
   */
  ghost predicate DrivesAsWritten(wires: seq<Workflow.Wire>, c: CompiledTest) {
    && wires != [] && wires[0].TestConfiguration?
    && forall d, t: nat :: WellCompiled(d, c) ==>
         && DenseFrame(d, t).Some? && Drives(wires, t) == Render(DenseFrame(d, t).value)
         && OutputMeaning.Shows(d, t, Drives(wires, t))
  }

  lemma UploadDrivesAsWritten(u: Workflow.Upload, c: CompiledTest)
    requires Connection.Carries(u, c)
    ensures DrivesAsWritten(WorkflowWires.FirstWires(u, Workflow.MessageCount(u)), c)
  {
    UploadIsReceived(u, Workflow.MessageCount(u));
    forall d, t: nat | WellCompiled(d, c)
      ensures var wires := WorkflowWires.FirstWires(u, Workflow.MessageCount(u));
        && DenseFrame(d, t).Some? && Drives(wires, t) == Render(DenseFrame(d, t).value)
        && OutputMeaning.Shows(d, t, Drives(wires, t))
    {
      WholeUploadDrivesTheTest(u, d, c, t);
    }
  }

  /** The one upload that was queued under the wire ID of the START at `p`, and the messages sent for it. */
  lemma UploadOfStart(s: Workflow.State, p: nat) returns (u: Workflow.Upload)
    requires Workflow.Reachable(s) && p < |s.log| && s.log[p].Submitted? && s.log[p].wire.StartControl?
    ensures u.id == s.log[p].wire.id && Workflow.Queued(u) in s.log[..p]
    ensures SentBefore(s, p) == WorkflowWires.FirstWires(u, Workflow.MessageCount(u))
    ensures forall v: Workflow.Upload :: Workflow.Queued(v) in s.log && v.id == u.id ==> v == u
  {
    var id := s.log[p].wire.id;
    WorkflowTheorems.WireIdsAreNeverReused(s);
    WorkflowWires.StartFollowsTheWholeUpload(s, p);
    u :| u.id == id && Workflow.Queued(u) in s.log[..p]
      && WorkflowWires.WiresSent(s.log[..p], id) == WorkflowWires.FirstWires(u, Workflow.MessageCount(u));
    assert Workflow.Queued(u) in s.log;
    forall v: Workflow.Upload | Workflow.Queued(v) in s.log && v.id == u.id
      ensures v == u
    {
      OneUploadPerId(s.log, u, v);
    }
  }

  /**
   For every connection object: before it submitted START, exactly one upload of that wire ID was queued, by a
   `queue_upload` call that passed its compiled test, and the messages sent so far make the rig drive exactly what
   the test's definition asks for.
   */
  lemma StartedConnectionDrivesItsTest(connection: Connection.FixedIOProtocolConnection, p: nat) returns (k: nat)
    requires connection.Valid()
    requires var s := connection.View(); p < |s.log| && s.log[p].Submitted? && s.log[p].wire.StartControl?
    ensures k < |connection.script| && connection.script[k].DoQueueUpload? && k in connection.tests
    ensures var log, u := connection.View().log, connection.script[k].upload;
      && u.id == log[p].wire.id && Workflow.Queued(u) in log[..p]
      && forall v: Workflow.Upload :: Workflow.Queued(v) in log && v.id == u.id ==> v == u
    ensures DrivesAsWritten(SentBefore(connection.View(), p), connection.tests[k])
  {
    Connection.EveryConnectionIsSafe(connection);
    var u := UploadOfStart(connection.View(), p);
    k := UploadsWereQueuedByCallers(connection.timeout, connection.script, u);
    UploadDrivesAsWritten(u, connection.tests[k]);
  }

  // ---------- From results to verdict ----------

  /** A tick inside the run is not missing once the capture is complete. */
  lemma NothingIsMissing(a: Assertion, o: Handlers.Outcome, run: Database)
    requires AssertionMeaning.Fault(a).None? && Evaluator.Explains(o, a, run.ticks)
    requires run.ticks.Keys == Below(run.expected) && a.check.LastTick() < run.expected
    ensures o.missing == 0
  {
    var c, from, until := a.channel.index, a.check.FirstTick(), a.check.LastTick();
    if AssertionMeaning.ReadsDigital(a.check) {
      StoredTicksAreNotMissing(run, Handlers.DigitalReader(c), from, until);
    } else if AssertionMeaning.ReadsAnalogue(a.check) {
      StoredTicksAreNotMissing(run, Handlers.AnalogueReader(c), from, until);
    } else {
      StoredTicksAreNotMissing(run, Handlers.PwmReader(c), from, until);
    }
  }

  lemma StoredTicksAreNotMissing<T(!new)>(run: Database, read: TickResult -> Option<T>, from: int, until: int)
    requires run.ticks.Keys == Below(run.expected) && 0 <= from <= until < run.expected
    ensures Tally(IsMissing(), Items(run.ticks, read, from, until)) == 0
  {
    AnyTick(IsMissing<T>(), run.ticks, read, from, until);
    forall t | from <= t <= until
      ensures !IsMissing<T>()(SampleAt(run.ticks, read, t))
    {
      assert t in Below(run.expected);
    }
  }

  /** Evaluating a database that holds every expected tick. */
  lemma FullDatabaseIsConclusive(
      d: TestDefinition, c: CompiledTest, run: Database, report: Evaluator.Report, w: AssertionMeaning.World)
    requires WellCompiled(d, c) && c.expectedTickCount == run.expected
    requires run.ticks.Keys == Below(run.expected) && MetadataExact(run)
    requires Evaluator.Reports(report, run, c.assertions) && Evaluator.Completion(w, run.ticks)
    ensures forall k :: 0 <= k < |report.outcomes| ==> report.outcomes[k].missing == 0
    ensures report.verdict == Verdicts.Pass ==>
      c.assertions != [] && forall a :: a in d.assertions ==>
        AssertionMeaning.Fault(a).None? && AssertionMeaning.Holds(a, w)
  {
    forall k | 0 <= k < |report.outcomes|
      ensures report.outcomes[k].missing == 0
    {
      assert c.assertions[k] in c.assertions;
      NothingIsMissing(c.assertions[k], report.outcomes[k], run);
    }
    if report.verdict == Verdicts.Pass {
      Evaluator.OverallPassIsTrue(report, run, c.assertions, w);
    }
  }

  /**
   The evidence theorem. A capture opened for a compiled test and finalised COMPLETE, by whatever sequence of
   records, flushes and waits, leaves no assertion of that test with a missing tick; so an overall PASS says that
   every assertion is true however the unusable measurements are filled in.
   */
  lemma PassingACompleteCaptureIsConclusive(
      d: TestDefinition, c: CompiledTest, batchSize: nat, arrivals: seq<Writer.Arrival>, report: Evaluator.Report,
        w: AssertionMeaning.World)
    requires WellCompiled(d, c) && batchSize > 0
    requires var run := Writer.Run(Writer.Started(c.expectedTickCount, batchSize), arrivals).store;
      && run.status == Complete
      && Evaluator.Reports(report, run, c.assertions)
      && Evaluator.Completion(w, run.ticks)
    ensures forall k :: 0 <= k < |report.outcomes| ==> report.outcomes[k].missing == 0
    ensures report.verdict == Verdicts.Pass ==>
      c.assertions != [] && forall a :: a in d.assertions ==>
        AssertionMeaning.Fault(a).None? && AssertionMeaning.Holds(a, w)
  {
    var run := Writer.Run(Writer.Started(c.expectedTickCount, batchSize), arrivals).store;
    Writer.EveryRunKeeps(c.expectedTickCount, batchSize, arrivals);
    Writer.CompleteIsAlwaysJustified(c.expectedTickCount, batchSize, arrivals);
    FullDatabaseIsConclusive(d, c, run, report, w);
  }

  /**
   The whole way. A connection queues the upload of a compiled test with a capture opened for it and bound, and later
   reports RESULTS_COMPLETE for it, and the writer has finished, without interrupting a result. Then, whatever happened
   in between and whatever final status was asked for, evaluating the capture meets no missing tick, and an overall
   PASS says that every assertion of the definition is true however the unusable measurements are filled in. The
   capture is COMPLETE when no status was asked for and other producers left ordinals to the writer.
   */
  lemma CompletedRunIsConclusive(
      d: TestDefinition, c: CompiledTest, r: JoinedRun.Beginning, events: seq<JoinedRun.JoinedEvent>,
      report: Evaluator.Report, w: AssertionMeaning.World)
    requires WellCompiled(d, c) && r.Proper() && Connection.Carries(r.upload, c)
    requires JoinedRun.AllSeparate(events) && JoinedRun.NeverInterrupts(r.Start(), events, r.builder)
    requires var t := r.After(events);
      && t.connection.active == Some(r.upload) && t.connection.phase == Workflow.ResultsComplete
      && t.capture.writer.mode.Finished?
      && Evaluator.Reports(report, t.capture.writer.store, c.assertions)
      && Evaluator.Completion(w, t.capture.writer.store.ticks)
    ensures forall k :: 0 <= k < |report.outcomes| ==> report.outcomes[k].missing == 0
    ensures report.verdict == Verdicts.Pass ==>
      c.assertions != [] && forall a :: a in d.assertions ==>
        AssertionMeaning.Fault(a).None? && AssertionMeaning.Holds(a, w)
    ensures CaptureTicks.AllPlain(r.earlier) && JoinedRun.Undemanding(events) ==>
      r.After(events).capture.writer.store.status == Complete
  {
    JoinedRun.CompletedRunIsCaptured(r, events);
    FullDatabaseIsConclusive(d, c, r.After(events).capture.writer.store, report, w);
    if CaptureTicks.AllPlain(r.earlier) && JoinedRun.Undemanding(events) {
      JoinedRun.UndemandingRunNeverFails(r, events);
      JoinedRun.CompletedRunIsTimely(r, events);
    }
  }
}
