/**
 The connection and the captured-run builder together: what the connection counts is what the builder took, because a
 result is counted only after its submission went through. Between the check and the put of that submission the
 connection's thread is blocked, while other producers, `finalize` and the writer go on.
 */
module JoinedRun {
  import opened Basics
  import opened CaptureStore
  import opened BatchWriter
  import opened RunBuilder
  import opened CaptureTicks
  import W = Workflow
  import Safety = WorkflowSafety
  import Theorems = WorkflowTheorems

  /** `asked` is the result whose submission passed its check and is not through yet. */
  datatype Joined = Joined(connection: W.State, capture: Builder, asked: Option<TickResult>)

  /**
   A step of the connection other than a result, a result (which the adapter may be unable to read), another attempt to
   put the result that was asked for, or an event at the builder.
   */
  datatype JoinedEvent =
    | Reaction(action: W.Action)
    | Result(id: nat, result: TickResult, readable: bool)
    | PutResult
    | Capture(event: Event)

  /** The result is next in sequence and the builder `b` is the one that is asked to take it. */
  predicate Asks(s: W.State, id: nat, tick: nat, b: W.Builder) {
    && !s.closed && s.active.Some? && s.started && id == s.active.value.id && tick == s.nextResult
    && s.builder == Some(b)
  }

  function ActiveId(s: W.State): nat {
    if s.active.Some? then s.active.value.id else 0
  }

  function ResultMessage(id: nat, tick: nat, taken: bool): W.Action {
    W.DoMessage(W.TestResult(id, tick, taken))
  }

  /** The connection goes on after the builder took the result or refused it. */
  function Answered(s: W.State, tick: nat, taken: bool): W.State {
    W.Step(s, ResultMessage(ActiveId(s), tick, taken)).state
  }

  /** A result arrives: the connection checks it, and the builder checks its submission. */
  function Ask(j: Joined, id: nat, result: TickResult, readable: bool, b: W.Builder): Joined {
    if !Asks(j.connection, id, result.tick, b) || !readable then
      j.(connection := W.Step(j.connection, ResultMessage(id, result.tick, readable)).state)
    else
      var (after, reply) := PassCheck(j.capture, CONNECTION, Row(Tick(result)));
      if reply.Passed? then j.(capture := after, asked := Some(result))
      else j.(connection := Answered(j.connection, result.tick, false))
  }

  /** One attempt to put it; on a full queue the submission goes back to its check. */
  function PutAsked(j: Joined): Joined {
    if j.asked.None? then j
    else
      var result := j.asked.value;
      var (after, reply) := PutPassed(j.capture, CONNECTION);
      if reply.Queued? then Joined(Answered(j.connection, result.tick, true), after, None)
      else
        var back := GiveUpPut(j.capture, CONNECTION);
        var (again, second) := PassCheck(back, CONNECTION, Row(Tick(result)));
        if second.Passed? then j.(capture := again)
        else Joined(Answered(j.connection, result.tick, false), back, None)
  }

  function Happen(j: Joined, e: JoinedEvent, b: W.Builder): Joined {
    match e
    case Reaction(a) => if j.asked.Some? then j else j.(connection := W.Step(j.connection, a).state)
    case Result(id, result, readable) => if j.asked.Some? then j else Ask(j, id, result, readable, b)
    case PutResult => PutAsked(j)
    case Capture(event) => j.(capture := React(j.capture, event))
  }

  function HappenAll(j: Joined, events: seq<JoinedEvent>, b: W.Builder): Joined
    decreases |events|
  {
    if events == [] then j else Happen(HappenAll(j, events[..|events| - 1], b), events[|events| - 1], b)
  }

  /** Results reach the builder through the connection alone. */
  predicate Separate(e: JoinedEvent) {
    match e
    case Reaction(a) => !(a.DoMessage? && a.message.TestResult?)
    case Capture(event) => Foreign(event)
    case _ => true
  }

  ghost predicate AllSeparate(events: seq<JoinedEvent>) {
    forall e :: e in events ==> Separate(e)
  }

  /** Other producers leave ordinals to the writer, and `finalize` asks for no status. */
  ghost predicate Undemanding(events: seq<JoinedEvent>) {
    forall e :: e in events && e.Capture? ==> Plain(e.event)
  }

  /** `finalize` stops acceptance while the submission of a result is between its check and its put. */
  predicate InterruptsAt(j: Joined, events: seq<JoinedEvent>, b: W.Builder, k: nat)
    requires k < |events|
  {
    && events[k].Capture? && events[k].event.BeginFinalize?
    && HappenAll(j, events[..k], b).asked.Some?
  }

  ghost predicate NeverInterrupts(j: Joined, events: seq<JoinedEvent>, b: W.Builder) {
    forall k :: 0 <= k < |events| ==> !InterruptsAt(j, events, b, k)
  }

  // ---------- One event ----------

  /** The upload `u` is active with the builder `b`, whose capture fits the results counted. */
  ghost predicate Matched(j: Joined, u: W.Upload, b: W.Builder) {
    && Safety.Inv(j.connection) && j.connection.active == Some(u) && j.connection.builder == Some(b)
    && Fits(j.capture, j.connection.nextResult, j.asked)
    && j.capture.writer.store.expected == W.Expected(u) && j.connection.nextResult <= W.Expected(u)
    && (j.asked.Some? ==> Asks(j.connection, u.id, j.asked.value.tick, b))
  }

  /** Once acceptance has stopped, no result is in between and none came late. */
  predicate Prompt(j: Joined) {
    j.capture.accepting || (j.asked.None? && OnTime(j.capture))
  }

  lemma {:induction false} SameResults(log: seq<W.Entry>, more: seq<W.Entry>, id: nat)
    requires log <= more && forall p :: |log| <= p < |more| ==> !more[p].ResultAccepted?
    ensures Safety.ResultTicks(more, id) == Safety.ResultTicks(log, id)
    decreases |more|
  {
    if more != log {
      SameResults(log, more[..|more| - 1], id);
    }
  }

  lemma OtherStepsCountNothing(s: W.State, a: W.Action, u: W.Upload)
    requires Safety.Inv(s) && s.active == Some(u) && W.Step(s, a).state.active == Some(u)
    requires !(a.DoMessage? && a.message.TestResult?)
    ensures W.Step(s, a).state.nextResult == s.nextResult
  {
    Safety.StepKeeps(s, a);
    Theorems.StepAppends(s, a);
    SameResults(s.log, W.Step(s, a).state.log, u.id);
    assert |Safety.Count(s.nextResult)| == |Safety.Count(W.Step(s, a).state.nextResult)|;
  }

  lemma ReactionMatches(j: Joined, u: W.Upload, b: W.Builder, a: W.Action)
    requires Matched(j, u, b) && Separate(Reaction(a)) && Happen(j, Reaction(a), b).connection.active == Some(u)
    ensures Matched(Happen(j, Reaction(a), b), u, b)
  {
    if j.asked.None? {
      Safety.StepKeeps(j.connection, a);
      OtherStepsCountNothing(j.connection, a, u);
      Theorems.BoundBuilderStays(j.connection, a, b);
    }
  }

  /** A result that is not asked of the builder, or that it does not take, is not counted. */
  lemma RefusedResultIsNotCounted(s: W.State, u: W.Upload, b: W.Builder, id: nat, tick: nat, taken: bool)
    requires s.active == Some(u) && s.builder == Some(b) && (Asks(s, id, tick, b) ==> !taken)
    ensures var t := W.Step(s, ResultMessage(id, tick, taken)).state;
      t.nextResult == s.nextResult && t.active == s.active && t.builder == s.builder
  {
  }

  lemma TakenResultIsCounted(s: W.State, u: W.Upload, b: W.Builder, id: nat, tick: nat)
    requires s.active == Some(u) && Asks(s, id, tick, b)
    ensures var t := W.Step(s, ResultMessage(id, tick, true)).state;
      t.nextResult == s.nextResult + 1 && t.active == s.active && t.builder == s.builder
  {
  }

  lemma AskMatches(j: Joined, u: W.Upload, b: W.Builder, id: nat, result: TickResult, readable: bool)
    requires Matched(j, u, b) && j.asked.None?
    ensures Matched(Ask(j, id, result, readable, b), u, b)
    ensures Prompt(j) ==> Prompt(Ask(j, id, result, readable, b))
  {
    var s, tick := j.connection, result.tick;
    if !Asks(s, id, tick, b) || !readable {
      Safety.StepKeeps(s, ResultMessage(id, tick, readable));
      RefusedResultIsNotCounted(s, u, b, id, tick, readable);
    } else if PassCheck(j.capture, CONNECTION, Row(Tick(result))).1.Passed? {
      ConnectionCheckFits(j.capture, s.nextResult, result);
    } else {
      Safety.StepKeeps(s, ResultMessage(id, tick, false));
      RefusedResultIsNotCounted(s, u, b, id, tick, false);
    }
  }

  /** The connection's side of a result that the builder took or refused. */
  lemma AnsweredSide(s: W.State, u: W.Upload, b: W.Builder, tick: nat, taken: bool)
    requires Safety.Inv(s) && s.active == Some(u) && s.builder == Some(b) && Asks(s, u.id, tick, b)
    ensures var t := Answered(s, tick, taken);
      && Safety.Inv(t) && t.active == Some(u) && t.builder == Some(b)
      && t.nextResult == s.nextResult + if taken then 1 else 0
  {
    Safety.StepKeeps(s, ResultMessage(u.id, tick, taken));
    if taken {
      TakenResultIsCounted(s, u, b, u.id, tick);
    } else {
      RefusedResultIsNotCounted(s, u, b, u.id, tick, false);
    }
  }

  /** The connection's side of a joined state, with this many results counted. */
  ghost predicate Counting(s: W.State, u: W.Upload, b: W.Builder, n: nat) {
    Safety.Inv(s) && s.active == Some(u) && s.builder == Some(b) && s.nextResult == n
  }

  lemma PutFits(j: Joined, s: W.State, u: W.Upload, b: W.Builder)
    requires Matched(j, u, b) && j.asked.Some? && PutPassed(j.capture, CONNECTION).1.Queued?
    requires Counting(s, u, b, j.connection.nextResult + 1)
    ensures var t := Joined(s, PutPassed(j.capture, CONNECTION).0, None);
      Matched(t, u, b) && (Prompt(j) ==> Prompt(t))
  {
    ConnectionPutFits(j.capture, j.connection.nextResult, j.asked.value);
  }

  lemma QueuedResultMatches(j: Joined, u: W.Upload, b: W.Builder)
    requires Matched(j, u, b) && j.asked.Some? && PutPassed(j.capture, CONNECTION).1.Queued?
    ensures var t := Joined(Answered(j.connection, j.asked.value.tick, true), PutPassed(j.capture, CONNECTION).0, None);
      Matched(t, u, b) && (Prompt(j) ==> Prompt(t))
  {
    AnsweredSide(j.connection, u, b, j.asked.value.tick, true);
    PutFits(j, Answered(j.connection, j.asked.value.tick, true), u, b);
  }

  lemma RefusedFits(j: Joined, s: W.State, u: W.Upload, b: W.Builder)
    requires Matched(j, u, b) && j.asked.Some? && !PutPassed(j.capture, CONNECTION).1.Queued?
    requires Counting(s, u, b, j.connection.nextResult)
    requires !PassCheck(GiveUpPut(j.capture, CONNECTION), CONNECTION, Row(Tick(j.asked.value))).1.Passed?
    ensures var t := Joined(s, GiveUpPut(j.capture, CONNECTION), None);
      Matched(t, u, b) && (Prompt(j) ==> Prompt(t))
  {
    GivingUpFits(j.capture, j.connection.nextResult, j.asked.value);
  }

  lemma CheckedAgainFits(j: Joined, u: W.Upload, b: W.Builder)
    requires Matched(j, u, b) && j.asked.Some? && !PutPassed(j.capture, CONNECTION).1.Queued?
    requires PassCheck(GiveUpPut(j.capture, CONNECTION), CONNECTION, Row(Tick(j.asked.value))).1.Passed?
    ensures Matched(PutAsked(j), u, b) && (Prompt(j) ==> Prompt(PutAsked(j)))
  {
    var result := j.asked.value;
    GivingUpFits(j.capture, j.connection.nextResult, result);
    ConnectionCheckFits(GiveUpPut(j.capture, CONNECTION), j.connection.nextResult, result);
  }

  lemma RefusedPutMatches(j: Joined, u: W.Upload, b: W.Builder)
    requires Matched(j, u, b) && j.asked.Some? && !PutPassed(j.capture, CONNECTION).1.Queued?
    ensures Matched(PutAsked(j), u, b) && (Prompt(j) ==> Prompt(PutAsked(j)))
  {
    var tick := j.asked.value.tick;
    if PassCheck(GiveUpPut(j.capture, CONNECTION), CONNECTION, Row(Tick(j.asked.value))).1.Passed? {
      CheckedAgainFits(j, u, b);
    } else {
      AnsweredSide(j.connection, u, b, tick, false);
      RefusedFits(j, Answered(j.connection, tick, false), u, b);
    }
  }

  lemma CaptureMatches(j: Joined, u: W.Upload, b: W.Builder, e: Event)
    requires Matched(j, u, b) && Foreign(e)
    ensures var t := j.(capture := React(j.capture, e));
      Matched(t, u, b) && (Prompt(j) && !(e.BeginFinalize? && j.asked.Some?) ==> Prompt(t))
  {
    EventFits(j.capture, j.connection.nextResult, j.asked, e);
    if Prompt(j) && !(e.BeginFinalize? && j.asked.Some?) {
      StaysPrompt(j.capture, j.connection.nextResult, j.asked, e);
    }
  }

  lemma JoinMatches(j: Joined, u: W.Upload, b: W.Builder, e: JoinedEvent)
    requires Matched(j, u, b) && Separate(e) && Happen(j, e, b).connection.active == Some(u)
    ensures Matched(Happen(j, e, b), u, b)
    ensures Prompt(j) && !(e.Capture? && e.event.BeginFinalize? && j.asked.Some?) ==> Prompt(Happen(j, e, b))
  {
    match e
    case Reaction(a) => ReactionMatches(j, u, b, a);
    case Result(id, result, readable) =>
      if j.asked.None? { AskMatches(j, u, b, id, result, readable); }
    case PutResult =>
      if j.asked.Some? {
        if PutPassed(j.capture, CONNECTION).1.Queued? {
          QueuedResultMatches(j, u, b);
        } else {
          RefusedPutMatches(j, u, b);
        }
      }
    case Capture(event) => CaptureMatches(j, u, b, event);
  }

  lemma JoinIsHealthy(j: Joined, u: W.Upload, b: W.Builder, e: JoinedEvent)
    requires Matched(j, u, b) && Healthy(j.capture) && (e.Capture? ==> Plain(e.event))
    ensures Healthy(Happen(j, e, b).capture)
  {
    match e
    case Reaction(_) =>
    case Result(_, _, _) =>
    case PutResult => PutIsHealthy(j.capture, CONNECTION);
    case Capture(event) => EventIsHealthy(j.capture, j.connection.nextResult, event);
  }

  // ---------- Whole runs ----------

  /** Every event moves the connection by one step at most. */
  lemma JoinSteps(j: Joined, e: JoinedEvent, b: W.Builder) returns (a: Option<W.Action>)
    ensures Happen(j, e, b).connection == if a.Some? then W.Step(j.connection, a.value).state else j.connection
  {
    a := None;
    match e
    case Reaction(action) =>
      if j.asked.None? { a := Some(action); }
    case Capture(_) =>
    case Result(id, result, readable) =>
      if j.asked.None? {
        if !Asks(j.connection, id, result.tick, b) || !readable {
          a := Some(ResultMessage(id, result.tick, readable));
        } else if !PassCheck(j.capture, CONNECTION, Row(Tick(result))).1.Passed? {
          a := Some(ResultMessage(ActiveId(j.connection), result.tick, false));
        }
      }
    case PutResult =>
      if j.asked.Some? {
        var tick := j.asked.value.tick;
        if PutPassed(j.capture, CONNECTION).1.Queued? {
          a := Some(ResultMessage(ActiveId(j.connection), tick, true));
        } else if !PassCheck(GiveUpPut(j.capture, CONNECTION), CONNECTION, Row(Tick(j.asked.value))).1.Passed? {
          a := Some(ResultMessage(ActiveId(j.connection), tick, false));
        }
      }
  }

  /** The connection's side of a joined run stays sound, and its log grows. */
  lemma {:induction false} ConnectionSide(j: Joined, events: seq<JoinedEvent>, b: W.Builder)
    requires Safety.Inv(j.connection)
    ensures var s := HappenAll(j, events, b).connection; Safety.Inv(s) && j.connection.log <= s.log
    decreases |events|
  {
    if events != [] {
      var n := |events| - 1;
      ConnectionSide(j, events[..n], b);
      var x := HappenAll(j, events[..n], b);
      var a := JoinSteps(x, events[n], b);
      if a.Some? {
        Safety.StepKeeps(x.connection, a.value);
        Theorems.StepAppends(x.connection, a.value);
      }
    }
  }

  lemma StaysActiveBefore(j: Joined, e: JoinedEvent, u: W.Upload, b: W.Builder)
    requires Safety.Inv(j.connection) && u.id in Safety.QueuedIds(j.connection.log)
    requires Happen(j, e, b).connection.active == Some(u)
    ensures j.connection.active == Some(u)
  {
    var a := JoinSteps(j, e, b);
    if a.Some? {
      Theorems.StaysActive(j.connection, a.value, u);
    }
  }

  lemma ActiveBeforeLast(j: Joined, events: seq<JoinedEvent>, n: nat, u: W.Upload, b: W.Builder)
    requires |events| == n + 1 && Matched(j, u, b) && HappenAll(j, events, b).connection.active == Some(u)
    ensures HappenAll(j, events[..n], b).connection.active == Some(u)
  {
    var x := HappenAll(j, events[..n], b);
    ConnectionSide(j, events[..n], b);
    Theorems.QueuedStays(j.connection, x.connection, u.id);
    StaysActiveBefore(x, events[n], u, b);
  }

  lemma PrefixInterruptsAlike(j: Joined, events: seq<JoinedEvent>, n: nat, b: W.Builder)
    requires n <= |events|
    ensures forall k :: 0 <= k < n ==> (InterruptsAt(j, events[..n], b, k) <==> InterruptsAt(j, events, b, k))
  {
    assert forall k :: 0 <= k < n ==> events[..n][..k] == events[..k];
  }

  lemma LastDoesNotInterrupt(j: Joined, events: seq<JoinedEvent>, b: W.Builder)
    requires events != []
    ensures var n := |events| - 1;
      NeverInterrupts(j, events, b) ==> NeverInterrupts(j, events[..n], b) && !InterruptsAt(j, events, b, n)
  {
    PrefixInterruptsAlike(j, events, |events| - 1, b);
  }

  lemma {:induction false} JoinAllMatches(j: Joined, events: seq<JoinedEvent>, u: W.Upload, b: W.Builder)
    requires Matched(j, u, b) && AllSeparate(events) && HappenAll(j, events, b).connection.active == Some(u)
    ensures Matched(HappenAll(j, events, b), u, b)
    ensures Prompt(j) && NeverInterrupts(j, events, b) ==> Prompt(HappenAll(j, events, b))
    decreases |events|
  {
    if events != [] {
      var n := |events| - 1;
      ActiveBeforeLast(j, events, n, u, b);
      assert events[n] in events && forall e :: e in events[..n] ==> e in events;
      JoinAllMatches(j, events[..n], u, b);
      LastDoesNotInterrupt(j, events, b);
      JoinMatches(HappenAll(j, events[..n], b), u, b, events[n]);
    }
  }

  lemma {:induction false} JoinAllIsHealthy(j: Joined, events: seq<JoinedEvent>, u: W.Upload, b: W.Builder)
    requires Matched(j, u, b) && AllSeparate(events) && HappenAll(j, events, b).connection.active == Some(u)
    requires Healthy(j.capture) && Undemanding(events)
    ensures Healthy(HappenAll(j, events, b).capture)
    decreases |events|
  {
    if events != [] {
      var n := |events| - 1;
      ActiveBeforeLast(j, events, n, u, b);
      assert events[n] in events && forall e :: e in events[..n] ==> e in events;
      JoinAllIsHealthy(j, events[..n], u, b);
      JoinAllMatches(j, events[..n], u, b);
      JoinIsHealthy(HappenAll(j, events[..n], b), u, b, events[n]);
    }
  }

  // ---------- From queueing to the finished capture ----------

  /** What a joined run starts from: an upload that the connection can queue, and a capture opened for it and bound. */
  datatype Beginning = Beginning(
    state: W.State,
    upload: W.Upload,
    builder: W.Builder,
    established: bool,
    batchSize: nat,
    capacity: nat,
    earlier: seq<Event>)
  {
    /** No tick was submitted to the capture yet; anything else may have been. */
    ghost predicate Proper() {
      && W.Reachable(state) && !state.closed && state.builder == Some(builder)
      && W.QueueUpload(state, upload, established).raised.None?
      && W.Expected(upload) > 0 && batchSize > 0 && AllForeign(earlier)
    }

    /** The joined state right after the upload was queued. */
    function Start(): Joined
      requires W.Expected(upload) > 0
    {
      Joined(W.QueueUpload(state, upload, established).state,
             Perform(Opened(W.Expected(upload), batchSize, capacity), earlier), None)
    }

    function After(events: seq<JoinedEvent>): Joined
      requires W.Expected(upload) > 0
    {
      HappenAll(Start(), events, builder)
    }
  }

  lemma StartMatches(r: Beginning)
    requires r.Proper()
    ensures Matched(r.Start(), r.upload, r.builder) && Prompt(r.Start())
  {
    Safety.ReachableStatesAreSound(r.state);
    Safety.QueueUploadKeeps(r.state, r.upload, r.established);
    Theorems.QueueingActivates(r.state, r.upload, r.established);
    NoTicksYet(W.Expected(r.upload), r.batchSize, r.capacity, r.earlier);
  }

  /**
   Whatever other producers, `finalize` and the writer do, as long as the upload is active: the connection never counts
   more results than expected, so in RESULTS_COMPLETE it has counted exactly the expected ones; the ticks that the
   capture accepted are the ticks that the connection counted, in order; a finished writer has stored exactly those,
   except that the last one is missing if its submission was put behind the finalize request; and a status of COMPLETE,
   however requested, means that every expected tick is stored.
   */
  lemma CapturedTicksAreCounted(r: Beginning, events: seq<JoinedEvent>)
    requires r.Proper() && AllSeparate(events) && r.After(events).connection.active == Some(r.upload)
    ensures var t := r.After(events);
      var n, writer, late := t.connection.nextResult, t.capture.writer, |TicksIn(t.capture.queue)|;
      && n <= W.Expected(r.upload) && (t.connection.phase == W.ResultsComplete ==> n == W.Expected(r.upload))
      && TickNumbers(t.capture.accepted) == Safety.ResultTicks(t.connection.log, r.upload.id) == Safety.Count(n)
      && (writer.mode.Finished? ==>
            && late <= 1 && late <= n && writer.store.ticks.Keys == Below(n - late)
            && (writer.store.status == Complete ==> writer.store.ticks.Keys == Below(W.Expected(r.upload))))
  {
    StartMatches(r);
    JoinAllMatches(r.Start(), events, r.upload, r.builder);
    var t := r.After(events);
    CountedMeansAccepted(t, r.upload, r.builder);
    if t.capture.writer.mode.Finished? {
      FinishedMeansStored(t, r.upload, r.builder);
    }
  }

  lemma FinishedMeansStored(j: Joined, u: W.Upload, b: W.Builder)
    requires Matched(j, u, b) && j.capture.writer.mode.Finished? && W.Expected(u) > 0
    ensures var n, store, late := j.connection.nextResult, j.capture.writer.store, |TicksIn(j.capture.queue)|;
      && late <= 1 && late <= n && store.ticks.Keys == Below(n - late)
      && (store.status == Complete ==> store.ticks.Keys == Below(W.Expected(u)))
  {
    FinishedStatus(j.capture, j.connection.nextResult, j.asked);
  }

  lemma CountedMeansAccepted(j: Joined, u: W.Upload, b: W.Builder)
    requires Matched(j, u, b)
    ensures j.connection.phase == W.ResultsComplete ==> j.connection.nextResult == W.Expected(u)
    ensures TickNumbers(j.capture.accepted) == Safety.ResultTicks(j.connection.log, u.id)
    ensures TickNumbers(j.capture.accepted) == Safety.Count(j.connection.nextResult)
  {
  }

  /**
   The capture theorem. If `finalize` never stops acceptance while a result is between its check and its put, a
   finished writer has stored exactly the ticks that the connection counted; so after RESULTS_COMPLETE every expected
   one.
   */
  lemma CompletedRunIsCaptured(r: Beginning, events: seq<JoinedEvent>)
    requires r.Proper() && AllSeparate(events) && r.After(events).connection.active == Some(r.upload)
    requires NeverInterrupts(r.Start(), events, r.builder)
    requires r.After(events).capture.writer.mode.Finished?
    ensures var t := r.After(events);
      var n, store := t.connection.nextResult, t.capture.writer.store;
      && store.ticks.Keys == Below(n) && store.expected == W.Expected(r.upload) && MetadataExact(store)
      && (store.status == Complete ==> n == W.Expected(r.upload))
      && (t.connection.phase == W.ResultsComplete ==> store.ticks.Keys == Below(store.expected))
  {
    StartMatches(r);
    JoinAllMatches(r.Start(), events, r.upload, r.builder);
    var t := r.After(events);
    FinishedStatus(t.capture, t.connection.nextResult, t.asked);
    AcceptingIsNotFinished(t.capture);
  }

  /** And no tick was left over. */
  lemma CompletedRunIsTimely(r: Beginning, events: seq<JoinedEvent>)
    requires r.Proper() && AllSeparate(events) && r.After(events).connection.active == Some(r.upload)
    requires NeverInterrupts(r.Start(), events, r.builder)
    requires r.After(events).capture.writer.mode.Finished?
    ensures var t := r.After(events);
      TicksIn(t.capture.queue) == []
        && (t.connection.phase == W.ResultsComplete ==> t.connection.nextResult == W.Expected(r.upload))
  {
    StartMatches(r);
    JoinAllMatches(r.Start(), events, r.upload, r.builder);
    AcceptingIsNotFinished(r.After(events).capture);
    CapturedTicksAreCounted(r, events);
  }

  lemma AcceptingIsNotFinished(b: Builder)
    requires Sound(b) && b.writer.mode.Finished?
    ensures !b.accepting
  {
  }

  /**
   When other producers leave ordinals to the writer and no status is asked for, no batch ever fails, and the status is
   COMPLETE exactly when every expected tick was counted and none of them came late.
   */
  lemma UndemandingRunNeverFails(r: Beginning, events: seq<JoinedEvent>)
    requires r.Proper() && AllSeparate(events) && r.After(events).connection.active == Some(r.upload)
    requires AllPlain(r.earlier) && Undemanding(events)
    ensures var t := r.After(events);
      && !t.capture.writer.mode.Failed?
      && (t.capture.writer.mode.Finished? ==>
            t.capture.writer.store.status ==
              if t.connection.nextResult == W.Expected(r.upload) && TicksIn(t.capture.queue) == []
              then Complete else Incomplete)
  {
    StartMatches(r);
    HealthyBefore(W.Expected(r.upload), r.batchSize, r.capacity, r.earlier);
    JoinAllMatches(r.Start(), events, r.upload, r.builder);
    JoinAllIsHealthy(r.Start(), events, r.upload, r.builder);
    var t := r.After(events);
    if t.capture.writer.mode.Finished? {
      FinishedStatus(t.capture, t.connection.nextResult, t.asked);
    }
  }
}
