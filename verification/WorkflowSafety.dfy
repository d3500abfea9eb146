/**
 What every run of the protocol workflow keeps, whatever the caller and the environment do and
 however many errors are raised on the way: the start gate, wire-ID freshness, result order,
 conservation of upload messages and of serial bytes.
 */
module WorkflowSafety {
  import opened Basics
  import opened Workflow

  // ---------- Properties of the log ----------

  /** The wire IDs queued so far, in order. */
  function QueuedIds(log: seq<Entry>): seq<nat> {
    if log == [] then []
    else
      var last := log[|log| - 1];
      QueuedIds(log[..|log| - 1]) + if last.Queued? then [last.upload.id] else []
  }

  /** The ticks of the results accepted for one wire ID, in order. */
  function ResultTicks(log: seq<Entry>, id: nat): seq<int> {
    if log == [] then []
    else
      var last := log[|log| - 1];
      ResultTicks(log[..|log| - 1], id) + if last.ResultAccepted? && last.id == id then [last.tick] else []
  }

  /** A positive answer to `request`. */
  predicate Affirms(e: Entry, request: Request) {
    e.Answered? && e.positive && e.request == request
  }

  predicate NegativeUploadAnswer(e: Entry) {
    e.Answered? && !e.positive && (IsUploadKind(e.request.kind) || e.request.kind == CompleteTest)
  }

  /** No upload message was refused, the workflow did not fail, and the upload was neither replaced nor retired. */
  ghost predicate Clean(log: seq<Entry>, from: nat, to: nat)
    requires to <= |log|
  {
    forall p :: from < p < to ==>
      !NegativeUploadAnswer(log[p]) && !log[p].WorkflowFailed? && !log[p].Queued? && !log[p].Retired?
  }

  function ValidationRequest(u: Upload): Request {
    Request(CompleteTest, Some(u.id), None)
  }

  function StartRequest(id: nat): Request {
    Request(Start, Some(id), None)
  }

  /**
   The trail is a true account of the upload: message `i` stands in the log as submitted, confirmed
   and positively answered at the recorded positions, and was confirmed and answered before any later
   message was submitted or answered.
   */
  ghost predicate Recorded(log: seq<Entry>, t: Trail, u: Upload) {
    && t.queued < |log| && log[t.queued] == Queued(u)
    && |t.confirmed| <= |t.submitted| <= MessageCount(u) && |t.accepted| <= MessageCount(u)
    && (forall i :: 0 <= i < |t.submitted| ==>
          t.queued < t.submitted[i] < |log| && log[t.submitted[i]] == Submitted(UploadRequest(u, i), UploadWire(u, i)))
    && (forall i :: 0 <= i < |t.confirmed| ==>
          t.submitted[i] < t.confirmed[i] < |log| && log[t.confirmed[i]] == Confirmed(UploadRequest(u, i)))
    && (forall i :: 0 <= i < |t.accepted| ==>
          t.queued < t.accepted[i] < |log| && Affirms(log[t.accepted[i]], UploadRequest(u, i)))
    && InOrder(t)
  }

  ghost predicate InOrder(t: Trail) {
    Interleaved(t.submitted, t.confirmed, t.accepted)
  }

  ghost predicate Interleaved(submitted: seq<nat>, confirmed: seq<nat>, accepted: seq<nat>) {
    && (forall i, j :: 0 <= i < j < |submitted| ==>
          i < |confirmed| && i < |accepted| && confirmed[i] < submitted[j] && accepted[i] < submitted[j])
    && (forall i, j :: 0 <= i < j < |accepted| ==>
          i < |confirmed| && confirmed[i] < accepted[j] && accepted[i] < accepted[j])
  }

  ghost predicate AllDelivered(t: Trail, u: Upload) {
    |t.submitted| == |t.confirmed| == |t.accepted| == MessageCount(u)
  }

  /** Whole-test validation was accepted after the last message was confirmed and answered. */
  ghost predicate ValidatedAt(log: seq<Entry>, t: Trail, u: Upload, v: nat) {
    && AllDelivered(t, u)
    && v < |log| && Affirms(log[v], ValidationRequest(u))
    && t.confirmed[MessageCount(u) - 1] < v && t.accepted[MessageCount(u) - 1] < v
  }

  /** The START submitted at position `p` is entitled: its upload was delivered, accepted and validated before. */
  ghost predicate StartGated(log: seq<Entry>, p: nat, id: nat)
    requires p <= |log|
  {
    exists t: Trail, u: Upload, v: nat ::
      && u.id == id
      && Recorded(log, t, u)
      && ValidatedAt(log, t, u, v) && v < p
      && Clean(log, t.queued, p)
  }

  ghost predicate EveryStartGated(log: seq<Entry>) {
    forall p :: 0 <= p < |log| && log[p].Submitted? && log[p].wire.StartControl? ==>
      log[p].request == StartRequest(log[p].wire.id) && StartGated(log, p, log[p].wire.id)
  }

  /** Every accepted result is preceded by a positive answer to a START for the same wire ID. */
  ghost predicate EveryResultAfterStart(log: seq<Entry>) {
    forall p :: 0 <= p < |log| && log[p].ResultAccepted? ==>
      exists q :: 0 <= q < p && Affirms(log[q], StartRequest(log[p].id))
  }

  ghost predicate EveryResultQueued(log: seq<Entry>) {
    forall p :: 0 <= p < |log| && log[p].ResultAccepted? ==> log[p].id in QueuedIds(log)
  }

  ghost predicate NoDuplicates(s: seq<nat>) {
    forall i, j :: 0 <= i < j < |s| ==> s[i] != s[j]
  }

  // ---------- The invariant ----------

  ghost predicate IdsFresh(s: State) {
    && NoDuplicates(QueuedIds(s.log))
    && (forall id :: id in QueuedIds(s.log) <==> id in s.retired || (s.active.Some? && s.active.value.id == id))
    && (s.active.Some? ==> s.active.value.id !in s.retired)
  }

  predicate Resting(p: Phase) {
    p in {Connecting, Ready, ReadyToStart, Running, ResultsComplete, Aborted, Failed}
  }

  function PendingKind(s: State): Option<Kind> {
    if s.pending.Some? then Some(s.pending.value.request.kind) else None
  }

  predicate UploadPending(s: State) {
    s.pending.Some? && IsUploadKind(s.pending.value.request.kind)
  }

  ghost predicate NoFailure(s: State)
  {
    forall p :: s.trail.queued < p < |s.log| ==> !s.log[p].WorkflowFailed?
  }

  /** No close has raised since the upload was queued. */
  ghost predicate NoBrokenClose(s: State)
  {
    forall p :: s.trail.queued < p < |s.log| ==> !s.log[p].CloseRaised?
  }

  /** Every close that raised found the workflow in a resting phase. */
  ghost predicate CalmCloses(log: seq<Entry>) {
    forall p :: 0 <= p < |log| && log[p].CloseRaised? ==> Resting(log[p].phase)
  }

  ghost predicate NoRefusal(s: State)
  {
    forall p :: s.trail.queued < p < |s.log| ==> !NegativeUploadAnswer(s.log[p])
  }

  ghost predicate StillQueued(s: State)
  {
    forall p :: s.trail.queued < p < |s.log| ==> !s.log[p].Queued? && !s.log[p].Retired?
  }

  /** A pending operation carries its own request and messages, and a delivery in flight is its only message. */
  ghost predicate PendingWellFormed(s: State) {
    && (s.deliveryPending ==> s.pending.Some? && s.pending.value.nextMessage == 1 && |s.pending.value.messages| == 1)
    && (s.pending.Some? ==>
          var op := s.pending.value;
          && op.nextMessage <= |op.messages|
          && (op.error.Some? ==> op.responseReceived)
          && match op.request.kind
             case Discovery => op.request == Request(Discovery, None, None) && op.messages == [SystemInfoRequest]
               && op.error.None?
             case CompleteTest => s.active.Some? && op.request == ValidationRequest(s.active.value) && op.messages == []
             case Start => s.active.Some? && op.request == StartRequest(s.active.value.id)
                           && op.messages == [StartControl(s.active.value.id)] && s.accepted
             case Abort => s.active.Some? && op.request == Request(Abort, Some(s.active.value.id), None)
                           && op.messages == [AbortControl(s.active.value.id)] && op.previousPhase.Some?
             case Reset => op.request == Request(Reset, None, None) && op.messages == [ResetApplication]
               && op.previousPhase.Some?
             case _ => s.active.Some?)
  }

  predicate StartAnswered(s: State) {
    PendingKind(s) == Some(Start) && s.pending.value.responseReceived && s.pending.value.error.None?
  }

  /** Message `i` of the upload is the pending operation; later ones still wait in the queue. */
  ghost predicate InUpload(s: State, u: Upload) {
    && UploadPending(s) && |s.operations| < MessageCount(u)
    && var i: nat := MessageCount(u) - 1 - |s.operations|;
    var op, t := s.pending.value, s.trail;
    && op.request == UploadRequest(u, i) && op.messages == [UploadWire(u, i)]
    && s.operations == UploadOperations(u)[i + 1..]
    && |t.submitted| == i + op.nextMessage
    && |t.confirmed| == i + (if op.nextMessage == 1 && !s.deliveryPending then 1 else 0)
    && i <= |t.accepted| <= i + (if op.responseReceived then 1 else 0)
    && (op.error.None? && op.responseReceived ==> |t.accepted| == i + 1)
    && t.validated.None? && t.started.None?
    && !s.accepted && !s.started && NoFailure(s) && NoBrokenClose(s) && (op.error.None? ==> NoRefusal(s))
  }

  /** The upload is queued and none of its operations has been activated. */
  ghost predicate Waiting(s: State, u: Upload) {
    && !UploadPending(s) && s.operations == UploadOperations(u)
    && s.trail == Trail(s.trail.queued, [], [], [], None, None)
    && PendingKind(s) != Some(CompleteTest) && PendingKind(s) != Some(Start)
    && !s.accepted && !s.started && NoFailure(s) && NoBrokenClose(s) && NoRefusal(s)
  }

  /** Every upload message is through; validation is pending or was accepted. */
  ghost predicate Delivered(s: State, u: Upload) {
    && !UploadPending(s) && s.operations == [] && NoFailure(s) && AllDelivered(s.trail, u)
    && if PendingKind(s) == Some(CompleteTest) then
         var op := s.pending.value;
         && !s.accepted && !s.started && s.trail.started.None?
         && (op.error.None? && op.responseReceived ==>
               s.trail.validated.Some? && ValidatedAt(s.log, s.trail, u, s.trail.validated.value))
         && (op.error.None? ==> NoRefusal(s))
       else
         && s.accepted && NoRefusal(s)
         && s.trail.validated.Some? && ValidatedAt(s.log, s.trail, u, s.trail.validated.value)
         && (s.trail.started.Some? ==>
               s.trail.started.value < |s.log| && Affirms(s.log[s.trail.started.value], StartRequest(u.id)))
         && (s.started ==> s.trail.started.Some?)
         && (StartAnswered(s) ==> s.trail.started.Some?)
  }

  /**
   The workflow failed or a close raised since the upload was queued; only discovery, abort or reset can be pending.
   */
  ghost predicate Broken(s: State, u: Upload) {
    && !UploadPending(s) && s.operations == [] && (!NoFailure(s) || !NoBrokenClose(s)) && !s.accepted && !s.started
    && PendingKind(s) != Some(CompleteTest) && PendingKind(s) != Some(Start)
  }

  ghost predicate UploadAccounted(s: State, u: Upload) {
    && Recorded(s.log, s.trail, u) && StillQueued(s)
    && s.messageCount == MessageCount(u) && s.delivered == |s.trail.confirmed|
    && (InUpload(s, u) || Waiting(s, u) || Delivered(s, u) || Broken(s, u))
  }

  ghost predicate NothingActive(s: State) {
    && s.operations == [] && !s.accepted && !s.started && s.nextResult == 0
    && s.messageCount == 0 && s.delivered == 0
    && PendingKind(s) in {None, Some(Discovery), Some(Reset)}
  }

  ghost predicate CompletePhaseEarned(s: State, p: Phase) {
    p == ResultsComplete ==> s.active.Some? && s.nextResult >= Expected(s.active.value)
  }

  ghost predicate PhaseSound(s: State) {
    && CompletePhaseEarned(s, s.phase)
    && (Saved(s).Some? ==> CompletePhaseEarned(s, Saved(s).value))
    && (CalmCloses(s.log) ==> (s.pending.None? ==> Resting(s.phase)) && (Saved(s).Some? ==> Resting(Saved(s).value)))
  }

  /** The phase to which a refusal of the pending operation returns. */
  function Saved(s: State): Option<Phase> {
    if s.pending.Some? then s.pending.value.previousPhase else None
  }

  function Count(n: nat): seq<int> {
    seq(n, i => i)
  }

  ghost predicate ResultsInOrder(s: State) {
    s.active.Some? ==> ResultTicks(s.log, s.active.value.id) == Count(s.nextResult)
  }

  ghost predicate BytesConserved(l: Link) {
    && l.received == l.consumed + l.incoming
    && (l.output.None? ==> l.offset == 0 && l.written == l.committed)
    && (l.output.Some? ==> l.offset <= |l.output.value| && l.written == l.committed + l.output.value[..l.offset])
  }

  ghost predicate LogSound(log: seq<Entry>) {
    EveryStartGated(log) && EveryResultAfterStart(log) && EveryResultQueued(log)
  }

  ghost predicate OpenInv(s: State) {
    && PendingWellFormed(s)
    && (if s.active.Some? then UploadAccounted(s, s.active.value) else NothingActive(s))
    && PhaseSound(s)
    && BytesConserved(s.link)
  }

  ghost predicate Inv(s: State) {
    && LogSound(s.log) && IdsFresh(s) && ResultsInOrder(s) && CompletePhaseEarned(s, s.phase)
    && (!s.closed ==> OpenInv(s))
  }

  // ---------- The log only grows ----------

  lemma RecordedGrows(log: seq<Entry>, e: Entry, t: Trail, u: Upload)
    requires Recorded(log, t, u)
    ensures Recorded(log + [e], t, u)
  {
  }

  lemma StartGatedGrows(log: seq<Entry>, e: Entry, p: nat, id: nat)
    requires p <= |log| && StartGated(log, p, id)
    ensures StartGated(log + [e], p, id)
  {
    var t: Trail, u: Upload, v: nat :|
      u.id == id && Recorded(log, t, u) && ValidatedAt(log, t, u, v) && v < p && Clean(log, t.queued, p);
    RecordedGrows(log, e, t, u);
    assert ValidatedAt(log + [e], t, u, v);
    assert Clean(log + [e], t.queued, p);
  }

  lemma HistoriesGrow(log: seq<Entry>, e: Entry, id: nat)
    ensures QueuedIds(log + [e]) == QueuedIds(log) + if e.Queued? then [e.upload.id] else []
    ensures ResultTicks(log + [e], id) == ResultTicks(log, id) + if e.ResultAccepted? && e.id == id then [e.tick]
      else []
  {
    assert (log + [e])[..|log|] == log;
  }

  lemma CalmGrows(log: seq<Entry>, e: Entry)
    ensures CalmCloses(log + [e]) <==> CalmCloses(log) && (e.CloseRaised? ==> Resting(e.phase))
  {
    var more := log + [e];
    assert more[|log|] == e && forall p :: 0 <= p < |log| ==> more[p] == log[p];
  }

  /** An entry may be appended when it is a gated START, a started result, or neither. */
  ghost predicate Appendable(log: seq<Entry>, e: Entry) {
    && (e.Submitted? && e.wire.StartControl? ==>
          e.request == StartRequest(e.wire.id) && StartGated(log, |log|, e.wire.id))
    && (e.ResultAccepted? ==>
          && e.id in QueuedIds(log)
          && exists q :: 0 <= q < |log| && Affirms(log[q], StartRequest(e.id)))
  }

  lemma LogSoundGrows(log: seq<Entry>, e: Entry)
    requires LogSound(log) && Appendable(log, e)
    ensures LogSound(log + [e])
  {
    var after := log + [e];
    forall p | 0 <= p < |after| && after[p].Submitted? && after[p].wire.StartControl?
      ensures after[p].request == StartRequest(after[p].wire.id) && StartGated(after, p, after[p].wire.id)
    {
      StartGatedGrows(log, e, p, after[p].wire.id);
    }
    forall p | 0 <= p < |after| && after[p].ResultAccepted?
      ensures exists q :: 0 <= q < p && Affirms(after[q], StartRequest(after[p].id))
    {
      var q :| 0 <= q < |log| && q < p && Affirms(log[q], StartRequest(after[p].id));
      assert after[q] == log[q];
    }
    forall p | 0 <= p < |after| && after[p].ResultAccepted?
      ensures after[p].id in QueuedIds(after)
    {
      HistoriesGrow(log, e, after[p].id);
    }
  }

  // ---------- Failure and retirement ----------

  /** The part of the invariant that survives any failure, whatever was pending. */
  ghost predicate Core(s: State) {
    && !s.closed && LogSound(s.log) && IdsFresh(s) && ResultsInOrder(s) && BytesConserved(s.link)
    && (s.active.Some? ==>
          && Recorded(s.log, s.trail, s.active.value) && StillQueued(s)
          && s.messageCount == MessageCount(s.active.value) && s.delivered == |s.trail.confirmed|)
    && (s.active.None? ==> s.nextResult == 0 && s.messageCount == 0 && s.delivered == 0)
  }

  /** A finished operation whose outcome retires or fails something. */
  predicate Releases(s: State) {
    && s.pending.Some? && s.pending.value.responseReceived && !s.deliveryPending
    && s.pending.value.EveryMessageSubmitted()
    && (s.pending.value.error.Some? || s.pending.value.request.kind == Abort || s.pending.value.request.kind == Reset)
  }

  /** Nothing was logged, and the upload and its trail are the same. */
  predicate SameLog(s: State, t: State) {
    t.log == s.log && t.active == s.active && t.trail == s.trail
  }

  /** The builder is the same, too. */
  predicate SameRecord(s: State, t: State) {
    SameLog(s, t) && t.builder == s.builder
  }

  lemma NextOperationIsSilent(s: State, op: Operation, now: int)
    ensures SameRecord(s, NextUploadOperation(s, op, now).state)
  {
  }

  lemma StartingIsSilent(s: State)
    ensures SameRecord(s, QueueStart(s).state)
  {
  }

  /** Finishing an operation logs nothing unless it retires or fails something. */
  lemma FinishingIsMostlySilent(s: State, now: int)
    requires !Releases(s)
    ensures SameRecord(s, FinishPending(s, now).state)
  {
    if s.pending.Some? {
      var op, t := s.pending.value, s.(pending := None);
      NextOperationIsSilent(t, op, now);
      StartingIsSilent(t.(accepted := true, phase := ReadyToStart));
      match op.request.kind {
        case Configure =>
        case Tick =>
        case CompleteTest =>
        case _ =>
      }
    }
  }

  lemma FailureKeeps(s: State)
    requires Core(s)
    ensures Inv(FailWorkflow(s))
  {
    var t := FailWorkflow(s);
    LogSoundGrows(s.log, WorkflowFailed);
    HistoriesGrow(s.log, WorkflowFailed, if s.active.Some? then s.active.value.id else 0);
    if s.active.Some? {
      RecordedGrows(s.log, WorkflowFailed, s.trail, s.active.value);
      assert t.log[|s.log|].WorkflowFailed?;
      assert Broken(t, s.active.value);
    }
  }

  lemma RetirementKeeps(s: State, phase: Phase)
    requires Core(s) && s.pending.None? && !s.deliveryPending
    requires Resting(phase) && phase != ResultsComplete
    ensures Inv(RetireActiveUpload(s).(phase := phase))
  {
    var t := RetireActiveUpload(s).(phase := phase);
    if s.active.Some? {
      var id := s.active.value.id;
      LogSoundGrows(s.log, Retired(id));
      HistoriesGrow(s.log, Retired(id), id);
    }
    assert NothingActive(t);
  }

  // ---------- Finishing the pending operation ----------

  /** States that agree on everything but the operations and the phase share the log-related part of the invariant. */
  ghost predicate SameHistory(s: State, t: State) {
    && t.log == s.log && t.trail == s.trail && t.active == s.active && t.retired == s.retired
    && t.nextResult == s.nextResult
    && t.messageCount == s.messageCount && t.delivered == s.delivered && t.link == s.link && t.closed == s.closed
  }

  lemma InvFrom(s: State, t: State)
    requires Inv(s) && !s.closed && SameHistory(s, t)
    requires PendingWellFormed(t) && PhaseSound(t)
    requires s.active.Some? ==>
      InUpload(t, s.active.value) || Waiting(t, s.active.value) || Delivered(t, s.active.value)
        || Broken(t, s.active.value)
    requires s.active.None? ==> NothingActive(t)
    ensures Inv(t)
  {
  }

  /** The pending operation is fully submitted and has a positive answer, and nothing is in flight. */
  predicate Answerable(s: State) {
    && s.pending.Some? && !s.deliveryPending
    && s.pending.value.responseReceived && s.pending.value.error.None? && s.pending.value.EveryMessageSubmitted()
  }

  lemma StageAdvances(s: State, u: Upload, t: State)
    requires InUpload(s, u) && Answerable(s) && s.operations != []
    requires t == s.(operations := s.operations[1..], pending := Some(s.operations[0]), phase := t.phase)
    ensures InUpload(t, u) && s.operations[0] == UploadOperation(u, MessageCount(u) - |s.operations|)
  {
    var i: nat := MessageCount(u) - 1 - |s.operations|;
    assert s.operations[0] == UploadOperation(u, i + 1);
    assert s.operations[1..] == UploadOperations(u)[i + 2..];
  }

  lemma LastStageDelivers(s: State, u: Upload, t: State)
    requires InUpload(s, u) && Answerable(s) && s.operations == []
    requires t == s.(pending := t.pending, phase := t.phase)
    requires PendingKind(t) == Some(CompleteTest) && !t.pending.value.responseReceived && t.pending.value.error.None?
    ensures Delivered(t, u)
  {
  }

  lemma NextStage(s: State, u: Upload, now: int)
    requires InUpload(s, u) && s.active == Some(u) && Answerable(s)
    ensures var t := NextUploadOperation(s.(pending := None), s.pending.value, now).state;
      && SameHistory(s, t) && (InUpload(t, u) || Delivered(t, u))
      && (CalmCloses(t.log) == CalmCloses(s.log)) && PendingWellFormed(t) && PhaseSound(t)
  {
    var t := NextUploadOperation(s.(pending := None), s.pending.value, now).state;
    if s.operations == [] {
      LastStageDelivers(s, u, t);
    } else {
      StageAdvances(s, u, t);
    }
  }

  lemma NextUploadOperationKeeps(s: State, now: int)
    requires Inv(s) && !s.closed && UploadPending(s) && Answerable(s)
    ensures Inv(NextUploadOperation(s.(pending := None), s.pending.value, now).state)
  {
    PendingUploadIsStaged(s, s.active.value);
    NextStage(s, s.active.value, now);
    InvFrom(s, NextUploadOperation(s.(pending := None), s.pending.value, now).state);
  }

  /** A rejected START leaves the accepted upload ready to start. */
  lemma RejectedStartKeeps(s: State)
    requires Inv(s) && !s.closed && PendingKind(s) == Some(Start) && !s.deliveryPending
      && s.pending.value.error == Some(OutcomeRejected)
    ensures Inv(HandleNegative(s.(pending := None), s.pending.value))
  {
    LateMeansDelivered(s, s.active.value);
    assert Delivered(HandleNegative(s.(pending := None), s.pending.value), s.active.value);
  }

  lemma RefusalKeeps(s: State)
    requires Inv(s) && !s.closed && s.pending.Some? && !s.deliveryPending && s.pending.value.error.Some?
    ensures Inv(HandleNegative(s.(pending := None), s.pending.value))
  {
    var op, t := s.pending.value, s.(pending := None);
    var kind := op.request.kind;
    if IsUploadKind(kind) || kind == CompleteTest {
      RetirementKeeps(t, Failed);
    } else if op.error != Some(OutcomeRejected) {
      FailureKeeps(t);
    } else if kind == Start {
      RejectedStartKeeps(s);
    } else if s.active.Some? {
      ReleasedStaysAccounted(s, HandleNegative(t, op));
    }
  }

  lemma ReleasedStages(s: State, t: State, u: Upload)
    requires t == s.(pending := t.pending, phase := t.phase, confirmed := t.confirmed)
    requires PendingKind(s) in {Some(Discovery), Some(Abort), Some(Reset), None}
    requires PendingKind(t) in {Some(Discovery), Some(Abort), Some(Reset), None}
    ensures Waiting(s, u) ==> Waiting(t, u)
    ensures Delivered(s, u) ==> Delivered(t, u)
    ensures Broken(s, u) ==> Broken(t, u)
  {
  }

  /** Dropping a discovery, abort or reset operation leaves the upload where it was. */
  lemma ReleasedStaysAccounted(s: State, t: State)
    requires Inv(s) && !s.closed && s.active.Some?
      && PendingKind(s) in {Some(Discovery), Some(Abort), Some(Reset), None}
    requires t == s.(pending := t.pending, phase := t.phase, confirmed := t.confirmed)
    requires PendingKind(t) in {Some(Discovery), Some(Abort), Some(Reset), None}
    ensures UploadAccounted(t, s.active.value)
  {
    ReleasedStages(s, t, s.active.value);
  }

  lemma ValidationDelivers(s: State, u: Upload, t: State)
    requires Delivered(s, u) && PendingKind(s) == Some(CompleteTest) && Answerable(s)
    requires t == s.(pending := t.pending, accepted := true, phase := t.phase)
    requires PendingKind(t) in {None, Some(Start)} && (t.pending.Some? ==> !t.pending.value.responseReceived)
    ensures Delivered(t, u)
  {
  }

  lemma ValidationEndsWell(s: State, u: Upload, now: int)
    requires s.active == Some(u) && PendingKind(s) == Some(CompleteTest) && Answerable(s)
    ensures var t := FinishPending(s, now).state;
      && PendingWellFormed(t) && PhaseSound(t) && SameHistory(s, t)
      && t == s.(pending := t.pending, accepted := true, phase := t.phase)
      && PendingKind(t) in {None, Some(Start)} && (t.pending.Some? ==> !t.pending.value.responseReceived)
  {
  }

  lemma ValidationKeeps(s: State, now: int)
    requires Inv(s) && !s.closed && PendingKind(s) == Some(CompleteTest) && Answerable(s)
    ensures Inv(FinishPending(s, now).state)
  {
    var u, t := s.active.value, FinishPending(s, now).state;
    ValidationEndsWell(s, u, now);
    ValidationDelivers(s, u, t);
    InvFrom(s, t);
  }

  lemma StartEndsWell(s: State, u: Upload, now: int)
    requires s.active == Some(u) && PendingKind(s) == Some(Start) && Answerable(s) && PhaseSound(s) && Delivered(s, u)
    ensures var t := FinishPending(s, now).state;
      PendingWellFormed(t) && PhaseSound(t) && SameHistory(s, t) && Delivered(t, u)
  {
  }

  lemma StartKeeps(s: State, now: int)
    requires Inv(s) && !s.closed && PendingKind(s) == Some(Start) && Answerable(s)
    ensures Inv(FinishPending(s, now).state)
  {
    LateMeansDelivered(s, s.active.value);
    StartEndsWell(s, s.active.value, now);
    InvFrom(s, FinishPending(s, now).state);
  }

  lemma DiscoveryKeeps(s: State)
    requires Inv(s) && !s.closed && PendingKind(s) == Some(Discovery) && !s.deliveryPending
    ensures Inv(s.(pending := None, confirmed := true, phase := Ready))
  {
    var r := s.(pending := None, confirmed := true, phase := Ready);
    if s.active.Some? {
      ReleasedStaysAccounted(s, r);
    }
    InvFrom(s, r);
  }

  lemma PositiveFinishKeeps(s: State, now: int)
    requires Inv(s) && !s.closed && Answerable(s)
    ensures Inv(FinishPending(s, now).state)
  {
    match s.pending.value.request.kind {
      case Discovery => DiscoveryKeeps(s);
      case Configure => NextUploadOperationKeeps(s, now);
      case Tick => NextUploadOperationKeeps(s, now);
      case CompleteTest => ValidationKeeps(s, now);
      case Start => StartKeeps(s, now);
      case Abort => RetirementKeeps(s.(pending := None), Aborted);
      case Reset => RetirementKeeps(s.(pending := None), Ready);
    }
  }

  lemma FinishKeeps(s: State, now: int)
    requires Inv(s) && !s.closed
    ensures Inv(FinishPending(s, now).state)
  {
    if Answerable(s) {
      PositiveFinishKeeps(s, now);
    } else if FinishPending(s, now).raised.Some? {
      RefusalKeeps(s);
    }
  }

  // ---------- Caller requests ----------

  lemma FirstStage(s: State, u: Upload, t: State)
    requires Waiting(s, u) && s.pending.None? && !s.deliveryPending
    requires t == s.(operations := s.operations[1..], pending := Some(s.operations[0]), phase := t.phase)
    ensures InUpload(t, u)
  {
    assert s.operations[0] == UploadOperation(u, 0);
  }

  lemma AdvanceKeeps(s: State, established: bool)
    requires Inv(s) && !s.closed
    ensures Inv(Advance(s, established).state)
  {
    var t := Advance(s, established).state;
    if s.pending.None? && established {
      if !s.confirmed {
        if s.active.Some? {
          ReleasedStaysAccounted(s, t);
        }
        InvFrom(s, t);
      } else if s.operations != [] {
        FirstStage(s, s.active.value, t);
        assert PendingWellFormed(t) && PhaseSound(t);
        InvFrom(s, t);
      }
    }
  }

  lemma ResultsAreOfQueuedIds(log: seq<Entry>, id: nat)
    requires EveryResultQueued(log) && id !in QueuedIds(log)
    ensures ResultTicks(log, id) == []
  {
    NoResultsFor(log, id);
  }

  lemma {:induction false} NoResultsFor(log: seq<Entry>, id: nat)
    requires forall p :: 0 <= p < |log| && log[p].ResultAccepted? ==> log[p].id != id
    ensures ResultTicks(log, id) == []
  {
    if log != [] {
      NoResultsFor(log[..|log| - 1], id);
    }
  }

  /** The state of `queue_upload` before it advances the workflow. */
  function Enqueued(s: State, u: Upload): State {
    s.(operations := UploadOperations(u), active := Some(u), messageCount := MessageCount(u), delivered := 0,
       accepted := false, started := false, nextResult := 0,
       log := s.log + [Queued(u)], trail := Trail(|s.log|, [], [], [], None, None))
  }

  lemma EnqueueIsFresh(s: State, u: Upload)
    requires IdsFresh(s) && s.active.None? && u.id !in s.retired
    ensures IdsFresh(Enqueued(s, u))
  {
    HistoriesGrow(s.log, Queued(u), u.id);
    var before, after := QueuedIds(s.log), QueuedIds(Enqueued(s, u).log);
    assert after == before + [u.id];
    assert u.id !in before;
  }

  lemma EnqueueStartsWaiting(s: State, u: Upload)
    requires OpenInv(s) && s.active.None? && PendingKind(s) in {None, Some(Discovery)}
    ensures OpenInv(Enqueued(s, u))
  {
    CalmGrows(s.log, Queued(u));
    var t := Enqueued(s, u);
    assert Recorded(t.log, t.trail, u);
    assert Waiting(t, u);
  }

  lemma EnqueueKeeps(s: State, u: Upload)
    requires Inv(s) && !s.closed && s.active.None? && PendingKind(s) in {None, Some(Discovery)} && u.id !in s.retired
    ensures Inv(Enqueued(s, u))
  {
    EnqueueIsFresh(s, u);
    EnqueueStartsWaiting(s, u);
    LogSoundGrows(s.log, Queued(u));
    HistoriesGrow(s.log, Queued(u), u.id);
    ResultsAreOfQueuedIds(s.log, u.id);
  }

  lemma QueueUploadKeeps(s: State, u: Upload, established: bool)
    requires Inv(s) && !s.closed
    ensures Inv(QueueUpload(s, u, established).state)
  {
    if s.active.None? && s.operations == [] && PendingKind(s) in {None, Some(Discovery)} && u.id !in s.retired
       && (s.builder.Some? ==> Belongs(s.builder.value, u)) {
      EnqueueKeeps(s, u);
      AdvanceKeeps(Enqueued(s, u), established);
    }
  }

  lemma StartRequestStage(s: State, u: Upload)
    requires Delivered(s, u) && s.active == Some(u) && s.accepted && !Busy(s)
    ensures var t := QueueStart(s).state; SameHistory(s, t) && Delivered(t, u) && PendingWellFormed(t) && PhaseSound(t)
  {
  }

  lemma RequestStartKeeps(s: State)
    requires Inv(s) && !s.closed
    ensures Inv(RequestStart(s).state)
  {
    var t := RequestStart(s).state;
    if t != s {
      LateMeansDelivered(s, s.active.value);
      StartRequestStage(s, s.active.value);
      InvFrom(s, t);
    }
  }

  lemma RequestAbortKeeps(s: State)
    requires Inv(s) && !s.closed
    ensures Inv(RequestAbort(s).state)
  {
    var t := RequestAbort(s).state;
    if t != s {
      ReleasedStaysAccounted(s, t);
      InvFrom(s, t);
    }
  }

  lemma RequestResetKeeps(s: State)
    requires Inv(s) && !s.closed
    ensures Inv(RequestReset(s).state)
  {
    var t := RequestReset(s).state;
    if t != s {
      if s.active.Some? {
        ReleasedStaysAccounted(s, t);
      }
      InvFrom(s, t);
    }
  }

  // ---------- Submission, delivery, answers, results ----------

  /** A START that can be submitted is entitled: the trail of the active upload is the evidence. */
  lemma PendingStartIsGated(s: State)
    requires Inv(s) && !s.closed && PendingKind(s) == Some(Start)
    ensures StartGated(s.log, |s.log|, s.active.value.id)
  {
    var u, t := s.active.value, s.trail;
    assert Delivered(s, u);
    var v := t.validated.value;
    assert Recorded(s.log, t, u) && ValidatedAt(s.log, t, u, v) && Clean(s.log, t.queued, |s.log|);
  }

  /** `t` is `s` after one more log entry that is no failure, queueing or retirement. */
  ghost predicate Noted(s: State, t: State, e: Entry) {
    && t.log == s.log + [e] && t.active == s.active && t.retired == s.retired
    && t.messageCount == s.messageCount && t.link == s.link && t.closed == s.closed && t.operations == s.operations
    && t.accepted == s.accepted && t.started == s.started && t.confirmed == s.confirmed
    && t.trail.queued == s.trail.queued
    && !e.WorkflowFailed? && !e.Queued? && !e.Retired? && !e.CloseRaised?
  }

  lemma NotedHistories(s: State, t: State, e: Entry)
    requires IdsFresh(s) && ResultsInOrder(s) && Noted(s, t, e)
    requires if e.ResultAccepted? then ResultsInOrder(t) else t.nextResult == s.nextResult
    ensures IdsFresh(t) && ResultsInOrder(t)
    ensures StillQueued(s) ==> StillQueued(t)
  {
    HistoriesGrow(s.log, e, if s.active.Some? then s.active.value.id else 0);
    assert forall p :: 0 <= p < |s.log| ==> t.log[p] == s.log[p];
  }

  lemma NotedKeeps(s: State, t: State, e: Entry)
    requires Inv(s) && !s.closed && Noted(s, t, e) && Appendable(s.log, e)
    requires if e.ResultAccepted? then ResultsInOrder(t) else t.nextResult == s.nextResult
    requires PendingWellFormed(t) && PhaseSound(t)
    requires s.active.Some? ==> Recorded(t.log, t.trail, s.active.value) && t.delivered == |t.trail.confirmed|
    requires s.active.Some? ==>
      InUpload(t, s.active.value) || Waiting(t, s.active.value) || Delivered(t, s.active.value)
        || Broken(t, s.active.value)
    requires s.active.None? ==> NothingActive(t)
    ensures Inv(t)
  {
    LogSoundGrows(s.log, e);
    NotedHistories(s, t, e);
  }

  lemma SideEntryStages(s: State, t: State, e: Entry, u: Upload)
    requires Noted(s, t, e) && !e.ResultAccepted? && !NegativeUploadAnswer(e) && Recorded(s.log, s.trail, u)
    requires t.trail == s.trail && !UploadPending(s) && PendingKind(t) == PendingKind(s)
    requires PendingKind(s) != Some(CompleteTest) && (StartAnswered(t) ==> StartAnswered(s))
    ensures Waiting(s, u) ==> Waiting(t, u)
    ensures Delivered(s, u) ==> Delivered(t, u)
    ensures Broken(s, u) ==> Broken(t, u)
  {
    assert forall p :: 0 <= p < |s.log| ==> t.log[p] == s.log[p];
  }

  /** Entries about discovery, start, abort and reset leave an unchanged trail as good as it was. */
  lemma SideEntryKeeps(s: State, t: State, e: Entry)
    requires Inv(s) && !s.closed && Noted(s, t, e) && Appendable(s.log, e) && !e.ResultAccepted?
      && !NegativeUploadAnswer(e)
    requires PendingWellFormed(t) && PhaseSound(t)
    requires t.trail == s.trail && t.delivered == s.delivered && t.nextResult == s.nextResult && !UploadPending(s)
      && PendingKind(t) == PendingKind(s)
    requires PendingKind(s) != Some(CompleteTest) && (StartAnswered(t) ==> StartAnswered(s))
    ensures Inv(t)
  {
    if s.active.Some? {
      RecordedGrows(s.log, e, s.trail, s.active.value);
      SideEntryStages(s, t, e, s.active.value);
    }
    NotedKeeps(s, t, e);
  }

  lemma SubmissionInOrder(t: Trail, position: nat)
    requires InOrder(t) && |t.confirmed| == |t.submitted| <= |t.accepted| <= |t.submitted| + 1
    requires forall i :: 0 <= i < |t.confirmed| ==> t.confirmed[i] < position
    requires forall i :: 0 <= i < |t.accepted| ==> t.accepted[i] < position
    ensures InOrder(t.(submitted := t.submitted + [position]))
  {
    var more := t.submitted + [position];
    forall i, j | 0 <= i < j < |more|
      ensures i < |t.confirmed| && i < |t.accepted| && t.confirmed[i] < more[j] && t.accepted[i] < more[j]
    {
      if j < |t.submitted| {
        assert t.confirmed[i] < t.submitted[j];
      }
    }
  }

  lemma AnswerInOrder(t: Trail, position: nat)
    requires InOrder(t) && |t.accepted| <= |t.confirmed| && |t.submitted| <= |t.accepted| + 1
    requires forall i :: 0 <= i < |t.confirmed| ==> t.confirmed[i] < position
    requires forall i :: 0 <= i < |t.accepted| ==> t.accepted[i] < position
    ensures InOrder(t.(accepted := t.accepted + [position]))
  {
    var more := t.accepted + [position];
    forall i, j | 0 <= i < j < |t.submitted|
      ensures i < |t.confirmed| && i < |more| && t.confirmed[i] < t.submitted[j] && more[i] < t.submitted[j]
    {
      assert t.confirmed[i] < t.submitted[j] && more[i] == t.accepted[i];
    }
    forall i, j | 0 <= i < j < |more|
      ensures i < |t.confirmed| && t.confirmed[i] < more[j] && more[i] < more[j]
    {
      assert more[i] == t.accepted[i];
      if j < |t.accepted| {
        assert t.confirmed[i] < t.accepted[j];
      }
    }
  }

  lemma ConfirmationInterleaves(submitted: seq<nat>, confirmed: seq<nat>, accepted: seq<nat>, more: seq<nat>)
    requires Interleaved(submitted, confirmed, accepted)
    requires |submitted| == |confirmed| + 1 == |more| && |accepted| <= |more| && confirmed == more[..|confirmed|]
    ensures Interleaved(submitted, more, accepted)
  {
    forall i, j | 0 <= i < j < |submitted|
      ensures i < |more| && i < |accepted| && more[i] < submitted[j] && accepted[i] < submitted[j]
    {
      assert more[i] == confirmed[i] < submitted[j];
    }
    forall i, j | 0 <= i < j < |accepted|
      ensures i < |more| && more[i] < accepted[j] && accepted[i] < accepted[j]
    {
      assert more[i] == confirmed[i] < accepted[j];
    }
  }

  lemma ConfirmationInOrder(t: Trail, position: nat)
    requires InOrder(t) && |t.submitted| == |t.confirmed| + 1 && |t.accepted| <= |t.confirmed| + 1
    ensures InOrder(t.(confirmed := t.confirmed + [position]))
  {
    ConfirmationInterleaves(t.submitted, t.confirmed, t.accepted, t.confirmed + [position]);
  }

  lemma RecordSubmitted(log: seq<Entry>, t: Trail, u: Upload)
    requires Recorded(log, t, u) && |t.submitted| < MessageCount(u)
    requires |t.confirmed| == |t.submitted| <= |t.accepted| <= |t.submitted| + 1
    ensures Recorded(
      log + [Submitted(UploadRequest(u, |t.submitted|), UploadWire(u, |t.submitted|))],
      t.(submitted := t.submitted + [|log|]), u)
  {
    SubmissionInOrder(t, |log|);
    RecordedGrows(log, Submitted(UploadRequest(u, |t.submitted|), UploadWire(u, |t.submitted|)), t, u);
  }

  lemma RecordConfirmed(log: seq<Entry>, t: Trail, u: Upload)
    requires Recorded(log, t, u) && |t.submitted| == |t.confirmed| + 1
    requires |t.accepted| <= |t.confirmed| + 1
    ensures Recorded(log + [Confirmed(UploadRequest(u, |t.confirmed|))], t.(confirmed := t.confirmed + [|log|]), u)
  {
    ConfirmationInOrder(t, |log|);
    RecordedGrows(log, Confirmed(UploadRequest(u, |t.confirmed|)), t, u);
  }

  lemma RecordAccepted(log: seq<Entry>, t: Trail, u: Upload, e: Entry)
    requires Recorded(log, t, u) && |t.accepted| < MessageCount(u)
    requires |t.accepted| <= |t.confirmed| && |t.submitted| <= |t.accepted| + 1
    requires Affirms(e, UploadRequest(u, |t.accepted|))
    ensures Recorded(log + [e], t.(accepted := t.accepted + [|log|]), u)
  {
    AnswerInOrder(t, |log|);
    RecordedGrows(log, e, t, u);
  }

  lemma SubmissionWellFormed(s: State, t: State)
    requires PendingWellFormed(s) && PhaseSound(s) && CanSubmit(s, true) && t == Submit(s, true, StatusOk).state
    requires |s.pending.value.messages| == 1
    ensures PendingWellFormed(t) && PhaseSound(t)
  {
    CalmGrows(s.log, Submitted(s.pending.value.request, s.pending.value.messages[s.pending.value.nextMessage]));
  }

  lemma SubmitUploadKeeps(s: State, t: State)
    requires Inv(s) && !s.closed && UploadPending(s) && CanSubmit(s, true) && t == Submit(s, true, StatusOk).state
    ensures Inv(t)
  {
    var u, op := s.active.value, s.pending.value;
    assert InUpload(s, u);
    RecordSubmitted(s.log, s.trail, u);
    SubmittedStage(s, u, t);
    SubmissionWellFormed(s, t);
    NotedKeeps(s, t, Submitted(op.request, op.messages[0]));
  }

  lemma SubmittedStage(s: State, u: Upload, t: State)
    requires InUpload(s, u) && CanSubmit(s, true) && t == Submit(s, true, StatusOk).state
    ensures InUpload(t, u)
  {
  }

  lemma SubmitKeeps(s: State, established: bool, status: TransportStatus)
    requires Inv(s) && !s.closed
    ensures Inv(Submit(s, established, status).state)
  {
    var t := Submit(s, established, status).state;
    if CanSubmit(s, established) && status == StatusOk {
      if UploadPending(s) {
        SubmitUploadKeeps(s, t);
      } else {
        SubmitControlKeeps(s, t);
      }
    } else if t != s {
      FailureKeeps(s);
    }
  }

  lemma SubmitControlKeeps(s: State, t: State)
    requires Inv(s) && !s.closed && !UploadPending(s) && CanSubmit(s, true) && t == Submit(s, true, StatusOk).state
    ensures Inv(t)
  {
    var op := s.pending.value;
    if op.request.kind == Start {
      PendingStartIsGated(s);
    }
    SubmissionWellFormed(s, t);
    SideEntryKeeps(s, t, Submitted(op.request, op.messages[0]));
  }

  // ---------- Delivery confirmation ----------

  /** The state of `_handle_delivery_confirmed` before it tries to finish the operation. */
  function NoteDelivery(s: State, now: int): State
    requires s.pending.Some?
  {
    var op := s.pending.value;
    var upload := IsUploadKind(op.request.kind);
    s.(deliveryPending := false,
       delivered := if upload then s.delivered + 1 else s.delivered,
       pending := Some(if op.EveryMessageSubmitted() then op.(deadline := Some(now + s.timeout)) else op),
       log := s.log + [Confirmed(op.request)],
       trail := if upload then s.trail.(confirmed := s.trail.confirmed + [|s.log|]) else s.trail)
  }

  lemma ConfirmedStage(s: State, u: Upload, now: int)
    requires InUpload(s, u) && s.deliveryPending && s.pending.value.nextMessage == 1
    ensures InUpload(NoteDelivery(s, now), u)
  {
  }

  lemma PendingUploadIsStaged(s: State, u: Upload)
    requires UploadAccounted(s, u) && UploadPending(s)
    ensures InUpload(s, u)
  {
  }

  lemma DeliveryWellFormed(s: State, now: int)
    requires PendingWellFormed(s) && PhaseSound(s) && s.pending.Some? && s.deliveryPending
    ensures PendingWellFormed(NoteDelivery(s, now)) && PhaseSound(NoteDelivery(s, now))
  {
    CalmGrows(s.log, Confirmed(s.pending.value.request));
  }

  lemma ConfirmedUploadKeeps(s: State, now: int)
    requires Inv(s) && !s.closed && UploadPending(s) && s.deliveryPending
    ensures Inv(NoteDelivery(s, now)) && InUpload(NoteDelivery(s, now), s.active.value)
  {
    var u := s.active.value;
    PendingUploadIsStaged(s, u);
    RecordConfirmed(s.log, s.trail, u);
    ConfirmedStage(s, u, now);
    DeliveryWellFormed(s, now);
    NotedKeeps(s, NoteDelivery(s, now), Confirmed(s.pending.value.request));
  }

  lemma ConfirmDeliveryKeeps(s: State, now: int)
    requires Inv(s) && !s.closed
    ensures Inv(ConfirmDelivery(s, now).state)
  {
    if s.pending.None? || !s.deliveryPending {
      FailureKeeps(s);
    } else {
      var t := NoteDelivery(s, now);
      if UploadPending(s) {
        ConfirmedUploadKeeps(s, now);
      } else {
        DeliveryWellFormed(s, now);
        SideEntryKeeps(s, t, Confirmed(s.pending.value.request));
      }
      FinishKeeps(t, now);
    }
  }

  // ---------- Answers ----------

  /** The state of `_handle_application_response` before it tries to finish the operation. */
  function NoteAnswer(s: State, r: Response): State
    requires s.pending.Some?
  {
    var op := s.pending.value;
    var positive := r.outcome == SuccessfulOutcome(op.request.kind);
    s.(pending := Some(op.(responseReceived := true, error := if positive then op.error else Some(r.outcome))),
       log := s.log + [Answered(op.request, positive, r)],
       trail := if positive && !op.responseReceived then NotePositive(s.trail, op.request.kind, |s.log|) else s.trail)
  }

  function AnswerEntry(s: State, r: Response): Entry
    requires s.pending.Some?
  {
    Answered(s.pending.value.request, r.outcome == SuccessfulOutcome(s.pending.value.request.kind), r)
  }

  lemma AnsweredStage(s: State, u: Upload, r: Response)
    requires InUpload(s, u)
    ensures InUpload(NoteAnswer(s, r), u)
  {
  }

  lemma FirstAnswerIsNext(s: State, u: Upload)
    requires InUpload(s, u) && !s.pending.value.responseReceived && s.pending.value.nextMessage <= 1
    ensures var t := s.trail;
      && |t.accepted| < MessageCount(u) && s.pending.value.request == UploadRequest(u, |t.accepted|)
      && |t.accepted| <= |t.confirmed| && |t.submitted| <= |t.accepted| + 1
  {
  }

  lemma UploadAnswerRecorded(s: State, u: Upload, r: Response)
    requires InUpload(s, u) && Recorded(s.log, s.trail, u) && s.pending.value.nextMessage <= 1
    ensures Recorded(NoteAnswer(s, r).log, NoteAnswer(s, r).trail, u)
  {
    if AnswerEntry(s, r).positive && !s.pending.value.responseReceived {
      FirstAnswerIsNext(s, u);
      RecordAccepted(s.log, s.trail, u, AnswerEntry(s, r));
    } else {
      RecordedGrows(s.log, AnswerEntry(s, r), s.trail, u);
    }
  }

  lemma UploadAnswerKeeps(s: State, r: Response)
    requires Inv(s) && !s.closed && UploadPending(s)
    ensures Inv(NoteAnswer(s, r))
  {
    var u := s.active.value;
    PendingUploadIsStaged(s, u);
    AnsweredStage(s, u, r);
    UploadAnswerRecorded(s, u, r);
    AnswerWellFormed(s, r);
    NotedKeeps(s, NoteAnswer(s, r), AnswerEntry(s, r));
  }

  lemma ValidationAnswerStage(s: State, u: Upload, r: Response)
    requires Delivered(s, u) && Recorded(s.log, s.trail, u) && PendingKind(s) == Some(CompleteTest)
    requires s.pending.value.request == ValidationRequest(u)
      && (s.pending.value.error.Some? ==> s.pending.value.responseReceived)
    ensures Delivered(NoteAnswer(s, r), u)
  {
  }

  lemma StartAnswerStage(s: State, u: Upload, r: Response)
    requires Delivered(s, u) && Recorded(s.log, s.trail, u) && PendingKind(s) == Some(Start)
    requires s.pending.value.request == StartRequest(u.id)
      && (s.pending.value.error.Some? ==> s.pending.value.responseReceived)
    ensures Delivered(NoteAnswer(s, r), u)
  {
  }

  lemma RecordedIgnoresLate(log: seq<Entry>, t: Trail, u: Upload, later: Trail)
    requires Recorded(log, t, u) && later == t.(validated := later.validated, started := later.started)
    ensures Recorded(log, later, u)
  {
  }

  lemma AnswerWellFormed(s: State, r: Response)
    requires PendingWellFormed(s) && PhaseSound(s) && s.pending.Some? && s.pending.value.request.kind != Discovery
    ensures PendingWellFormed(NoteAnswer(s, r)) && PhaseSound(NoteAnswer(s, r))
  {
    CalmGrows(s.log, AnswerEntry(s, r));
  }

  lemma LateMeansDelivered(s: State, u: Upload)
    requires UploadAccounted(s, u) && (PendingKind(s) in {Some(CompleteTest), Some(Start)} || s.accepted || s.started)
    ensures Delivered(s, u)
  {
  }

  lemma LateAnswerAccounted(s: State, u: Upload, r: Response)
    requires Delivered(s, u) && Recorded(s.log, s.trail, u) && PendingKind(s) in {Some(CompleteTest), Some(Start)}
    requires s.pending.value.error.Some? ==> s.pending.value.responseReceived
    requires s.pending.value.request in {ValidationRequest(u), StartRequest(u.id)}
    ensures Delivered(NoteAnswer(s, r), u) && Recorded(NoteAnswer(s, r).log, NoteAnswer(s, r).trail, u)
  {
    RecordedGrows(s.log, AnswerEntry(s, r), s.trail, u);
    RecordedIgnoresLate(NoteAnswer(s, r).log, s.trail, u, NoteAnswer(s, r).trail);
    if PendingKind(s) == Some(CompleteTest) {
      ValidationAnswerStage(s, u, r);
    } else {
      StartAnswerStage(s, u, r);
    }
  }

  /** An answer to whole-test validation or to START. */
  lemma LateAnswerKeeps(s: State, r: Response)
    requires Inv(s) && !s.closed && PendingKind(s) in {Some(CompleteTest), Some(Start)}
    ensures Inv(NoteAnswer(s, r))
  {
    LateMeansDelivered(s, s.active.value);
    LateAnswerAccounted(s, s.active.value, r);
    AnswerWellFormed(s, r);
    NotedKeeps(s, NoteAnswer(s, r), AnswerEntry(s, r));
  }

  /** A matching answer is noted, and then the operation is finished if it can be. */
  lemma AnswerFinishes(s: State, r: Response, now: int)
    requires s.pending.Some? && s.pending.value.request.kind != Discovery && Matches(r, s.pending.value.request)
    ensures HandleResponse(s, r, now) == FinishPending(NoteAnswer(s, r), now)
  {
  }

  lemma NotedAnswerKeeps(s: State, r: Response)
    requires Inv(s) && !s.closed && s.pending.Some? && s.pending.value.request.kind != Discovery
    ensures Inv(NoteAnswer(s, r))
  {
    if UploadPending(s) {
      UploadAnswerKeeps(s, r);
    } else if PendingKind(s) in {Some(CompleteTest), Some(Start)} {
      LateAnswerKeeps(s, r);
    } else {
      AnswerWellFormed(s, r);
      SideEntryKeeps(s, NoteAnswer(s, r), AnswerEntry(s, r));
    }
  }

  lemma ResponseKeeps(s: State, r: Response, now: int)
    requires Inv(s) && !s.closed
    ensures Inv(HandleResponse(s, r, now).state)
  {
    if s.pending.None? || s.pending.value.request.kind == Discovery || !Matches(r, s.pending.value.request) {
      FailureKeeps(s);
    } else {
      NotedAnswerKeeps(s, r);
      AnswerFinishes(s, r, now);
      FinishKeeps(NoteAnswer(s, r), now);
    }
  }

  lemma InformationKeeps(s: State, compatible: bool, now: int)
    requires Inv(s) && !s.closed
    ensures Inv(HandleInformation(s, compatible, now).state)
  {
    if PendingKind(s) != Some(Discovery) || !compatible {
      FailureKeeps(s);
    } else {
      var t := s.(pending := Some(s.pending.value.(responseReceived := true)));
      if s.active.Some? {
        ReleasedStaysAccounted(s, t);
      }
      InvFrom(s, t);
      FinishKeeps(t, now);
    }
  }

  // ---------- Results ----------

  lemma AcceptedResultStage(s: State, u: Upload, t: State, e: Entry)
    requires Delivered(s, u) && Recorded(s.log, s.trail, u) && e.ResultAccepted?
    requires t == s.(nextResult := t.nextResult, phase := t.phase, log := s.log + [e])
    ensures Delivered(t, u) && Recorded(t.log, t.trail, u)
  {
    RecordedGrows(s.log, e, s.trail, u);
  }

  lemma AcceptedResultWellFormed(s: State, u: Upload, tick: int)
    requires PendingWellFormed(s) && PhaseSound(s) && s.active == Some(u) && s.started && tick == s.nextResult
    ensures PendingWellFormed(HandleResult(s, u.id, tick, true).state)
      && PhaseSound(HandleResult(s, u.id, tick, true).state)
  {
    CalmGrows(s.log, ResultAccepted(u.id, tick, s.builder));
  }

  lemma AcceptedResultInOrder(s: State, u: Upload, t: State, e: Entry)
    requires ResultsInOrder(s) && s.active == Some(u) && e == ResultAccepted(u.id, s.nextResult, s.builder)
    requires t.log == s.log + [e] && t.active == s.active && t.nextResult == s.nextResult + 1
    ensures ResultsInOrder(t)
  {
    HistoriesGrow(s.log, e, u.id);
    assert Count(s.nextResult) + [s.nextResult as int] == Count(s.nextResult + 1);
  }

  lemma AcceptedResultKeeps(s: State, tick: int)
    requires Inv(s) && !s.closed && s.active.Some? && s.started && tick == s.nextResult
    ensures Inv(HandleResult(s, s.active.value.id, tick, true).state)
  {
    var u := s.active.value;
    var t, e := HandleResult(s, u.id, tick, true).state, ResultAccepted(u.id, tick, s.builder);
    LateMeansDelivered(s, u);
    AcceptedResultStage(s, u, t, e);
    AcceptedResultWellFormed(s, u, tick);
    AcceptedResultInOrder(s, u, t, e);
    assert Affirms(s.log[s.trail.started.value], StartRequest(u.id));
    NotedKeeps(s, t, e);
  }

  lemma ResultKeeps(s: State, id: nat, tick: int, taken: bool)
    requires Inv(s) && !s.closed
    ensures Inv(HandleResult(s, id, tick, taken).state)
  {
    if s.active.None? || !s.started || id != s.active.value.id || tick != s.nextResult {
      FailureKeeps(s);
    } else if s.builder.None? || taken {
      AcceptedResultKeeps(s, tick);
    }
  }

  lemma WritingTouchesBytes(s: State, frame: Option<seq<Byte>>, written: Option<int>, commit: Option<TransportStatus>)
    ensures var t := WriteOutput(s, frame, written, commit).state; t == s.(link := t.link)
  {
  }

  /** Reading, offering and writing change the serial bytes only, and binding the builder only. */
  lemma TransfersTouchBytes(s: State, a: Action)
    requires !s.closed && (a.DoRead? || a.DoOffer? || a.DoWrite? || a.DoBind?)
    ensures var t := Step(s, a).state;
      t == s.(link := t.link, builder := t.builder) && (!a.DoBind? ==> t.builder == s.builder)
  {
    if a.DoWrite? {
      WritingTouchesBytes(s, a.frame, a.written, a.commit);
    }
  }

  // ---------- Bytes ----------

  lemma TakingKeepsBytes(l: Link, n: nat)
    requires BytesConserved(l)
    ensures BytesConserved(TakeBytes(l, n))
  {
    var k := if n <= |l.incoming| then n else |l.incoming|;
    assert l.incoming == l.incoming[..k] + l.incoming[k..];
  }

  lemma SentPrefixGrows(committed: seq<Byte>, whole: seq<Byte>, from: nat, to: nat)
    requires from <= to <= |whole|
    ensures committed + whole[..from] + whole[from..to] == committed + whole[..to]
  {
    assert whole[..from] + whole[from..to] == whole[..to];
  }

  lemma LoadingKeepsBytes(l: Link, frame: Option<seq<Byte>>)
    requires BytesConserved(l)
    ensures BytesConserved(LoadOutput(l, frame))
  {
    if l.output.None? && frame.Some? {
      assert frame.value[..0] == [];
    }
  }

  lemma SendingKeepsBytes(l: Link, n: nat)
    requires BytesConserved(l) && l.output.Some? && l.offset + n <= |l.output.value|
    ensures BytesConserved(SendOutput(l, n))
  {
    var whole := l.output.value;
    SentPrefixGrows(l.committed, whole, l.offset, l.offset + n);
    assert whole[..|whole|] == whole;
  }

  /** `t` differs from `s` only in what the upload's accounting never looks at. */
  ghost predicate Aside(s: State, t: State) {
    t == s.(link := t.link, builder := t.builder, confirmed := t.confirmed, phase := t.phase)
  }

  lemma AsideStages(s: State, t: State, u: Upload)
    requires Aside(s, t)
    ensures InUpload(s, u) ==> InUpload(t, u)
    ensures Waiting(s, u) ==> Waiting(t, u)
    ensures Delivered(s, u) ==> Delivered(t, u)
    ensures Broken(s, u) ==> Broken(t, u)
  {
  }

  lemma AsideKeeps(s: State, t: State)
    requires Inv(s) && !s.closed && Aside(s, t) && BytesConserved(t.link) && PhaseSound(t)
    ensures Inv(t)
  {
    if s.active.Some? {
      AsideStages(s, t, s.active.value);
    }
  }

  // ---------- Every step, every run ----------

  lemma EventKeeps(s: State, e: TransportEvent)
    requires Inv(s) && !s.closed
    ensures Inv(HandleEvent(s, e).state)
  {
    match e {
      case DeliveryConfirmed(now) => ConfirmDeliveryKeeps(s, now);
      case DeliveryFailedEvent => FailureKeeps(s);
      case ProtocolErrorEvent => FailureKeeps(s);
      case SessionReset =>
        FailureKeeps(s.(confirmed := false,
                        link := s.link.(output := None, offset := 0, written := [], committed := [])));
      case SessionEstablished => AsideKeeps(s, s.(confirmed := false, phase := Connecting));
      case OtherEvent =>
    }
  }

  lemma MessageKeeps(s: State, m: Inbound)
    requires Inv(s) && !s.closed
    ensures Inv(HandleMessage(s, m).state)
  {
    match m {
      case SystemInformation(compatible, now) => InformationKeeps(s, compatible, now);
      case ApplicationResponse(r, now) => ResponseKeeps(s, r, now);
      case TestResult(id, tick, taken) => ResultKeeps(s, id, tick, taken);
      case ApplicationError(_, _) =>
      case Unknown => FailureKeeps(s);
      case Garbled =>
    }
  }

  lemma WriteStepBytes(s: State, frame: Option<seq<Byte>>, written: Option<int>, commit: Option<TransportStatus>)
    requires BytesConserved(s.link)
    ensures Aside(s, WriteOutput(s, frame, written, commit).state)
    ensures BytesConserved(WriteOutput(s, frame, written, commit).state.link)
  {
    var l := LoadOutput(s.link, frame);
    LoadingKeepsBytes(s.link, frame);
    if AcceptableWrite(l, written) {
      SendingKeepsBytes(l, written.value);
    }
  }

  lemma LinkStepBytes(s: State, a: Action)
    requires BytesConserved(s.link) && !s.closed && (a.DoRead? || a.DoOffer? || a.DoWrite? || a.DoBind?)
    ensures Aside(s, Step(s, a).state) && BytesConserved(Step(s, a).state.link)
    ensures Step(s, a).state.phase == s.phase
  {
    match a {
      case DoOffer(answer) => TakingKeepsBytes(s.link, answer.consumed);
      case DoWrite(frame, written, commit) => WriteStepBytes(s, frame, written, commit);
      case DoBind(_, _) =>
      case DoRead(data) =>
        assert s.link.consumed + s.link.incoming + data == s.link.consumed + (s.link.incoming + data);
    }
  }

  lemma LinkStepKeeps(s: State, a: Action)
    requires Inv(s) && !s.closed && (a.DoRead? || a.DoOffer? || a.DoWrite? || a.DoBind?)
    ensures Inv(Step(s, a).state)
  {
    LinkStepBytes(s, a);
    AsideKeeps(s, Step(s, a).state);
  }

  lemma InterruptionStages(s: State, u: Upload)
    requires UploadAccounted(s, u)
    ensures UploadAccounted(Close(s, false).state, u)
  {
    var t := Close(s, false).state;
    RecordedGrows(s.log, CloseRaised(s.phase), s.trail, u);
    assert t.log[|s.log|].CloseRaised?;
    assert forall p :: 0 <= p < |s.log| ==> t.log[p] == s.log[p];
    if Delivered(s, u) && PendingKind(s) != Some(CompleteTest) {
      assert Delivered(t, u);
    } else {
      assert Broken(t, u);
    }
  }

  /** A close that raises drops the operations of the upload, but nothing that was established. */
  lemma CloseKeeps(s: State, transportCloses: bool)
    requires Inv(s) && !s.closed
    ensures Inv(Close(s, transportCloses).state)
  {
    if !transportCloses {
      var t, e := Close(s, false).state, CloseRaised(s.phase);
      LogSoundGrows(s.log, e);
      HistoriesGrow(s.log, e, if s.active.Some? then s.active.value.id else 0);
      assert t.log[|s.log|] == e && forall p :: 0 <= p < |s.log| ==> t.log[p] == s.log[p];
      if s.active.Some? {
        InterruptionStages(s, s.active.value);
      }
    }
  }

  lemma CallerStepKeeps(s: State, a: Action)
    requires Inv(s) && !s.closed && (a.DoQueueUpload? || a.DoStart? || a.DoAbort? || a.DoReset? || a.DoClose?)
    ensures Inv(Step(s, a).state)
  {
    match a {
      case DoQueueUpload(u, established) => QueueUploadKeeps(s, u, established);
      case DoStart => RequestStartKeeps(s);
      case DoAbort => RequestAbortKeeps(s);
      case DoReset => RequestResetKeeps(s);
      case DoClose(_) => CloseKeeps(s, a.transportCloses);
    }
  }

  lemma TimerStepKeeps(s: State, a: Action)
    requires Inv(s) && !s.closed && (a.DoProcess? || a.DoCheckTimeout?)
    ensures Inv(Step(s, a).state)
  {
    if Step(s, a).raised.Some? {
      FailureKeeps(s);
    }
  }

  lemma ServiceStepKeeps(s: State, a: Action)
    requires Inv(s) && !s.closed && (a.DoProcess? || a.DoAdvance? || a.DoCheckTimeout? || a.DoSubmit?)
    ensures Inv(Step(s, a).state)
  {
    match a {
      case DoAdvance(established) => AdvanceKeeps(s, established);
      case DoSubmit(established, status) => SubmitKeeps(s, established, status);
      case _ => TimerStepKeeps(s, a);
    }
  }

  lemma InputStepKeeps(s: State, a: Action)
    requires Inv(s) && !s.closed && (a.DoEvent? || a.DoMessage?)
    ensures Inv(Step(s, a).state)
  {
    match a {
      case DoEvent(e) => EventKeeps(s, e);
      case DoMessage(m) => MessageKeeps(s, m);
    }
  }

  lemma OpenStepKeeps(s: State, a: Action)
    requires Inv(s) && !s.closed
    ensures Inv(Step(s, a).state)
  {
    if a.DoProcess? || a.DoAdvance? || a.DoCheckTimeout? || a.DoSubmit? {
      ServiceStepKeeps(s, a);
    } else if a.DoEvent? || a.DoMessage? {
      InputStepKeeps(s, a);
    } else if a.DoRead? || a.DoOffer? || a.DoWrite? || a.DoBind? {
      LinkStepKeeps(s, a);
    } else {
      CallerStepKeeps(s, a);
    }
  }

  lemma StepKeeps(s: State, a: Action)
    requires Inv(s)
    ensures Inv(Step(s, a).state)
  {
    if !s.closed {
      OpenStepKeeps(s, a);
    }
  }

  lemma {:induction false} EveryRunKeeps(timeout: int, actions: seq<Action>)
    ensures Inv(Run(Initial(timeout), actions))
    decreases |actions|
  {
    if actions != [] {
      EveryRunKeeps(timeout, actions[..|actions| - 1]);
      StepKeeps(Run(Initial(timeout), actions[..|actions| - 1]), actions[|actions| - 1]);
    }
  }

  lemma ReachableStatesAreSound(s: State)
    requires Reachable(s)
    ensures Inv(s)
  {
    var timeout, actions :| s == Run(Initial(timeout), actions);
    EveryRunKeeps(timeout, actions);
  }
}
