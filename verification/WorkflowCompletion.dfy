/**
 When a run reports completion. Receiving every result is not enough: the phase RESULTS_COMPLETE can be
 covered, restored and lost again. The actions that do so are named here, and completion is reported exactly
 when the last of them reported it.
 */
module WorkflowCompletion {
  import opened Basics
  import opened Definition
  import opened Workflow
  import opened WorkflowSafety

  // ---------- What one action does to the report ----------

  function Finishing(s: State): Option<Operation> {
    if s.pending.Some? && s.pending.value.responseReceived && !s.deliveryPending
      && s.pending.value.EveryMessageSubmitted()
    then s.pending else None
  }

  /** The operation that an action brings to its end, with the outcome it ends with. */
  function Ends(s: State, a: Action): Option<Operation> {
    if s.pending.None? then None
    else match a
      case DoEvent(DeliveryConfirmed(now)) => if s.deliveryPending then Finishing(NoteDelivery(s, now)) else None
      case DoMessage(ApplicationResponse(r, _)) =>
        if s.pending.value.request.kind != Discovery && Matches(r, s.pending.value.request)
          then Finishing(NoteAnswer(s, r)) else None
      case DoMessage(SystemInformation(compatible, _)) =>
        if s.pending.value.request.kind == Discovery && compatible
        then Finishing(s.(pending := Some(s.pending.value.(responseReceived := true)))) else None
      case _ => None
  }

  /** The last expected result of the active upload arrives in sequence and is taken. */
  predicate CompletesResults(s: State, a: Action) {
    && a.DoMessage? && a.message.TestResult?
    && s.active.Some? && s.started && a.message.id == s.active.value.id && a.message.tick == s.nextResult
    && (s.builder.None? || a.message.taken)
    && s.nextResult + 1 == Expected(s.active.value)
  }

  /** An abort or reset that was requested in RESULTS_COMPLETE ends rejected. */
  predicate ReturnsToCompletion(s: State, a: Action) {
    var op := Ends(s, a);
    && op.Some? && (op.value.request.kind == Abort || op.value.request.kind == Reset)
    && op.value.error == Some(OutcomeRejected) && op.value.previousPhase == Some(ResultsComplete)
  }

  predicate Reports(s: State, a: Action) {
    !s.closed && (CompletesResults(s, a) || ReturnsToCompletion(s, a))
  }

  /**
   What fails the workflow outright: failed or unexpected deliveries, bad statuses, overdue or unfitting answers,
   misplaced results.
   */
  predicate Fatal(s: State, a: Action) {
    match a
    case DoProcess(status) => status == StatusDeliveryFailed
    case DoCheckTimeout(now) =>
      && s.pending.Some? && !s.pending.value.responseReceived
      && s.pending.value.deadline.Some? && now >= s.pending.value.deadline.value
    case DoSubmit(established, status) =>
      CanSubmit(s, established) && status !in {StatusOk, StatusNotReady, StatusCapacityExhausted}
    case DoEvent(DeliveryConfirmed(_)) => s.pending.None? || !s.deliveryPending
    case DoEvent(e) => e.DeliveryFailedEvent? || e.ProtocolErrorEvent? || e.SessionReset?
    case DoMessage(SystemInformation(compatible, _)) => PendingKind(s) != Some(Discovery) || !compatible
    case DoMessage(ApplicationResponse(r, _)) =>
      s.pending.None? || s.pending.value.request.kind == Discovery || !Matches(r, s.pending.value.request)
    case DoMessage(TestResult(id, tick, _)) =>
      s.active.None? || !s.started || id != s.active.value.id || tick != s.nextResult
    case DoMessage(m) => m.Unknown?
    case _ => false
  }

  /** A request of the caller that meets the conditions of its kind. */
  predicate Grants(s: State, a: Action) {
    match a
    case DoAbort => s.active.Some? && !Busy(s)
    case DoReset => s.confirmed && !Busy(s)
    case DoStart =>
      && s.active.Some? && s.accepted && s.phase == ReadyToStart && s.active.value.startMode != ExternalTrigger
      && !Busy(s)
    case DoQueueUpload(u, _) =>
      && s.active.None? && s.operations == [] && PendingKind(s) in {None, Some(Discovery)}
      && u.id !in s.retired && (s.builder.Some? ==> Belongs(s.builder.value, u))
    case _ => false
  }

  lemma GrantedExactlyWhen(s: State, a: Action)
    requires !s.closed && (a.DoAbort? || a.DoReset? || a.DoStart? || a.DoQueueUpload?)
    ensures Grants(s, a) <==> Step(s, a).raised.None?
  {
  }

  /**
   What takes the report away: a failure, a new session, an accepted request of the caller, a new operation,
   or the end of any operation other than a rejected abort or reset requested in RESULTS_COMPLETE.
   */
  predicate Hides(s: State, a: Action) {
    && !s.closed
    && (|| Fatal(s, a)
        || a == DoEvent(SessionEstablished)
        || Grants(s, a)
        || (a.DoAdvance? && a.established && s.pending.None? && (!s.confirmed || s.operations != []))
        || (Ends(s, a).Some? && !ReturnsToCompletion(s, a)))
  }

  lemma FatalTransferFails(s: State, a: Action)
    requires !s.closed && Fatal(s, a) && !a.DoMessage? && !a.DoEvent?
    ensures SameButFailed(s, Step(s, a).state)
  {
  }

  /** The operation is gone, the upload stays, and the phase says that the workflow failed. */
  predicate SameButFailed(s: State, t: State) {
    t.pending.None? && !t.accepted && !t.started && t.phase == Failed && t.active == s.active && !t.closed
  }

  lemma FatalFails(s: State, a: Action)
    requires !s.closed && Fatal(s, a)
    ensures SameButFailed(s, Step(s, a).state)
  {
    match a {
      case DoMessage(m) =>
        match m {
          case ApplicationResponse(r, now) =>
          case SystemInformation(compatible, now) =>
          case _ =>
        }
      case DoEvent(_) =>
      case _ => FatalTransferFails(s, a);
    }
  }

  lemma EndsSetThePhase(s: State, now: int)
    requires Finishing(s).Some?
    ensures var op, t := s.pending.value, FinishPending(s, now).state;
      t.phase == ResultsComplete
      <==> && (op.request.kind == Abort || op.request.kind == Reset)
           && op.error == Some(OutcomeRejected) && op.previousPhase == Some(ResultsComplete)
  {
    var op, t := s.pending.value, s.(pending := None);
    if op.error.Some? {
      assert FinishPending(s, now).state == HandleNegative(t, op);
    } else {
      match op.request.kind {
        case Configure => assert FinishPending(s, now) == NextUploadOperation(t, op, now);
        case Tick => assert FinishPending(s, now) == NextUploadOperation(t, op, now);
        case _ =>
      }
    }
  }

  /** What one action does to the report: it sets it, takes it away, or leaves the phase alone. */
  ghost predicate Reporting(s: State, a: Action, phase: Phase) {
    if Reports(s, a) then phase == ResultsComplete
    else if Hides(s, a) then phase != ResultsComplete
    else phase == s.phase
  }

  lemma FinishingReports(s: State, a: Action, noted: State, now: int)
    requires !s.closed && noted.pending.Some? && noted.phase == s.phase && Ends(s, a) == Finishing(noted)
    requires !CompletesResults(s, a) && !Fatal(s, a) && (a.DoEvent? ==> !a.event.SessionEstablished?)
    requires a.DoEvent? || a.DoMessage?
    ensures Reporting(s, a, FinishPending(noted, now).state.phase)
  {
    if Finishing(noted).Some? {
      EndsSetThePhase(noted, now);
    }
  }

  lemma MessageReports(s: State, a: Action)
    requires !s.closed && a.DoMessage?
    ensures Reporting(s, a, Step(s, a).state.phase)
  {
    match a.message {
      case SystemInformation(compatible, now) =>
        if !Fatal(s, a) {
          FinishingReports(s, a, s.(pending := Some(s.pending.value.(responseReceived := true))), now);
        }
      case ApplicationResponse(r, now) =>
        if !Fatal(s, a) {
          AnswerFinishes(s, r, now);
          FinishingReports(s, a, NoteAnswer(s, r), now);
        }
      case _ =>
    }
  }

  lemma EventReports(s: State, a: Action)
    requires !s.closed && a.DoEvent?
    ensures Reporting(s, a, Step(s, a).state.phase)
  {
    if a.event.DeliveryConfirmed? && !Fatal(s, a) {
      FinishingReports(s, a, NoteDelivery(s, a.event.now), a.event.now);
    }
  }

  lemma QueueingReports(s: State, u: Upload, established: bool)
    requires CompletePhaseEarned(s, s.phase) && !s.closed
    ensures Reporting(s, DoQueueUpload(u, established), QueueUpload(s, u, established).state.phase)
  {
  }

  lemma CallReports(s: State, a: Action)
    requires !s.closed && (a.DoStart? || a.DoAbort? || a.DoReset? || a.DoBind? || a.DoClose?)
    ensures Reporting(s, a, Step(s, a).state.phase)
  {
  }

  lemma TransferReports(s: State, a: Action)
    requires !s.closed && (a.DoRead? || a.DoOffer? || a.DoWrite?)
    ensures Reporting(s, a, Step(s, a).state.phase)
  {
  }

  lemma ServiceReports(s: State, a: Action)
    requires !s.closed && (a.DoProcess? || a.DoAdvance? || a.DoCheckTimeout? || a.DoSubmit?)
    ensures Reporting(s, a, Step(s, a).state.phase)
  {
  }

  lemma StepReports(s: State, a: Action)
    requires Inv(s)
    ensures Reporting(s, a, Step(s, a).state.phase)
  {
    if !s.closed {
      match a {
        case DoMessage(_) => MessageReports(s, a);
        case DoEvent(_) => EventReports(s, a);
        case DoQueueUpload(u, established) => QueueingReports(s, u, established);
        case DoRead(_) => TransferReports(s, a);
        case DoOffer(_) => TransferReports(s, a);
        case DoWrite(_, _, _) => TransferReports(s, a);
        case DoStart => CallReports(s, a);
        case DoAbort => CallReports(s, a);
        case DoReset => CallReports(s, a);
        case DoBind(_, _) => CallReports(s, a);
        case DoClose(_) => CallReports(s, a);
        case _ => ServiceReports(s, a);
      }
    }
  }

  // ---------- Whole runs ----------

  predicate ReportsAt(s: State, actions: seq<Action>, k: nat)
    requires k < |actions|
  {
    Reports(Run(s, actions[..k]), actions[k])
  }

  predicate HidesAt(s: State, actions: seq<Action>, k: nat)
    requires k < |actions|
  {
    Hides(Run(s, actions[..k]), actions[k])
  }

  /** The action at `k` reported completion and none after it hid it. */
  ghost predicate ReportStands(s: State, actions: seq<Action>, k: nat)
    requires k < |actions|
  {
    ReportsAt(s, actions, k) && forall j :: k < j < |actions| ==> !HidesAt(s, actions, j)
  }

  lemma PrefixReportsAlike(s: State, actions: seq<Action>, n: nat)
    requires n <= |actions|
    ensures forall k :: 0 <= k < n ==> (ReportsAt(s, actions[..n], k) <==> ReportsAt(s, actions, k))
    ensures forall k :: 0 <= k < n ==> (HidesAt(s, actions[..n], k) <==> HidesAt(s, actions, k))
  {
    assert forall k :: 0 <= k < n ==> actions[..n][..k] == actions[..k];
  }

  function ReportFlags(s: State, actions: seq<Action>): seq<bool> {
    seq(|actions|, k requires 0 <= k < |actions| => ReportsAt(s, actions, k))
  }

  function HideFlags(s: State, actions: seq<Action>): seq<bool> {
    seq(|actions|, k requires 0 <= k < |actions| => HidesAt(s, actions, k))
  }

  /** A flag is set at `k` and not taken back later. */
  ghost predicate Stands(sets: seq<bool>, clears: seq<bool>, k: nat)
    requires k < |sets| == |clears|
  {
    sets[k] && forall j :: k < j < |clears| ==> !clears[j]
  }

  ghost predicate SomeStands(sets: seq<bool>, clears: seq<bool>)
    requires |sets| == |clears|
  {
    exists k: nat :: k < |sets| && Stands(sets, clears, k)
  }

  lemma StandsOneLonger(sets: seq<bool>, clears: seq<bool>, n: nat)
    requires |sets| == |clears| == n + 1
    ensures SomeStands(sets, clears) <==> sets[n] || (!clears[n] && SomeStands(sets[..n], clears[..n]))
  {
    if sets[n] {
      assert Stands(sets, clears, n);
    } else if k: nat :| k < |sets| && Stands(sets, clears, k) {
      assert Stands(sets[..n], clears[..n], k);
    } else if !clears[n] && SomeStands(sets[..n], clears[..n]) {
      var j: nat :| j < n && Stands(sets[..n], clears[..n], j);
      assert Stands(sets, clears, j);
    }
  }

  ghost predicate SomeReportStands(s: State, actions: seq<Action>) {
    exists k: nat :: k < |actions| && ReportStands(s, actions, k)
  }

  lemma StandsByFlags(s: State, actions: seq<Action>, k: nat)
    requires k < |actions|
    ensures ReportStands(s, actions, k) <==> Stands(ReportFlags(s, actions), HideFlags(s, actions), k)
  {
    var clears := HideFlags(s, actions);
    assert forall j: nat :: j < |actions| ==> clears[j] == HidesAt(s, actions, j);
  }

  lemma SomeStandsByFlags(s: State, actions: seq<Action>)
    ensures SomeReportStands(s, actions) <==> SomeStands(ReportFlags(s, actions), HideFlags(s, actions))
  {
    forall k: nat | k < |actions|
      ensures ReportStands(s, actions, k) <==> Stands(ReportFlags(s, actions), HideFlags(s, actions), k)
    {
      StandsByFlags(s, actions, k);
    }
  }

  lemma FlagsOfPrefix(s: State, actions: seq<Action>, n: nat)
    requires n <= |actions|
    ensures ReportFlags(s, actions[..n]) == ReportFlags(s, actions)[..n]
    ensures HideFlags(s, actions[..n]) == HideFlags(s, actions)[..n]
  {
    PrefixReportsAlike(s, actions, n);
  }

  /** The report of a longer run: made by the last action, or made before and not hidden by it. */
  lemma ReportExtends(s: State, actions: seq<Action>, n: nat)
    requires |actions| == n + 1
    ensures SomeReportStands(s, actions)
      <==> ReportsAt(s, actions, n) || (!HidesAt(s, actions, n) && SomeReportStands(s, actions[..n]))
  {
    SomeStandsByFlags(s, actions);
    SomeStandsByFlags(s, actions[..n]);
    FlagsOfPrefix(s, actions, n);
    StandsOneLonger(ReportFlags(s, actions), HideFlags(s, actions), n);
  }

  /**
   Over every run: the workflow is in RESULTS_COMPLETE exactly when some action reported completion (the last expected
   result arrived, or an abort or reset requested in RESULTS_COMPLETE was rejected) and no later action hid it.
   */
  lemma {:induction false} CompletionIsReportedExactlyWhen(timeout: int, actions: seq<Action>)
    ensures Run(Initial(timeout), actions).phase == ResultsComplete
      <==> SomeReportStands(Initial(timeout), actions)
    decreases |actions|
  {
    if actions != [] {
      var n := |actions| - 1;
      CompletionIsReportedExactlyWhen(timeout, actions[..n]);
      EveryRunKeeps(timeout, actions[..n]);
      StepReports(Run(Initial(timeout), actions[..n]), actions[n]);
      ReportExtends(Initial(timeout), actions, n);
    }
  }

  // ---------- Every result is in, and completion is not reported ----------

  /** Every expected result of the active upload was accepted. */
  predicate AllIn(s: State) {
    s.active.Some? && 0 < Expected(s.active.value) <= s.nextResult
  }

  lemma FinishingAddsNoResult(s: State, now: int)
    ensures AllIn(FinishPending(s, now).state) ==> AllIn(s)
  {
    if Releases(s) {
      assert !Answerable(s) || RetireActiveUpload(s.(pending := None)).active.None?;
    } else {
      FinishingIsMostlySilent(s, now);
      NextResultStays(s, now);
    }
  }

  lemma NextResultStays(s: State, now: int)
    requires !Releases(s)
    ensures FinishPending(s, now).state.nextResult == s.nextResult
  {
    if s.pending.Some? {
      match s.pending.value.request.kind {
        case Configure =>
        case Tick =>
        case _ =>
      }
    }
  }

  lemma ReactionsAddNoResult(s: State, a: Action)
    requires !s.closed && AllIn(Step(s, a).state)
    requires if a.DoMessage? then !a.message.TestResult? else a.DoEvent?
    ensures AllIn(s)
  {
    match a {
      case DoMessage(ApplicationResponse(r, now)) =>
        if s.pending.Some? { FinishingAddsNoResult(NoteAnswer(s, r), now); }
      case DoMessage(SystemInformation(_, now)) =>
        if s.pending.Some? {
          FinishingAddsNoResult(s.(pending := Some(s.pending.value.(responseReceived := true))), now);
        }
      case DoEvent(DeliveryConfirmed(now)) =>
        if s.pending.Some? { FinishingAddsNoResult(NoteDelivery(s, now), now); }
      case _ =>
    }
  }

  lemma OthersAddNoResult(s: State, a: Action)
    requires !a.DoMessage? && !a.DoEvent? && AllIn(Step(s, a).state)
    ensures AllIn(s)
  {
  }

  /** Only the last expected result completes the results. */
  lemma AllInByCompletion(s: State, a: Action)
    requires AllIn(Step(s, a).state) && !AllIn(s)
    ensures !s.closed && CompletesResults(s, a)
  {
    if !s.closed {
      if !a.DoMessage? && !a.DoEvent? {
        OthersAddNoResult(s, a);
      } else if a.DoEvent? || !a.message.TestResult? {
        ReactionsAddNoResult(s, a);
      }
    }
  }

  lemma {:induction false} AllInWasReported(timeout: int, actions: seq<Action>)
    requires AllIn(Run(Initial(timeout), actions))
    ensures exists k: nat :: k < |actions| && ReportsAt(Initial(timeout), actions, k)
    decreases |actions|
  {
    if actions != [] {
      var n := |actions| - 1;
      PrefixReportsAlike(Initial(timeout), actions, n);
      if AllIn(Run(Initial(timeout), actions[..n])) {
        AllInWasReported(timeout, actions[..n]);
      } else {
        AllInByCompletion(Run(Initial(timeout), actions[..n]), actions[n]);
        assert ReportsAt(Initial(timeout), actions, n);
      }
    }
  }

  /** The last action of the run that reported completion. */
  ghost predicate LastReport(s: State, actions: seq<Action>, k: nat)
    requires k < |actions|
  {
    ReportsAt(s, actions, k) && forall j :: k < j < |actions| ==> !ReportsAt(s, actions, j)
  }

  lemma {:induction false} SomeReportIsLast(s: State, actions: seq<Action>, k: nat) returns (last: nat)
    requires k < |actions| && ReportsAt(s, actions, k)
    ensures last < |actions| && LastReport(s, actions, last)
    decreases |actions| - k
  {
    if j: nat :| k < j < |actions| && ReportsAt(s, actions, j) {
      last := SomeReportIsLast(s, actions, j);
    } else {
      last := k;
    }
  }

  /** A report that stands is the last report, because reports do not hide. */
  lemma ReportsDoNotHide(s: State, a: Action)
    requires Reports(s, a)
    ensures !Hides(s, a)
  {
  }

  /**
   When every expected result was accepted, completion was reported at some point of the run, and it goes unreported
   now exactly when some action after the last report hid it.
   */
  lemma CompletionIsHiddenExactlyWhen(timeout: int, actions: seq<Action>) returns (last: nat)
    requires AllIn(Run(Initial(timeout), actions))
    ensures last < |actions| && LastReport(Initial(timeout), actions, last)
    ensures Run(Initial(timeout), actions).phase != ResultsComplete
      <==> exists j :: last < j < |actions| && HidesAt(Initial(timeout), actions, j)
  {
    var s := Initial(timeout);
    AllInWasReported(timeout, actions);
    var k: nat :| k < |actions| && ReportsAt(s, actions, k);
    last := SomeReportIsLast(s, actions, k);
    CompletionIsReportedExactlyWhen(timeout, actions);
    if r: nat :| r < |actions| && ReportStands(s, actions, r) {
      if r < last {
        ReportsDoNotHide(Run(s, actions[..last]), actions[last]);
      }
    } else {
      assert !ReportStands(s, actions, last);
    }
  }
}
