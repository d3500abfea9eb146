/**
 Progress of an upload on a confirmed session. Whatever else goes on, every useful event (a submission, a
 delivery confirmation, the first positive answer) uses up one unit of a fixed amount of work, everything else
 that does not disturb the upload uses none, a useful event is always possible, and when the work is gone the
 upload has been validated.
 */
module WorkflowProgress {
  import opened Basics
  import opened Definition
  import opened Workflow
  import opened WorkflowSafety
  import opened WorkflowService
  import opened WorkflowCompletion
  import opened WorkflowTheorems

  /** One useful event: a successful submission, a delivery confirmation, or the first, positive answer. */
  predicate Useful(s: State, a: Action) {
    match a
    case DoSubmit(established, status) => established && status == StatusOk && CanSubmit(s, true)
    case DoEvent(e) => e.DeliveryConfirmed? && s.deliveryPending
    case DoMessage(m) =>
      && m.ApplicationResponse? && s.pending.Some? && !s.pending.value.responseReceived
      && Matches(m.response, s.pending.value.request) && m.response.outcome == OutcomeAccepted
    case _ => false
  }

  /** A matching answer with another outcome than the one that lets the upload go on. */
  predicate Refuses(s: State, a: Action) {
    && a.DoMessage? && a.message.ApplicationResponse? && s.pending.Some?
    && Matches(a.message.response, s.pending.value.request) && a.message.response.outcome != OutcomeAccepted
  }

  /** What takes an upload off its course: a failure, a refusal, a new session, or a close. */
  predicate Disturbs(s: State, a: Action) {
    Fatal(s, a) || Refuses(s, a) || a == DoEvent(SessionEstablished) || a.DoClose?
  }

  /** The upload is under way without a refusal, and its pending operation still waits for something. */
  ghost predicate Unfinished(s: State, u: Upload) {
    && Inv(s) && !s.closed && s.confirmed && s.active == Some(u)
    && (UploadPending(s) || PendingKind(s) == Some(CompleteTest))
    && s.pending.value.error.None? && !Answerable(s)
  }

  /** Validated: waiting for START, or already starting when the test starts immediately. */
  ghost predicate Validated(s: State, u: Upload) {
    && Inv(s) && !s.closed && s.confirmed && s.active == Some(u) && s.accepted
    && s.phase == (if u.startMode == Immediate then Starting else ReadyToStart)
    && PendingKind(s) == (if u.startMode == Immediate then Some(Start) else None)
  }

  /** Submission, confirmation and answer for each upload message still outstanding, and the validation answer. */
  function Work(s: State): nat {
    if s.pending.None? then 0
    else if UploadPending(s) then
      3 * |s.operations| + 1
      + (if s.pending.value.nextMessage == 0 then 2 else if s.deliveryPending then 1 else 0)
      + (if s.pending.value.responseReceived then 0 else 1)
    else if PendingKind(s) == Some(CompleteTest) then 1
    else 0
  }

  // ---------- What one step does ----------

  lemma InUploadOf(s: State, u: Upload)
    requires Unfinished(s, u) && UploadPending(s)
    ensures InUpload(s, u) && |s.pending.value.messages| == 1
  {
  }

  lemma SubmissionWorks(s: State, u: Upload)
    requires Unfinished(s, u) && CanSubmit(s, true)
    ensures var r := Submit(s, true, StatusOk); r.raised.None? && Unfinished(r.state, u) && Work(r.state) + 1 == Work(s)
  {
    SubmitKeeps(s, true, StatusOk);
    if UploadPending(s) {
      InUploadOf(s, u);
    }
  }

  lemma NextOperationShape(s: State, u: Upload, now: int)
    requires InUpload(s, u) && s.active == Some(u) && Answerable(s)
    ensures var r := FinishPending(s, now); var t := r.state;
      && r.raised.None? && t.closed == s.closed && t.confirmed == s.confirmed && t.active == s.active
      && (UploadPending(t) || PendingKind(t) == Some(CompleteTest))
      && t.pending.value.error.None? && !t.pending.value.responseReceived
      && Work(t) == 3 * |s.operations| + 1
  {
    if s.operations != [] {
      assert s.operations[0] == UploadOperation(u, MessageCount(u) - |s.operations|);
    }
  }

  /** After finishing a positively answered upload operation the next one, or validation, has everything left to do. */
  lemma NextOperationWorks(s: State, u: Upload, now: int)
    requires Inv(s) && !s.closed && s.confirmed && s.active == Some(u) && UploadPending(s) && Answerable(s)
    ensures var r := FinishPending(s, now);
      r.raised.None? && Unfinished(r.state, u) && Work(r.state) == 3 * |s.operations| + 1
  {
    assert InUpload(s, u);
    NextOperationShape(s, u, now);
    FinishKeeps(s, now);
  }

  lemma ConfirmationShape(s: State, u: Upload, now: int)
    requires InUpload(s, u) && s.deliveryPending && s.pending.value.nextMessage == 1 && s.pending.value.error.None?
    ensures var t := NoteDelivery(s, now);
      && t.closed == s.closed && t.confirmed == s.confirmed && t.active == s.active && t.operations == s.operations
      && UploadPending(t) && t.pending.value.error.None?
      && (if Answerable(t) then Work(s) == 3 * |s.operations| + 2
          else FinishPending(t, now) == Done(t) && Work(t) + 1 == Work(s))
  {
  }

  lemma ConfirmationWorks(s: State, u: Upload, now: int)
    requires Unfinished(s, u) && s.deliveryPending
    ensures var r := ConfirmDelivery(s, now);
      r.raised.None? && Unfinished(r.state, u) && Work(r.state) + 1 == Work(s)
  {
    InUploadOf(s, u);
    var t := NoteDelivery(s, now);
    ConfirmationShape(s, u, now);
    ConfirmedUploadKeeps(s, now);
    ConfirmationFinishes(s, now);
    if Answerable(t) {
      NextOperationWorks(t, u, now);
    }
  }

  lemma ConfirmationFinishes(s: State, now: int)
    requires s.pending.Some? && s.deliveryPending
    ensures ConfirmDelivery(s, now) == FinishPending(NoteDelivery(s, now), now)
  {
  }

  lemma UploadAnswerWorks(s: State, u: Upload, r: Response, now: int)
    requires Unfinished(s, u) && UploadPending(s) && Useful(s, DoMessage(ApplicationResponse(r, now)))
    ensures var t := HandleResponse(s, r, now); t.raised.None? && Unfinished(t.state, u) && Work(t.state) + 1 == Work(s)
  {
    InUploadOf(s, u);
    AnswerFinishes(s, r, now);
    UploadAnswerKeeps(s, r);
    if Answerable(NoteAnswer(s, r)) {
      NextOperationWorks(NoteAnswer(s, r), u, now);
    }
  }

  lemma ValidationShape(s: State, u: Upload, now: int)
    requires s.active == Some(u) && PendingKind(s) == Some(CompleteTest) && Answerable(s) && !s.closed
    ensures var r := FinishPending(s, now); var t := r.state;
      && r.raised.None? && !t.closed && t.confirmed == s.confirmed && t.active == s.active && t.accepted && Work(t) == 0
      && t.phase == (if u.startMode == Immediate then Starting else ReadyToStart)
      && PendingKind(t) == (if u.startMode == Immediate then Some(Start) else None)
  {
  }

  lemma ValidationAnswerWorks(s: State, u: Upload, r: Response, now: int)
    requires Unfinished(s, u) && PendingKind(s) == Some(CompleteTest)
      && Useful(s, DoMessage(ApplicationResponse(r, now)))
    ensures var t := HandleResponse(s, r, now); t.raised.None? && Validated(t.state, u) && Work(t.state) == 0
  {
    LateAnswerKeeps(s, r);
    AnswerFinishes(s, r, now);
    ValidationShape(NoteAnswer(s, r), u, now);
    FinishKeeps(NoteAnswer(s, r), now);
  }

  /** The measure: a useful step either uses one unit of work or, with the last unit, validates the upload. */
  lemma UsefulStepWorks(s: State, u: Upload, a: Action)
    requires Unfinished(s, u) && Useful(s, a)
    ensures var t := Step(s, a);
      && t.raised.None? && Work(t.state) + 1 == Work(s)
      && (if Work(s) == 1 then Validated(t.state, u) else Unfinished(t.state, u))
  {
    match a {
      case DoSubmit(_, _) => SubmissionWorks(s, u);
      case DoEvent(e) => ConfirmationWorks(s, u, e.now);
      case DoMessage(m) =>
        if UploadPending(s) {
          UploadAnswerWorks(s, u, m.response, m.now);
        } else {
          ValidationAnswerWorks(s, u, m.response, m.now);
        }
    }
  }

  /** As long as the upload is unfinished, some useful event can come next. */
  lemma UsefulEventIsPossible(s: State, u: Upload)
    requires Unfinished(s, u)
    ensures exists a :: Useful(s, a)
  {
    if CanSubmit(s, true) {
      assert Useful(s, DoSubmit(true, StatusOk));
    } else if s.deliveryPending {
      assert Useful(s, DoEvent(DeliveryConfirmed(0)));
    } else {
      var q := s.pending.value.request;
      var tick := if q.tick.Some? then q.tick.value else 0;
      var r := Response(q.id, ExpectedScope(q.kind), OutcomeAccepted, tick, InvalidCommand, InvalidGlobalCommand);
      if UploadPending(s) {
        InUploadOf(s, u);
      }
      assert Useful(s, DoMessage(ApplicationResponse(r, 0)));
    }
  }

  // ---------- What is not useful and does not disturb ----------

  /** The upload is where it was. */
  ghost predicate SameCourse(s: State, t: State, u: Upload) {
    && Unfinished(t, u) && Work(t) == Work(s) && UploadPending(t) == UploadPending(s)
    && t.trail.submitted == s.trail.submitted && t.trail.confirmed == s.trail.confirmed
    && t.trail.accepted == s.trail.accepted
  }

  /** Callers are refused, and bytes, and attempts to advance, submit, process or time out, come to nothing. */
  lemma IdleStepChangesNothing(s: State, a: Action)
    requires !s.closed && s.confirmed && s.pending.Some? && s.active.Some? && !s.accepted
    requires !Disturbs(s, a) && !Useful(s, a) && !a.DoMessage? && !a.DoEvent?
    ensures var t := Step(s, a).state; t == s.(link := t.link, builder := t.builder)
  {
    if a.DoQueueUpload? || a.DoStart? || a.DoAbort? || a.DoReset? || a.DoBind? {
    } else if a.DoProcess? || a.DoCheckTimeout? || a.DoSubmit? || a.DoAdvance? {
    }
  }

  lemma RepeatedAnswerKeeps(s: State, u: Upload, r: Response, now: int)
    requires Unfinished(s, u) && s.pending.value.responseReceived
    requires Matches(r, s.pending.value.request) && r.outcome == OutcomeAccepted
    ensures var t := HandleResponse(s, r, now); t.raised.None? && SameCourse(s, t.state, u)
  {
    NotedAnswerKeeps(s, r);
    AnswerFinishes(s, r, now);
    RepeatedAnswerShape(s, r, now);
  }

  /** A repeated positive answer to an operation that is not finished is noted, and nothing else. */
  lemma RepeatedAnswerShape(s: State, r: Response, now: int)
    requires s.pending.Some? && s.pending.value.responseReceived && s.pending.value.error.None? && !Answerable(s)
    requires r.outcome == SuccessfulOutcome(s.pending.value.request.kind)
    ensures var t := NoteAnswer(s, r);
      && t == s.(log := t.log) && FinishPending(t, now) == Done(t)
  {
  }

  lemma NeutralMessageKeeps(s: State, u: Upload, m: Inbound)
    requires Unfinished(s, u) && !Disturbs(s, DoMessage(m)) && !Useful(s, DoMessage(m))
    ensures SameCourse(s, HandleMessage(s, m).state, u)
  {
    if m.ApplicationResponse? {
      RepeatedAnswerKeeps(s, u, m.response, m.now);
    }
  }

  /** What is not useful and does not disturb leaves the upload where it was. */
  lemma NeutralStepKeeps(s: State, u: Upload, a: Action)
    requires Unfinished(s, u) && !Disturbs(s, a) && !Useful(s, a)
    ensures SameCourse(s, Step(s, a).state, u)
  {
    if a.DoMessage? {
      NeutralMessageKeeps(s, u, a.message);
    } else if a.DoEvent? {
    } else {
      IdleStepChangesNothing(s, a);
      StepKeeps(s, a);
    }
  }

  lemma DisturbedResponse(s: State, u: Upload, r: Response, now: int)
    requires Unfinished(s, u) && Matches(r, s.pending.value.request) && r.outcome != OutcomeAccepted
    ensures var t := HandleResponse(s, r, now).state; !Unfinished(t, u) && !Validated(t, u)
  {
    AnswerFinishes(s, r, now);
  }

  /** The disturbances are exactly what takes an unfinished upload off its course. */
  lemma DisturbedExactlyWhen(s: State, u: Upload, a: Action)
    requires Unfinished(s, u)
    ensures Disturbs(s, a) <==> !Unfinished(Step(s, a).state, u) && !Validated(Step(s, a).state, u)
  {
    if Useful(s, a) {
      UsefulStepWorks(s, u, a);
    } else if !Disturbs(s, a) {
      NeutralStepKeeps(s, u, a);
    } else {
      assert !s.accepted;
      DisturbanceLeavesCourse(s, u, a);
    }
  }

  lemma DisturbanceLeavesCourse(s: State, u: Upload, a: Action)
    requires Unfinished(s, u) && !s.accepted && Disturbs(s, a)
    ensures !Unfinished(Step(s, a).state, u) && !Validated(Step(s, a).state, u)
  {
    if Fatal(s, a) {
      FatalFails(s, a);
    } else if Refuses(s, a) {
      DisturbedResponse(s, u, a.message.response, a.message.now);
    }
  }

  // ---------- Whole schedules ----------

  function Submissions(actions: seq<Action>): nat {
    if actions == [] then 0
    else Submissions(actions[..|actions| - 1]) + if actions[|actions| - 1].DoSubmit? then 1 else 0
  }

  function Confirmations(actions: seq<Action>): nat {
    if actions == [] then 0
    else Confirmations(actions[..|actions| - 1]) + if actions[|actions| - 1].DoEvent? then 1 else 0
  }

  function Answers(actions: seq<Action>): nat {
    if actions == [] then 0
    else Answers(actions[..|actions| - 1]) + if actions[|actions| - 1].DoMessage? then 1 else 0
  }

  /** The upload has been validated at some point of the run. */
  ghost predicate WasValidated(s: State, u: Upload, actions: seq<Action>)
    decreases |actions|
  {
    Validated(Run(s, actions), u) || (actions != [] && WasValidated(s, u, actions[..|actions| - 1]))
  }

  /** The useful actions of a run, up to validation. */
  ghost function UsefulOnes(s: State, u: Upload, actions: seq<Action>): seq<Action>
    decreases |actions|
  {
    if actions == [] then []
    else
      var before, last := actions[..|actions| - 1], actions[|actions| - 1];
      UsefulOnes(s, u, before) + if !WasValidated(s, u, before) && Useful(Run(s, before), last) then [last] else []
  }

  /** Nothing disturbs the upload before it is validated; what happens afterwards does not matter. */
  ghost predicate Undisturbed(s: State, u: Upload, actions: seq<Action>)
    decreases |actions|
  {
    actions == [] ||
    var before, last := actions[..|actions| - 1], actions[|actions| - 1];
    Undisturbed(s, u, before) && (WasValidated(s, u, before) || !Disturbs(Run(s, before), last))
  }

  lemma FinishingLeavesTrail(s: State, now: int)
    ensures FinishPending(s, now).state.trail == s.trail
  {
    if !Releases(s) {
      FinishingIsMostlySilent(s, now);
    }
  }

  lemma UsefulConfirmationCounts(s: State, u: Upload, now: int)
    requires Unfinished(s, u) && s.deliveryPending
    ensures var t := ConfirmDelivery(s, now).state;
      && t.trail.submitted == s.trail.submitted && t.trail.accepted == s.trail.accepted
      && |t.trail.confirmed| == |s.trail.confirmed| + 1
  {
    InUploadOf(s, u);
    FinishingLeavesTrail(NoteDelivery(s, now), now);
  }

  lemma UsefulAnswerCounts(s: State, u: Upload, r: Response, now: int)
    requires Unfinished(s, u) && Useful(s, DoMessage(ApplicationResponse(r, now)))
    ensures var t := HandleResponse(s, r, now).state;
      && t.trail.submitted == s.trail.submitted && t.trail.confirmed == s.trail.confirmed
      && |t.trail.accepted| == |s.trail.accepted| + (if UploadPending(s) then 1 else 0)
  {
    AnswerFinishes(s, r, now);
    FinishingLeavesTrail(NoteAnswer(s, r), now);
  }

  lemma UsefulStepCounts(s: State, u: Upload, a: Action)
    requires Unfinished(s, u) && Useful(s, a)
    ensures var t := Step(s, a).state;
      && |t.trail.submitted| == |s.trail.submitted| + (if a.DoSubmit? then 1 else 0)
      && |t.trail.confirmed| == |s.trail.confirmed| + (if a.DoEvent? then 1 else 0)
      && |t.trail.accepted| == |s.trail.accepted| + (if a.DoMessage? && UploadPending(s) then 1 else 0)
  {
    match a {
      case DoSubmit(_, _) =>
        if UploadPending(s) {
          InUploadOf(s, u);
        }
      case DoEvent(e) => UsefulConfirmationCounts(s, u, e.now);
      case DoMessage(m) => UsefulAnswerCounts(s, u, m.response, m.now);
    }
  }

  lemma QueuedUploadStarts(s: State, u: Upload)
    requires Inv(s) && !s.closed && s.confirmed && s.pending.None? && QueueUpload(s, u, true).raised.None?
    ensures var t := QueueUpload(s, u, true).state;
      && Unfinished(t, u) && Work(t) == 3 * MessageCount(u) + 1 && t.nextResult == 0
      && t.trail == Trail(|s.log|, [], [], [], None, None)
  {
    QueueUploadKeeps(s, u, true);
    assert UploadOperations(u)[0] == UploadOperation(u, 0);
  }

  /** A validated upload has its trail complete. */
  lemma ValidatedIsDelivered(s: State, u: Upload)
    requires Validated(s, u)
    ensures AllDelivered(s.trail, u)
  {
    LateMeansDelivered(s, u);
  }

  /** The books of an upload: `work` units to do, of which those in `done` were used. */
  ghost predicate Balanced(t: State, u: Upload, validated: bool, done: seq<Action>, work: nat) {
    if validated then
      && |done| == work
      && Submissions(done) == Confirmations(done) == MessageCount(u) && Answers(done) == MessageCount(u) + 1
    else
      && Unfinished(t, u) && Work(t) + |done| == work && Work(t) > 0
      && Submissions(done) == |t.trail.submitted| && Confirmations(done) == |t.trail.confirmed|
      && Answers(done) == |t.trail.accepted|
  }

  lemma UnfinishedHasWork(s: State, u: Upload)
    requires Unfinished(s, u)
    ensures Work(s) > 0 && !Validated(s, u)
  {
    if UploadPending(s) {
      InUploadOf(s, u);
    } else {
      LateMeansDelivered(s, u);
    }
  }

  lemma UsefulStepBalances(s: State, u: Upload, a: Action, done: seq<Action>, work: nat)
    requires Unfinished(s, u) && Useful(s, a) && Balanced(s, u, false, done, work)
    ensures var t := Step(s, a).state; Balanced(t, u, Validated(t, u), done + [a], work)
  {
    var t := Step(s, a).state;
    assert (done + [a])[..|done|] == done;
    UsefulStepWorks(s, u, a);
    UsefulStepCounts(s, u, a);
    if Work(s) == 1 {
      ValidatedIsDelivered(t, u);
      LastUnitIsAnAnswer(s, u, a);
    } else {
      UnfinishedHasWork(t, u);
    }
  }

  /** The last unit of work is the answer to validation. */
  lemma LastUnitIsAnAnswer(s: State, u: Upload, a: Action)
    requires Unfinished(s, u) && Useful(s, a) && Work(s) == 1
    ensures a.DoMessage? && !UploadPending(s)
  {
    if UploadPending(s) {
      InUploadOf(s, u);
    }
  }

  lemma StepBalances(s: State, u: Upload, a: Action, done: seq<Action>, work: nat)
    requires Balanced(s, u, false, done, work) && !Disturbs(s, a)
    ensures var t := Step(s, a).state;
      Balanced(t, u, Validated(t, u), done + (if Useful(s, a) then [a] else []), work)
  {
    if Useful(s, a) {
      UsefulStepBalances(s, u, a, done, work);
    } else {
      NeutralStepKeeps(s, u, a);
      UnfinishedHasWork(Step(s, a).state, u);
      assert done + [] == done;
    }
  }

  /** Where an undisturbed run stands after any number of steps. */
  lemma {:induction false} RunBalances(s: State, u: Upload, actions: seq<Action>)
    requires Unfinished(s, u) && s.trail == Trail(s.trail.queued, [], [], [], None, None)
    requires Undisturbed(s, u, actions)
    ensures Balanced(Run(s, actions), u, WasValidated(s, u, actions), UsefulOnes(s, u, actions), Work(s))
    decreases |actions|
  {
    if actions == [] {
      UnfinishedHasWork(s, u);
    } else {
      var before, last := actions[..|actions| - 1], actions[|actions| - 1];
      RunBalances(s, u, before);
      if WasValidated(s, u, before) {
        assert UsefulOnes(s, u, actions) == UsefulOnes(s, u, before);
      } else {
        StepBalances(Run(s, before), u, last, UsefulOnes(s, u, before), Work(s));
      }
    }
  }

  /**
   An upload of k messages, queued on an idle connection with a confirmed session, in any run that does not disturb
   it before it is validated: it is validated exactly when 3k + 1 useful events have happened, in whatever order and
   among whatever else, namely k submissions, k delivery confirmations and k + 1 answers. Until then it is
   unfinished, and a useful event is possible.
   */
  lemma UploadTakesExactlyItsWork(s: State, u: Upload, actions: seq<Action>)
    requires Reachable(s) && !s.closed && s.confirmed && s.pending.None? && QueueUpload(s, u, true).raised.None?
    requires Undisturbed(QueueUpload(s, u, true).state, u, actions)
    ensures var start, k := QueueUpload(s, u, true).state, MessageCount(u);
      var t, useful, validated := Run(start, actions), UsefulOnes(start, u, actions), WasValidated(start, u, actions);
      && |useful| <= 3 * k + 1
      && (validated <==> |useful| == 3 * k + 1)
      && (validated ==> Submissions(useful) == k && Confirmations(useful) == k && Answers(useful) == k + 1)
      && (!validated ==> Unfinished(t, u) && exists a :: Useful(t, a))
  {
    var start := QueueUpload(s, u, true).state;
    ReachableStatesAreSound(s);
    QueuedUploadStarts(s, u);
    RunBalances(start, u, actions);
    if !WasValidated(start, u, actions) {
      UsefulEventIsPossible(Run(start, actions), u);
    }
  }

  // ---------- A useful environment exists ----------

  lemma UsefulAnswerTakesNoResult(s: State, r: Response, now: int)
    requires s.pending.Some? && s.pending.value.error.None? && Useful(s, DoMessage(ApplicationResponse(r, now)))
    requires IsUploadKind(s.pending.value.request.kind) || s.pending.value.request.kind == CompleteTest
    ensures HandleResponse(s, r, now).state.nextResult == s.nextResult
  {
    AnswerFinishes(s, r, now);
    NextResultStays(NoteAnswer(s, r), now);
  }

  lemma UsefulStepTakesNoResult(s: State, u: Upload, a: Action)
    requires Unfinished(s, u) && Useful(s, a)
    ensures Step(s, a).state.nextResult == s.nextResult
  {
    match a {
      case DoEvent(e) => NextResultStays(NoteDelivery(s, e.now), e.now);
      case DoMessage(m) => UsefulAnswerTakesNoResult(s, m.response, m.now);
      case DoSubmit(_, _) =>
    }
  }

  /**
   From any unfinished state some continuation of useful events alone, as many as there is work, validates the upload.
   */
  lemma {:induction false} ValidationIsInReach(s: State, u: Upload) returns (actions: seq<Action>)
    requires Unfinished(s, u)
    ensures |actions| == Work(s) && Validated(Run(s, actions), u) && Run(s, actions).nextResult == s.nextResult
    ensures forall a :: a in actions ==> !(a.DoMessage? && a.message.TestResult?)
    decreases Work(s)
  {
    UsefulEventIsPossible(s, u);
    var a :| Useful(s, a);
    UsefulStepWorks(s, u, a);
    UsefulStepTakesNoResult(s, u, a);
    if Work(s) == 1 {
      actions := [a];
      RunOne(s, [], a);
    } else {
      var rest := ValidationIsInReach(Step(s, a).state, u);
      actions := [a] + rest;
      RunOne(s, [], a);
      RunAppends(s, [a], rest);
    }
  }

  // ---------- Service passes ----------

  lemma {:induction false} SubmissionsAdd(a: seq<Action>, b: seq<Action>)
    ensures Submissions(a + b) == Submissions(a) + Submissions(b)
    decreases |b|
  {
    if b == [] {
      assert a + b == a;
    } else {
      SubmissionsAdd(a, b[..|b| - 1]);
      assert (a + b)[..|a| + |b| - 1] == a + b[..|b| - 1];
    }
  }

  lemma SubmissionsAppend(actions: seq<Action>, a: Action)
    ensures Submissions(actions + [a]) == Submissions(actions) + if a.DoSubmit? then 1 else 0
  {
    assert (actions + [a])[..|actions|] == actions;
  }

  lemma {:induction false} UsefulSubmissionsAreSome(s: State, u: Upload, actions: seq<Action>)
    ensures Submissions(UsefulOnes(s, u, actions)) <= Submissions(actions)
    decreases |actions|
  {
    if actions != [] {
      var before, last := actions[..|actions| - 1], actions[|actions| - 1];
      UsefulSubmissionsAreSome(s, u, before);
      if UsefulOnes(s, u, actions) != UsefulOnes(s, u, before) {
        assert UsefulOnes(s, u, actions) == UsefulOnes(s, u, before) + [last];
        SubmissionsAppend(UsefulOnes(s, u, before), last);
      }
    }
  }

  lemma {:induction false} NoSubmissions(actions: seq<Action>)
    requires forall a :: a in actions ==> !a.DoSubmit?
    ensures Submissions(actions) == 0
  {
    if actions != [] {
      NoSubmissions(actions[..|actions| - 1]);
    }
  }

  lemma OffersSubmitNothing(s: State, a: Action, answer: (nat, seq<Byte>) -> ReceiveAnswer)
    requires FairTransport(answer) && a.DoRead?
    ensures Submissions([a] + OfferActions(s, answer, 0)) == 0
  {
    OffersOnly(s, answer, 0);
    NoSubmissions([a] + OfferActions(s, answer, 0));
  }

  lemma FirstHalfSubmitsNothing(s: State, e: Environment)
    ensures Submissions(Played(s, FirstHalf(e))) == 0
  {
    PlayedAreSome(s, FirstHalf(e));
    DrainsOnly(e.firstInbox);
    NoSubmissions(Played(s, FirstHalf(e)));
  }

  /** A service pass submits once at most. */
  lemma PassSubmitsOnce(s: State, pass: Pass)
    requires FairTransport(pass.answer)
    ensures Submissions(PassActions(s, pass)) <= 1
  {
    var e := pass.environment;
    if !s.closed && e.data.Some? {
      var read := Step(s, DoRead(e.data.value)).state;
      var offers, offered := [DoRead(e.data.value)] + OfferActions(read, pass.answer, 0),
        OfferAll(read, pass.answer, 0);
      OffersSubmitNothing(read, DoRead(e.data.value), pass.answer);
      if offered.raised.None? {
        var first, played := Play(offered.state, FirstHalf(e)), Played(offered.state, FirstHalf(e));
        FirstHalfSubmitsNothing(offered.state, e);
        SubmissionsAdd(offers, played);
        if first.raised.Some? {
          assert offers + played + [] == offers + played;
        } else {
          var second := Played(first.state, SecondHalf(e, Submits(first.state, e)));
          SecondHalfSubmitsOnce(first.state, e, Submits(first.state, e));
          SubmissionsAdd(offers + played, second);
        }
      }
    }
  }

  lemma DrainsOnly(inbox: Inbox)
    ensures forall a :: a in DrainActions(inbox) ==> a.DoEvent? || a.DoMessage?
  {
    assert forall a :: a in EventActions(inbox.events) ==> a.DoEvent?;
    assert forall a :: a in MessageActions(inbox.messages) ==> a.DoMessage?;
  }

  /** After the submission, the second half of a pass neither submits nor queues. */
  lemma AfterSubmission(e: Environment, submits: bool)
    ensures forall a :: a in SecondHalf(e, submits)[1..] ==> !a.DoSubmit? && !a.DoQueueUpload?
  {
    var again := if submits then [DoProcess(e.secondProcess)] else [];
    var rest := again + [DoWrite(e.frame, e.written, e.commit)] + DrainActions(e.secondInbox)
      + [DoAdvance(e.secondEstablished), DoCheckTimeout(e.secondNow)];
    assert SecondHalf(e, submits) == [DoSubmit(e.submitEstablished, e.submitStatus)] + rest;
    DrainsOnly(e.secondInbox);
  }

  lemma SecondHalfSubmitsOnce(s: State, e: Environment, submits: bool)
    ensures Submissions(Played(s, SecondHalf(e, submits))) <= 1
  {
    var all := SecondHalf(e, submits);
    var played := Played(s, all);
    PlayedAreSome(s, all);
    assert played[..1] == [all[0]];
    assert played == played[..1] + played[1..];
    AfterSubmission(e, submits);
    NoSubmissions(played[1..]);
    SubmissionsAdd(played[..1], played[1..]);
    assert Submissions([all[0]]) == 1;
  }

  lemma {:induction false} PassesSubmitOnceEach(s: State, passes: seq<Pass>)
    requires FairPasses(passes)
    ensures Submissions(PassesActions(s, passes)) <= |passes|
    decreases |passes|
  {
    if passes != [] {
      var n := |passes| - 1;
      PassesSubmitOnceEach(s, passes[..n]);
      PassSubmitsOnce(AfterPasses(s, passes[..n]), passes[n]);
      SubmissionsAdd(PassesActions(s, passes[..n]), PassActions(AfterPasses(s, passes[..n]), passes[n]));
    }
  }

  /**
   The same for `service` calls: whatever the passes read, write and drain, and whether or not they raise, as long as
   nothing disturbs the upload it is validated exactly when the passes have made k submissions and taken k delivery
   confirmations and k + 1 answers; this takes at least k passes.
   */
  lemma ServicePassesValidate(s: State, u: Upload, passes: seq<Pass>)
    requires Reachable(s) && !s.closed && s.confirmed && s.pending.None? && QueueUpload(s, u, true).raised.None?
    requires FairPasses(passes)
    requires var start := QueueUpload(s, u, true).state; Undisturbed(start, u, PassesActions(start, passes))
    ensures var start, k := QueueUpload(s, u, true).state, MessageCount(u);
      var t, actions := AfterPasses(start, passes), PassesActions(start, passes);
      var useful, validated := UsefulOnes(start, u, actions), WasValidated(start, u, actions);
      && t == Run(start, actions)
      && (validated <==> Submissions(useful) == k && Confirmations(useful) == k && Answers(useful) == k + 1)
      && (validated ==> |passes| >= k)
      && (!validated ==> Unfinished(t, u) && |useful| <= 3 * k && exists a :: Useful(t, a))
  {
    var start := QueueUpload(s, u, true).state;
    var actions := PassesActions(start, passes);
    PassesAreRuns(start, passes);
    UploadTakesExactlyItsWork(s, u, actions);
    UsefulSubmissionsAreSome(start, u, actions);
    PassesSubmitOnceEach(start, passes);
    UsefulOnesAreCounted(start, u, actions);
  }

  lemma {:induction false} UsefulOnesAreCounted(s: State, u: Upload, actions: seq<Action>)
    ensures var useful := UsefulOnes(s, u, actions);
      |useful| == Submissions(useful) + Confirmations(useful) + Answers(useful)
    decreases |actions|
  {
    if actions != [] {
      var useful := UsefulOnes(s, u, actions);
      UsefulOnesAreCounted(s, u, actions[..|actions| - 1]);
      if useful != UsefulOnes(s, u, actions[..|actions| - 1]) {
        assert useful[..|useful| - 1] == UsefulOnes(s, u, actions[..|actions| - 1]);
      }
    }
  }

  // ---------- What any service passes can do ----------

  lemma AnswerSubmitsNothing(s: State, r: Response, now: int)
    ensures HandleResponse(s, r, now).state.trail.submitted == s.trail.submitted
  {
    if s.pending.Some? {
      FinishingLeavesTrail(NoteAnswer(s, r), now);
    }
  }

  lemma InformationSubmitsNothing(s: State, compatible: bool, now: int)
    ensures HandleInformation(s, compatible, now).state.trail.submitted == s.trail.submitted
  {
    if s.pending.Some? {
      FinishingLeavesTrail(s.(pending := Some(s.pending.value.(responseReceived := true))), now);
    }
  }

  lemma MessageSubmitsNothing(s: State, m: Inbound)
    ensures HandleMessage(s, m).state.trail.submitted == s.trail.submitted
  {
    match m {
      case ApplicationResponse(r, now) => AnswerSubmitsNothing(s, r, now);
      case SystemInformation(compatible, now) => InformationSubmitsNothing(s, compatible, now);
      case _ =>
    }
  }

  lemma EventSubmitsNothing(s: State, e: TransportEvent)
    ensures HandleEvent(s, e).state.trail.submitted == s.trail.submitted
  {
    if e.DeliveryConfirmed? && s.pending.Some? {
      FinishingLeavesTrail(NoteDelivery(s, e.now), e.now);
    }
  }

  lemma OnlySubmitsSubmit(s: State, a: Action)
    ensures |Step(s, a).state.trail.submitted| <= |s.trail.submitted| + if a.DoSubmit? then 1 else 0
  {
    if !s.closed {
      match a {
        case DoMessage(m) => MessageSubmitsNothing(s, m);
        case DoEvent(e) => EventSubmitsNothing(s, e);
        case _ =>
      }
    }
  }

  lemma {:induction false} SubmittedBySubmissions(s: State, actions: seq<Action>)
    ensures |Run(s, actions).trail.submitted| <= |s.trail.submitted| + Submissions(actions)
    decreases |actions|
  {
    if actions != [] {
      SubmittedBySubmissions(s, actions[..|actions| - 1]);
      OnlySubmitsSubmit(Run(s, actions[..|actions| - 1]), actions[|actions| - 1]);
    }
  }

  /** However the passes went, they submitted no more upload messages than there were passes. */
  lemma PassesSubmitAtMost(s: State, passes: seq<Pass>)
    requires FairPasses(passes)
    ensures |AfterPasses(s, passes).trail.submitted| <= |s.trail.submitted| + |passes|
  {
    PassesAreRuns(s, passes);
    SubmittedBySubmissions(s, PassesActions(s, passes));
    PassesSubmitOnceEach(s, passes);
  }

  ghost predicate QueuesNothing(actions: seq<Action>) {
    forall a :: a in actions ==> !a.DoQueueUpload?
  }

  lemma {:induction false} RunKeepsUpload(s: State, actions: seq<Action>)
    requires QueuesNothing(actions)
    ensures Run(s, actions).active in {None, s.active}
    decreases |actions|
  {
    if actions != [] {
      var x := Run(s, actions[..|actions| - 1]);
      RunKeepsUpload(s, actions[..|actions| - 1]);
      if !x.closed {
        ActiveComesFromQueueing(x, actions[|actions| - 1]);
      }
    }
  }

  lemma FirstHalfQueuesNothing(s: State, e: Environment)
    ensures QueuesNothing(Played(s, FirstHalf(e)))
  {
    PlayedAreSome(s, FirstHalf(e));
    DrainsOnly(e.firstInbox);
  }

  lemma SecondHalfQueuesNothing(s: State, e: Environment, submits: bool)
    ensures QueuesNothing(Played(s, SecondHalf(e, submits)))
  {
    PlayedAreSome(s, SecondHalf(e, submits));
    AfterSubmission(e, submits);
    var all := SecondHalf(e, submits);
    assert all == [all[0]] + all[1..];
  }

  /** A service pass queues no upload: the one that is active stays, or is retired. */
  lemma PassKeepsUpload(s: State, pass: Pass)
    requires FairTransport(pass.answer)
    ensures ServicePass(s, pass.answer, pass.environment).state.active in {None, s.active}
  {
    var e := pass.environment;
    PassIsRun(s, pass);
    if !s.closed && e.data.Some? {
      var read := Step(s, DoRead(e.data.value)).state;
      var offered := OfferAll(read, pass.answer, 0);
      OffersOnly(read, pass.answer, 0);
      if offered.raised.None? {
        var first := Play(offered.state, FirstHalf(e));
        FirstHalfQueuesNothing(offered.state, e);
        SecondHalfQueuesNothing(first.state, e, Submits(first.state, e));
      }
    }
    RunKeepsUpload(s, PassActions(s, pass));
  }
}
