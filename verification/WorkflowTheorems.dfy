/**
 The main results about whole runs of the protocol workflow, stated on the states and logs that
 any sequence of actions can reach from a new connection.
 */
module WorkflowTheorems {
  import opened Basics
  import opened Definition
  import opened Workflow
  import opened WorkflowSafety
  import opened WorkflowService

  /** A wire ID is queued at most once, and the IDs ever queued are exactly the retired ones and the active one. */
  lemma WireIdsAreNeverReused(s: State)
    requires Reachable(s)
    ensures NoDuplicates(QueuedIds(s.log))
    ensures (set id | id in QueuedIds(s.log)) == s.retired + (if s.active.Some? then {s.active.value.id} else {})
    ensures s.active.Some? ==> s.active.value.id !in s.retired
  {
    ReachableStatesAreSound(s);
  }

  /** The results accepted for the active upload are ticks 0, 1, 2, ... in that order. */
  lemma ResultsArriveInOrder(s: State)
    requires Reachable(s) && s.active.Some?
    ensures ResultTicks(s.log, s.active.value.id) == Count(s.nextResult)
  {
    ReachableStatesAreSound(s);
  }

  function Occurrences(s: seq<int>, x: int): nat {
    if s == [] then 0 else (if s[|s| - 1] == x then 1 else 0) + Occurrences(s[..|s| - 1], x)
  }

  lemma {:induction false} CountOccurs(n: nat, t: int)
    ensures Occurrences(Count(n), t) == if 0 <= t < n then 1 else 0
  {
    if n > 0 {
      assert Count(n)[..n - 1] == Count(n - 1);
      CountOccurs(n - 1, t);
    }
  }

  /** The workflow reports completion only when every expected tick was accepted exactly once. */
  lemma CompletionIsEarned(s: State, t: int)
    requires Reachable(s) && s.phase == ResultsComplete
    ensures s.active.Some?
    ensures 0 <= t < Expected(s.active.value) ==> Occurrences(ResultTicks(s.log, s.active.value.id), t) == 1
  {
    ReachableStatesAreSound(s);
    CountOccurs(s.nextResult, t);
  }

  // ---------- Conservation ----------

  function InFlight(s: State): nat {
    if UploadPending(s) && s.deliveryPending then 1 else 0
  }

  function Unsent(s: State): nat {
    if UploadPending(s) && s.pending.value.nextMessage == 0 then 1 else 0
  }

  function Accounted(s: State): nat {
    s.delivered + InFlight(s) + Unsent(s) + |s.operations|
  }

  /**
   Delivered, in flight, unsent in the pending operation and queued messages add up to the active upload, exactly
   as long as the workflow has not failed and no close has raised since it was queued, or all were delivered before.
   */
  lemma UploadMessagesAreConserved(s: State)
    requires Reachable(s) && !s.closed
    ensures s.active.Some? ==> s.messageCount == MessageCount(s.active.value)
    ensures s.active.Some? ==>
      (Accounted(s) == s.messageCount <==> (NoFailure(s) && NoBrokenClose(s)) || s.delivered == s.messageCount)
    ensures s.accepted ==> s.delivered == s.messageCount > 0
    ensures s.deliveryPending ==> s.pending.Some? && |s.pending.value.messages| == s.pending.value.nextMessage == 1
  {
    ReachableStatesAreSound(s);
  }

  /**
   Since the last session reset or the last drop of the buffers, received bytes are what Transport took plus what is
   retained, and written bytes are the committed frames plus the sent part of the pending one.
   */
  lemma SerialBytesAreConserved(s: State)
    requires Reachable(s) && !s.closed
    ensures s.link.received == s.link.consumed + s.link.incoming
    ensures s.link.output.None? ==> s.link.written == s.link.committed
    ensures s.link.output.Some? ==>
      && s.link.offset <= |s.link.output.value|
      && s.link.written == s.link.committed + s.link.output.value[..s.link.offset]
  {
    ReachableStatesAreSound(s);
  }

  // ---------- What one step can add to the log ----------

  /** Whether `e` may be logged after `s` without a further cause: the upload retired is the one that was active. */
  predicate LogsPlainly(s: State, e: Entry) {
    e.WorkflowFailed? || (e.Retired? && s.active.Some? && e.id == s.active.value.id)
  }

  /** `t` is `s` with at most one further log entry, a plain one. */
  ghost predicate OneMore(s: State, t: State) {
    t.builder == s.builder && (t.log == s.log || exists e :: t.log == s.log + [e] && LogsPlainly(s, e))
  }

  lemma NegativeAddsOne(s: State, op: Operation)
    ensures OneMore(s, HandleNegative(s, op))
  {
    assert s.active.Some? ==> RetireActiveUpload(s).log == s.log + [Retired(s.active.value.id)];
    assert FailWorkflow(s).log == s.log + [WorkflowFailed];
  }

  lemma ReleaseAddsOne(s: State, now: int)
    requires Releases(s)
    ensures OneMore(s, FinishPending(s, now).state)
  {
    var t := s.(pending := None);
    if s.pending.value.error.Some? {
      NegativeAddsOne(t, s.pending.value);
    } else {
      assert s.active.Some? ==> RetireActiveUpload(t).log == s.log + [Retired(s.active.value.id)];
    }
  }

  lemma FinishAddsOne(s: State, now: int)
    ensures OneMore(s, FinishPending(s, now).state)
  {
    if Releases(s) {
      ReleaseAddsOne(s, now);
    } else {
      FinishingIsMostlySilent(s, now);
    }
  }

  /** A submission that Transport took: the next message of the pending operation, with none in flight. */
  predicate Takes(s: State, a: Action, request: Request, wire: Wire) {
    && a == DoSubmit(true, StatusOk) && s.pending.Some? && !s.deliveryPending
    && request == s.pending.value.request
    && s.pending.value.nextMessage < |s.pending.value.messages|
    && wire == s.pending.value.messages[s.pending.value.nextMessage]
    && (s.confirmed || request.kind == Discovery)
  }

  /** What must have happened in `s` for an entry to be logged. */
  predicate Logs(s: State, a: Action, e: Entry) {
    && !s.closed
    && match e
       case Queued(upload) => a.DoQueueUpload? && upload == a.upload
       case Submitted(request, wire) => Takes(s, a, request, wire)
       case Confirmed(request) =>
         a.DoEvent? && a.event.DeliveryConfirmed? && s.deliveryPending && s.pending.Some?
         && request == s.pending.value.request
       case Answered(request, positive, r) =>
         a.DoMessage? && a.message.ApplicationResponse? && r == a.message.response && s.pending.Some?
         && request == s.pending.value.request && IsAnswer(request, positive, r)
       case ResultAccepted(id, tick, taker) =>
         a.DoMessage? && a.message.TestResult? && id == a.message.id && tick == a.message.tick && taker == s.builder
         && s.active.Some? && id == s.active.value.id && tick == s.nextResult
       case Retired(id) => s.active.Some? && id == s.active.value.id
       case CloseRaised(phase) => a == DoClose(false) && phase == s.phase
       case WorkflowFailed => true
  }

  /**
   What the rig has to say to answer a request: the scope of its kind, the same wire ID, the tick of a sparse tick, the
   command of a control request. An answer is positive when it says COMPLETED to a control and ACCEPTED to an upload
   message or the whole test.
   */
  predicate IsAnswer(request: Request, positive: bool, r: Response) {
    && r.id == request.id
    && match request.kind
       case Discovery => false
       case Configure => r.scope == TestConfigurationScope && (positive <==> r.outcome == OutcomeAccepted)
       case Tick =>
         r.scope == TickScope && Some(r.tick) == request.tick && (positive <==> r.outcome == OutcomeAccepted)
       case CompleteTest => r.scope == CompleteTestScope && (positive <==> r.outcome == OutcomeAccepted)
       case Start =>
         r.scope == ExecutionControlScope && r.command == StartCommand && (positive <==> r.outcome == OutcomeCompleted)
       case Abort =>
         r.scope == ExecutionControlScope && r.command == AbortCommand && (positive <==> r.outcome == OutcomeCompleted)
       case Reset =>
         r.scope == GlobalControlScope && r.globalCommand == ResetCommand
           && (positive <==> r.outcome == OutcomeCompleted)
  }

  ghost predicate Appends(s: State, a: Action, t: State) {
    && s.log <= t.log && (forall p :: |s.log| <= p < |t.log| ==> Logs(s, a, t.log[p]))
    && (a.DoBind? || t.builder == s.builder)
  }

  /** Noting one entry and then finishing the operation, if it can be finished. */
  lemma NotedAppends(s: State, a: Action, e: Entry, noted: State, now: int)
    requires noted.builder == s.builder && noted.active == s.active && noted.log == s.log + [e] && Logs(s, a, e)
    ensures Appends(s, a, FinishPending(noted, now).state)
  {
    FinishAddsOne(noted, now);
  }

  lemma ConfirmationAppends(s: State, a: Action, now: int)
    requires !s.closed && a == DoEvent(DeliveryConfirmed(now))
    ensures Appends(s, a, ConfirmDelivery(s, now).state)
  {
    if s.pending.Some? && s.deliveryPending {
      NotedAppends(s, a, Confirmed(s.pending.value.request), NoteDelivery(s, now), now);
    }
  }

  lemma MatchingIsAnswering(r: Response, request: Request)
    requires request.kind != Discovery
    ensures Matches(r, request) <==> exists positive :: IsAnswer(request, positive, r)
    ensures Matches(r, request) ==> IsAnswer(request, r.outcome == SuccessfulOutcome(request.kind), r)
  {
    assert IsAnswer(request, true, r) || IsAnswer(request, false, r) <==> Matches(r, request);
  }

  lemma AnswerAppends(s: State, a: Action, r: Response, now: int)
    requires !s.closed && a == DoMessage(ApplicationResponse(r, now))
    requires s.pending.Some? && s.pending.value.request.kind != Discovery && Matches(r, s.pending.value.request)
    ensures Appends(s, a, HandleResponse(s, r, now).state)
  {
    AnswerFinishes(s, r, now);
    MatchingIsAnswering(r, s.pending.value.request);
    NotedAppends(s, a, AnswerEntry(s, r), NoteAnswer(s, r), now);
  }

  lemma FailureAppends(s: State, a: Action)
    requires !s.closed
    ensures Appends(s, a, FailWorkflow(s))
  {
  }

  lemma InformationAppends(s: State, a: Action, compatible: bool, now: int)
    requires !s.closed
    ensures Appends(s, a, HandleInformation(s, compatible, now).state)
  {
    if s.pending.Some? {
      FinishAddsOne(s.(pending := Some(s.pending.value.(responseReceived := true))), now);
    }
  }

  lemma ReactionAppends(s: State, a: Action)
    requires !s.closed && (a.DoEvent? || a.DoMessage?)
    ensures Appends(s, a, Step(s, a).state)
  {
    match a {
      case DoEvent(DeliveryConfirmed(now)) => ConfirmationAppends(s, a, now);
      case DoEvent(_) =>
      case DoMessage(ApplicationResponse(r, now)) =>
        if s.pending.Some? && s.pending.value.request.kind != Discovery && Matches(r, s.pending.value.request) {
          AnswerAppends(s, a, r, now);
        } else {
          FailureAppends(s, a);
        }
      case DoMessage(SystemInformation(compatible, now)) => InformationAppends(s, a, compatible, now);
      case DoMessage(_) =>
    }
  }

  lemma ServiceAppends(s: State, a: Action)
    requires !s.closed && (a.DoProcess? || a.DoAdvance? || a.DoCheckTimeout? || a.DoSubmit?)
    ensures Appends(s, a, Step(s, a).state)
  {
  }

  lemma TransferAppends(s: State, a: Action)
    requires !s.closed && (a.DoRead? || a.DoOffer? || a.DoWrite?)
    ensures Appends(s, a, Step(s, a).state)
  {
    TransfersTouchBytes(s, a);
  }

  lemma StepAppends(s: State, a: Action)
    ensures Appends(s, a, Step(s, a).state)
  {
    if !s.closed && (a.DoEvent? || a.DoMessage?) {
      ReactionAppends(s, a);
    } else if !s.closed && (a.DoRead? || a.DoOffer? || a.DoWrite?) {
      TransferAppends(s, a);
    } else if !s.closed && (a.DoProcess? || a.DoAdvance? || a.DoCheckTimeout? || a.DoSubmit?) {
      ServiceAppends(s, a);
    }
  }

  /** Every entry of a run's log has the action that caused it, and stands where that action put it. */
  lemma {:induction false} EveryEntryHasItsCause(timeout: int, actions: seq<Action>, p: nat) returns (k: nat)
    requires p < |Run(Initial(timeout), actions).log|
    ensures k < |actions|
    ensures Logs(Run(Initial(timeout), actions[..k]), actions[k], Run(Initial(timeout), actions).log[p])
    ensures |Run(Initial(timeout), actions[..k]).log| <= p
    decreases |actions|
  {
    var n := |actions| - 1;
    var s := Run(Initial(timeout), actions[..n]);
    StepAppends(s, actions[n]);
    if p < |s.log| {
      k := EveryEntryHasItsCause(timeout, actions[..n], p);
      assert actions[..n][..k] == actions[..k];
    } else {
      k := n;
    }
  }

  /**
   In every run, what counted as an answer is one: it names the scope, the wire ID, the tick and the command of the
   request it answers, and it counted as positive exactly when it says ACCEPTED to an upload message or the whole test,
   or COMPLETED to a control.
   */
  lemma EveryAnswerIsGenuine(s: State, p: nat)
    requires Reachable(s) && p < |s.log| && s.log[p].Answered?
    ensures var r, request := s.log[p].response, s.log[p].request;
      && r.id == request.id && request.kind != Discovery
      && (request.kind == Configure ==> r.scope == TestConfigurationScope)
      && (request.kind == Tick ==> r.scope == TickScope && Some(r.tick) == request.tick)
      && (request.kind == CompleteTest ==> r.scope == CompleteTestScope)
      && (request.kind == Start ==> r.scope == ExecutionControlScope && r.command == StartCommand)
      && (request.kind == Abort ==> r.scope == ExecutionControlScope && r.command == AbortCommand)
      && (request.kind == Reset ==> r.scope == GlobalControlScope && r.globalCommand == ResetCommand)
      && (request.kind in {Configure, Tick, CompleteTest} ==> (s.log[p].positive <==> r.outcome == OutcomeAccepted))
      && (request.kind in {Start, Abort, Reset} ==> (s.log[p].positive <==> r.outcome == OutcomeCompleted))
  {
    var timeout, actions :| s == Run(Initial(timeout), actions);
    var k := EveryEntryHasItsCause(timeout, actions, p);
  }

  // ---------- How operations end ----------

  /** Answered, with every message submitted and nothing in flight. */
  predicate IsReady(s: State) {
    && s.pending.Some? && s.pending.value.responseReceived && !s.deliveryPending
    && s.pending.value.nextMessage == |s.pending.value.messages|
  }

  /**
   A refusal raises. A refused upload message, or test, retires the upload, so that its ID is spent; a refused START
   leaves the accepted upload ready for another one; a refused abort or reset goes back to the phase it was asked for
   in. Anything else the rig says instead fails the workflow and keeps the upload.
   */
  lemma RefusalMeans(s: State, now: int)
    requires IsReady(s) && s.pending.value.error.Some?
    ensures var o, kind := FinishPending(s, now), s.pending.value.request.kind;
      && o.raised == Some(NegativeResponse) && o.state.pending.None?
      && (kind in {Configure, Tick, CompleteTest} ==>
            && o.state.phase == Failed && o.state.active.None? && o.state.operations == []
            && o.state.retired == s.retired + if s.active.Some? then {s.active.value.id} else {})
      && (kind == Start && s.pending.value.error.value == OutcomeRejected ==>
            o.state == s.(pending := None, started := false, accepted := true, phase := ReadyToStart))
      && (kind in {Abort, Reset} && s.pending.value.error.value == OutcomeRejected ==>
            o.state == s.(pending := None, phase :=
              if s.pending.value.previousPhase.Some? then s.pending.value.previousPhase.value else Failed))
      && (kind in {Start, Abort, Reset} && s.pending.value.error.value != OutcomeRejected ==>
            o.state.phase == Failed && o.state.active == s.active && !o.state.accepted && !o.state.started)
  {
    var t, op := s.(pending := None), s.pending.value;
    assert FinishPending(s, now) == Raise(HandleNegative(t, op), NegativeResponse);
    if op.request.kind in {Configure, Tick, CompleteTest} {
      assert HandleNegative(t, op) == RetireActiveUpload(t).(phase := Failed);
    }
  }

  /** An answer to an operation that only waits for it decides it: a refusal raises, and a success does not. */
  lemma AnswerDecides(s: State, positive: bool, r: Response, now: int)
    requires s.pending.Some? && !s.deliveryPending && s.pending.value.nextMessage == |s.pending.value.messages|
    requires s.pending.value.error.None? && IsAnswer(s.pending.value.request, positive, r)
    ensures HandleResponse(s, r, now).raised == (if positive then None else Some(NegativeResponse))
  {
    MatchingIsAnswering(r, s.pending.value.request);
    AnswerFinishes(s, r, now);
    var noted := NoteAnswer(s, r);
    if !positive {
      RefusalMeans(noted, now);
    } else if noted.pending.value.request.kind in {Configure, Tick, CompleteTest} {
      AcceptanceMeans(noted, now);
    } else {
      ControlSuccessMeans(noted, now);
    }
  }

  /**
   An accepted upload message makes the next one pending, and the last one the wait for whole-test validation. That
   makes the upload ready to start, and starts it at once in immediate mode.
   */
  lemma AcceptanceMeans(s: State, now: int)
    requires IsReady(s) && s.pending.value.error.None?
      && s.pending.value.request.kind in {Configure, Tick, CompleteTest}
    ensures var o, op := FinishPending(s, now), s.pending.value;
      && o.raised.None? && o.state.active == s.active
      && (op.request.kind != CompleteTest && s.operations != [] ==>
            o.state.pending == Some(s.operations[0]) && o.state.operations == s.operations[1..])
      && (op.request.kind != CompleteTest && s.operations == [] ==>
            && o.state.pending.Some? && o.state.pending.value.request == Request(CompleteTest, op.request.id, None)
            && o.state.pending.value.messages == [] && o.state.phase == Validating
            && o.state.pending.value.deadline == Some(now + s.timeout) && !o.state.pending.value.responseReceived)
      && (op.request.kind == CompleteTest ==>
            && o.state.accepted
            && if s.active.Some? && s.active.value.startMode == Immediate
               then o.state.phase == Starting && o.state.pending.Some?
                    && o.state.pending.value.messages == [StartControl(s.active.value.id)]
               else o.state.phase == ReadyToStart && o.state.pending.None?)
  {
  }

  /** Discovery confirms the session, START runs the upload, and an abort or reset retires it. */
  lemma ControlSuccessMeans(s: State, now: int)
    requires IsReady(s) && s.pending.value.error.None?
      && s.pending.value.request.kind in {Discovery, Start, Abort, Reset}
    ensures var o, kind := FinishPending(s, now), s.pending.value.request.kind;
      && o.raised.None? && o.state.pending.None?
      && (kind == Discovery ==> o.state == s.(pending := None, confirmed := true, phase := Ready))
      && (kind == Start ==> o.state == s.(pending := None, started := true, phase := Running))
      && (kind in {Abort, Reset} ==>
            && o.state.active.None? && o.state.phase == (if kind == Reset then Ready else Aborted)
            && o.state.retired == s.retired + if s.active.Some? then {s.active.value.id} else {})
  {
  }

  /** A failed workflow forgets its operations and permissions, and keeps the upload, the session and the bytes. */
  lemma FailureMeans(s: State)
    ensures FailWorkflow(s) == s.(
      operations := [], pending := None, deliveryPending := false, accepted := false, started := false,
      phase := Failed, log := s.log + [WorkflowFailed])
  {
  }

  /**
   An upload is refused while another one is active, while an operation other than discovery is pending, when its ID is
   spent, or when the bound builder is another upload's; otherwise it becomes the active one, with nothing delivered,
   and its first message waits for the session or becomes pending at once.
   */
  lemma QueueingMeans(s: State, u: Upload, established: bool)
    ensures var o := QueueUpload(s, u, established);
      && o.raised == (
           if s.active.Some? || s.operations != [] then Some(UploadActive)
           else if s.pending.Some? && s.pending.value.request.kind != Discovery then Some(OperationPending)
           else if u.id in s.retired then Some(IdRetired)
           else if s.builder.Some? && (s.builder.value.id != u.id || s.builder.value.definition != u.definition)
           then Some(BuilderMismatch)
           else None)
      && (o.raised.Some? ==> o.state == s)
      && (o.raised.None? ==>
            && o.state.active == Some(u) && o.state.log == s.log + [Queued(u)]
            && o.state.messageCount == 1 + |u.instructions| && o.state.delivered == o.state.nextResult == 0
            && !o.state.accepted && !o.state.started
            && (o.state.operations == UploadOperations(u)
                || (s.pending.None? && established && s.confirmed && o.state.phase == Configuring
                    && o.state.pending == Some(UploadOperations(u)[0])
                    && o.state.operations == UploadOperations(u)[1..])))
  {
  }

  /** START, abort, reset and binding a builder are refused in this order, and otherwise do this. */
  lemma RequestsMean(s: State, b: Builder, replace: bool)
    requires !s.closed
    ensures RequestStart(s).raised == (
      if s.active.None? || !s.accepted || s.phase != ReadyToStart then Some(NotReadyToStart)
      else if s.active.value.startMode == ExternalTrigger then Some(NoTriggerProtocol)
      else if s.pending.Some? || s.deliveryPending then Some(OperationPending) else None)
    ensures RequestStart(s).raised.None? ==>
      RequestStart(s).state.phase == Starting && RequestStart(s).state.pending.value.messages
        == [StartControl(s.active.value.id)]
    ensures RequestAbort(s).raised == (
      if s.active.None? then Some(NoActiveUpload)
      else if s.pending.Some? || s.deliveryPending then Some(OperationPending) else None)
    ensures RequestReset(s).raised == (
      if !s.confirmed then Some(NotConfirmed)
      else if s.pending.Some? || s.deliveryPending then Some(OperationPending) else None)
    ensures BindBuilder(s, b, replace).raised == (
      if s.builder.Some? && !replace then Some(BuilderBound)
      else if s.builder.Some? && s.active.Some? then Some(UploadActive)
      else if s.active.Some? && b.id != s.active.value.id then Some(BuilderMismatch) else None)
    ensures BindBuilder(s, b, replace).raised.None? ==> BindBuilder(s, b, replace).state == s.(builder := Some(b))
  {
  }

  // ---------- The start gate ----------

  /** The rig's acceptance of message `i` of an upload. */
  predicate AcceptsMessage(e: Entry, u: Upload, i: nat)
    requires i <= |u.instructions|
  {
    && e.Answered? && e.response.id == Some(u.id) && e.response.outcome == OutcomeAccepted
    && if i == 0 then e.response.scope == TestConfigurationScope
       else e.response.scope == TickScope && e.response.tick == u.instructions[i - 1].tick
  }

  predicate AcceptsTest(e: Entry, id: nat) {
    e.Answered? && e.response.id == Some(id) && e.response.scope == CompleteTestScope
    && e.response.outcome == OutcomeAccepted
  }

  predicate ConfirmsStart(e: Entry, id: nat) {
    && e.Answered? && e.response.id == Some(id) && e.response.scope == ExecutionControlScope
    && e.response.command == StartCommand && e.response.outcome == OutcomeCompleted
  }

  /** Nothing failed, replaced or refused the upload. */
  predicate Harmless(e: Entry) {
    && !e.WorkflowFailed? && !e.Queued? && !e.Retired?
    && (e.Answered? && e.response.scope in {TestConfigurationScope, TickScope, CompleteTestScope} ==>
          e.response.outcome == OutcomeAccepted)
  }

  /** Message `i` was submitted and confirmed, and the rig accepted it, all after queueing and before `v`. */
  ghost predicate GoesThrough(log: seq<Entry>, u: Upload, t: Trail, v: nat, i: nat)
    requires i <= |u.instructions|
    requires |t.submitted| == |t.confirmed| == |t.accepted| == 1 + |u.instructions| && v <= |log|
  {
    && t.queued < t.submitted[i] < t.confirmed[i] < v && t.queued < t.accepted[i] < v
    && log[t.submitted[i]].Submitted?
    && log[t.submitted[i]].wire ==
         (if i == 0 then TestConfiguration(u.id, u.configuration) else TestInstruction(u.id, u.instructions[i - 1]))
    && log[t.confirmed[i]] == Confirmed(log[t.submitted[i]].request)
    && AcceptsMessage(log[t.accepted[i]], u, i)
    && (i > 0 ==> t.confirmed[i - 1] < t.submitted[i] && t.accepted[i - 1] < t.submitted[i])
  }

  /** The upload `u` went through whole, message by message, and the rig accepted the whole test at `v`, before `p`. */
  ghost predicate Entitles(log: seq<Entry>, p: nat, u: Upload, t: Trail, v: nat)
    requires p <= |log|
  {
    && t.queued < v < p && log[t.queued] == Queued(u)
    && |t.submitted| == |t.confirmed| == |t.accepted| == 1 + |u.instructions|
    && (forall i :: 0 <= i <= |u.instructions| ==> GoesThrough(log, u, t, v, i))
    && AcceptsTest(log[v], u.id)
    && forall q :: t.queued < q < p ==> Harmless(log[q])
  }

  lemma GateIsLiteral(s: State, p: nat, u: Upload, t: Trail, v: nat)
    requires Reachable(s) && p <= |s.log|
    requires Recorded(s.log, t, u) && ValidatedAt(s.log, t, u, v) && v < p && Clean(s.log, t.queued, p)
    ensures Entitles(s.log, p, u, t, v)
  {
    forall i | 0 <= i <= |u.instructions|
      ensures GoesThrough(s.log, u, t, v, i)
    {
      EveryAnswerIsGenuine(s, t.accepted[i]);
      TrailIsBefore(t, u, v, i);
    }
    EveryAnswerIsGenuine(s, v);
    forall q | t.queued < q < p
      ensures Harmless(s.log[q])
    {
      if s.log[q].Answered? {
        EveryAnswerIsGenuine(s, q);
      }
    }
  }

  lemma TrailIsBefore(t: Trail, u: Upload, v: nat, i: nat)
    requires i <= |u.instructions| && AllDelivered(t, u) && InOrder(t)
    requires t.confirmed[|u.instructions|] < v && t.accepted[|u.instructions|] < v
    ensures t.confirmed[i] < v && t.accepted[i] < v
    ensures i > 0 ==> t.confirmed[i - 1] < t.submitted[i] && t.accepted[i - 1] < t.submitted[i]
  {
    if i < |u.instructions| {
      assert t.confirmed[i] < t.accepted[|u.instructions|] && t.accepted[i] < t.accepted[|u.instructions|];
    }
  }

  /**
   The start gate. In every run, a START for a wire ID is submitted only after that upload's configuration and then
   every sparse tick, in build order, was submitted, confirmed by Transport and answered ACCEPTED by a response naming
   its ID, scope and tick, and after the whole test was answered ACCEPTED; and between queueing and START the rig
   refused nothing of it and the workflow did not fail.
   */
  lemma StartIsGated(s: State, p: nat)
    requires Reachable(s) && p < |s.log| && s.log[p].Submitted? && s.log[p].wire.StartControl?
    ensures StartGated(s.log, p, s.log[p].wire.id)
    ensures exists t: Trail, u: Upload, v: nat :: u.id == s.log[p].wire.id && Entitles(s.log, p, u, t, v)
  {
    ReachableStatesAreSound(s);
    var t: Trail, u: Upload, v: nat :| u.id == s.log[p].wire.id
      && Recorded(s.log, t, u) && ValidatedAt(s.log, t, u, v) && v < p && Clean(s.log, t.queued, p);
    GateIsLiteral(s, p, u, t, v);
  }

  /** No result is accepted before the rig answered COMPLETED to a START for its wire ID. */
  lemma ResultsOnlyAfterStart(s: State, p: nat)
    requires Reachable(s) && p < |s.log| && s.log[p].ResultAccepted?
    ensures exists q :: 0 <= q < p && ConfirmsStart(s.log[q], s.log[p].id)
  {
    ReachableStatesAreSound(s);
    var q :| 0 <= q < p && Affirms(s.log[q], StartRequest(s.log[p].id));
    EveryAnswerIsGenuine(s, q);
  }

  // ---------- Resting ----------

  /** Nothing pending means that the workflow rests in a phase that waits for the caller or the rig. */
  ghost predicate Rests(s: State) {
    !s.closed && s.pending.None? ==> Resting(s.phase) && !s.deliveryPending
  }

  lemma IdleWorkflowRests(s: State)
    requires Reachable(s) && CalmCloses(s.log)
    ensures Rests(s)
  {
    ReachableStatesAreSound(s);
  }

  /** The close that `a` asks for raises, and finds the workflow in the middle of an operation. */
  predicate BreaksOff(s: State, a: Action) {
    a == DoClose(false) && !s.closed && !Resting(s.phase)
  }

  lemma CalmStep(s: State, a: Action)
    ensures CalmCloses(Step(s, a).state.log) <==> CalmCloses(s.log) && !BreaksOff(s, a)
  {
    var t := Step(s, a).state;
    StepAppends(s, a);
    assert forall p :: 0 <= p < |s.log| ==> t.log[p] == s.log[p];
    if BreaksOff(s, a) {
      assert t.log[|s.log|] == CloseRaised(s.phase);
    }
  }

  /** The action at position `k` of a run breaks something off. */
  predicate BreaksOffAt(s: State, actions: seq<Action>, k: nat)
    requires k < |actions|
  {
    BreaksOff(Run(s, actions[..k]), actions[k])
  }

  ghost predicate NeverBreaksOff(s: State, actions: seq<Action>) {
    forall k :: 0 <= k < |actions| ==> !BreaksOffAt(s, actions, k)
  }

  ghost predicate AlwaysRests(s: State, actions: seq<Action>) {
    forall k :: 0 <= k <= |actions| ==> Rests(Run(s, actions[..k]))
  }

  lemma PrefixBreaksOffAlike(s: State, actions: seq<Action>, n: nat)
    requires n <= |actions|
    ensures forall k :: 0 <= k < n ==> (BreaksOffAt(s, actions[..n], k) <==> BreaksOffAt(s, actions, k))
  {
    assert forall k :: 0 <= k < n ==> actions[..n][..k] == actions[..k];
  }

  lemma {:induction false} CalmRun(timeout: int, actions: seq<Action>)
    ensures CalmCloses(Run(Initial(timeout), actions).log) <==> NeverBreaksOff(Initial(timeout), actions)
    decreases |actions|
  {
    if actions != [] {
      var n := |actions| - 1;
      CalmRun(timeout, actions[..n]);
      CalmStep(Run(Initial(timeout), actions[..n]), actions[n]);
      PrefixBreaksOffAlike(Initial(timeout), actions, n);
      assert BreaksOffAt(Initial(timeout), actions, n) <==> BreaksOff(Run(Initial(timeout), actions[..n]), actions[n]);
    }
  }

  lemma BrokenOffDoesNotRest(s: State, actions: seq<Action>, k: nat)
    requires k < |actions| && BreaksOffAt(s, actions, k)
    ensures !Rests(Run(s, actions[..k + 1]))
  {
    RunOne(s, actions[..k], actions[k]);
    assert actions[..k + 1] == actions[..k] + [actions[k]];
  }

  /**
   Over a whole run, the workflow always rests when nothing is pending, exactly when no close raised in the middle
   of an operation. Such a close leaves the connection open in the phase of the operation it dropped.
   */
  lemma RunRestsExactlyWhen(timeout: int, actions: seq<Action>)
    ensures AlwaysRests(Initial(timeout), actions) <==> NeverBreaksOff(Initial(timeout), actions)
  {
    if k: nat :| k < |actions| && BreaksOffAt(Initial(timeout), actions, k) {
      BrokenOffDoesNotRest(Initial(timeout), actions, k);
    } else {
      forall k | 0 <= k <= |actions|
        ensures Rests(Run(Initial(timeout), actions[..k]))
      {
        PrefixBreaksOffAlike(Initial(timeout), actions, k);
        CalmRun(timeout, actions[..k]);
        IdleWorkflowRests(Run(Initial(timeout), actions[..k]));
      }
    }
  }

  lemma TwoStepsAreRun(s: State, a: Action, b: Action)
    ensures Run(s, [a, b]) == Step(Step(s, a).state, b).state
  {
    StepIsRun(s, a);
    RunOne(s, [a], b);
    assert [a] + [b] == [a, b];
  }

  /**
   Such closes happen: one that raises while discovery is pending leaves the connection discovering with nothing
   pending.
   */
  lemma RaisingCloseDoesNotRest(timeout: int)
    ensures !Rests(Run(Initial(timeout), [DoAdvance(true), DoClose(false)]))
  {
    TwoStepsAreRun(Initial(timeout), DoAdvance(true), DoClose(false));
  }

  /** And one that raises after an upload was queued loses all of its messages, although the upload stays active. */
  lemma RaisingCloseLosesMessages(timeout: int, u: Upload)
    ensures var s := Run(Initial(timeout), [DoQueueUpload(u, false), DoClose(false)]);
      !s.closed && s.active == Some(u) && s.messageCount == MessageCount(u) && Accounted(s) == 0
  {
    TwoStepsAreRun(Initial(timeout), DoQueueUpload(u, false), DoClose(false));
  }

  // ---------- Which builder gets the results ----------

  /** The ticks of one wire ID that were handed to the builder `b`, in order. */
  function HandedTicks(log: seq<Entry>, b: Builder, id: nat): seq<int> {
    if log == [] then []
    else
      var last := log[|log| - 1];
      HandedTicks(log[..|log| - 1], b, id)
      + if last.ResultAccepted? && last.id == id && last.taker == Some(b) then [last.tick] else []
  }

  /** Beyond `n`, every result went to `b`. */
  ghost predicate TakenBy(log: seq<Entry>, n: nat, b: Builder) {
    forall p :: n <= p < |log| && log[p].ResultAccepted? ==> log[p].taker == Some(b)
  }

  /** When every later result goes to `b`, it gets what is added to the results. */
  lemma {:induction false} HandedGrows(log: seq<Entry>, more: seq<Entry>, b: Builder, id: nat)
    requires log <= more && TakenBy(more, |log|, b)
    ensures ResultTicks(log, id) <= ResultTicks(more, id)
    ensures HandedTicks(more, b, id) == HandedTicks(log, b, id) + ResultTicks(more, id)[|ResultTicks(log, id)|..]
    decreases |more|
  {
    if more == log {
    } else {
      var front, last := more[..|more| - 1], more[|more| - 1];
      HandedGrows(log, front, b, id);
    }
  }

  /** An upload that is active after a step, and whose ID was queued before it, was active before. */
  lemma StaysActive(s: State, a: Action, u: Upload)
    requires Inv(s) && u.id in QueuedIds(s.log) && Step(s, a).state.active == Some(u)
    ensures s.active == Some(u)
  {
    if !s.closed && !a.DoQueueUpload? {
      ActiveComesFromQueueing(s, a);
    }
  }

  lemma ActiveComesFromQueueing(s: State, a: Action)
    requires !s.closed && !a.DoQueueUpload?
    ensures Step(s, a).state.active in {None, s.active}
  {
    if a.DoEvent? || a.DoMessage? {
      ReactionRetiresAtMost(s, a);
    }
  }

  lemma ReactionRetiresAtMost(s: State, a: Action)
    requires !s.closed && (a.DoEvent? || a.DoMessage?)
    ensures Step(s, a).state.active in {None, s.active}
  {
    match a {
      case DoMessage(ApplicationResponse(r, now)) =>
        if s.pending.Some? { FinishingRetiresAtMost(NoteAnswer(s, r), now); }
      case DoMessage(SystemInformation(_, now)) =>
        if s.pending.Some? {
          FinishingRetiresAtMost(s.(pending := Some(s.pending.value.(responseReceived := true))), now);
        }
      case DoEvent(DeliveryConfirmed(now)) =>
        if s.pending.Some? { FinishingRetiresAtMost(NoteDelivery(s, now), now); }
      case _ =>
    }
  }

  lemma FinishingRetiresAtMost(s: State, now: int)
    ensures FinishPending(s, now).state.active in {None, s.active}
  {
    if !Releases(s) {
      FinishingIsMostlySilent(s, now);
    }
  }

  lemma QueuedStays(s: State, t: State, id: nat)
    requires s.log <= t.log && id in QueuedIds(s.log)
    ensures id in QueuedIds(t.log)
  {
    QueuedIdsGrow(s.log, t.log);
  }

  lemma {:induction false} QueuedIdsGrow(log: seq<Entry>, more: seq<Entry>)
    requires log <= more
    ensures QueuedIds(log) <= QueuedIds(more)
    decreases |more|
  {
    if more != log {
      QueuedIdsGrow(log, more[..|more| - 1]);
    }
  }

  lemma BoundBuilderStays(s: State, a: Action, b: Builder)
    requires s.builder == Some(b) && s.active.Some?
    ensures Step(s, a).state.builder == Some(b) && s.log <= Step(s, a).state.log
      && TakenBy(Step(s, a).state.log, |s.log|, b)
  {
    StepAppends(s, a);
  }

  /** As long as an upload stays active, the bound builder stays bound and takes every result accepted. */
  lemma {:induction false} BuilderTakesResults(s: State, u: Upload, b: Builder, actions: seq<Action>)
    requires Inv(s) && s.active == Some(u) && s.builder == Some(b) && Run(s, actions).active == Some(u)
    ensures var t := Run(s, actions); Inv(t) && t.builder == Some(b) && s.log <= t.log && TakenBy(t.log, |s.log|, b)
    decreases |actions|
  {
    if actions != [] {
      var before, last := actions[..|actions| - 1], actions[|actions| - 1];
      var x := Run(s, before);
      RunGrows(s, before);
      QueuedStays(s, x, u.id);
      StaysActive(x, last, u);
      BuilderTakesResults(s, u, b, before);
      BoundBuilderStays(x, last, b);
      StepKeeps(x, last);
    }
  }

  lemma {:induction false} RunGrows(s: State, actions: seq<Action>)
    requires Inv(s)
    ensures Inv(Run(s, actions)) && s.log <= Run(s, actions).log
    decreases |actions|
  {
    if actions != [] {
      RunGrows(s, actions[..|actions| - 1]);
      StepKeeps(Run(s, actions[..|actions| - 1]), actions[|actions| - 1]);
      StepAppends(Run(s, actions[..|actions| - 1]), actions[|actions| - 1]);
    }
  }

  /**
   A builder that is bound when a result of the active upload is still to come stays bound for as long as that upload
   is active, and is handed exactly the ticks that are accepted from then on, in order.
   */
  lemma BoundBuilderGetsEveryResult(s: State, u: Upload, b: Builder, actions: seq<Action>)
    requires Reachable(s) && s.active == Some(u) && s.builder == Some(b) && Run(s, actions).active == Some(u)
    ensures var t := Run(s, actions);
      && t.builder == Some(b) && s.nextResult <= t.nextResult
      && HandedTicks(t.log, b, u.id) == HandedTicks(s.log, b, u.id) + Count(t.nextResult)[s.nextResult..]
  {
    ReachableStatesAreSound(s);
    BuilderTakesResults(s, u, b, actions);
    HandedGrows(s.log, Run(s, actions).log, b, u.id);
  }

  lemma QueueingActivates(s: State, u: Upload, established: bool)
    requires QueueUpload(s, u, established).raised.None?
    ensures var x := QueueUpload(s, u, established).state;
      x.active == Some(u) && x.builder == s.builder && x.nextResult == 0
        && (s.builder.Some? ==> Belongs(s.builder.value, u))
  {
  }

  lemma HandedAreResults(log: seq<Entry>, b: Builder, id: nat)
    requires ResultTicks(log, id) == []
    ensures HandedTicks(log, b, id) == []
  {
  }

  /**
   So a builder that was bound when the upload was queued holds ticks 0, 1, … up to the next one, and belongs to the
   upload.
   */
  lemma BuilderOfAnUploadGetsItsTicks(s: State, u: Upload, b: Builder, established: bool, actions: seq<Action>)
    requires Reachable(s) && !s.closed && s.builder == Some(b) && QueueUpload(s, u, established).raised.None?
    requires Run(QueueUpload(s, u, established).state, actions).active == Some(u)
    ensures var t := Run(QueueUpload(s, u, established).state, actions);
      Belongs(b, u) && t.builder == Some(b) && HandedTicks(t.log, b, u.id) == Count(t.nextResult)
  {
    ReachableStatesAreSound(s);
    QueueUploadKeeps(s, u, established);
    QueueingActivates(s, u, established);
    HandedFromTheStart(QueueUpload(s, u, established).state, u, b, actions);
  }

  lemma HandedFromTheStart(s: State, u: Upload, b: Builder, actions: seq<Action>)
    requires Inv(s) && s.active == Some(u) && s.builder == Some(b) && s.nextResult == 0
      && Run(s, actions).active == Some(u)
    ensures var t := Run(s, actions); t.builder == Some(b) && HandedTicks(t.log, b, u.id) == Count(t.nextResult)
  {
    BuilderTakesResults(s, u, b, actions);
    HandedGrows(s.log, Run(s, actions).log, b, u.id);
    HandedAreResults(s.log, b, u.id);
  }
}
