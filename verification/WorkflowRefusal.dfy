/**
 Refused aborts and resets. A refusal writes back the phase that was saved when the abort or reset was requested;
 if every result has arrived meanwhile, completion goes unreported.
 */
module WorkflowRefusal {
  import opened Basics
  import opened Definition
  import opened Workflow
  import opened WorkflowSafety
  import opened WorkflowService
  import opened WorkflowCompletion
  import opened WorkflowProgress

  predicate IsControl(k: Kind) {
    k == Abort || k == Reset
  }

  /** An abort or reset of `t` was already pending in `s`, with the same saved phase. */
  predicate Carried(s: State, t: State) {
    && s.pending.Some? && t.pending.Some?
    && s.pending.value.request == t.pending.value.request
    && s.pending.value.previousPhase == t.pending.value.previousPhase
  }

  /** The caller's abort or reset was accepted, and saved the phase it found. */
  predicate Requested(s: State, a: Action, t: State) {
    (a.DoAbort? || a.DoReset?) && s.pending.None? && t.pending.Some? && t.pending.value.previousPhase == Some(s.phase)
  }

  lemma FinishingBringsNoControl(s: State, now: int)
    requires s.operations != [] ==> !IsControl(s.operations[0].request.kind)
    ensures var t := FinishPending(s, now).state;
      t.pending == s.pending || t.pending.None? || !IsControl(t.pending.value.request.kind)
  {
    if Finishing(s).Some? {
      var op, t := s.pending.value, s.(pending := None);
      if op.error.Some? {
        assert FinishPending(s, now).state == HandleNegative(t, op);
      } else {
        match op.request.kind {
          case Configure => assert FinishPending(s, now) == NextUploadOperation(t, op, now);
          case Tick => assert FinishPending(s, now) == NextUploadOperation(t, op, now);
          case _ =>
        }
      }
    }
  }

  lemma NotedBringsNoControl(s: State, noted: State, now: int)
    requires s.pending.Some? && noted.pending.Some? && Carried(s, noted) && noted.operations == s.operations
    requires s.operations != [] ==> !IsControl(s.operations[0].request.kind)
    requires var t := FinishPending(noted, now).state; t.pending.Some? && IsControl(t.pending.value.request.kind)
    ensures Carried(s, FinishPending(noted, now).state)
  {
    FinishingBringsNoControl(noted, now);
  }

  lemma MessageBringsNoControl(s: State, m: Inbound)
    requires !s.closed && !Fatal(s, DoMessage(m))
    requires s.operations != [] ==> !IsControl(s.operations[0].request.kind)
    requires var t := HandleMessage(s, m).state; t.pending.Some? && IsControl(t.pending.value.request.kind)
    ensures Carried(s, HandleMessage(s, m).state)
  {
    if m.ApplicationResponse? {
      AnswerFinishes(s, m.response, m.now);
      NotedBringsNoControl(s, NoteAnswer(s, m.response), m.now);
    } else if m.SystemInformation? {
      NotedBringsNoControl(s, s.(pending := Some(s.pending.value.(responseReceived := true))), m.now);
    }
  }

  lemma EventBringsNoControl(s: State, e: TransportEvent)
    requires !s.closed && !Fatal(s, DoEvent(e))
    requires s.operations != [] ==> !IsControl(s.operations[0].request.kind)
    requires var t := HandleEvent(s, e).state; t.pending.Some? && IsControl(t.pending.value.request.kind)
    ensures Carried(s, HandleEvent(s, e).state)
  {
    if e.DeliveryConfirmed? {
      NotedBringsNoControl(s, NoteDelivery(s, e.now), e.now);
    }
  }

  lemma ReactionBringsNoControl(s: State, a: Action)
    requires !s.closed && (a.DoEvent? || a.DoMessage?) && !Fatal(s, a)
    requires s.operations != [] ==> !IsControl(s.operations[0].request.kind)
    requires var t := Step(s, a).state; t.pending.Some? && IsControl(t.pending.value.request.kind)
    ensures Carried(s, Step(s, a).state)
  {
    if a.DoMessage? {
      MessageBringsNoControl(s, a.message);
    } else {
      EventBringsNoControl(s, a.event);
    }
  }

  lemma TransferBringsNoControl(s: State, a: Action)
    requires !s.closed && (a.DoRead? || a.DoOffer? || a.DoWrite?)
    requires var t := Step(s, a).state; t.pending.Some? && IsControl(t.pending.value.request.kind)
    ensures Carried(s, Step(s, a).state)
  {
    var t := Step(s, a).state;
    assert t == s.(link := t.link);
  }

  lemma BindingBringsNoControl(s: State, a: Action)
    requires !s.closed && (a.DoBind? || a.DoClose? || a.DoProcess?)
    requires var t := Step(s, a).state; t.pending.Some? && IsControl(t.pending.value.request.kind)
    ensures Carried(s, Step(s, a).state)
  {
  }

  lemma ServiceBringsNoControl(s: State, a: Action)
    requires !s.closed && (a.DoAdvance? || a.DoCheckTimeout? || a.DoSubmit? || a.DoStart? || a.DoAbort? || a.DoReset?)
    requires s.operations != [] ==> !IsControl(s.operations[0].request.kind)
    requires var t := Step(s, a).state; t.pending.Some? && IsControl(t.pending.value.request.kind)
    ensures Carried(s, Step(s, a).state) || Requested(s, a, Step(s, a).state)
  {
  }

  lemma QueuedAreUploads(s: State)
    requires Inv(s) && !s.closed && s.operations != []
    ensures IsUploadKind(s.operations[0].request.kind)
  {
  }

  /** A pending abort or reset was pending before, or was requested just now. */
  lemma ControlComesFromTheCaller(s: State, a: Action)
    requires !s.closed && (s.operations != [] ==> IsUploadKind(s.operations[0].request.kind))
    requires var t := Step(s, a).state; t.pending.Some? && IsControl(t.pending.value.request.kind)
    ensures Carried(s, Step(s, a).state) || Requested(s, a, Step(s, a).state)
  {
    if Fatal(s, a) {
      FatalFails(s, a);
    } else if a.DoEvent? || a.DoMessage? {
      ReactionBringsNoControl(s, a);
    } else if a.DoQueueUpload? {
      assert UploadOperations(a.upload)[0] == UploadOperation(a.upload, 0);
    } else if a.DoRead? || a.DoOffer? || a.DoWrite? {
      TransferBringsNoControl(s, a);
    } else if a.DoBind? || a.DoClose? || a.DoProcess? {
      BindingBringsNoControl(s, a);
    } else {
      ServiceBringsNoControl(s, a);
    }
  }

  /** The request accepted at `r` is pending ever since. */
  ghost predicate PendingSince(s: State, actions: seq<Action>, r: nat)
    requires r < |actions|
  {
    && Requested(Run(s, actions[..r]), actions[r], Run(s, actions[..r + 1]))
    && forall k :: r < k <= |actions| ==> Carried(Run(s, actions[..k]), Run(s, actions))
  }

  lemma CarriedOn(s: State, actions: seq<Action>, r: nat)
    requires |actions| > 1 && r < |actions| - 1
    requires PendingSince(s, actions[..|actions| - 1], r)
    requires Carried(Run(s, actions[..|actions| - 1]), Run(s, actions))
    ensures PendingSince(s, actions, r)
  {
    var n := |actions| - 1;
    assert actions[..n][..r] == actions[..r] && actions[..n][..r + 1] == actions[..r + 1];
    forall k | r < k <= |actions|
      ensures Carried(Run(s, actions[..k]), Run(s, actions))
    {
      if k <= n {
        assert actions[..n][..k] == actions[..k];
        assert Carried(Run(s, actions[..n][..k]), Run(s, actions[..n]));
      } else {
        assert actions[..k] == actions;
      }
    }
  }

  lemma RequestedLast(s: State, actions: seq<Action>, n: nat)
    requires |actions| == n + 1 && Requested(Run(s, actions[..n]), actions[n], Run(s, actions))
    ensures PendingSince(s, actions, n)
  {
    assert actions[..n + 1] == actions;
    assert forall k :: n < k <= |actions| ==> actions[..k] == actions;
  }

  predicate ControlPending(s: State) {
    !s.closed && s.pending.Some? && IsControl(s.pending.value.request.kind)
  }

  lemma LastStepBringsControl(timeout: int, actions: seq<Action>, n: nat)
    requires |actions| == n + 1 && ControlPending(Run(Initial(timeout), actions))
    ensures var x, t := Run(Initial(timeout), actions[..n]), Run(Initial(timeout), actions);
      (ControlPending(x) && Carried(x, t)) || Requested(x, actions[n], t)
  {
    var x := Run(Initial(timeout), actions[..n]);
    EveryRunKeeps(timeout, actions[..n]);
    if !x.closed {
      if x.operations != [] {
        QueuedAreUploads(x);
      }
      ControlComesFromTheCaller(x, actions[n]);
    }
  }

  /** A pending abort or reset has been pending since its request, and still carries the phase saved then. */
  lemma {:induction false} SavedPhaseSurvives(timeout: int, actions: seq<Action>) returns (r: nat)
    requires ControlPending(Run(Initial(timeout), actions))
    ensures r < |actions| && PendingSince(Initial(timeout), actions, r)
    ensures Saved(Run(Initial(timeout), actions)) == Some(Run(Initial(timeout), actions[..r]).phase)
    decreases |actions|
  {
    var s, n := Initial(timeout), |actions| - 1;
    LastStepBringsControl(timeout, actions, n);
    if ControlPending(Run(s, actions[..n])) && Carried(Run(s, actions[..n]), Run(s, actions)) {
      r := SavedPhaseSurvives(timeout, actions[..n]);
      assert actions[..n][..r] == actions[..r];
      CarriedOn(s, actions, r);
    } else {
      r := n;
      RequestedLast(s, actions, n);
    }
  }

  /** The action ends an abort or reset as rejected. */
  predicate RefusesControl(s: State, a: Action) {
    && !s.closed && Ends(s, a).Some?
    && IsControl(Ends(s, a).value.request.kind) && Ends(s, a).value.error == Some(OutcomeRejected)
  }

  lemma RefusedControlReturns(s: State, a: Action)
    requires RefusesControl(s, a) && Saved(s).Some?
    ensures var t := Step(s, a).state;
      && t.phase == Saved(s).value && t.pending.None?
      && t.active == s.active && t.nextResult == s.nextResult && Step(s, a).raised == Some(NegativeResponse)
    ensures IsControl(s.pending.value.request.kind)
  {
    if a.DoMessage? && a.message.ApplicationResponse? {
      AnswerFinishes(s, a.message.response, a.message.now);
    }
  }

  lemma ControlSaves(s: State)
    requires Inv(s) && !s.closed && s.pending.Some? && IsControl(s.pending.value.request.kind)
    ensures Saved(s).Some?
  {
  }

  lemma RefusedWasControl(s: State, a: Action)
    requires RefusesControl(s, a)
    ensures s.pending.Some? && IsControl(s.pending.value.request.kind)
  {
  }

  /**
   In every run that ends with the refusal of an abort or reset, the phase afterwards is the one in which that abort
   or reset was requested, however many results, events and calls came between; it was pending all that time.
   */
  lemma RefusalRestoresSavedPhase(timeout: int, actions: seq<Action>, refusal: Action) returns (r: nat)
    requires RefusesControl(Run(Initial(timeout), actions), refusal)
    ensures r < |actions| && PendingSince(Initial(timeout), actions, r)
    ensures var s, t := Run(Initial(timeout), actions), Run(Initial(timeout), actions + [refusal]);
      && t.phase == Run(Initial(timeout), actions[..r]).phase
      && t.pending.None? && t.active == s.active && t.nextResult == s.nextResult
  {
    var s := Run(Initial(timeout), actions);
    RunOne(Initial(timeout), actions, refusal);
    EveryRunKeeps(timeout, actions);
    RefusedWasControl(s, refusal);
    ControlSaves(s);
    RefusedControlReturns(s, refusal);
    r := SavedPhaseSurvives(timeout, actions);
  }

  // ---------- A run that hides completion ----------

  lemma ReachableStep(s: State, a: Action)
    requires Reachable(s)
    ensures Reachable(Step(s, a).state)
  {
    var timeout, actions :| s == Run(Initial(timeout), actions);
    RunOne(Initial(timeout), actions, a);
    assert Step(s, a).state == Run(Initial(timeout), actions + [a]);
  }

  lemma {:induction false} ReachableRun(s: State, actions: seq<Action>)
    requires Reachable(s)
    ensures Reachable(Run(s, actions))
    decreases |actions|
  {
    if actions != [] {
      ReachableRun(s, actions[..|actions| - 1]);
      ReachableStep(Run(s, actions[..|actions| - 1]), actions[|actions| - 1]);
    }
  }

  /** The state after an action that did not raise. */
  function After(s: State, a: Action): State {
    Step(s, a).state
  }

  /** `request` is pending with its only message sent or not, in flight or not, and unanswered. */
  predicate Asking(s: State, request: Request, message: Wire, sent: bool, inFlight: bool) {
    && !s.closed && s.pending.Some? && s.pending.value.request == request && s.pending.value.messages == [message]
    && s.pending.value.nextMessage == (if sent then 1 else 0) && s.deliveryPending == inFlight
    && !s.pending.value.responseReceived && s.pending.value.error.None?
  }

  /** Same upload, results and session; only the pending operation and the log moved on. */
  predicate SameUpload(s: State, t: State) {
    && t.active == s.active && t.nextResult == s.nextResult && t.accepted == s.accepted && t.started == s.started
    && t.confirmed == s.confirmed && t.phase == s.phase && Saved(t) == Saved(s) && t.retired == s.retired
    && t.builder == s.builder
    && t.operations == s.operations
  }

  lemma AskingIsSent(s: State, request: Request, message: Wire)
    requires Asking(s, request, message, false, false) && (s.confirmed || request.kind == Discovery)
    ensures var t := After(s, DoSubmit(true, StatusOk)); Asking(t, request, message, true, true) && SameUpload(s, t)
  {
  }

  lemma AskingIsConfirmed(s: State, request: Request, message: Wire)
    requires Asking(s, request, message, true, true)
    ensures var t := After(s, DoEvent(DeliveryConfirmed(0)));
      Asking(t, request, message, true, false) && SameUpload(s, t)
  {
  }

  /** A pending request can be sent and confirmed. */
  lemma AskingIsDelivered(s: State, request: Request, message: Wire) returns (t: State)
    requires Reachable(s) && Asking(s, request, message, false, false) && (s.confirmed || request.kind == Discovery)
    ensures Reachable(t) && Asking(t, request, message, true, false) && SameUpload(s, t)
  {
    var sent := After(s, DoSubmit(true, StatusOk));
    AskingIsSent(s, request, message);
    ReachableStep(s, DoSubmit(true, StatusOk));
    AskingIsConfirmed(sent, request, message);
    ReachableStep(sent, DoEvent(DeliveryConfirmed(0)));
    t := After(sent, DoEvent(DeliveryConfirmed(0)));
  }

  lemma DiscoveryIsAsked(timeout: int)
    ensures var t := After(Initial(timeout), DoAdvance(true));
      && Asking(t, Request(Discovery, None, None), SystemInfoRequest, false, false)
      && t.active.None? && t.operations == [] && t.retired == {} && t.builder.None?
  {
  }

  lemma DiscoveryIsAnswered(s: State)
    requires Asking(s, Request(Discovery, None, None), SystemInfoRequest, true, false)
    ensures var t := After(s, DoMessage(SystemInformation(true, 0)));
      && !t.closed && t.confirmed && t.pending.None? && !t.deliveryPending
      && t.active == s.active && t.operations == s.operations && t.retired == s.retired && t.builder == s.builder
  {
  }

  /** A session can be confirmed. */
  lemma SessionIsConfirmed(timeout: int) returns (t: State)
    ensures Reachable(t) && !t.closed && t.confirmed && t.pending.None? && !t.deliveryPending
    ensures t.active.None? && t.operations == [] && t.retired == {} && t.builder.None?
  {
    var s := Initial(timeout);
    assert s == Run(Initial(timeout), []);
    ReachableStep(s, DoAdvance(true));
    DiscoveryIsAsked(timeout);
    var q := AskingIsDelivered(After(s, DoAdvance(true)), Request(Discovery, None, None), SystemInfoRequest);
    DiscoveryIsAnswered(q);
    ReachableStep(q, DoMessage(SystemInformation(true, 0)));
    t := After(q, DoMessage(SystemInformation(true, 0)));
  }

  lemma ValidatedIsIdle(s: State, u: Upload)
    requires Validated(s, u) && u.startMode == HostCommand
    ensures CanStart(s, u)
  {
  }

  /** Ready for START, on a confirmed session with nothing pending. */
  predicate CanStart(s: State, u: Upload) {
    && !s.closed && s.confirmed && s.active == Some(u) && s.accepted && s.phase == ReadyToStart
    && s.pending.None? && !s.deliveryPending
  }

  lemma QueueingUnfinished(s: State, u: Upload) returns (t: State)
    requires Reachable(s) && !s.closed && s.confirmed && s.pending.None? && QueueUpload(s, u, true).raised.None?
    ensures Reachable(t) && Unfinished(t, u) && t.nextResult == 0
  {
    ReachableStatesAreSound(s);
    ReachableStep(s, DoQueueUpload(u, true));
    QueuedUploadStarts(s, u);
    t := QueueUpload(s, u, true).state;
  }

  /** A host-started upload can be validated. */
  lemma UploadIsValidated(timeout: int, u: Upload) returns (t: State)
    requires u.startMode == HostCommand
    ensures Reachable(t) && CanStart(t, u) && t.nextResult == 0
  {
    var s := SessionIsConfirmed(timeout);
    QueueingSucceeds(s, u);
    var queued := QueueingUnfinished(s, u);
    var actions := ValidationIsInReach(queued, u);
    ReachableRun(queued, actions);
    t := Run(queued, actions);
    ValidatedIsIdle(t, u);
  }

  lemma QueueingSucceeds(s: State, u: Upload)
    requires s.active.None? && s.operations == [] && s.retired == {} && s.pending.None? && s.confirmed
    requires s.builder.Some? ==> Belongs(s.builder.value, u)
    ensures QueueUpload(s, u, true).raised.None?
  {
    assert UploadOperations(u)[0] == UploadOperation(u, 0);
  }

  /** Running with nothing pending, `n` results in, on a confirmed session. */
  predicate RunningWith(s: State, u: Upload, n: nat) {
    && !s.closed && s.phase == Running && s.started && s.confirmed && s.pending.None? && !s.deliveryPending
    && s.active == Some(u) && s.nextResult == n
  }

  /** A host-started upload can be started. */
  lemma UploadIsStarted(timeout: int, u: Upload) returns (t: State)
    requires u.startMode == HostCommand
    ensures Reachable(t) && RunningWith(t, u, 0)
  {
    var s := UploadIsValidated(timeout, u);
    StartIsAsked(s, u);
    ReachableStep(s, DoStart);
    var q := AskingIsDelivered(After(s, DoStart), StartRequest(u.id), StartControl(u.id));
    StartIsAnswered(q, u);
    ReachableStep(q, Started(u.id));
    t := After(q, Started(u.id));
  }

  /** The rig's answer to START. */
  function Started(id: nat): Action {
    DoMessage(ApplicationResponse(
      Response(Some(id), ExecutionControlScope, OutcomeCompleted, 0, StartCommand, InvalidGlobalCommand), 0))
  }

  lemma StartIsAsked(s: State, u: Upload)
    requires CanStart(s, u) && u.startMode == HostCommand
    ensures var t := After(s, DoStart);
      && Asking(t, StartRequest(u.id), StartControl(u.id), false, false)
      && t.confirmed && t.active == s.active && t.nextResult == s.nextResult
  {
  }

  lemma StartIsAnswered(s: State, u: Upload)
    requires Asking(s, StartRequest(u.id), StartControl(u.id), true, false) && s.confirmed && s.active == Some(u)
    ensures RunningWith(After(s, Started(u.id)), u, s.nextResult)
  {
  }

  /** Results can arrive up to any number short of the last. */
  lemma {:induction false} ResultsArrive(timeout: int, u: Upload, n: nat) returns (t: State)
    requires u.startMode == HostCommand && n < Expected(u)
    ensures Reachable(t) && RunningWith(t, u, n)
    decreases n
  {
    if n == 0 {
      t := UploadIsStarted(timeout, u);
    } else {
      var s := ResultsArrive(timeout, u, n - 1);
      ReachableStep(s, DoMessage(TestResult(u.id, n - 1, true)));
      t := After(s, DoMessage(TestResult(u.id, n - 1, true)));
    }
  }

  function AbortRequest(id: nat): Request {
    Request(Abort, Some(id), None)
  }

  lemma AbortIsRequested(s: State, u: Upload, n: nat)
    requires RunningWith(s, u, n)
    ensures var t := After(s, DoAbort);
      && Asking(t, AbortRequest(u.id), AbortControl(u.id), false, false) && Saved(t) == Some(Running)
      && t.active == s.active && t.started && t.confirmed && t.nextResult == n
  {
  }

  lemma LastResultArrives(s: State, u: Upload)
    requires Asking(s, AbortRequest(u.id), AbortControl(u.id), true, false) && Saved(s) == Some(Running)
    requires s.active == Some(u) && s.started && s.nextResult + 1 == Expected(u)
    ensures CompletesResults(s, DoMessage(TestResult(u.id, s.nextResult, true)))
    ensures var t := After(s, DoMessage(TestResult(u.id, s.nextResult, true)));
      && Asking(t, AbortRequest(u.id), AbortControl(u.id), true, false) && Saved(t) == Some(Running)
      && t.active == s.active && t.nextResult == Expected(u) && t.phase == ResultsComplete
  {
  }

  lemma AbortIsRefused(s: State, u: Upload)
    requires Asking(s, AbortRequest(u.id), AbortControl(u.id), true, false) && Saved(s) == Some(Running)
    ensures var t := After(s, DoMessage(ApplicationResponse(
        Response(Some(u.id), ExecutionControlScope, OutcomeRejected, 0, AbortCommand, InvalidGlobalCommand), 0)));
      t.phase == Running && t.active == s.active && t.nextResult == s.nextResult && t.pending.None? && !t.closed
  {
  }

  /**
   The phase after every result is in depends on more than the results: for every host-started upload there is a run
   in which the last result arrives while an abort is pending, the abort is refused, and the connection is left open
   and idle in RUNNING with every result accepted.
   */
  lemma RefusedAbortHidesCompletion(timeout: int, u: Upload) returns (t: State)
    requires u.startMode == HostCommand && Expected(u) > 0
    ensures Reachable(t) && !t.closed && t.pending.None? && t.phase == Running
    ensures t.active == Some(u) && t.nextResult == Expected(u) && AllIn(t)
  {
    var s := ResultsArrive(timeout, u, Expected(u) - 1);
    AbortIsRequested(s, u, Expected(u) - 1);
    ReachableStep(s, DoAbort);
    var asked := AskingIsDelivered(After(s, DoAbort), AbortRequest(u.id), AbortControl(u.id));
    LastResultArrives(asked, u);
    var result := DoMessage(TestResult(u.id, asked.nextResult, true));
    ReachableStep(asked, result);
    AbortIsRefused(After(asked, result), u);
    var refusal := DoMessage(ApplicationResponse(
      Response(Some(u.id), ExecutionControlScope, OutcomeRejected, 0, AbortCommand, InvalidGlobalCommand), 0));
    ReachableStep(After(asked, result), refusal);
    t := After(After(asked, result), refusal);
  }
}
