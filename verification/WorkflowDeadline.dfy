/**
 How long the connection waits for an answer: over every run, from the clock reading at which Transport confirmed the
 last message of an operation, or at which the wait for whole-test validation began, exactly the configured timeout.
 */
module WorkflowDeadline {
  import opened Basics
  import opened Workflow
  import opened WorkflowSafety

  /** Everything is submitted and confirmed, and the answer is still to come. */
  predicate Awaits(s: State) {
    s.pending.Some? && !s.deliveryPending && s.pending.value.nextMessage == |s.pending.value.messages|
  }

  predicate AwaitsUntil(s: State, deadline: int) {
    Awaits(s) && !s.pending.value.responseReceived && s.pending.value.deadline == Some(deadline)
  }

  /** The clock reading that comes with a confirmation or an answer. */
  function Clock(a: Action): Option<int> {
    match a
    case DoEvent(DeliveryConfirmed(now)) => Some(now)
    case DoMessage(ApplicationResponse(_, now)) => Some(now)
    case _ => None
  }

  /** The step begins a wait at its own clock. */
  predicate BeginsWait(a: Action, t: State) {
    && Clock(a).Some? && AwaitsUntil(t, Clock(a).value + t.timeout)
    && (a.DoEvent? || t.pending.value.request.kind == CompleteTest)
  }

  /** If the state after the step awaits an answer, the step began that wait, or the wait goes on unchanged. */
  predicate WaitsOn(s: State, a: Action, t: State) {
    && t.timeout == s.timeout
    && (Awaits(t) ==> BeginsWait(a, t) || (Awaits(s) && t.pending == s.pending))
  }

  lemma FirstQueuedIsUnsent(s: State)
    requires Inv(s) && !s.closed && s.operations != []
    ensures s.operations[0].nextMessage == 0 && |s.operations[0].messages| == 1
  {
    var u := s.active.value;
    if InUpload(s, u) {
      var i: nat := MessageCount(u) - 1 - |s.operations|;
      assert s.operations[0] == UploadOperations(u)[i + 1..][0];
    } else {
      assert Waiting(s, u);
      assert s.operations[0] == UploadOperation(u, 0);
    }
  }

  lemma NegativeAwaitsNothing(s: State, op: Operation)
    requires s.pending.None?
    ensures HandleNegative(s, op).pending.None? && HandleNegative(s, op).timeout == s.timeout
  {
  }

  lemma NextBegins(s: State, op: Operation, now: int)
    requires s.pending.None?
    requires s.operations != [] ==> s.operations[0].nextMessage == 0 && |s.operations[0].messages| == 1
    ensures var t := NextUploadOperation(s, op, now).state;
      && t.timeout == s.timeout
      && (Awaits(t) ==> AwaitsUntil(t, now + t.timeout) && t.pending.value.request.kind == CompleteTest)
  {
  }

  predicate Finishes(s: State) {
    Awaits(s) && s.pending.value.responseReceived
  }

  lemma AcceptanceBegins(s: State, now: int)
    requires Finishes(s) && s.pending.value.error.None? && IsUploadKind(s.pending.value.request.kind)
    requires s.operations != [] ==> s.operations[0].nextMessage == 0 && |s.operations[0].messages| == 1
    ensures var t := FinishPending(s, now).state;
      && t.timeout == s.timeout
      && (Awaits(t) ==> AwaitsUntil(t, now + t.timeout) && t.pending.value.request.kind == CompleteTest)
  {
    NextBegins(s.(pending := None), s.pending.value, now);
  }

  lemma OtherSuccessBegins(s: State, now: int)
    requires Finishes(s) && s.pending.value.error.None? && !IsUploadKind(s.pending.value.request.kind)
    ensures var t := FinishPending(s, now).state; t.timeout == s.timeout && !Awaits(t)
  {
  }

  /** Finishing an operation begins no wait but the one for validation. */
  lemma FinishingBegins(s: State, now: int)
    requires s.operations != [] ==> s.operations[0].nextMessage == 0 && |s.operations[0].messages| == 1
    ensures !Finishes(s) ==> FinishPending(s, now).state == s
    ensures Finishes(s) ==>
      var t := FinishPending(s, now).state;
      && t.timeout == s.timeout
      && (Awaits(t) ==> AwaitsUntil(t, now + t.timeout) && t.pending.value.request.kind == CompleteTest)
  {
    if Finishes(s) {
      if s.pending.value.error.Some? {
        NegativeAwaitsNothing(s.(pending := None), s.pending.value);
      } else if IsUploadKind(s.pending.value.request.kind) {
        AcceptanceBegins(s, now);
      } else {
        OtherSuccessBegins(s, now);
      }
    }
  }

  lemma ConfirmationBegins(s: State, now: int)
    requires s.operations != [] ==> s.operations[0].nextMessage == 0 && |s.operations[0].messages| == 1
    ensures var t := ConfirmDelivery(s, now).state;
      t.timeout == s.timeout && (Awaits(t) ==> AwaitsUntil(t, now + t.timeout))
  {
    if s.pending.Some? && s.deliveryPending {
      FinishingBegins(NoteDelivery(s, now), now);
    }
  }

  lemma AnswerBegins(s: State, r: Response, now: int)
    requires s.operations != [] ==> s.operations[0].nextMessage == 0 && |s.operations[0].messages| == 1
    ensures var t := HandleResponse(s, r, now).state;
      && t.timeout == s.timeout
      && (Awaits(t) ==> AwaitsUntil(t, now + t.timeout) && t.pending.value.request.kind == CompleteTest)
  {
    if s.pending.Some? && s.pending.value.request.kind != Discovery && Matches(r, s.pending.value.request) {
      AnswerFinishes(s, r, now);
      FinishingBegins(NoteAnswer(s, r), now);
    }
  }

  lemma InformationBegins(s: State, compatible: bool, now: int)
    requires s.operations != [] ==> s.operations[0].nextMessage == 0 && |s.operations[0].messages| == 1
    requires s.pending.Some? && s.pending.value.request.kind == Discovery
    ensures !Awaits(HandleInformation(s, compatible, now).state)
    ensures HandleInformation(s, compatible, now).state.timeout == s.timeout
  {
    if compatible {
      FinishingBegins(s.(pending := Some(s.pending.value.(responseReceived := true))), now);
    }
  }

  lemma ReactionWaitsOn(s: State, a: Action)
    requires !s.closed && (a.DoEvent? || a.DoMessage?)
    requires s.operations != [] ==> s.operations[0].nextMessage == 0 && |s.operations[0].messages| == 1
    ensures WaitsOn(s, a, Step(s, a).state)
  {
    match a {
      case DoEvent(DeliveryConfirmed(now)) => ConfirmationBegins(s, now);
      case DoEvent(_) =>
      case DoMessage(ApplicationResponse(r, now)) => AnswerBegins(s, r, now);
      case DoMessage(SystemInformation(compatible, now)) =>
        if s.pending.Some? && s.pending.value.request.kind == Discovery {
          InformationBegins(s, compatible, now);
        }
      case DoMessage(_) =>
    }
  }

  lemma RequestWaitsOn(s: State, a: Action)
    requires !s.closed && (a.DoQueueUpload? || a.DoStart? || a.DoAbort? || a.DoReset? || a.DoClose? || a.DoAdvance?)
    requires s.operations != [] ==> s.operations[0].nextMessage == 0 && |s.operations[0].messages| == 1
    ensures WaitsOn(s, a, Step(s, a).state)
  {
    if a.DoQueueUpload? {
      assert UploadOperations(a.upload)[0] == UploadOperation(a.upload, 0);
    }
  }

  lemma TransferWaitsOn(s: State, a: Action)
    requires !s.closed && (a.DoRead? || a.DoOffer? || a.DoWrite? || a.DoBind?)
    ensures WaitsOn(s, a, Step(s, a).state)
  {
    TransfersTouchBytes(s, a);
  }

  lemma ServiceWaitsOn(s: State, a: Action)
    requires !s.closed && (a.DoProcess? || a.DoCheckTimeout? || a.DoSubmit?)
    ensures WaitsOn(s, a, Step(s, a).state)
  {
  }

  lemma StepWaitsOn(s: State, a: Action)
    requires Inv(s)
    ensures WaitsOn(s, a, Step(s, a).state)
  {
    if !s.closed {
      if s.operations != [] {
        FirstQueuedIsUnsent(s);
      }
      if a.DoEvent? || a.DoMessage? {
        ReactionWaitsOn(s, a);
      } else if a.DoRead? || a.DoOffer? || a.DoWrite? || a.DoBind? {
        TransferWaitsOn(s, a);
      } else if a.DoProcess? || a.DoCheckTimeout? || a.DoSubmit? {
        ServiceWaitsOn(s, a);
      } else {
        RequestWaitsOn(s, a);
      }
    }
  }

  ghost predicate AwaitsAt(timeout: int, actions: seq<Action>, j: nat, op: Operation)
    requires j <= |actions|
  {
    var s := Run(Initial(timeout), actions[..j]);
    Awaits(s) && s.pending == Some(op)
  }

  /** From after step `k` on, the run awaits this very answer. */
  ghost predicate WaitsSince(timeout: int, actions: seq<Action>, k: nat, op: Operation) {
    forall j :: k < j <= |actions| ==> AwaitsAt(timeout, actions, j, op)
  }

  lemma WaitGoesOn(timeout: int, actions: seq<Action>, k: nat, op: Operation)
    requires k < |actions| - 1 && WaitsSince(timeout, actions[..|actions| - 1], k, op)
    requires AwaitsAt(timeout, actions, |actions|, op)
    ensures WaitsSince(timeout, actions, k, op)
  {
    var n := |actions| - 1;
    forall j | k < j <= |actions|
      ensures AwaitsAt(timeout, actions, j, op)
    {
      if j <= n {
        assert actions[..n][..j] == actions[..j];
        assert AwaitsAt(timeout, actions[..n], j, op);
      }
    }
  }

  lemma {:induction false} TimeoutIsKept(timeout: int, actions: seq<Action>)
    ensures Run(Initial(timeout), actions).timeout == timeout
    decreases |actions|
  {
    if actions != [] {
      var n := |actions| - 1;
      TimeoutIsKept(timeout, actions[..n]);
      RunWaitsOn(timeout, actions);
    }
  }

  /** Step `k` began the wait for the answer to `op`, at its own clock, and it has gone on since. */
  ghost predicate BeganAt(timeout: int, actions: seq<Action>, k: nat, op: Operation)
    requires k < |actions|
  {
    && Clock(actions[k]).Some? && op.deadline == Some(Clock(actions[k]).value + timeout) && !op.responseReceived
    && (actions[k].DoEvent? || op.request.kind == CompleteTest)
    && WaitsSince(timeout, actions, k, op)
  }

  lemma WaitIsInherited(timeout: int, actions: seq<Action>, k: nat, op: Operation)
    requires k < |actions| - 1 && AwaitsAt(timeout, actions, |actions|, op)
    requires BeganAt(timeout, actions[..|actions| - 1], k, op)
    ensures BeganAt(timeout, actions, k, op)
  {
    WaitGoesOn(timeout, actions, k, op);
  }

  lemma AwaitsAtLast(timeout: int, actions: seq<Action>)
    requires actions != [] && Awaits(Run(Initial(timeout), actions))
    ensures var op := Run(Initial(timeout), actions).pending.value;
      && AwaitsAt(timeout, actions, |actions|, op)
      && WaitsSince(timeout, actions, |actions| - 1, op)
  {
    assert actions[..|actions|] == actions;
  }

  lemma RunWaitsOn(timeout: int, actions: seq<Action>)
    requires actions != []
    ensures var n := |actions| - 1;
      WaitsOn(Run(Initial(timeout), actions[..n]), actions[n], Run(Initial(timeout), actions))
  {
    var n := |actions| - 1;
    EveryRunKeeps(timeout, actions[..n]);
    StepWaitsOn(Run(Initial(timeout), actions[..n]), actions[n]);
  }

  /** At the end of a run that awaits an answer, the last step began the wait, or it went on over the last step. */
  lemma BeginsOrGoesOn(timeout: int, actions: seq<Action>, op: Operation)
    requires actions != [] && AwaitsAt(timeout, actions, |actions|, op)
    ensures
      || BeganAt(timeout, actions, |actions| - 1, op)
      || AwaitsAt(timeout, actions[..|actions| - 1], |actions| - 1, op)
  {
    var n := |actions| - 1;
    assert actions[..|actions|] == actions && actions[..n][..n] == actions[..n];
    RunWaitsOn(timeout, actions);
    AwaitsAtLast(timeout, actions);
    TimeoutIsKept(timeout, actions);
  }

  /** Whenever an answer is awaited, some step of the run began the wait, and it has gone on since. */
  lemma {:induction false} WaitHasABeginning(timeout: int, actions: seq<Action>, op: Operation) returns (k: nat)
    requires AwaitsAt(timeout, actions, |actions|, op)
    ensures k < |actions| && BeganAt(timeout, actions, k, op)
    decreases |actions|
  {
    if actions == [] {
      NothingIsAwaitedAtFirst(timeout, actions, op);
    } else {
      var n := |actions| - 1;
      BeginsOrGoesOn(timeout, actions, op);
      if BeganAt(timeout, actions, n, op) {
        k := n;
      } else {
        k := WaitHasABeginning(timeout, actions[..n], op);
        WaitIsInherited(timeout, actions, k, op);
      }
    }
  }

  lemma NothingIsAwaitedAtFirst(timeout: int, actions: seq<Action>, op: Operation)
    requires actions == []
    ensures !AwaitsAt(timeout, actions, 0, op)
  {
  }

  /**
   Whenever an answer is awaited, some step began the wait, at the clock reading it brought: the confirmation of the
   operation's last message, or for whole-test validation the answer to the last upload message. Looking for an overdue
   response then raises exactly when the timeout has passed since that reading.
   */
  lemma TimesOutExactlyWhen(timeout: int, actions: seq<Action>) returns (k: nat, began: int)
    requires var s := Run(Initial(timeout), actions); Awaits(s) && !s.closed
    ensures k < |actions|
    ensures
      || actions[k] == DoEvent(DeliveryConfirmed(began))
      || (actions[k].DoMessage? && actions[k].message.ApplicationResponse? && actions[k].message.now == began
          && Run(Initial(timeout), actions).pending.value.request.kind == CompleteTest)
    ensures WaitsSince(timeout, actions, k, Run(Initial(timeout), actions).pending.value)
    ensures var s := Run(Initial(timeout), actions);
      forall now ::
        Step(s, DoCheckTimeout(now)).raised == if began + timeout <= now then Some(ResponseTimeout) else None
  {
    var s := Run(Initial(timeout), actions);
    assert actions[..|actions|] == actions;
    k := WaitHasABeginning(timeout, actions, s.pending.value);
    began := Clock(actions[k]).value;
    OverdueExactlyWhen(s, began + timeout);
  }

  lemma OverdueExactlyWhen(s: State, deadline: int)
    requires AwaitsUntil(s, deadline) && !s.closed
    ensures forall now :: Step(s, DoCheckTimeout(now)).raised == if deadline <= now then Some(ResponseTimeout) else None
  {
  }
}
