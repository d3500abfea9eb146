/**
 Requests on an unconfirmed session. An abort has no session guard, so it can become pending before compatibility is
 confirmed; it then keeps discovery out and is itself never sent, whatever the rig, Transport and callers do.
 */
module WorkflowStall {
  import opened Basics
  import opened Workflow
  import opened WorkflowSafety
  import opened WorkflowService
  import opened WorkflowWires
  import opened WorkflowCompletion

  /** The pending operation still has a message to send, and nothing is in flight. */
  predicate ToSend(s: State) {
    && !s.closed && s.pending.Some? && !s.deliveryPending
    && s.pending.value.nextMessage < |s.pending.value.messages|
  }

  /** An unsent request that is not discovery, on a session whose compatibility is not confirmed. */
  predicate Stalled(s: State) {
    ToSend(s) && s.pending.value.request.kind != Discovery && !s.confirmed && s.pending.value.deadline.None?
  }

  /** The same operation is pending, as far as it was sent before. */
  predicate SameOperation(s: State, t: State) {
    && s.pending.Some? && t.pending.Some?
    && t.pending.value ==
       s.pending.value.(responseReceived := t.pending.value.responseReceived, error := t.pending.value.error)
  }

  /** What drops a stalled request: a close, or a failure other than an overdue response or a refused submission. */
  predicate Drops(s: State, a: Action) {
    a.DoClose? || (Fatal(s, a) && !a.DoCheckTimeout? && !a.DoSubmit?)
  }

  predicate Gone(t: State) {
    t.closed || t.pending.None?
  }

  lemma StalledAnswer(s: State, r: Response, now: int)
    requires Stalled(s)
    ensures var t := HandleResponse(s, r, now).state;
      if Matches(r, s.pending.value.request) then Stalled(t) && SameOperation(s, t) else Gone(t)
  {
    if Matches(r, s.pending.value.request) {
      AnswerFinishes(s, r, now);
    }
  }

  lemma StalledReaction(s: State, a: Action)
    requires Stalled(s) && (a.DoEvent? || a.DoMessage?)
    ensures var t := Step(s, a).state; if Drops(s, a) then Gone(t) else Stalled(t) && SameOperation(s, t)
  {
    if a.DoMessage? && a.message.ApplicationResponse? {
      StalledAnswer(s, a.message.response, a.message.now);
    }
  }

  lemma StalledCall(s: State, a: Action)
    requires Stalled(s) && (a.DoQueueUpload? || a.DoStart? || a.DoAbort? || a.DoReset? || a.DoBind? || a.DoClose?)
    ensures var t := Step(s, a).state; if Drops(s, a) then Gone(t) else Stalled(t) && SameOperation(s, t)
  {
  }

  lemma StalledTransfer(s: State, a: Action)
    requires Stalled(s) && !a.DoEvent? && !a.DoMessage?
    requires !a.DoQueueUpload? && !a.DoStart? && !a.DoAbort? && !a.DoReset? && !a.DoBind? && !a.DoClose?
    ensures var t := Step(s, a).state; if Drops(s, a) then Gone(t) else Stalled(t) && SameOperation(s, t)
  {
  }

  /** Whatever happens next, the request stays as it is or is gone. */
  lemma StalledStep(s: State, a: Action)
    requires Stalled(s)
    ensures var t := Step(s, a).state; if Drops(s, a) then Gone(t) else Stalled(t) && SameOperation(s, t)
  {
    if a.DoEvent? || a.DoMessage? {
      StalledReaction(s, a);
    } else if a.DoQueueUpload? || a.DoStart? || a.DoAbort? || a.DoReset? || a.DoBind? || a.DoClose? {
      StalledCall(s, a);
    } else {
      StalledTransfer(s, a);
    }
  }

  /** No message is submitted while a request is stalled. */
  lemma StalledStepIsQuiet(s: State, a: Action)
    requires Stalled(s)
    ensures Quiet(s, Step(s, a).state)
  {
    if a.DoMessage? {
      MessageIsQuiet(s, a.message);
    } else if a.DoEvent? && a.event.DeliveryConfirmed? {
      ConfirmationIsQuiet(s, a.event.now);
    } else if a.DoQueueUpload? {
      SameIsQuiet(s, Step(s, a).state);
    } else {
      PlainStepIsQuiet(s, a);
    }
  }

  predicate DropsAt(s: State, actions: seq<Action>, k: nat)
    requires k < |actions|
  {
    Drops(Run(s, actions[..k]), actions[k])
  }

  /** Up to position `k` the request stalls, and nothing is submitted. */
  ghost predicate StallsUpTo(s: State, actions: seq<Action>, k: nat)
    requires k <= |actions|
  {
    forall j :: 0 <= j <= k ==>
      var t := Run(s, actions[..j]); Stalled(t) && SameOperation(s, t) && Quiet(s, t)
  }

  lemma StallGoesOn(s: State, actions: seq<Action>, k: nat)
    requires k < |actions| && StallsUpTo(s, actions, k)
    ensures var t := Run(s, actions[..k + 1]);
      if DropsAt(s, actions, k) then Gone(t) else StallsUpTo(s, actions, k + 1)
  {
    var x := Run(s, actions[..k]);
    assert actions[..k + 1] == actions[..k] + [actions[k]];
    RunOne(s, actions[..k], actions[k]);
    StalledStep(x, actions[k]);
    StalledStepIsQuiet(x, actions[k]);
    QuietChains(s, x, Run(s, actions[..k + 1]));
  }

  /**
   In every run from a stalled request, whatever callers, Transport and the rig do, the request stays pending and
   unsent, nothing is submitted and no timeout strikes, until a close or a failure drops it.
   */
  lemma {:induction false} UnconfirmedRequestStalls(s: State, actions: seq<Action>, n: nat) returns (k: nat)
    requires Stalled(s) && n <= |actions|
    ensures k <= n && StallsUpTo(s, actions, k)
    ensures k < n ==> DropsAt(s, actions, k) && Gone(Run(s, actions[..k + 1]))
    decreases n
  {
    if n == 0 {
      k := 0;
      assert actions[..0] == [];
      SameIsQuiet(s, s);
    } else {
      k := UnconfirmedRequestStalls(s, actions, n - 1);
      if k == n - 1 {
        StallGoesOn(s, actions, k);
        if !DropsAt(s, actions, k) {
          k := n;
        }
      }
    }
  }

  // ---------- When a request goes out ----------

  /** The deadline of an operation is set only after its last message was submitted. */
  predicate Unarmed(s: State) {
    s.pending.Some? && s.pending.value.nextMessage < |s.pending.value.messages| ==> s.pending.value.deadline.None?
  }

  lemma FirstQueuedIsUnarmed(s: State)
    requires Inv(s) && !s.closed && s.operations != []
    ensures s.operations[0].deadline.None?
  {
  }

  lemma FinishingUnarms(s: State, now: int)
    requires Unarmed(s) && (s.operations != [] ==> s.operations[0].deadline.None?)
    ensures Unarmed(FinishPending(s, now).state)
  {
    if Finishing(s).Some? {
      var op, t := s.pending.value, s.(pending := None);
      if op.error.Some? {
        assert FinishPending(s, now).state == HandleNegative(t, op);
      } else {
        match op.request.kind {
          case Configure => assert FinishPending(s, now) == NextUploadOperation(t, op, now);
          case Tick => assert FinishPending(s, now) == NextUploadOperation(t, op, now);
          case _ =>
        }
      }
    }
  }

  lemma AnswerUnarms(s: State, r: Response, now: int)
    requires Unarmed(s) && (s.operations != [] ==> s.operations[0].deadline.None?)
    requires s.pending.Some? && s.pending.value.request.kind != Discovery && Matches(r, s.pending.value.request)
    ensures Unarmed(HandleResponse(s, r, now).state)
  {
    AnswerFinishes(s, r, now);
    FinishingUnarms(NoteAnswer(s, r), now);
  }

  lemma ReactionUnarms(s: State, a: Action)
    requires !s.closed && (a.DoEvent? || a.DoMessage?) && !Fatal(s, a)
    requires Unarmed(s) && (s.operations != [] ==> s.operations[0].deadline.None?)
    ensures Unarmed(Step(s, a).state)
  {
    match a {
      case DoMessage(ApplicationResponse(r, now)) => AnswerUnarms(s, r, now);
      case DoMessage(SystemInformation(_, now)) =>
        FinishingUnarms(s.(pending := Some(s.pending.value.(responseReceived := true))), now);
      case DoEvent(DeliveryConfirmed(now)) => FinishingUnarms(NoteDelivery(s, now), now);
      case _ =>
    }
  }

  lemma TransfersUnarm(s: State, a: Action)
    requires !s.closed && (a.DoRead? || a.DoOffer? || a.DoWrite? || a.DoBind?) && Unarmed(s)
    ensures Unarmed(Step(s, a).state)
  {
    TransfersTouchBytes(s, a);
  }

  lemma OthersUnarm(s: State, a: Action)
    requires !s.closed && !a.DoEvent? && !a.DoMessage? && !Fatal(s, a)
    requires !a.DoRead? && !a.DoOffer? && !a.DoWrite? && !a.DoBind?
    requires Unarmed(s) && (s.operations != [] ==> s.operations[0].deadline.None?)
    ensures Unarmed(Step(s, a).state)
  {
    if a.DoQueueUpload? {
      assert UploadOperations(a.upload)[0] == UploadOperation(a.upload, 0);
    }
  }

  lemma StepUnarms(s: State, a: Action)
    requires Inv(s) && Unarmed(s)
    ensures Unarmed(Step(s, a).state)
  {
    if !s.closed {
      if s.operations != [] {
        FirstQueuedIsUnarmed(s);
      }
      if Fatal(s, a) {
        FatalFails(s, a);
      } else if a.DoEvent? || a.DoMessage? {
        ReactionUnarms(s, a);
      } else if a.DoRead? || a.DoOffer? || a.DoWrite? || a.DoBind? {
        TransfersUnarm(s, a);
      } else {
        OthersUnarm(s, a);
      }
    }
  }

  lemma {:induction false} EveryRunUnarms(timeout: int, actions: seq<Action>)
    ensures Unarmed(Run(Initial(timeout), actions))
    decreases |actions|
  {
    if actions != [] {
      EveryRunUnarms(timeout, actions[..|actions| - 1]);
      EveryRunKeeps(timeout, actions[..|actions| - 1]);
      StepUnarms(Run(Initial(timeout), actions[..|actions| - 1]), actions[|actions| - 1]);
    }
  }

  /** The action submits the next message of the operation that is pending. */
  predicate Sends(s: State, a: Action) {
    var t := Step(s, a).state;
    && ToSend(s)
    && t.log == s.log + [Submitted(s.pending.value.request, s.pending.value.messages[s.pending.value.nextMessage])]
  }

  /** In the run, the operation pending in `s` stays pending and unsent until the last action sends its message. */
  ghost predicate GoesOut(s: State, actions: seq<Action>) {
    && actions != [] && Sends(Run(s, actions[..|actions| - 1]), actions[|actions| - 1])
    && forall j :: 0 <= j < |actions| ==> ToSend(Run(s, actions[..j])) && SameOperation(s, Run(s, actions[..j]))
  }

  lemma StalledDoesNotGoOut(s: State, actions: seq<Action>)
    requires Stalled(s)
    ensures !GoesOut(s, actions)
  {
    if GoesOut(s, actions) {
      var n := |actions| - 1;
      var k := UnconfirmedRequestStalls(s, actions, n);
      assert k < n ==> ToSend(Run(s, actions[..k + 1]));
      var x := Run(s, actions[..n]);
      StalledStepIsQuiet(x, actions[n]);
      QuietSubmitsNothing(x, Step(x, actions[n]).state);
    }
  }

  lemma QuietSubmitsNothing(s: State, t: State)
    requires Quiet(s, t)
    ensures forall e: Entry :: e.Submitted? ==> t.log != s.log + [e]
  {
    assert |t.log| > |s.log| ==> Silent(t.log[|s.log|]);
  }

  /**
   In every reachable state, a pending operation with a message left to send can go out in some run exactly when the
   session is confirmed or it is discovery itself. Then a Transport that answers OK takes it at once.
   */
  lemma RequestGoesOutExactlyWhen(s: State)
    requires Reachable(s) && ToSend(s)
    ensures (exists actions :: GoesOut(s, actions)) <==> s.confirmed || s.pending.value.request.kind == Discovery
    ensures (exists actions :: GoesOut(s, actions)) <==> Sends(s, DoSubmit(true, StatusOk))
  {
    if s.confirmed || s.pending.value.request.kind == Discovery {
      var actions := [DoSubmit(true, StatusOk)];
      assert actions[..0] == [];
      assert Sends(s, actions[0]);
      assert GoesOut(s, actions);
    } else {
      var timeout, actions :| s == Run(Initial(timeout), actions);
      EveryRunUnarms(timeout, actions);
      forall actions
        ensures !GoesOut(s, actions)
      {
        StalledDoesNotGoOut(s, actions);
      }
    }
  }

  /** Stalled requests exist: any upload that is queued before a session is established can be aborted at once. */
  lemma AbortCanStall(timeout: int, u: Upload)
    ensures var queued := Step(Initial(timeout), DoQueueUpload(u, false)).state;
      var s := Step(queued, DoAbort).state;
      && Reachable(s) && Stalled(s) && PendingKind(s) == Some(Abort) && s.active == Some(u)
  {
    var start := Initial(timeout);
    StepIsRun(start, DoQueueUpload(u, false));
    RunOne(start, [DoQueueUpload(u, false)], DoAbort);
    var actions := [DoQueueUpload(u, false)] + [DoAbort];
    assert Step(Step(start, DoQueueUpload(u, false)).state, DoAbort).state == Run(start, actions);
  }
}
