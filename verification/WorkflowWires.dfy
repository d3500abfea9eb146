/**
 What the rig was sent for one upload: in every run the upload messages submitted for a wire ID are a
 prefix of that upload's messages in build order, none twice, and all of them before its START.
 */
module WorkflowWires {
  import opened Basics
  import opened Workflow
  import opened WorkflowSafety

  predicate IsUploadWire(w: Wire, id: nat) {
    (w.TestConfiguration? || w.TestInstruction?) && w.id == id
  }

  /** The upload messages submitted for one wire ID, in order. */
  function WiresSent(log: seq<Entry>, id: nat): seq<Wire> {
    if log == [] then []
    else
      var last := log[|log| - 1];
      WiresSent(log[..|log| - 1], id) + if last.Submitted? && IsUploadWire(last.wire, id) then [last.wire] else []
  }

  /** The first `n` messages of an upload. */
  function FirstWires(u: Upload, n: nat): seq<Wire>
    requires n <= MessageCount(u)
  {
    seq(n, i requires 0 <= i < n => UploadWire(u, i))
  }

  lemma WiresGrow(log: seq<Entry>, e: Entry, id: nat)
    ensures WiresSent(log + [e], id) == WiresSent(log, id) + if e.Submitted? && IsUploadWire(e.wire, id) then [e.wire]
      else []
  {
    assert (log + [e])[..|log|] == log;
  }

  // ---------- The invariant ----------

  /** Before a START, all messages of its upload were sent, once and in order. */
  ghost predicate FedAt(log: seq<Entry>, p: nat, id: nat)
    requires p <= |log|
  {
    exists u: Upload :: u.id == id && Queued(u) in log[..p] && WiresSent(log[..p], id) == FirstWires(u, MessageCount(u))
  }

  ghost predicate EveryStartFed(log: seq<Entry>) {
    forall p :: 0 <= p < |log| && log[p].Submitted? && log[p].wire.StartControl? ==> FedAt(log, p, log[p].wire.id)
  }

  ghost predicate ActiveFed(s: State) {
    s.active.Some? ==>
      && Queued(s.active.value) in s.log
      && |s.trail.submitted| <= MessageCount(s.active.value)
      && WiresSent(s.log, s.active.value.id) == FirstWires(s.active.value, |s.trail.submitted|)
  }

  ghost predicate NothingForOthers(log: seq<Entry>) {
    forall id :: id !in QueuedIds(log) ==> WiresSent(log, id) == []
  }

  ghost predicate Fed(s: State) {
    EveryStartFed(s.log) && ActiveFed(s) && NothingForOthers(s.log)
  }

  // ---------- Steps that send nothing ----------

  predicate Silent(e: Entry) {
    !e.Submitted? && !e.Queued?
  }

  /**
   `t` extends the log of `s` by silent entries, and any active upload is the old one with the same messages submitted.
   */
  ghost predicate Quiet(s: State, t: State) {
    && s.log <= t.log
    && (forall p :: |s.log| <= p < |t.log| ==> Silent(t.log[p]))
    && (t.active.Some? ==> t.active == s.active && t.trail.submitted == s.trail.submitted)
  }

  lemma {:induction false} SilenceSendsNothing(log: seq<Entry>, more: seq<Entry>)
    requires log <= more && forall p :: |log| <= p < |more| ==> Silent(more[p])
    ensures forall id :: WiresSent(more, id) == WiresSent(log, id)
    ensures QueuedIds(more) == QueuedIds(log)
    decreases |more|
  {
    if |more| == |log| {
      assert more == log;
    } else {
      SilenceSendsNothing(log, more[..|more| - 1]);
    }
  }

  lemma QuietKeeps(s: State, t: State)
    requires Fed(s) && Quiet(s, t)
    ensures Fed(t)
  {
    SilenceSendsNothing(s.log, t.log);
    forall p | 0 <= p < |t.log| && t.log[p].Submitted? && t.log[p].wire.StartControl?
      ensures FedAt(t.log, p, t.log[p].wire.id)
    {
      assert t.log[..p] == s.log[..p] && t.log[p] == s.log[p];
      assert FedAt(s.log, p, t.log[p].wire.id);
    }
    assert s.active.Some? && Queued(s.active.value) in s.log ==> Queued(s.active.value) in t.log;
  }

  lemma SameIsQuiet(s: State, t: State)
    requires t.log == s.log
    requires t.active.Some? ==> t.active == s.active && t.trail.submitted == s.trail.submitted
    ensures Quiet(s, t)
  {
  }

  lemma OneSilentIsQuiet(s: State, t: State, e: Entry)
    requires t.log == s.log + [e] && Silent(e)
    requires t.active.Some? ==> t.active == s.active && t.trail.submitted == s.trail.submitted
    ensures Quiet(s, t)
  {
  }

  lemma QuietChains(s: State, m: State, t: State)
    requires Quiet(s, m) && Quiet(m, t)
    ensures Quiet(s, t)
  {
  }

  lemma NegativeIsQuiet(s: State, op: Operation)
    ensures Quiet(s, HandleNegative(s, op))
  {
    var kind := op.request.kind;
    var t := HandleNegative(s, op);
    if IsUploadKind(kind) || kind == CompleteTest {
      RetirementIsQuiet(s, t);
    } else if t.log == s.log {
      SameIsQuiet(s, t);
    } else {
      OneSilentIsQuiet(s, t, WorkflowFailed);
    }
  }

  lemma RetirementIsQuiet(s: State, t: State)
    requires t.log == RetireActiveUpload(s).log && t.active.None?
    ensures Quiet(s, t)
  {
    if s.active.None? {
      SameIsQuiet(s, t);
    } else {
      OneSilentIsQuiet(s, t, Retired(s.active.value.id));
    }
  }

  lemma ReleaseIsQuiet(s: State, now: int)
    requires Releases(s)
    ensures Quiet(s, FinishPending(s, now).state)
  {
    var op := s.pending.value;
    var released := s.(pending := None);
    SameIsQuiet(s, released);
    if op.error.Some? {
      NegativeIsQuiet(released, op);
      QuietChains(s, released, HandleNegative(released, op));
    } else {
      RetirementIsQuiet(released, FinishPending(s, now).state);
      QuietChains(s, released, FinishPending(s, now).state);
    }
  }

  lemma FinishIsQuiet(s: State, now: int)
    ensures Quiet(s, FinishPending(s, now).state)
  {
    if Releases(s) {
      ReleaseIsQuiet(s, now);
    } else {
      FinishingIsMostlySilent(s, now);
      SameIsQuiet(s, FinishPending(s, now).state);
    }
  }

  // ---------- Queueing an upload ----------

  /** `t` is `s` with a fresh upload queued, and nothing of it sent. */
  ghost predicate NewlyQueued(s: State, t: State) {
    && t.active.Some? && t.log == s.log + [Queued(t.active.value)] && t.trail.submitted == []
    && t.active.value.id !in QueuedIds(s.log)
  }

  lemma EnqueueingKeeps(s: State, t: State)
    requires Fed(s) && NewlyQueued(s, t)
    ensures Fed(t)
  {
    var e := Queued(t.active.value);
    forall id
      ensures WiresSent(t.log, id) == WiresSent(s.log, id)
    {
      WiresGrow(s.log, e, id);
    }
    HistoriesGrow(s.log, e, t.active.value.id);
    StartsStayFed(s.log, e);
    assert e in t.log;
  }

  lemma StartsStayFed(log: seq<Entry>, e: Entry)
    requires EveryStartFed(log)
    requires e.Submitted? && e.wire.StartControl? ==> FedAt(log, |log|, e.wire.id)
    ensures EveryStartFed(log + [e])
  {
    var more := log + [e];
    forall p | 0 <= p < |more| && more[p].Submitted? && more[p].wire.StartControl?
      ensures FedAt(more, p, more[p].wire.id)
    {
      assert more[..p] == log[..p];
      if p < |log| {
        assert FedAt(log, p, log[p].wire.id);
      }
    }
  }

  // ---------- Submitting a message ----------

  lemma SubmissionKeeps(s: State, t: State)
    requires Inv(s) && Fed(s) && !s.closed && s.pending.Some?
      && s.pending.value.nextMessage < |s.pending.value.messages|
    requires !s.deliveryPending
    requires t.active == s.active
    requires var op := s.pending.value;
      && t.log == s.log + [Submitted(op.request, op.messages[op.nextMessage])]
      && t.trail.submitted == if IsUploadKind(op.request.kind) then s.trail.submitted + [|s.log|] else s.trail.submitted
    ensures Fed(t)
  {
    var op := s.pending.value;
    if IsUploadKind(op.request.kind) {
      UploadMessageKeeps(s, t, s.active.value);
    } else {
      ControlMessageKeeps(s, t);
    }
  }

  lemma NextWire(s: State, u: Upload)
    requires InUpload(s, u) && !s.deliveryPending && s.pending.value.nextMessage < |s.pending.value.messages|
    ensures |s.trail.submitted| < MessageCount(u)
    ensures s.pending.value.messages[s.pending.value.nextMessage] == UploadWire(u, |s.trail.submitted|)
  {
  }

  /** The next upload message continues the prefix. */
  lemma UploadMessageKeeps(s: State, t: State, u: Upload)
    requires Inv(s) && Fed(s) && !s.closed && UploadPending(s) && s.active == Some(u) && !s.deliveryPending
    requires s.pending.value.nextMessage < |s.pending.value.messages|
    requires t.active == s.active && t.trail.submitted == s.trail.submitted + [|s.log|]
    requires t.log ==
      s.log + [Submitted(s.pending.value.request, s.pending.value.messages[s.pending.value.nextMessage])]
    ensures Fed(t)
  {
    PendingUploadIsStaged(s, u);
    NextWire(s, u);
    ActiveIsQueued(s, u);
    UploadWireFeeds(s, t, u, Submitted(s.pending.value.request, s.pending.value.messages[s.pending.value.nextMessage]));
  }

  lemma UploadWireFeeds(s: State, t: State, u: Upload, e: Entry)
    requires Fed(s) && s.active == Some(u) && u.id in QueuedIds(s.log) && |s.trail.submitted| < MessageCount(u)
    requires e.Submitted? && e.wire == UploadWire(u, |s.trail.submitted|)
    requires t.active == s.active && t.trail.submitted == s.trail.submitted + [|s.log|] && t.log == s.log + [e]
    ensures Fed(t)
  {
    var n := |s.trail.submitted|;
    forall id
      ensures WiresSent(t.log, id) == WiresSent(s.log, id) + if id == u.id then [e.wire] else []
    {
      WiresGrow(s.log, e, id);
    }
    assert FirstWires(u, n + 1) == FirstWires(u, n) + [UploadWire(u, n)];
    HistoriesGrow(s.log, e, u.id);
    StartsStayFed(s.log, e);
    assert Queued(u) in t.log;
  }

  lemma ActiveIsQueued(s: State, u: Upload)
    requires Inv(s) && s.active == Some(u)
    ensures u.id in QueuedIds(s.log)
  {
  }

  /** Control messages are not upload messages, and a START follows all of them. */
  lemma ControlMessageKeeps(s: State, t: State)
    requires Inv(s) && Fed(s) && !s.closed && s.pending.Some? && !IsUploadKind(s.pending.value.request.kind)
    requires s.pending.value.nextMessage < |s.pending.value.messages|
    requires t.active == s.active && t.trail.submitted == s.trail.submitted
    requires t.log ==
      s.log + [Submitted(s.pending.value.request, s.pending.value.messages[s.pending.value.nextMessage])]
    ensures Fed(t)
  {
    var e := Submitted(s.pending.value.request, s.pending.value.messages[s.pending.value.nextMessage]);
    assert PendingWellFormed(s);
    forall id
      ensures WiresSent(t.log, id) == WiresSent(s.log, id) && QueuedIds(t.log) == QueuedIds(s.log)
    {
      WiresGrow(s.log, e, id);
      HistoriesGrow(s.log, e, id);
    }
    if e.wire.StartControl? {
      PendingStartIsFed(s);
    }
    StartsStayFed(s.log, e);
    assert s.active.Some? ==> Queued(s.active.value) in t.log;
  }

  lemma PendingStartIsFed(s: State)
    requires Inv(s) && Fed(s) && !s.closed && PendingKind(s) == Some(Start)
    ensures s.active.Some? && FedAt(s.log, |s.log|, s.active.value.id)
  {
    var u := s.active.value;
    assert UploadAccounted(s, u) && Delivered(s, u);
    assert s.log[..|s.log|] == s.log;
  }

  // ---------- Every step ----------

  lemma AnswerIsQuiet(s: State, r: Response, now: int)
    ensures Quiet(s, HandleResponse(s, r, now).state)
  {
    var t := HandleResponse(s, r, now).state;
    if s.pending.Some? && s.pending.value.request.kind != Discovery && Matches(r, s.pending.value.request) {
      OneSilentIsQuiet(s, NoteAnswer(s, r), AnswerEntry(s, r));
      FinishIsQuiet(NoteAnswer(s, r), now);
      QuietChains(s, NoteAnswer(s, r), t);
    } else {
      OneSilentIsQuiet(s, t, WorkflowFailed);
    }
  }

  lemma InformationIsQuiet(s: State, compatible: bool, now: int)
    ensures Quiet(s, HandleInformation(s, compatible, now).state)
  {
    var t := HandleInformation(s, compatible, now).state;
    if s.pending.Some? && s.pending.value.request.kind == Discovery && compatible {
      var noted := s.(pending := Some(s.pending.value.(responseReceived := true)));
      SameIsQuiet(s, noted);
      FinishIsQuiet(noted, now);
      QuietChains(s, noted, t);
    } else {
      OneSilentIsQuiet(s, t, WorkflowFailed);
    }
  }

  lemma ResultIsQuiet(s: State, id: nat, tick: int, taken: bool)
    ensures Quiet(s, HandleResult(s, id, tick, taken).state)
  {
    var t := HandleResult(s, id, tick, taken).state;
    if t.log == s.log {
      SameIsQuiet(s, t);
    } else {
      OneSilentIsQuiet(s, t, t.log[|s.log|]);
    }
  }

  lemma MessageIsQuiet(s: State, m: Inbound)
    ensures Quiet(s, HandleMessage(s, m).state)
  {
    match m {
      case SystemInformation(compatible, now) => InformationIsQuiet(s, compatible, now);
      case ApplicationResponse(r, now) => AnswerIsQuiet(s, r, now);
      case TestResult(id, tick, taken) => ResultIsQuiet(s, id, tick, taken);
      case Unknown => OneSilentIsQuiet(s, FailWorkflow(s), WorkflowFailed);
      case _ => SameIsQuiet(s, s);
    }
  }

  lemma ConfirmationIsQuiet(s: State, now: int)
    ensures Quiet(s, ConfirmDelivery(s, now).state)
  {
    var t := ConfirmDelivery(s, now).state;
    if s.pending.Some? && s.deliveryPending {
      OneSilentIsQuiet(s, NoteDelivery(s, now), Confirmed(s.pending.value.request));
      FinishIsQuiet(NoteDelivery(s, now), now);
      QuietChains(s, NoteDelivery(s, now), t);
    } else {
      OneSilentIsQuiet(s, t, WorkflowFailed);
    }
  }

  /** Steps that neither queue an upload, submit a message, nor react to an answer or a confirmation. */
  predicate Plain(s: State, a: Action) {
    && !a.DoQueueUpload? && !a.DoMessage? && !(a.DoEvent? && a.event.DeliveryConfirmed?)
    && (a.DoSubmit? ==> !(CanSubmit(s, a.established) && a.status == StatusOk))
  }

  /** The step logged one failure, of the workflow or of a close. */
  ghost predicate Fails(s: State, t: State) {
    && (t.log == s.log + [WorkflowFailed] || t.log == s.log + [CloseRaised(s.phase)])
    && t.active == s.active && t.trail == s.trail
  }

  lemma CallsAreSilent(s: State, a: Action)
    requires !s.closed && (a.DoStart? || a.DoAbort? || a.DoReset? || a.DoBind? || a.DoAdvance?)
    ensures SameLog(s, Step(s, a).state)
  {
  }

  lemma ClosingFailsAtMost(s: State, transportCloses: bool)
    ensures SameLog(s, Close(s, transportCloses).state) || Fails(s, Close(s, transportCloses).state)
  {
  }

  lemma EventsFailAtMost(s: State, e: TransportEvent)
    requires !e.DeliveryConfirmed?
    ensures SameLog(s, HandleEvent(s, e).state) || Fails(s, HandleEvent(s, e).state)
  {
  }

  lemma TransfersFailAtMost(s: State, a: Action)
    requires !s.closed && Plain(s, a)
    requires a.DoRead? || a.DoOffer? || a.DoProcess? || a.DoCheckTimeout? || a.DoSubmit? || a.DoWrite?
    ensures SameLog(s, Step(s, a).state) || Fails(s, Step(s, a).state)
  {
  }

  lemma PlainStepLogs(s: State, a: Action)
    requires !s.closed && Plain(s, a)
    ensures SameLog(s, Step(s, a).state) || Fails(s, Step(s, a).state)
  {
    if a.DoEvent? {
      EventsFailAtMost(s, a.event);
    } else if a.DoClose? {
      ClosingFailsAtMost(s, a.transportCloses);
    } else if a.DoStart? || a.DoAbort? || a.DoReset? || a.DoBind? || a.DoAdvance? {
      CallsAreSilent(s, a);
    } else {
      TransfersFailAtMost(s, a);
    }
  }

  lemma PlainStepIsQuiet(s: State, a: Action)
    requires !s.closed && Plain(s, a)
    ensures Quiet(s, Step(s, a).state)
  {
    var t := Step(s, a).state;
    PlainStepLogs(s, a);
    if SameLog(s, t) {
      SameIsQuiet(s, t);
    } else {
      OneSilentIsQuiet(s, t, t.log[|s.log|]);
    }
  }

  lemma UploadQueuesFresh(s: State, u: Upload, established: bool)
    requires Inv(s)
    ensures var t := QueueUpload(s, u, established).state; t == s || NewlyQueued(s, t)
  {
  }

  lemma StepKeepsFed(s: State, a: Action)
    requires Inv(s) && Fed(s)
    ensures Fed(Step(s, a).state)
  {
    var t := Step(s, a).state;
    if s.closed {
      assert t == s;
    } else if a.DoQueueUpload? {
      UploadQueuesFresh(s, a.upload, a.established);
      if t != s {
        EnqueueingKeeps(s, t);
      }
    } else if a.DoSubmit? && CanSubmit(s, a.established) && a.status == StatusOk {
      SubmissionKeeps(s, t);
    } else {
      if a.DoMessage? {
        MessageIsQuiet(s, a.message);
      } else if a.DoEvent? && a.event.DeliveryConfirmed? {
        ConfirmationIsQuiet(s, a.event.now);
      } else {
        PlainStepIsQuiet(s, a);
      }
      QuietKeeps(s, t);
    }
  }

  lemma {:induction false} EveryRunIsFed(timeout: int, actions: seq<Action>)
    ensures Fed(Run(Initial(timeout), actions))
  {
    if actions == [] {
    } else {
      var before := actions[..|actions| - 1];
      EveryRunIsFed(timeout, before);
      EveryRunKeeps(timeout, before);
      StepKeepsFed(Run(Initial(timeout), before), actions[|actions| - 1]);
    }
  }

  /**
   In every run, when a START is submitted the messages sent so far for its wire ID are exactly those of one
   queued upload: its configuration, then every sparse tick, in build order, none twice.
   */
  lemma StartFollowsTheWholeUpload(s: State, p: nat)
    requires Reachable(s) && p < |s.log| && s.log[p].Submitted? && s.log[p].wire.StartControl?
    ensures FedAt(s.log, p, s.log[p].wire.id)
  {
    var timeout, actions :| s == Run(Initial(timeout), actions);
    EveryRunIsFed(timeout, actions);
  }
}
