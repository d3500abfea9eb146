/**
 The protocol connection as the object it is: mutable fields, private methods that update them in
 place, and caller-facing methods that may raise after having changed state. Every method is proved
 to do exactly what the transition system of `Workflow` does. The ghost `script` lists the steps
 taken so far, so `Valid` says that the object is always in a state some run reaches, and every
 theorem about runs holds of it.
 */
module Connection {
  import opened Basics
  import opened Compiler
  import opened Definition
  import opened Lowering
  import opened Workflow
  import opened WorkflowPass
  import opened WorkflowProgress
  import opened WorkflowSafety
  import opened WorkflowService

  /** The history variables of a `State`. */
  datatype History = History(
    received: seq<Byte>,
    consumed: seq<Byte>,
    written: seq<Byte>,
    committed: seq<Byte>,
    log: seq<Entry>,
    trail: Trail)
  {
    function Note(e: Entry): History {
      this.(log := log + [e])
    }
  }

  /** The upload that the adapter builds for a compiled test. */
  ghost predicate Carries(u: Upload, c: CompiledTest) {
    && ConfigurationMessage(c) == Some(u.configuration)
    && SparseInstructions(c) == Some(u.instructions)
    && u.startMode == c.startMode && u.definition == c.testId
  }

  /** Every upload that was queued was built from the compiled test noted for that call. */
  ghost predicate Built(script: seq<Action>, tests: map<nat, CompiledTest>) {
    forall k: nat :: k < |script| && script[k].DoQueueUpload? ==> k in tests && Carries(script[k].upload, tests[k])
  }

  /** An upload attempt: the definition it belongs to and its wire ID. */
  datatype Attempt = Attempt(definition: nat, id: nat)

  class FixedIOProtocolConnection {
    const timeout: int

    var operations: seq<Operation>
    var pending: Option<Operation>
    var deliveryPending: bool
    var active: Option<Upload>
    var messageCount: nat
    var delivered: nat
    var accepted: bool
    var started: bool
    var nextResult: nat
    var confirmed: bool
    var retired: set<nat>
    var phase: Phase
    var builder: Option<Builder>
    var closed: bool
    var incoming: seq<Byte>
    var output: Option<seq<Byte>>
    var outputOffset: nat

    ghost var history: History
    ghost var script: seq<Action>
    ghost var tests: map<nat, CompiledTest>

    ghost function View(): State
      reads this
    {
      State(operations, pending, deliveryPending, active, messageCount, delivered, accepted, started, nextResult,
            confirmed, retired, phase, builder, closed, timeout,
            Link(incoming, output, outputOffset, history.received, history.consumed, history.written,
              history.committed),
            history.log, history.trail)
    }

    ghost predicate Valid()
      reads this
    {
      View() == Run(Initial(timeout), script) && Built(script, tests)
    }

    constructor (timeout: int)
      ensures Valid() && script == [] && View() == Initial(timeout)
    {
      this.timeout := timeout;
      operations, pending, deliveryPending, active := [], None, false, None;
      messageCount, delivered, accepted, started, nextResult := 0, 0, false, false, 0;
      confirmed, retired, phase, builder, closed := false, {}, Connecting, None, false;
      incoming, output, outputOffset := [], None, 0;
      history := History([], [], [], [], [], Trail(0, [], [], [], None, None));
      script, tests := [], map[];
    }

    // ---------- Shared reactions ----------

    /** Forget every operation, in the queue and under way. */
    method DropOperations()
      modifies this
      ensures View() == old(View()).(operations := [], pending := None, deliveryPending := false)
      ensures script == old(script) && tests == old(tests) && closed == old(closed)
    {
      operations := [];
      pending := None;
      deliveryPending := false;
    }

    method FailWorkflow()
      modifies this
      ensures View() == Workflow.FailWorkflow(old(View()))
      ensures script == old(script) && tests == old(tests) && closed == old(closed)
    {
      DropOperations();
      accepted := false;
      started := false;
      phase := Failed;
      history := history.Note(WorkflowFailed);
    }

    /** Start the delivery and result counters of an upload of `count` messages. */
    method ResetProgress(count: nat)
      modifies this
      ensures View() ==
        old(View()).(messageCount := count, delivered := 0, accepted := false, started := false, nextResult := 0)
      ensures script == old(script) && tests == old(tests) && closed == old(closed)
    {
      messageCount := count;
      delivered := 0;
      accepted := false;
      started := false;
      nextResult := 0;
    }

    method ClearActiveTransaction()
      modifies this
      ensures View() == ClearTransaction(old(View()))
      ensures script == old(script) && tests == old(tests) && closed == old(closed)
    {
      operations := [];
      active := None;
      ResetProgress(0);
    }

    method RetireActiveUpload()
      modifies this
      ensures View() == Workflow.RetireActiveUpload(old(View()))
      ensures script == old(script) && tests == old(tests) && closed == old(closed)
    {
      if active.Some? {
        retired := retired + {active.value.id};
        history := history.Note(Retired(active.value.id));
      }
      ClearActiveTransaction();
    }

    method ActivateOperation(op: Operation) returns (raised: Option<Error>)
      modifies this
      ensures Outcome(View(), raised) == Activate(old(View()), op)
      ensures old(pending).Some? ==> raised == Some(OperationPending) && View() == old(View())
      ensures old(pending).None? ==>
        && raised.None? && View() == old(View()).(pending := Some(op), phase := phase)
        && phase == match op.request.kind
                    case Discovery => Discovering
                    case Configure => Configuring
                    case Tick => Uploading
                    case CompleteTest => Validating
                    case Start => Starting
                    case Abort => Aborting
                    case Reset => Resetting
      ensures script == old(script) && tests == old(tests) && closed == old(closed)
    {
      if pending.Some? {
        return Some(OperationPending);
      }
      pending := Some(op);
      phase := ActivePhase(op.request.kind);
      raised := None;
    }

    method QueueStart() returns (raised: Option<Error>)
      modifies this
      ensures Outcome(View(), raised) == Workflow.QueueStart(old(View()))
      ensures script == old(script) && tests == old(tests) && closed == old(closed)
    {
      if active.None? {
        return Some(NoActiveUpload);
      }
      var id := active.value.id;
      raised := ActivateOperation(NewOperation(Request(Workflow.Start, Some(id), None), [StartControl(id)], None));
    }

    method HandleNegativeResponse(op: Operation)
      modifies this
      ensures View() == HandleNegative(old(View()), op)
      ensures script == old(script) && tests == old(tests) && closed == old(closed)
    {
      var kind := op.request.kind;
      if IsUploadKind(kind) || kind == CompleteTest {
        RetireActiveUpload();
        phase := Failed;
        return;
      }
      if kind == Workflow.Start && op.error == Some(OutcomeRejected) {
        started := false;
        accepted := true;
        phase := ReadyToStart;
        return;
      }
      if (kind == Workflow.Abort || kind == Reset) && op.error == Some(OutcomeRejected) {
        phase := if op.previousPhase.Some? then op.previousPhase.value else Failed;
        return;
      }
      FailWorkflow();
    }

    method FinishPendingOperationIfReady(now: int) returns (raised: Option<Error>)
      modifies this
      ensures Outcome(View(), raised) == FinishPending(old(View()), now)
      ensures
        var ready := old(pending).Some? && old(pending).value.responseReceived && !old(deliveryPending)
          && old(pending).value.nextMessage == |old(pending).value.messages|;
        if ready then raised == Some(NegativeResponse) <==> old(pending).value.error.Some?
          else raised.None? && View() == old(View())
      ensures script == old(script) && tests == old(tests) && closed == old(closed)
    {
      if pending.None? || !pending.value.responseReceived || deliveryPending || !pending.value.EveryMessageSubmitted() {
        return None;
      }
      var op := pending.value;
      pending := None;
      if op.error.Some? {
        HandleNegativeResponse(op);
        return Some(NegativeResponse);
      }
      raised := CompleteOperation(op, now);
    }

    /** The per-kind effect of a positively answered operation, which is no longer pending. */
    method CompleteOperation(op: Operation, now: int) returns (raised: Option<Error>)
      requires pending.None? && !deliveryPending
      requires op.responseReceived && op.error.None? && op.EveryMessageSubmitted()
      modifies this
      ensures Outcome(View(), raised) == FinishPending(old(View()).(pending := Some(op)), now)
      ensures script == old(script) && tests == old(tests) && closed == old(closed)
    {
      raised := None;
      match op.request.kind {
        case Discovery => SetSession(true, Ready);
        case Configure => raised := ActivateNextUploadOperation(op, now);
        case Tick => raised := ActivateNextUploadOperation(op, now);
        case CompleteTest => raised := AcceptUpload();
        case Start =>
          started := true;
          phase := Running;
        case Abort =>
          RetireActiveUpload();
          phase := Aborted;
        case Reset =>
          RetireActiveUpload();
          phase := Ready;
      }
    }

    method SetSession(compatible: bool, next: Phase)
      modifies this
      ensures View() == old(View()).(confirmed := compatible, phase := next)
      ensures script == old(script) && tests == old(tests) && closed == old(closed)
    {
      confirmed := compatible;
      phase := next;
    }

    method AcceptUpload() returns (raised: Option<Error>)
      modifies this
      ensures var ready := old(View()).(accepted := true, phase := ReadyToStart);
        Outcome(View(), raised) ==
          if ready.active.Some? && ready.active.value.startMode == Immediate then Workflow.QueueStart(ready)
            else Done(ready)
      ensures script == old(script) && tests == old(tests) && closed == old(closed)
    {
      accepted := true;
      phase := ReadyToStart;
      raised := None;
      if active.Some? && active.value.startMode == Immediate {
        raised := QueueStart();
      }
    }

    method ActivateNextUploadOperation(op: Operation, now: int) returns (raised: Option<Error>)
      modifies this
      ensures Outcome(View(), raised) == NextUploadOperation(old(View()), op, now)
      ensures script == old(script) && tests == old(tests) && closed == old(closed)
    {
      if operations != [] {
        var next := operations[0];
        operations := operations[1..];
        raised := ActivateOperation(next);
      } else {
        raised := ActivateOperation(
          NewOperation(Request(CompleteTest, op.request.id, None), [], None).(deadline := Some(now + timeout)));
      }
    }

    // ---------- Transport events ----------

    method HandleDeliveryConfirmed(now: int) returns (raised: Option<Error>)
      modifies this
      ensures Outcome(View(), raised) == ConfirmDelivery(old(View()), now)
      ensures raised == Some(UnexpectedConfirmation) <==> old(pending).None? || !old(deliveryPending)
      ensures old(pending).Some? && old(deliveryPending) && !old(pending).value.responseReceived ==>
        && raised.None? && !deliveryPending && pending.Some?
        && pending.value == old(pending).value.(deadline := pending.value.deadline)
        && (pending.value.nextMessage == |pending.value.messages| ==> pending.value.deadline == Some(now + timeout))
        && delivered == old(delivered) + if pending.value.request.kind in {Configure, Tick} then 1 else 0
      ensures script == old(script) && tests == old(tests) && closed == old(closed)
    {
      if pending.None? || !deliveryPending {
        FailWorkflow();
        return Some(UnexpectedConfirmation);
      }
      RecordDelivery(now);
      raised := FinishPendingOperationIfReady(now);
    }

    method RecordDelivery(now: int)
      requires pending.Some?
      modifies this
      ensures View() == NoteDelivery(old(View()), now)
      ensures script == old(script) && tests == old(tests) && closed == old(closed)
    {
      var op := pending.value;
      CountDelivery(op);
      if op.EveryMessageSubmitted() {
        pending := Some(op.(deadline := Some(now + timeout)));
      }
    }

    /** Nothing is in flight any more, and a delivered upload message counts. */
    method CountDelivery(op: Operation)
      requires pending == Some(op)
      modifies this
      ensures View() == NoteDelivery(old(View()), 0).(pending := Some(op))
      ensures script == old(script) && tests == old(tests) && closed == old(closed)
    {
      ghost var noted := history.Note(Confirmed(op.request));
      deliveryPending := false;
      if IsUploadKind(op.request.kind) {
        delivered := delivered + 1;
        noted := noted.(trail := noted.trail.(confirmed := noted.trail.confirmed + [|history.log|]));
      }
      history := noted;
    }

    method DropOutput()
      modifies this
      ensures View() ==
        old(View()).(link := old(View()).link.(output := None, offset := 0, written := [], committed := []))
      ensures script == old(script) && tests == old(tests) && closed == old(closed)
    {
      output := None;
      outputOffset := 0;
      history := history.(written := [], committed := []);
    }

    method InvalidateSession()
      modifies this
      ensures Outcome(View(), Some(SessionLost)) == HandleEvent(old(View()), SessionReset)
      ensures script == old(script) && tests == old(tests) && closed == old(closed)
    {
      confirmed := false;
      DropOutput();
      FailWorkflow();
    }

    /** The reaction to one event of `_drain`. */
    method TakeEvent(e: TransportEvent) returns (raised: Option<Error>)
      modifies this
      ensures Outcome(View(), raised) == HandleEvent(old(View()), e)
      ensures e == DeliveryFailedEvent ==> raised == Some(DeliveryFailed) && phase == Failed
      ensures e == ProtocolErrorEvent ==> raised == Some(ProtocolFault) && phase == Failed
      ensures e == SessionReset ==> raised == Some(SessionLost) && phase == Failed && !confirmed && output == None
      ensures e == SessionEstablished ==>
        raised.None? && View() == old(View()).(confirmed := false, phase := Connecting)
      ensures e == OtherEvent ==> raised.None? && View() == old(View())
      ensures script == old(script) && tests == old(tests) && closed == old(closed)
    {
      raised := None;
      match e {
        case DeliveryConfirmed(now) => raised := HandleDeliveryConfirmed(now);
        case DeliveryFailedEvent =>
          FailWorkflow();
          raised := Some(DeliveryFailed);
        case ProtocolErrorEvent =>
          FailWorkflow();
          raised := Some(ProtocolFault);
        case SessionReset =>
          InvalidateSession();
          raised := Some(SessionLost);
        case SessionEstablished => SetSession(false, Connecting);
        case OtherEvent =>
      }
    }

    // ---------- Application messages ----------

    method HandleSystemInfoResponse(compatible: bool, now: int) returns (raised: Option<Error>)
      modifies this
      ensures Outcome(View(), raised) == HandleInformation(old(View()), compatible, now)
      ensures raised == Some(UnexpectedInformation)
        <==> old(pending).None? || old(pending).value.request.kind != Discovery
      ensures raised == Some(Incompatible)
        <==> old(pending).Some? && old(pending).value.request.kind == Discovery && !compatible
      ensures script == old(script) && tests == old(tests) && closed == old(closed)
    {
      if pending.None? || pending.value.request.kind != Discovery {
        FailWorkflow();
        return Some(UnexpectedInformation);
      }
      if !compatible {
        FailWorkflow();
        return Some(Incompatible);
      }
      pending := Some(pending.value.(responseReceived := true));
      raised := FinishPendingOperationIfReady(now);
    }

    method RecordAnswer(r: Response)
      requires pending.Some?
      modifies this
      ensures View() == NoteAnswer(old(View()), r)
      ensures script == old(script) && tests == old(tests) && closed == old(closed)
    {
      var op := pending.value;
      var positive := r.outcome == SuccessfulOutcome(op.request.kind);
      ghost var position := |history.log|;
      history := history.Note(Answered(op.request, positive, r));
      if !positive {
        op := op.(error := Some(r.outcome));
      } else if !op.responseReceived {
        history := history.(trail := NotePositive(history.trail, op.request.kind, position));
      }
      pending := Some(op.(responseReceived := true));
    }

    method HandleApplicationResponse(r: Response, now: int) returns (raised: Option<Error>)
      modifies this
      ensures Outcome(View(), raised) == HandleResponse(old(View()), r, now)
      ensures raised == Some(UnexpectedResponse) <==> old(pending).None? || old(pending).value.request.kind == Discovery
      ensures raised == Some(Mismatch) <==>
        && old(pending).Some? && old(pending).value.request.kind != Discovery
        && var request := old(pending).value.request;
           || r.id != request.id
           || (request.kind == Configure && r.scope != TestConfigurationScope)
           || (request.kind == Tick && (r.scope != TickScope || Some(r.tick) != request.tick))
           || (request.kind == CompleteTest && r.scope != CompleteTestScope)
           || (request.kind == Workflow.Start && (r.scope != ExecutionControlScope || r.command != StartCommand))
           || (request.kind == Workflow.Abort && (r.scope != ExecutionControlScope || r.command != AbortCommand))
           || (request.kind == Reset && (r.scope != GlobalControlScope || r.globalCommand != ResetCommand))
      ensures raised in {Some(UnexpectedResponse), Some(Mismatch)} ==>
        phase == Failed && pending.None? && active == old(active)
      ensures script == old(script) && tests == old(tests) && closed == old(closed)
    {
      if pending.None? || pending.value.request.kind == Discovery {
        FailWorkflow();
        return Some(UnexpectedResponse);
      }
      var request := pending.value.request;
      if r.scope != ExpectedScope(request.kind)
         || r.id != request.id
         || (request.kind == Tick && Some(r.tick) != request.tick)
         || (request.kind == Workflow.Start && r.command != StartCommand)
         || (request.kind == Workflow.Abort && r.command != AbortCommand)
         || (request.kind == Reset && r.globalCommand != ResetCommand) {
        FailWorkflow();
        return Some(Mismatch);
      }
      RecordAnswer(r);
      raised := FinishPendingOperationIfReady(now);
    }

    method ValidateResultSequence(id: nat, tick: int) returns (raised: Option<Error>)
      modifies this
      ensures raised.None? ==>
        View() == old(View()) && active.Some? && started && id == active.value.id && tick == nextResult
      ensures raised.Some? ==> Outcome(View(), raised) == HandleResult(old(View()), id, tick, true)
      ensures script == old(script) && tests == old(tests) && closed == old(closed)
    {
      raised := None;
      if active.None? || !started {
        raised := Some(ResultBeforeStart);
      } else if id != active.value.id {
        raised := Some(ResultOfOtherTest);
      } else if tick != nextResult {
        raised := Some(ResultOutOfOrder);
      }
      if raised.Some? {
        FailWorkflow();
      }
    }

    method TakeResult(id: nat, tick: int, taken: bool) returns (raised: Option<Error>)
      modifies this
      ensures Outcome(View(), raised) == HandleResult(old(View()), id, tick, taken)
      ensures raised == Some(ResultBeforeStart) <==> old(active).None? || !old(started)
      ensures raised == Some(ResultOfOtherTest) <==> old(active).Some? && old(started) && id != old(active).value.id
      ensures raised == Some(ResultOutOfOrder) <==>
        old(active).Some? && old(started) && id == old(active).value.id && tick != old(nextResult)
      ensures raised == Some(StorageFailed) ==> View() == old(View()) && builder.Some? && !taken
      ensures raised.None? ==>
        && nextResult == old(nextResult) + 1 && (builder.Some? ==> taken)
        && phase == if nextResult == active.value.configuration.expectedTickCount then ResultsComplete else old(phase)
      ensures script == old(script) && tests == old(tests) && closed == old(closed)
    {
      raised := ValidateResultSequence(id, tick);
      if raised.Some? {
        return;
      }
      if builder.Some? && !taken {
        return Some(StorageFailed);
      }
      nextResult := nextResult + 1;
      history := history.Note(ResultAccepted(id, tick, builder));
      if nextResult == Expected(active.value) {
        phase := ResultsComplete;
      }
    }

    /** The reaction to one decoded message of `_drain`. */
    method TakeMessage(m: Inbound) returns (raised: Option<Error>)
      modifies this
      ensures Outcome(View(), raised) == HandleMessage(old(View()), m)
      ensures m.ApplicationError? ==>
        && View() == old(View())
        && raised ==
           if builder.Some? && active.Some? && (m.test.None? || m.test == Some(active.value.id)) && !m.taken
           then Some(StorageFailed) else None
      ensures m.Unknown? ==> raised == Some(UnexpectedMessage) && phase == Failed && pending.None?
      ensures m.Garbled? ==> raised == Some(Undecodable) && View() == old(View())
      ensures script == old(script) && tests == old(tests) && closed == old(closed)
    {
      raised := None;
      match m {
        case SystemInformation(compatible, now) => raised := HandleSystemInfoResponse(compatible, now);
        case ApplicationResponse(r, now) => raised := HandleApplicationResponse(r, now);
        case ApplicationError(test, taken) =>
          if builder.Some? && active.Some? && (test.None? || test == Some(active.value.id)) && !taken {
            raised := Some(StorageFailed);
          }
        case TestResult(id, tick, taken) => raised := TakeResult(id, tick, taken);
        case Unknown =>
          FailWorkflow();
          raised := Some(UnexpectedMessage);
        case Garbled => raised := Some(Undecodable);
      }
    }

    // ---------- The script ----------

    /** Put the step just taken on the script. */
    ghost method Took(a: Action)
      requires View() == Step(Run(Initial(timeout), script), a).state
      requires Built(script, tests) && !a.DoQueueUpload?
      modifies this`script
      ensures View() == old(View())
      ensures script == old(script) + [a] && tests == old(tests) && Valid()
    {
      RunOne(Initial(timeout), script, a);
      script := script + [a];
    }

    method StepEvent(e: TransportEvent) returns (raised: Option<Error>)
      requires Valid() && !closed
      modifies this
      ensures Valid() && !closed && script == old(script) + [DoEvent(e)] && tests == old(tests)
      ensures Outcome(View(), raised) == Step(old(View()), DoEvent(e))
    {
      raised := TakeEvent(e);
      Took(DoEvent(e));
    }

    method StepMessage(m: Inbound) returns (raised: Option<Error>)
      requires Valid() && !closed
      modifies this
      ensures Valid() && !closed && script == old(script) + [DoMessage(m)] && tests == old(tests)
      ensures Outcome(View(), raised) == Step(old(View()), DoMessage(m))
    {
      raised := TakeMessage(m);
      Took(DoMessage(m));
    }

    method DrainEvents(events: seq<TransportEvent>) returns (raised: Option<Error>)
      requires Valid() && !closed
      modifies this
      ensures Valid() && !closed && old(script) <= script && tests == old(tests)
      ensures Outcome(View(), raised) == Play(old(View()), EventActions(events))
    {
      ghost var actions := EventActions(events);
      var k := 0;
      assert actions[0..] == actions;
      while k < |events|
        invariant 0 <= k <= |events|
        invariant Valid() && !closed && old(script) <= script && tests == old(tests)
        invariant Play(old(View()), actions) == Play(View(), actions[k..])
      {
        assert actions[k..][1..] == actions[k + 1..];
        raised := StepEvent(events[k]);
        if raised.Some? {
          return;
        }
        k := k + 1;
      }
      raised := None;
    }

    method DrainMessages(messages: seq<Inbound>) returns (raised: Option<Error>)
      requires Valid() && !closed
      modifies this
      ensures Valid() && !closed && old(script) <= script && tests == old(tests)
      ensures Outcome(View(), raised) == Play(old(View()), MessageActions(messages))
    {
      ghost var actions := MessageActions(messages);
      var k := 0;
      assert actions[0..] == actions;
      while k < |messages|
        invariant 0 <= k <= |messages|
        invariant Valid() && !closed && old(script) <= script && tests == old(tests)
        invariant Play(old(View()), actions) == Play(View(), actions[k..])
      {
        assert actions[k..][1..] == actions[k + 1..];
        raised := StepMessage(messages[k]);
        if raised.Some? {
          return;
        }
        k := k + 1;
      }
      raised := None;
    }

    /** `_drain`: all events in order, then all messages, up to the first raised error. */
    method Drain(inbox: Inbox) returns (raised: Option<Error>)
      requires Valid() && !closed
      modifies this
      ensures Valid() && !closed && old(script) <= script && tests == old(tests)
      ensures Outcome(View(), raised) == Play(old(View()), DrainActions(inbox))
    {
      PlayConcat(View(), EventActions(inbox.events), MessageActions(inbox.messages));
      raised := DrainEvents(inbox.events);
      if raised.None? {
        raised := DrainMessages(inbox.messages);
      }
    }

    // ---------- The rest of a service pass ----------

    method AdvanceWorkflow(established: bool) returns (raised: Option<Error>)
      modifies this
      ensures Outcome(View(), raised) == Advance(old(View()), established)
      ensures raised.None? && pending == Due(old(View()), established)
      ensures operations ==
        if old(pending).None? && established && confirmed && old(operations) != [] then old(operations)[1..]
        else old(operations)
      ensures script == old(script) && tests == old(tests) && closed == old(closed)
    {
      raised := None;
      if pending.Some? || !established {
        return;
      }
      if !confirmed {
        raised := ActivateOperation(NewOperation(Request(Discovery, None, None), [SystemInfoRequest], None));
      } else if operations != [] {
        var next := operations[0];
        operations := operations[1..];
        raised := ActivateOperation(next);
      }
    }

    method CheckResponseTimeout(now: int) returns (raised: Option<Error>)
      modifies this
      ensures Outcome(View(), raised) == CheckTimeout(old(View()), now)
      ensures raised == (if old(IsOverdue(View(), now)) then Some(ResponseTimeout) else None)
      ensures if raised.None? then View() == old(View()) else phase == Failed && pending.None?
      ensures script == old(script) && tests == old(tests) && closed == old(closed)
    {
      if pending.None? || pending.value.responseReceived || pending.value.deadline.None?
        || now < pending.value.deadline.value {
        return None;
      }
      FailWorkflow();
      raised := Some(ResponseTimeout);
    }

    method ProcessTransport(status: TransportStatus) returns (raised: Option<Error>)
      modifies this
      ensures Outcome(View(), raised) == Workflow.ProcessTransport(old(View()), status)
      ensures raised == (if status == StatusDeliveryFailed then Some(DeliveryFailed) else None)
      ensures script == old(script) && tests == old(tests) && closed == old(closed)
    {
      raised := None;
      if status == StatusDeliveryFailed {
        FailWorkflow();
        raised := Some(DeliveryFailed);
      }
    }

    /** Transport took the next message of the pending operation. */
    method RecordSubmission(op: Operation)
      requires pending == Some(op) && CanSubmit(View(), true)
      modifies this
      ensures Done(View()) == Submit(old(View()), true, StatusOk)
      ensures script == old(script) && tests == old(tests) && closed == old(closed)
    {
      ghost var noted := history.Note(Submitted(op.request, op.messages[op.nextMessage]));
      if IsUploadKind(op.request.kind) {
        noted := noted.(trail := noted.trail.(submitted := noted.trail.submitted + [|history.log|]));
      }
      history := noted;
      pending := Some(op.(nextMessage := op.nextMessage + 1));
      deliveryPending := true;
    }

    method SubmitNextApplicationMessage(established: bool, status: TransportStatus)
      returns (submitted: bool, raised: Option<Error>)
      modifies this
      ensures Outcome(View(), raised) == Submit(old(View()), established, status)
      ensures submitted ==>
        && old(pending).Some? && old(MaySend(View(), pending.value)) && established && status == StatusOk
        && deliveryPending && pending == Some(old(pending).value.(nextMessage := old(pending).value.nextMessage + 1))
      ensures raised == Some(SubmissionFailed) <==>
        && old(pending).Some? && old(MaySend(View(), pending.value)) && established
        && status !in {StatusOk, StatusNotReady, StatusCapacityExhausted}
      ensures !submitted && raised.None? ==> View() == old(View())
      ensures submitted == (CanSubmit(old(View()), established) && status == StatusOk)
      ensures script == old(script) && tests == old(tests) && closed == old(closed)
    {
      submitted, raised := false, None;
      if pending.None? || pending.value.nextMessage >= |pending.value.messages| || deliveryPending || !established {
        return;
      }
      var op := pending.value;
      if op.request.kind != Discovery && !confirmed {
        return;
      }
      match status {
        case StatusOk =>
          RecordSubmission(op);
          submitted := true;
        case StatusNotReady =>
        case StatusCapacityExhausted =>
        case _ =>
          FailWorkflow();
          raised := Some(SubmissionFailed);
      }
    }

    /** `_read_serial`: a port that reports nonsense or cannot be read changes nothing. */
    method ReadSerial(data: Option<seq<Byte>>) returns (raised: Option<Error>)
      modifies this
      ensures raised == if data.None? then Some(ReadFailed) else None
      ensures View() == if data.None? then old(View())
        else old(View()).(link := ReadBytes(old(View()).link, data.value))
      ensures script == old(script) && tests == old(tests) && closed == old(closed)
    {
      if data.None? {
        return Some(ReadFailed);
      }
      incoming := incoming + data.value;
      history := history.(received := history.received + data.value);
      raised := None;
    }

    /** One offer of the receive loop. */
    method OfferOnce(a: ReceiveAnswer) returns (raised: Option<Error>)
      modifies this
      ensures Outcome(View(), raised) == Offer(old(View()), a)
      ensures script == old(script) && tests == old(tests) && closed == old(closed)
    {
      var n := if a.consumed <= |incoming| then a.consumed else |incoming|;
      history := history.(consumed := history.consumed + incoming[..n]);
      incoming := incoming[n..];
      raised := if AcceptableReceive(a.status) then None else Some(ReceiveFailed);
    }

    method ServiceOutput(frame: Option<seq<Byte>>, accepted: Option<int>, commit: Option<TransportStatus>)
      returns (raised: Option<Error>)
      modifies this
      ensures Outcome(View(), raised) == WriteOutput(old(View()), frame, accepted, commit)
      ensures PutsOut(old(View().link), View().link, frame, accepted, commit, raised)
      ensures script == old(script) && tests == old(tests) && closed == old(closed)
    {
      if output.None? {
        output := frame;
        outputOffset := 0;
      }
      if output.None? {
        return None;
      }
      var whole := output.value;
      if accepted.None? || !(0 <= accepted.value && outputOffset + accepted.value <= |whole|) {
        return Some(WriteFailed);
      }
      raised := SendPrefix(accepted.value, commit);
    }

    /** The port took `n` bytes of the pending frame. */
    method SendPrefix(n: nat, commit: Option<TransportStatus>) returns (raised: Option<Error>)
      requires output.Some? && outputOffset + n <= |output.value|
      modifies this
      ensures View() == old(View()).(link := SendOutput(old(View()).link, n))
      ensures raised == if output.Some? || commit == Some(StatusOk) || commit == Some(StatusNotReady) then None
        else Some(CommitFailed)
      ensures script == old(script) && tests == old(tests) && closed == old(closed)
    {
      var whole := output.value;
      ghost var written := history.written + whole[outputOffset..outputOffset + n];
      outputOffset := outputOffset + n;
      raised := None;
      if outputOffset < |whole| {
        history := history.(written := written);
      } else {
        output := None;
        outputOffset := 0;
        history := history.(written := written, committed := history.committed + whole);
        if commit != Some(StatusOk) && commit != Some(StatusNotReady) {
          raised := Some(CommitFailed);
        }
      }
    }

    // ---------- One service pass ----------

    method StepProcess(status: TransportStatus) returns (raised: Option<Error>)
      requires Valid() && !closed
      modifies this
      ensures Valid() && !closed && old(script) <= script && tests == old(tests)
      ensures Outcome(View(), raised) == Play(old(View()), [DoProcess(status)])
    {
      PlayOne(View(), DoProcess(status));
      raised := ProcessTransport(status);
      Took(DoProcess(status));
    }

    method StepSubmit(established: bool, status: TransportStatus) returns (submitted: bool, raised: Option<Error>)
      requires Valid() && !closed
      modifies this
      ensures Valid() && !closed && old(script) <= script && tests == old(tests)
      ensures submitted == (CanSubmit(old(View()), established) && status == StatusOk)
      ensures Outcome(View(), raised) == Play(old(View()), [DoSubmit(established, status)])
    {
      PlayOne(View(), DoSubmit(established, status));
      submitted, raised := SubmitNextApplicationMessage(established, status);
      Took(DoSubmit(established, status));
    }

    method StepWrite(frame: Option<seq<Byte>>, accepted: Option<int>, commit: Option<TransportStatus>)
      returns (raised: Option<Error>)
      requires Valid() && !closed
      modifies this
      ensures Valid() && !closed && old(script) <= script && tests == old(tests)
      ensures Outcome(View(), raised) == Play(old(View()), [DoWrite(frame, accepted, commit)])
    {
      PlayOne(View(), DoWrite(frame, accepted, commit));
      raised := ServiceOutput(frame, accepted, commit);
      Took(DoWrite(frame, accepted, commit));
    }

    method StepAdvance(established: bool) returns (raised: Option<Error>)
      requires Valid() && !closed
      modifies this
      ensures Valid() && !closed && old(script) <= script && tests == old(tests)
      ensures Outcome(View(), raised) == Play(old(View()), [DoAdvance(established)])
    {
      PlayOne(View(), DoAdvance(established));
      raised := AdvanceWorkflow(established);
      Took(DoAdvance(established));
    }

    method StepTimeout(now: int) returns (raised: Option<Error>)
      requires Valid() && !closed
      modifies this
      ensures Valid() && !closed && old(script) <= script && tests == old(tests)
      ensures Outcome(View(), raised) == Play(old(View()), [DoCheckTimeout(now)])
    {
      PlayOne(View(), DoCheckTimeout(now));
      raised := CheckResponseTimeout(now);
      Took(DoCheckTimeout(now));
    }

    /** Drain, advance the workflow, then look for an overdue response. */
    method Settle(inbox: Inbox, established: bool, now: int) returns (raised: Option<Error>)
      requires Valid() && !closed
      modifies this
      ensures Valid() && !closed && old(script) <= script && tests == old(tests)
      ensures Outcome(View(), raised) ==
        Play(old(View()), DrainActions(inbox) + [DoAdvance(established), DoCheckTimeout(now)])
    {
      PlayConcat(View(), DrainActions(inbox), [DoAdvance(established), DoCheckTimeout(now)]);
      raised := Drain(inbox);
      if raised.Some? {
        return;
      }
      PlayConcat(View(), [DoAdvance(established)], [DoCheckTimeout(now)]);
      assert [DoAdvance(established)] + [DoCheckTimeout(now)] == [DoAdvance(established), DoCheckTimeout(now)];
      raised := StepAdvance(established);
      if raised.None? {
        raised := StepTimeout(now);
      }
    }

    method StepOffer(a: ReceiveAnswer) returns (raised: Option<Error>)
      requires Valid() && !closed
      modifies this
      ensures Valid() && !closed && script == old(script) + [DoOffer(a)] && tests == old(tests)
      ensures Outcome(View(), raised) == Offer(old(View()), a)
    {
      raised := OfferOnce(a);
      Took(DoOffer(a));
    }

    /** `_offer_received`. */
    method OfferReceived(answer: (nat, seq<Byte>) -> ReceiveAnswer) returns (raised: Option<Error>)
      requires Valid() && !closed && FairTransport(answer)
      modifies this
      ensures Valid() && !closed && old(script) <= script && tests == old(tests)
      ensures Outcome(View(), raised) == OfferAll(old(View()), answer, 0)
    {
      var calls := 0;
      while true
        invariant Valid() && !closed && old(script) <= script && tests == old(tests)
        invariant OfferAll(old(View()), answer, 0) == OfferAll(View(), answer, calls)
        decreases |incoming|
      {
        var a := answer(calls, incoming);
        assert FairAnswer(a, incoming);
        raised := StepOffer(a);
        if a.status != StatusOk || incoming == [] {
          return;
        }
        calls := calls + 1;
      }
    }

    method FirstPass(e: Environment) returns (raised: Option<Error>)
      requires Valid() && !closed
      modifies this
      ensures Valid() && !closed && old(script) <= script && tests == old(tests)
      ensures Outcome(View(), raised) == Play(old(View()), FirstHalf(e))
    {
      ghost var rest := DrainActions(e.firstInbox) + [DoAdvance(e.firstEstablished), DoCheckTimeout(e.firstNow)];
      assert FirstHalf(e) == [DoProcess(e.firstProcess)] + rest;
      PlayConcat(View(), [DoProcess(e.firstProcess)], rest);
      raised := StepProcess(e.firstProcess);
      if raised.None? {
        raised := Settle(e.firstInbox, e.firstEstablished, e.firstNow);
      }
    }

    method WriteAndSettle(e: Environment) returns (raised: Option<Error>)
      requires Valid() && !closed
      modifies this
      ensures Valid() && !closed && old(script) <= script && tests == old(tests)
      ensures Outcome(View(), raised) == Play(old(View()),
        [DoWrite(e.frame, e.written, e.commit)]
        + (DrainActions(e.secondInbox) + [DoAdvance(e.secondEstablished), DoCheckTimeout(e.secondNow)]))
    {
      PlayConcat(View(), [DoWrite(e.frame, e.written, e.commit)],
                 DrainActions(e.secondInbox) + [DoAdvance(e.secondEstablished), DoCheckTimeout(e.secondNow)]);
      raised := StepWrite(e.frame, e.written, e.commit);
      if raised.None? {
        raised := Settle(e.secondInbox, e.secondEstablished, e.secondNow);
      }
    }

    method SecondPass(e: Environment) returns (raised: Option<Error>)
      requires Valid() && !closed
      modifies this
      ensures Valid() && !closed && old(script) <= script && tests == old(tests)
      ensures Outcome(View(), raised) == Play(old(View()), SecondHalf(e, Submits(old(View()), e)))
    {
      ghost var s, submits := View(), Submits(View(), e);
      ghost var submission := [DoSubmit(e.submitEstablished, e.submitStatus)];
      ghost var again := if submits then [DoProcess(e.secondProcess)] else [];
      ghost var rest := [DoWrite(e.frame, e.written, e.commit)]
        + (DrainActions(e.secondInbox) + [DoAdvance(e.secondEstablished), DoCheckTimeout(e.secondNow)]);
      assert SecondHalf(e, submits) == submission + (again + rest);
      PlayConcat(s, submission, again + rest);
      var submitted;
      submitted, raised := StepSubmit(e.submitEstablished, e.submitStatus);
      if raised.Some? {
        return;
      }
      PlayConcat(View(), again, rest);
      if submitted {
        raised := StepProcess(e.secondProcess);
        if raised.Some? {
          return;
        }
      }
      raised := WriteAndSettle(e);
    }

    /**
     `service`: one bounded pass. Everything it does is a piece of a run, whether or not it raises. `wrote` says that
     it got as far as servicing the output.
     */
    method Service(answer: (nat, seq<Byte>) -> ReceiveAnswer, e: Environment)
      returns (raised: Option<Error>, ghost wrote: bool)
      requires Valid() && FairTransport(answer)
      modifies this
      ensures Valid() && old(script) <= script && tests == old(tests) && closed == old(closed)
      ensures Outcome(View(), raised) == ServicePass(old(View()), answer, e)
      ensures closed ==> raised == Some(ConnectionClosed) && View() == old(View())
      ensures !closed && e.data.None? ==> raised == Some(ReadFailed) && View() == old(View())
      ensures !closed && e.data.Some? ==>
        && history.received == old(history.received) + e.data.value
        && history.consumed + incoming == old(history.consumed) + (old(incoming) + e.data.value)
        && Exchanges(old(View().link), Outcome(View(), raised), answer, e, wrote)
        && Listens(old(history.log), Outcome(View(), raised), e, wrote)
      ensures raised.None? && (old(output).Some? || e.frame.Some?) ==>
        var frame := if old(output).Some? then old(output.value) else e.frame.value;
        var from := if old(output).Some? then old(outputOffset) else 0;
        && e.written.Some? && 0 <= e.written.value && from + e.written.value <= |frame|
        && var to := from + e.written.value;
           && history.written == old(history.written) + frame[from..to]
           && (to < |frame| ==> output == Some(frame) && outputOffset == to)
           && (to == |frame| ==> output == None && history.committed == old(history.committed) + frame)
      ensures raised.None? ==> Settled(View(), e.secondEstablished, e.secondNow)
      ensures !closed && e.data.Some? && e.firstInbox == Inbox([], []) ==>
        && SendsDue(old(View()), Outcome(View(), raised), e)
        && (old(IsOverdue(View(), e.firstNow)) ==> raised.Some?)
        && (e.secondInbox == Inbox([], []) && old(IsOverdue(View(), e.secondNow)) ==> raised.Some?)
    {
      wrote := ReachesWriting(View(), answer, e);
      if !closed && e.data.Some? {
        PassAchieves(View(), answer, e);
      }
      raised := ServeOnce(answer, e);
    }

    method ServeOnce(answer: (nat, seq<Byte>) -> ReceiveAnswer, e: Environment) returns (raised: Option<Error>)
      requires Valid() && FairTransport(answer)
      modifies this
      ensures Valid() && old(script) <= script && tests == old(tests)
      ensures Outcome(View(), raised) == ServicePass(old(View()), answer, e)
      ensures closed == old(closed)
    {
      if closed {
        return Some(ConnectionClosed);
      }
      raised := ReadSerial(e.data);
      if raised.Some? {
        return;
      }
      Took(DoRead(e.data.value));
      raised := OfferReceived(answer);
      if raised.Some? {
        return;
      }
      raised := FirstPass(e);
      if raised.Some? {
        return;
      }
      raised := SecondPass(e);
    }

    // ---------- Caller requests ----------

    method BuildOperations(u: Upload) returns (queue: seq<Operation>)
      ensures queue == UploadOperations(u)
    {
      queue := [NewOperation(Request(Configure, Some(u.id), None), [TestConfiguration(u.id, u.configuration)], None)];
      var k := 0;
      while k < |u.instructions|
        invariant 0 <= k <= |u.instructions|
        invariant |queue| == k + 1
        invariant forall i :: 0 <= i <= k ==> queue[i] == UploadOperation(u, i)
      {
        var m := u.instructions[k];
        queue := queue + [NewOperation(Request(Tick, Some(u.id), Some(m.tick)), [TestInstruction(u.id, m)], None)];
        k := k + 1;
      }
    }

    /** What refuses an upload before anything of it is built. */
    method RefuseUpload() returns (raised: Option<Error>)
      ensures raised == if closed then Some(ConnectionClosed)
                        else if active.Some? || operations != [] then Some(UploadActive)
                        else if pending.Some? && pending.value.request.kind != Discovery then Some(OperationPending)
                        else None
    {
      if closed {
        return Some(ConnectionClosed);
      }
      if active.Some? || operations != [] {
        return Some(UploadActive);
      }
      if pending.Some? && pending.value.request.kind != Discovery {
        return Some(OperationPending);
      }
      raised := None;
    }

    /** `build_upload`: an attempt for another definition, or a value that cannot be lowered, is refused. */
    method BuildUpload(c: CompiledTest, attempt: Attempt) returns (u: Option<Upload>)
      requires c.hertz > 0
      ensures u.Some?
        <==> attempt.definition == c.testId && ConfigurationMessage(c).Some? && SparseInstructions(c).Some?
      ensures u.Some? ==> Carries(u.value, c) && u.value.id == attempt.id
    {
      if attempt.definition != c.testId {
        return None;
      }
      var configuration := Lowering.BuildConfiguration(c);
      if configuration.None? {
        return None;
      }
      var instructions := Lowering.BuildSparseInstructions(c);
      if instructions.None? {
        return None;
      }
      u := Some(Upload(attempt.id, attempt.definition, c.startMode, configuration.value, instructions.value));
    }

    /**
     `queue_upload`. Without an attempt of the caller's the wire ID is the bound builder's, or a fresh one. A raised
     error leaves the connection as it was; otherwise the upload that was queued was built from this compiled test.
     */
    method QueueUpload(c: CompiledTest, attempt: Option<Attempt>, freshId: nat, established: bool)
      returns (raised: Option<Error>, ghost upload: Upload)
      requires Valid() && c.hertz > 0
      modifies this
      ensures Valid()
      ensures old(closed) ==> raised == Some(ConnectionClosed)
      ensures !old(closed) && (old(active).Some? || old(operations) != []) ==> raised == Some(UploadActive)
      ensures raised == Some(LoweringFailed) ==>
        || (attempt.Some? && attempt.value.definition != c.testId)
        || ConfigurationMessage(c).None? || SparseInstructions(c).None?
      ensures raised == Some(IdRetired) ==> upload.id in old(retired)
      ensures raised == Some(BuilderMismatch) ==>
        old(builder).Some? && (old(builder).value.id != upload.id || old(builder).value.definition != upload.definition)
      ensures raised.Some? ==> View() == old(View()) && script == old(script) && tests == old(tests)
      ensures raised.None? ==>
        && Carries(upload, c)
        && !old(closed) && Outcome(View(), None) == Workflow.QueueUpload(old(View()), upload, established)
        && script == old(script) + [DoQueueUpload(upload, established)] && tests == old(tests)[|old(script)| := c]
      ensures raised.None? ==>
        upload.id == (if attempt.Some? then attempt.value.id else if builder.Some? then builder.value.id else freshId)
    {
      ghost var before := View();
      upload := Upload(0, 0, c.startMode, RigConfiguration(0, 0, [], []), []);
      var built;
      raised, built := PrepareUpload(c, attempt, freshId);
      assert View() == before && Valid();
      if raised.None? {
        upload := built.value;
        raised := QueueBuilt(c, built.value, established);
      }
    }

    /** Everything that can refuse an upload before its wire ID is looked at, and the upload itself. */
    method PrepareUpload(c: CompiledTest, attempt: Option<Attempt>, freshId: nat)
      returns (raised: Option<Error>, u: Option<Upload>)
      requires c.hertz > 0
      ensures raised == if closed then Some(ConnectionClosed)
                        else if active.Some? || operations != [] then Some(UploadActive)
                        else if pending.Some? && pending.value.request.kind != Discovery then Some(OperationPending)
                        else if u.None? then Some(LoweringFailed)
                        else None
      ensures raised == Some(LoweringFailed) ==>
        || (attempt.Some? && attempt.value.definition != c.testId)
        || ConfigurationMessage(c).None? || SparseInstructions(c).None?
      ensures raised.None? ==>
        && u.Some? && Carries(u.value, c)
        && u.value.id == if attempt.Some? then attempt.value.id else if builder.Some? then builder.value.id else freshId
    {
      u := None;
      raised := RefuseUpload();
      if raised.None? {
        u := BuildForAttempt(c, attempt, freshId);
        raised := if u.None? then Some(LoweringFailed) else None;
      }
    }

    method BuildForAttempt(c: CompiledTest, attempt: Option<Attempt>, freshId: nat) returns (u: Option<Upload>)
      requires c.hertz > 0
      ensures u.Some? <==>
        && (attempt.Some? ==> attempt.value.definition == c.testId)
        && ConfigurationMessage(c).Some? && SparseInstructions(c).Some?
      ensures u.Some? ==>
        && Carries(u.value, c)
        && u.value.id == if attempt.Some? then attempt.value.id else if builder.Some? then builder.value.id else freshId
    {
      var ours := if attempt.Some? then attempt.value
        else Attempt(c.testId, if builder.Some? then builder.value.id else freshId);
      u := BuildUpload(c, ours);
    }

    method QueueBuilt(c: CompiledTest, u: Upload, established: bool) returns (raised: Option<Error>)
      requires Valid() && Carries(u, c) && !closed && active.None? && operations == []
      requires pending.Some? ==> pending.value.request.kind == Discovery
      modifies this
      ensures Valid()
      ensures raised == if u.id in old(retired) then Some(IdRetired)
        else if old(builder).Some? && (old(builder).value.id != u.id || old(builder).value.definition != u.definition)
        then Some(BuilderMismatch) else None
      ensures raised.Some? ==> View() == old(View()) && script == old(script) && tests == old(tests)
      ensures raised.None? ==>
        && Outcome(View(), None) == Workflow.QueueUpload(old(View()), u, established)
        && script == old(script) + [DoQueueUpload(u, established)] && tests == old(tests)[|old(script)| := c]
    {
      raised := EnqueueBuilt(u, established);
      if raised.None? {
        TookUpload(c, u, established);
      }
    }

    /** The rest of `queue_upload`, with the upload messages built. */
    method EnqueueBuilt(u: Upload, established: bool) returns (raised: Option<Error>)
      requires !closed && active.None? && operations == []
      requires pending.Some? ==> pending.value.request.kind == Discovery
      modifies this
      ensures Outcome(View(), raised) == Workflow.QueueUpload(old(View()), u, established)
      ensures raised == if u.id in old(retired) then Some(IdRetired)
        else if old(builder).Some? && (old(builder).value.id != u.id || old(builder).value.definition != u.definition)
        then Some(BuilderMismatch) else None
      ensures raised.Some? ==> View() == old(View())
      ensures script == old(script) && tests == old(tests)
    {
      if u.id in retired {
        return Some(IdRetired);
      }
      if builder.Some? && !Belongs(builder.value, u) {
        return Some(BuilderMismatch);
      }
      Enqueue(u);
      raised := AdvanceWorkflow(established);
    }

    /** Put a queued upload on the script, with the test it was built from. */
    ghost method TookUpload(c: CompiledTest, u: Upload, established: bool)
      requires var s := Run(Initial(timeout), script);
        !s.closed && View() == Workflow.QueueUpload(s, u, established).state
      requires Built(script, tests) && Carries(u, c)
      modifies this`script, this`tests
      ensures View() == old(View()) && Valid()
      ensures script == old(script) + [DoQueueUpload(u, established)] && tests == old(tests)[|old(script)| := c]
    {
      RunOne(Initial(timeout), script, DoQueueUpload(u, established));
      BuiltGrows(script, tests, c, u, established);
      tests := tests[|script| := c];
      script := script + [DoQueueUpload(u, established)];
    }

    method Enqueue(u: Upload)
      modifies this
      ensures View() == Enqueued(old(View()), u)
      ensures script == old(script) && tests == old(tests)
    {
      operations := BuildOperations(u);
      active := Some(u);
      history := history.(log := history.log + [Queued(u)], trail := Trail(|history.log|, [], [], [], None, None));
      ResetProgress(|operations|);
    }

    /**
     `send_upload`: queue the upload, then keep calling `service` until the upload is accepted, a call raises, or the
     clock is past the deadline, which it first is after call number `limit`. When it returns normally, all messages of
     the upload were delivered and it was validated, in no fewer calls than there are messages.
     */
    method SendUpload(
        c: CompiledTest, attempt: Option<Attempt>, freshId: nat, established: bool, passes: nat -> Pass, limit: nat)
      returns (raised: Option<Error>, ghost upload: Upload, ghost calls: nat)
      requires Valid() && c.hertz > 0 && limit > 0 && forall i: nat :: FairTransport(passes(i).answer)
      modifies this
      ensures Valid() && old(script) <= script
      ensures raised.None? ==> Carries(upload, c) && active == Some(upload) && accepted && Delivered(View(), upload)
      ensures raised.None? ==> MessageCount(upload) <= calls < limit
      ensures raised.None? ==>
        View() == AfterPasses(Workflow.QueueUpload(old(View()), upload, established).state, FirstPasses(passes, calls))
    {
      calls := 0;
      raised, upload := QueueUpload(c, attempt, freshId, established);
      if raised.None? {
        QueueingBegins(old(View()), upload, established);
        raised, calls := ServiceUntilAccepted(upload, passes, limit);
      }
    }

    method ServiceUntilAccepted(ghost upload: Upload, passes: nat -> Pass, limit: nat)
      returns (raised: Option<Error>, ghost calls: nat)
      requires Valid() && !closed && limit > 0 && forall i: nat :: FairTransport(passes(i).answer)
      requires active == Some(upload) && history.trail.submitted == []
      modifies this
      ensures Valid() && old(script) <= script
      ensures raised.None? ==> active == Some(upload) && accepted && Delivered(View(), upload)
      ensures raised.None? ==> MessageCount(upload) <= calls < limit
      ensures raised.None? ==> View() == AfterPasses(old(View()), FirstPasses(passes, calls))
    {
      ghost var queued := View();
      var n := 0;
      calls := 0;
      raised := None;
      while !accepted
        invariant n < limit && calls == n && raised.None?
        invariant Valid() && old(script) <= script && !closed
        invariant View() == AfterPasses(queued, FirstPasses(passes, n))
        invariant active in {None, Some(upload)}
        decreases limit - n
      {
        raised := ServiceOnce(queued, upload, passes, n);
        if raised.Some? {
          return;
        }
        n := n + 1;
        calls := n;
        if n >= limit {
          return Some(ServiceTimeout), calls;
        }
      }
      EveryRunKeeps(timeout, script);
      AcceptedIsDelivered(queued, View(), upload, FirstPasses(passes, n));
    }

    /** Call number `n` of the polling loop. */
    method ServiceOnce(ghost queued: State, ghost upload: Upload, passes: nat -> Pass, n: nat)
      returns (raised: Option<Error>)
      requires Valid() && !closed && forall i: nat :: FairTransport(passes(i).answer)
      requires View() == AfterPasses(queued, FirstPasses(passes, n)) && active in {None, Some(upload)}
      modifies this
      ensures Valid() && old(script) <= script
      ensures View() == AfterPasses(queued, FirstPasses(passes, n + 1)) && active in {None, Some(upload)}
      ensures raised.None? ==> !closed
    {
      PassKeepsUpload(View(), passes(n));
      NextPass(queued, passes, n);
      ghost var wrote;
      raised, wrote := Service(passes(n).answer, passes(n).environment);
    }

    method RequireNoPendingOperation() returns (raised: Option<Error>)
      ensures raised == if Busy(View()) then Some(OperationPending) else None
    {
      raised := if pending.Some? || deliveryPending then Some(OperationPending) else None;
    }

    method Start() returns (raised: Option<Error>)
      requires Valid()
      modifies this
      ensures Valid() && script == old(script) + [DoStart] && tests == old(tests)
      ensures Outcome(View(), raised) == Step(old(View()), DoStart)
    {
      raised := None;
      if closed {
        raised := Some(ConnectionClosed);
      } else if active.None? || !accepted || phase != ReadyToStart {
        raised := Some(NotReadyToStart);
      } else if active.value.startMode == ExternalTrigger {
        raised := Some(NoTriggerProtocol);
      } else {
        raised := RequireNoPendingOperation();
      }
      if raised.None? {
        raised := QueueStart();
      }
      Took(DoStart);
    }

    method Abort() returns (raised: Option<Error>)
      requires Valid()
      modifies this
      ensures Valid() && script == old(script) + [DoAbort] && tests == old(tests)
      ensures Outcome(View(), raised) == Step(old(View()), DoAbort)
    {
      raised := None;
      if closed {
        raised := Some(ConnectionClosed);
      } else if active.None? {
        raised := Some(NoActiveUpload);
      } else {
        raised := RequireNoPendingOperation();
      }
      if raised.None? {
        var id := active.value.id;
        raised := ActivateOperation(NewOperation(Request(Workflow.Abort, Some(id), None), [AbortControl(id)],
          Some(phase)));
      }
      Took(DoAbort);
    }

    method ResetApplication() returns (raised: Option<Error>)
      requires Valid()
      modifies this
      ensures Valid() && script == old(script) + [DoReset] && tests == old(tests)
      ensures Outcome(View(), raised) == Step(old(View()), DoReset)
    {
      raised := None;
      if closed {
        raised := Some(ConnectionClosed);
      } else if !confirmed {
        raised := Some(NotConfirmed);
      } else {
        raised := RequireNoPendingOperation();
      }
      if raised.None? {
        raised := ActivateOperation(NewOperation(Request(Reset, None, None), [Workflow.ResetApplication], Some(phase)));
      }
      Took(DoReset);
    }

    method BindResultBuilder(b: Builder, replace: bool) returns (raised: Option<Error>)
      requires Valid()
      modifies this
      ensures Valid() && script == old(script) + [DoBind(b, replace)] && tests == old(tests)
      ensures Outcome(View(), raised) == Step(old(View()), DoBind(b, replace))
    {
      raised := None;
      if closed {
        raised := Some(ConnectionClosed);
      } else if builder.Some? && !replace {
        raised := Some(BuilderBound);
      } else if builder.Some? && active.Some? {
        raised := Some(UploadActive);
      } else if active.Some? && b.id != active.value.id {
        raised := Some(BuilderMismatch);
      } else {
        builder := Some(b);
      }
      Took(DoBind(b, replace));
    }

    /** `close`; when Transport refuses to close, the connection stays open without its operations and buffers. */
    method Close(transportCloses: bool) returns (raised: Option<Error>)
      requires Valid()
      modifies this
      ensures Valid() && script == old(script) + [DoClose(transportCloses)] && tests == old(tests)
      ensures Outcome(View(), raised) == Step(old(View()), DoClose(transportCloses))
      ensures old(closed) ==> raised.None? && View() == old(View())
      ensures !old(closed) ==>
        && raised == (if transportCloses then None else Some(CloseFailed)) && closed == transportCloses
        && operations == [] && pending.None? && !deliveryPending && incoming == [] && output == None
        && active == old(active) && phase == old(phase)
    {
      raised := None;
      if !closed {
        ClearBuffers();
        DropOperations();
        if transportCloses {
          closed := true;
        } else {
          history := history.Note(CloseRaised(phase));
          raised := Some(CloseFailed);
        }
      }
      Took(DoClose(transportCloses));
    }

    method ClearBuffers()
      modifies this
      ensures View() == old(View()).(link := Link([], None, 0, [], [], [], []))
      ensures script == old(script) && tests == old(tests) && closed == old(closed)
    {
      incoming := [];
      output := None;
      outputOffset := 0;
      history := history.(received := [], consumed := [], written := [], committed := []);
    }
  }

  lemma QueueingBegins(s: State, u: Upload, established: bool)
    requires !s.closed && Workflow.QueueUpload(s, u, established).raised.None?
    ensures var t := Workflow.QueueUpload(s, u, established).state;
      && !t.closed && t.active == Some(u) && t.trail.submitted == []
  {
  }

  lemma BuiltGrows(script: seq<Action>, tests: map<nat, CompiledTest>, c: CompiledTest, u: Upload, established: bool)
    requires Built(script, tests) && Carries(u, c)
    ensures Built(script + [DoQueueUpload(u, established)], tests[|script| := c])
  {
  }

  /** The first `n` service calls. */
  function FirstPasses(passes: nat -> Pass, n: nat): seq<Pass> {
    seq(n, i requires 0 <= i < n => passes(i))
  }

  lemma NextPass(s: State, passes: nat -> Pass, n: nat)
    requires forall i: nat :: FairTransport(passes(i).answer)
    ensures var before := FirstPasses(passes, n);
      AfterPasses(s, FirstPasses(passes, n + 1))
      == ServicePass(AfterPasses(s, before), passes(n).answer, passes(n).environment).state
  {
    assert FirstPasses(passes, n + 1)[..n] == FirstPasses(passes, n);
  }

  lemma AcceptedIsDelivered(queued: State, t: State, u: Upload, passes: seq<Pass>)
    requires FairPasses(passes) && t == AfterPasses(queued, passes) && queued.trail.submitted == []
    requires Inv(t) && !t.closed && t.accepted && t.active in {None, Some(u)}
    ensures t.active == Some(u) && Delivered(t, u) && MessageCount(u) <= |passes|
  {
    LateMeansDelivered(t, u);
    PassesSubmitAtMost(queued, passes);
  }

  /** Every connection object, after any calls, satisfies the invariant of runs; so its log is start-gated. */
  lemma EveryConnectionIsSafe(c: FixedIOProtocolConnection)
    requires c.Valid()
    ensures Reachable(c.View()) && Inv(c.View()) && EveryStartGated(c.history.log)
  {
    EveryRunKeeps(c.timeout, c.script);
  }
}
