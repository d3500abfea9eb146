/**
 The response-gated protocol workflow as a transition system. A `State` holds the connection's
 fields together with history variables that no branch reads: a log of what happened and the log
 positions that matter for the upload in progress. `Step` is one indivisible reaction to a caller
 or to the environment. A raised error is an outcome that keeps the mutated state, and a `Run`
 goes on after it.
 */
module Workflow {
  import opened Basics
  import opened Definition
  import opened Lowering

  datatype Phase =
    | Connecting | Discovering | Ready | Configuring | Uploading | Validating | ReadyToStart
    | Starting | Running | Aborting | Resetting | ResultsComplete | Aborted | Failed

  datatype Kind = Discovery | Configure | Tick | CompleteTest | Start | Abort | Reset

  /** An encoded Application message, identified with what it encodes. */
  datatype Wire =
    | SystemInfoRequest
    | TestConfiguration(id: nat, configuration: RigConfiguration)
    | TestInstruction(id: nat, message: SparseMessage)
    | StartControl(id: nat)
    | AbortControl(id: nat)
    | ResetApplication

  /** What identifies an operation in a response: its kind, its wire ID and its tick. */
  datatype Request = Request(kind: Kind, id: Option<nat>, tick: Option<int>)

  datatype Upload = Upload(
    id: nat,
    definition: nat,
    startMode: StartMode,
    configuration: RigConfiguration,
    instructions: seq<SparseMessage>)

  datatype ResponseScope = TestConfigurationScope | TickScope | CompleteTestScope | ExecutionControlScope
    | GlobalControlScope
  datatype ResponseOutcome = OutcomeAccepted | OutcomeRejected | OutcomeCompleted | OutcomeFailed
  datatype ControlCommand = InvalidCommand | StartCommand | AbortCommand
  datatype GlobalControlCommand = InvalidGlobalCommand | ResetCommand

  datatype Response = Response(
    id: Option<nat>,
    scope: ResponseScope,
    outcome: ResponseOutcome,
    tick: int,
    command: ControlCommand,
    globalCommand: GlobalControlCommand)

  datatype Operation = Operation(
    request: Request,
    messages: seq<Wire>,
    nextMessage: nat,
    responseReceived: bool,
    deadline: Option<int>,
    error: Option<ResponseOutcome>,
    previousPhase: Option<Phase>)
  {
    predicate EveryMessageSubmitted() {
      nextMessage == |messages|
    }
  }

  /** A result builder: the two identifiers the connection compares, and which object it is. */
  datatype Builder = Builder(id: nat, definition: nat, handle: nat)

  datatype Entry =
    | Queued(upload: Upload)
    | Submitted(request: Request, wire: Wire)
    | Confirmed(request: Request)
    | Answered(request: Request, positive: bool, response: Response)
    | ResultAccepted(id: nat, tick: int, taker: Option<Builder>)
    | Retired(id: nat)
    | WorkflowFailed
    | CloseRaised(phase: Phase)

  /** Log positions for the most recently queued upload. */
  datatype Trail = Trail(
    queued: nat,
    submitted: seq<nat>,
    confirmed: seq<nat>,
    accepted: seq<nat>,
    validated: Option<nat>,
    started: Option<nat>)

  type Byte = b: int | 0 <= b < 256

  /**
   Serial buffers, with the byte histories. `written` and `committed` restart at a session reset, and all four
   histories restart when closing drops the buffers.
   */
  datatype Link = Link(
    incoming: seq<Byte>,
    output: Option<seq<Byte>>,
    offset: nat,
    received: seq<Byte>,
    consumed: seq<Byte>,
    written: seq<Byte>,
    committed: seq<Byte>)

  datatype State = State(
    operations: seq<Operation>,
    pending: Option<Operation>,
    deliveryPending: bool,
    active: Option<Upload>,
    messageCount: nat,
    delivered: nat,
    accepted: bool,
    started: bool,
    nextResult: nat,
    confirmed: bool,
    retired: set<nat>,
    phase: Phase,
    builder: Option<Builder>,
    closed: bool,
    timeout: int,
    link: Link,
    log: seq<Entry>,
    trail: Trail)

  datatype Error =
    | ConnectionClosed | UploadActive | OperationPending | IdRetired | BuilderMismatch | BuilderBound
    | NotReadyToStart | NoTriggerProtocol | NoActiveUpload | NotConfirmed
    | DeliveryFailed | ProtocolFault | SessionLost | UnexpectedConfirmation
    | UnexpectedInformation | Incompatible | UnexpectedResponse | Mismatch | NegativeResponse
    | ResponseTimeout | ResultBeforeStart | ResultOfOtherTest | ResultOutOfOrder | StorageFailed
    | Undecodable | UnexpectedMessage | SubmissionFailed | ReadFailed | ReceiveFailed | WriteFailed | CommitFailed
    | LoweringFailed | CloseFailed | ServiceTimeout

  datatype Outcome = Outcome(state: State, raised: Option<Error>)

  function Done(s: State): Outcome {
    Outcome(s, None)
  }

  function Raise(s: State, e: Error): Outcome {
    Outcome(s, Some(e))
  }

  function Initial(timeout: int): State {
    State([], None, false, None, 0, 0, false, false, 0, false, {}, Connecting, None, false, timeout,
          Link([], None, 0, [], [], [], []), [], Trail(0, [], [], [], None, None))
  }

  // ---------- Uploads and operations ----------

  function Expected(u: Upload): int {
    u.configuration.expectedTickCount
  }

  function MessageCount(u: Upload): nat {
    1 + |u.instructions|
  }

  function UploadWire(u: Upload, i: nat): Wire
    requires i < MessageCount(u)
  {
    if i == 0 then TestConfiguration(u.id, u.configuration) else TestInstruction(u.id, u.instructions[i - 1])
  }

  function UploadRequest(u: Upload, i: nat): Request
    requires i < MessageCount(u)
  {
    if i == 0 then Request(Configure, Some(u.id), None) else Request(Tick, Some(u.id), Some(u.instructions[i - 1].tick))
  }

  function NewOperation(request: Request, messages: seq<Wire>, previousPhase: Option<Phase>): Operation {
    Operation(request, messages, 0, false, None, None, previousPhase)
  }

  function UploadOperation(u: Upload, i: nat): Operation
    requires i < MessageCount(u)
  {
    NewOperation(UploadRequest(u, i), [UploadWire(u, i)], None)
  }

  /** The configuration first, then every sparse tick in build order. */
  function UploadOperations(u: Upload): seq<Operation> {
    seq(MessageCount(u), i requires 0 <= i < MessageCount(u) => UploadOperation(u, i))
  }

  predicate IsUploadKind(k: Kind) {
    k == Configure || k == Tick
  }

  function ActivePhase(k: Kind): Phase {
    match k
    case Discovery => Discovering
    case Configure => Configuring
    case Tick => Uploading
    case CompleteTest => Validating
    case Start => Starting
    case Abort => Aborting
    case Reset => Resetting
  }

  // ---------- Shared reactions ----------

  function FailWorkflow(s: State): State {
    s.(operations := [], pending := None, deliveryPending := false, accepted := false, started := false,
       phase := Failed, log := s.log + [WorkflowFailed])
  }

  function ClearTransaction(s: State): State {
    s.(operations := [], active := None, messageCount := 0, delivered := 0, accepted := false, started := false,
       nextResult := 0)
  }

  function RetireActiveUpload(s: State): State {
    if s.active.None? then ClearTransaction(s)
    else ClearTransaction(s.(retired := s.retired + {s.active.value.id}, log := s.log + [Retired(s.active.value.id)]))
  }

  function Activate(s: State, op: Operation): Outcome {
    if s.pending.Some? then Raise(s, OperationPending)
    else Done(s.(pending := Some(op), phase := ActivePhase(op.request.kind)))
  }

  function QueueStart(s: State): Outcome {
    if s.active.None? then Raise(s, NoActiveUpload)
    else Activate(s,
      NewOperation(Request(Start, Some(s.active.value.id), None), [StartControl(s.active.value.id)], None))
  }

  function HandleNegative(s: State, op: Operation): State {
    var kind := op.request.kind;
    if IsUploadKind(kind) || kind == CompleteTest then RetireActiveUpload(s).(phase := Failed)
    else if kind == Start && op.error == Some(OutcomeRejected) then
      s.(started := false, accepted := true, phase := ReadyToStart)
    else if (kind == Abort || kind == Reset) && op.error == Some(OutcomeRejected) then
      s.(phase := if op.previousPhase.Some? then op.previousPhase.value else Failed)
    else FailWorkflow(s)
  }

  function FinishPending(s: State, now: int): Outcome {
    if s.pending.None? || !s.pending.value.responseReceived || s.deliveryPending
       || !s.pending.value.EveryMessageSubmitted() then Done(s)
    else
      var op := s.pending.value;
      var t := s.(pending := None);
      if op.error.Some? then Raise(HandleNegative(t, op), NegativeResponse)
      else match op.request.kind
        case Discovery => Done(t.(confirmed := true, phase := Ready))
        case Configure => NextUploadOperation(t, op, now)
        case Tick => NextUploadOperation(t, op, now)
        case CompleteTest =>
          var u := t.(accepted := true, phase := ReadyToStart);
          if u.active.Some? && u.active.value.startMode == Immediate then QueueStart(u) else Done(u)
        case Start => Done(t.(started := true, phase := Running))
        case Abort => Done(RetireActiveUpload(t).(phase := Aborted))
        case Reset => Done(RetireActiveUpload(t).(phase := Ready))
  }

  /** After an upload message is accepted: the next one, or the wait for whole-test validation. */
  function NextUploadOperation(s: State, op: Operation, now: int): Outcome {
    if s.operations != [] then Activate(s.(operations := s.operations[1..]), s.operations[0])
    else Activate(s,
      NewOperation(Request(CompleteTest, op.request.id, None), [], None).(deadline := Some(now + s.timeout)))
  }

  // ---------- Caller requests ----------

  /** The builder captures this upload attempt of this definition. */
  predicate Belongs(b: Builder, u: Upload) {
    b.id == u.id && b.definition == u.definition
  }

  function QueueUpload(s: State, u: Upload, established: bool): Outcome {
    if s.active.Some? || s.operations != [] then Raise(s, UploadActive)
    else if s.pending.Some? && s.pending.value.request.kind != Discovery then Raise(s, OperationPending)
    else if u.id in s.retired then Raise(s, IdRetired)
    else if s.builder.Some? && !Belongs(s.builder.value, u) then Raise(s, BuilderMismatch)
    else
      Advance(s.(operations := UploadOperations(u), active := Some(u), messageCount := MessageCount(u), delivered := 0,
                 accepted := false, started := false, nextResult := 0,
                 log := s.log + [Queued(u)], trail := Trail(|s.log|, [], [], [], None, None)), established)
  }

  predicate Busy(s: State) {
    s.pending.Some? || s.deliveryPending
  }

  function RequestStart(s: State): Outcome {
    if s.active.None? || !s.accepted || s.phase != ReadyToStart then Raise(s, NotReadyToStart)
    else if s.active.value.startMode == ExternalTrigger then Raise(s, NoTriggerProtocol)
    else if Busy(s) then Raise(s, OperationPending)
    else QueueStart(s)
  }

  function RequestAbort(s: State): Outcome {
    if s.active.None? then Raise(s, NoActiveUpload)
    else if Busy(s) then Raise(s, OperationPending)
    else
      var id := s.active.value.id;
      Activate(s, NewOperation(Request(Abort, Some(id), None), [AbortControl(id)], Some(s.phase)))
  }

  function RequestReset(s: State): Outcome {
    if !s.confirmed then Raise(s, NotConfirmed)
    else if Busy(s) then Raise(s, OperationPending)
    else Activate(s, NewOperation(Request(Reset, None, None), [ResetApplication], Some(s.phase)))
  }

  function BindBuilder(s: State, b: Builder, replace: bool): Outcome {
    if s.builder.Some? && !replace then Raise(s, BuilderBound)
    else if s.builder.Some? && s.active.Some? then Raise(s, UploadActive)
    else if s.active.Some? && b.id != s.active.value.id then Raise(s, BuilderMismatch)
    else Done(s.(builder := Some(b)))
  }

  /**
   Closing drops operations and buffers first. When Transport then refuses to close, the error escapes and the
   connection stays open without them.
   */
  function Close(s: State, transportCloses: bool): Outcome {
    var t := s.(operations := [], pending := None, deliveryPending := false, link := Link([], None, 0, [], [], [], []));
    if transportCloses then Done(t.(closed := true))
    else Raise(t.(log := t.log + [CloseRaised(s.phase)]), CloseFailed)
  }

  // ---------- The service pass, piece by piece ----------

  function Advance(s: State, established: bool): Outcome {
    if s.pending.Some? || !established then Done(s)
    else if !s.confirmed then Activate(s, NewOperation(Request(Discovery, None, None), [SystemInfoRequest], None))
    else if s.operations != [] then Activate(s.(operations := s.operations[1..]), s.operations[0])
    else Done(s)
  }

  function CheckTimeout(s: State, now: int): Outcome {
    if s.pending.None? || s.pending.value.responseReceived || s.pending.value.deadline.None?
       || now < s.pending.value.deadline.value then Done(s)
    else Raise(FailWorkflow(s), ResponseTimeout)
  }

  datatype TransportStatus = StatusOk | StatusNotReady | StatusCapacityExhausted | StatusDeliveryFailed | StatusOther

  predicate CanSubmit(s: State, established: bool) {
    && s.pending.Some? && s.pending.value.nextMessage < |s.pending.value.messages| && !s.deliveryPending
    && established && (s.pending.value.request.kind == Discovery || s.confirmed)
  }

  function Submit(s: State, established: bool, status: TransportStatus): Outcome {
    if !CanSubmit(s, established) then Done(s)
    else match status
      case StatusOk =>
        var op := s.pending.value;
        Done(s.(pending := Some(op.(nextMessage := op.nextMessage + 1)), deliveryPending := true,
                log := s.log + [Submitted(op.request, op.messages[op.nextMessage])],
                trail := if IsUploadKind(op.request.kind)
                         then s.trail.(submitted := s.trail.submitted + [|s.log|]) else s.trail))
      case StatusNotReady => Done(s)
      case StatusCapacityExhausted => Done(s)
      case _ => Raise(FailWorkflow(s), SubmissionFailed)
  }

  function ProcessTransport(s: State, status: TransportStatus): Outcome {
    if status == StatusDeliveryFailed then Raise(FailWorkflow(s), DeliveryFailed) else Done(s)
  }

  // ---------- Transport events ----------

  datatype TransportEvent = DeliveryConfirmed(now: int) | DeliveryFailedEvent | ProtocolErrorEvent | SessionReset
    | SessionEstablished | OtherEvent

  function ConfirmDelivery(s: State, now: int): Outcome {
    if s.pending.None? || !s.deliveryPending then Raise(FailWorkflow(s), UnexpectedConfirmation)
    else
      var op := s.pending.value;
      var upload := IsUploadKind(op.request.kind);
      FinishPending(
        s.(deliveryPending := false,
           delivered := if upload then s.delivered + 1 else s.delivered,
           pending := Some(if op.EveryMessageSubmitted() then op.(deadline := Some(now + s.timeout)) else op),
           log := s.log + [Confirmed(op.request)],
           trail := if upload then s.trail.(confirmed := s.trail.confirmed + [|s.log|]) else s.trail),
        now)
  }

  function HandleEvent(s: State, e: TransportEvent): Outcome {
    match e
    case DeliveryConfirmed(now) => ConfirmDelivery(s, now)
    case DeliveryFailedEvent => Raise(FailWorkflow(s), DeliveryFailed)
    case ProtocolErrorEvent => Raise(FailWorkflow(s), ProtocolFault)
    case SessionReset =>
      Raise(FailWorkflow(s.(confirmed := false,
                            link := s.link.(output := None, offset := 0, written := [], committed := []))), SessionLost)
    case SessionEstablished => Done(s.(confirmed := false, phase := Connecting))
    case OtherEvent => Done(s)
  }

  // ---------- Application messages ----------

  /** One decoded inbound message; the last flag of a result says whether the bound builder took it. */
  datatype Inbound =
    | SystemInformation(compatible: bool, now: int)
    | ApplicationResponse(response: Response, now: int)
    | ApplicationError(test: Option<nat>, taken: bool)
    | TestResult(id: nat, tick: int, taken: bool)
    | Unknown
    | Garbled

  function HandleInformation(s: State, compatible: bool, now: int): Outcome {
    if s.pending.None? || s.pending.value.request.kind != Discovery then Raise(FailWorkflow(s), UnexpectedInformation)
    else if !compatible then Raise(FailWorkflow(s), Incompatible)
    else FinishPending(s.(pending := Some(s.pending.value.(responseReceived := true))), now)
  }

  function ExpectedScope(k: Kind): ResponseScope {
    match k
    case Configure => TestConfigurationScope
    case Tick => TickScope
    case CompleteTest => CompleteTestScope
    case Reset => GlobalControlScope
    case _ => ExecutionControlScope
  }

  function SuccessfulOutcome(k: Kind): ResponseOutcome {
    if k == Start || k == Abort || k == Reset then OutcomeCompleted else OutcomeAccepted
  }

  /** Whether a response answers exactly the pending request. */
  predicate Matches(r: Response, request: Request) {
    && r.scope == ExpectedScope(request.kind)
    && r.id == request.id
    && (request.kind == Tick ==> Some(r.tick) == request.tick)
    && (request.kind == Start ==> r.command == StartCommand)
    && (request.kind == Abort ==> r.command == AbortCommand)
    && (request.kind == Reset ==> r.globalCommand == ResetCommand)
  }

  /** Remember where the first positive answer to an operation stands in the log. */
  function NotePositive(t: Trail, k: Kind, position: nat): Trail {
    match k
    case Configure => t.(accepted := t.accepted + [position])
    case Tick => t.(accepted := t.accepted + [position])
    case CompleteTest => t.(validated := Some(position))
    case Start => t.(started := Some(position))
    case _ => t
  }

  function HandleResponse(s: State, r: Response, now: int): Outcome {
    if s.pending.None? || s.pending.value.request.kind == Discovery then Raise(FailWorkflow(s), UnexpectedResponse)
    else if !Matches(r, s.pending.value.request) then Raise(FailWorkflow(s), Mismatch)
    else
      var op := s.pending.value;
      var positive := r.outcome == SuccessfulOutcome(op.request.kind);
      FinishPending(
        s.(pending := Some(op.(responseReceived := true, error := if positive then op.error else Some(r.outcome))),
           log := s.log + [Answered(op.request, positive, r)],
           trail := if positive && !op.responseReceived then NotePositive(s.trail, op.request.kind, |s.log|)
             else s.trail),
        now)
  }

  function HandleResult(s: State, id: nat, tick: int, taken: bool): Outcome {
    if s.active.None? || !s.started then Raise(FailWorkflow(s), ResultBeforeStart)
    else if id != s.active.value.id then Raise(FailWorkflow(s), ResultOfOtherTest)
    else if tick != s.nextResult then Raise(FailWorkflow(s), ResultOutOfOrder)
    else if s.builder.Some? && !taken then Raise(s, StorageFailed)
    else
      Done(s.(nextResult := s.nextResult + 1,
              phase := if s.nextResult + 1 == Expected(s.active.value) then ResultsComplete else s.phase,
              log := s.log + [ResultAccepted(id, tick, s.builder)]))
  }

  function HandleMessage(s: State, m: Inbound): Outcome {
    match m
    case SystemInformation(compatible, now) => HandleInformation(s, compatible, now)
    case ApplicationResponse(r, now) => HandleResponse(s, r, now)
    case ApplicationError(id, taken) =>
      if s.builder.Some? && s.active.Some? && (id.None? || id == Some(s.active.value.id)) && !taken
      then Raise(s, StorageFailed) else Done(s)
    case TestResult(id, tick, taken) => HandleResult(s, id, tick, taken)
    case Unknown => Raise(FailWorkflow(s), UnexpectedMessage)
    case Garbled => Raise(s, Undecodable)
  }

  // ---------- Serial bytes ----------

  function ReadBytes(l: Link, data: seq<Byte>): Link {
    l.(incoming := l.incoming + data, received := l.received + data)
  }

  datatype ReceiveAnswer = ReceiveAnswer(status: TransportStatus, consumed: nat)

  predicate AcceptableReceive(status: TransportStatus) {
    status == StatusOk || status == StatusNotReady || status == StatusCapacityExhausted
  }

  /** Transport takes a prefix of what is buffered. */
  function TakeBytes(l: Link, n: nat): Link {
    var k := if n <= |l.incoming| then n else |l.incoming|;
    l.(incoming := l.incoming[k..], consumed := l.consumed + l.incoming[..k])
  }

  function Offer(s: State, a: ReceiveAnswer): Outcome {
    var t := s.(link := TakeBytes(s.link, a.consumed));
    if AcceptableReceive(a.status) then Done(t) else Raise(t, ReceiveFailed)
  }

  /** With nothing pending, the next frame Transport offers becomes pending. */
  function LoadOutput(l: Link, frame: Option<seq<Byte>>): Link {
    if l.output.None? then l.(output := frame, offset := 0) else l
  }

  /** The port took `n` more bytes; a frame taken whole is committed. */
  function SendOutput(l: Link, n: nat): Link
    requires l.output.Some? && l.offset + n <= |l.output.value|
  {
    var whole, offset := l.output.value, l.offset + n;
    var sent := l.(offset := offset, written := l.written + whole[l.offset..offset]);
    if offset < |whole| then sent else sent.(output := None, offset := 0, committed := l.committed + whole)
  }

  predicate AcceptableWrite(l: Link, written: Option<int>) {
    l.output.Some? && written.Some? && 0 <= written.value && l.offset + written.value <= |l.output.value|
  }

  /** One output turn: `frame` is what Transport offers if nothing is pending, `written` what the port reports. */
  function WriteOutput(s: State, frame: Option<seq<Byte>>, written: Option<int>,
      commit: Option<TransportStatus>): Outcome {
    var l := LoadOutput(s.link, frame);
    if l.output.None? then Done(s.(link := l))
    else if !AcceptableWrite(l, written) then Raise(s.(link := l), WriteFailed)
    else
      var t := s.(link := SendOutput(l, written.value));
      if t.link.output.Some? || commit == Some(StatusOk) || commit == Some(StatusNotReady) then Done(t)
        else Raise(t, CommitFailed)
  }

  // ---------- Steps and runs ----------

  datatype Action =
    | DoQueueUpload(upload: Upload, established: bool)
    | DoStart
    | DoAbort
    | DoReset
    | DoBind(builder: Builder, replace: bool)
    | DoClose(transportCloses: bool)
    | DoRead(data: seq<Byte>)
    | DoOffer(answer: ReceiveAnswer)
    | DoProcess(status: TransportStatus)
    | DoEvent(event: TransportEvent)
    | DoMessage(message: Inbound)
    | DoAdvance(established: bool)
    | DoCheckTimeout(now: int)
    | DoSubmit(established: bool, status: TransportStatus)
    | DoWrite(frame: Option<seq<Byte>>, written: Option<int>, commit: Option<TransportStatus>)

  function Step(s: State, a: Action): Outcome {
    if s.closed then (if a.DoClose? then Done(s) else Raise(s, ConnectionClosed))
    else match a
      case DoQueueUpload(u, established) => QueueUpload(s, u, established)
      case DoStart => RequestStart(s)
      case DoAbort => RequestAbort(s)
      case DoReset => RequestReset(s)
      case DoBind(b, replace) => BindBuilder(s, b, replace)
      case DoClose(transportCloses) => Close(s, transportCloses)
      case DoRead(data) => Done(s.(link := ReadBytes(s.link, data)))
      case DoOffer(answer) => Offer(s, answer)
      case DoProcess(status) => ProcessTransport(s, status)
      case DoEvent(e) => HandleEvent(s, e)
      case DoMessage(m) => HandleMessage(s, m)
      case DoAdvance(established) => Advance(s, established)
      case DoCheckTimeout(now) => CheckTimeout(s, now)
      case DoSubmit(established, status) => Submit(s, established, status)
      case DoWrite(frame, written, commit) => WriteOutput(s, frame, written, commit)
  }

  /** Any sequence of caller requests and environment reactions, continuing after raised errors. */
  function Run(s: State, actions: seq<Action>): State
    decreases |actions|
  {
    if actions == [] then s
    else Step(Run(s, actions[..|actions| - 1]), actions[|actions| - 1]).state
  }

  /** The states that some run of a new connection leads to. */
  ghost predicate Reachable(s: State) {
    exists timeout, actions :: s == Run(Initial(timeout), actions)
  }
}
