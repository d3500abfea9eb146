/**
 What one service call achieves, said of the fields and the byte histories: what it takes from the port, what it hears
 from Transport, what it submits, what it puts out, and when it must raise.
 */
module WorkflowPass {
  import opened Basics
  import opened Workflow
  import opened WorkflowSafety
  import opened WorkflowService
  import opened WorkflowTheorems

  // ---------- What Transport told the connection ----------

  /** An event or a message that leaves its mark in the log when it is handled. */
  datatype Heard =
    | Confirmation
    | Answer(response: Response)
    | Result(id: nat, tick: int)

  /** The marks in the log, in order. */
  function HeardIn(log: seq<Entry>): seq<Heard> {
    if log == [] then []
    else
      var last := log[|log| - 1];
      HeardIn(log[..|log| - 1])
      + match last
        case Confirmed(_) => [Confirmation]
        case Answered(_, _, r) => [Answer(r)]
        case ResultAccepted(id, tick, _) => [Result(id, tick)]
        case _ => []
  }

  function Confirmations(events: seq<TransportEvent>): seq<Heard> {
    if events == [] then []
    else (if events[0].DeliveryConfirmed? then [Confirmation] else []) + Confirmations(events[1..])
  }

  function Reply(m: Inbound): seq<Heard> {
    match m
    case ApplicationResponse(r, _) => [Answer(r)]
    case TestResult(id, tick, _) => [Result(id, tick)]
    case _ => []
  }

  function Replies(messages: seq<Inbound>): seq<Heard> {
    if messages == [] then [] else Reply(messages[0]) + Replies(messages[1..])
  }

  /** What an inbox holds that leaves a mark: its events before its messages. */
  function Told(inbox: Inbox): seq<Heard> {
    Confirmations(inbox.events) + Replies(inbox.messages)
  }

  /** Nothing in the inbox is an error of its own. */
  ghost predicate Benign(inbox: Inbox) {
    && (forall e :: e in inbox.events ==> e.DeliveryConfirmed? || e.SessionEstablished? || e.OtherEvent?)
    && (forall m :: m in inbox.messages ==> !m.Unknown? && !m.Garbled? && (m.SystemInformation? ==> m.compatible))
  }

  // ---------- What one step hears ----------

  /** The steps of a pass that exchange no serial bytes. */
  predicate Inner(a: Action) {
    a.DoProcess? || a.DoEvent? || a.DoMessage? || a.DoAdvance? || a.DoCheckTimeout? || a.DoSubmit?
  }

  function ToldBy(a: Action): seq<Heard> {
    match a
    case DoEvent(e) => Confirmations([e])
    case DoMessage(m) => Reply(m)
    case _ => []
  }

  predicate BenignStep(a: Action) {
    match a
    case DoProcess(status) => status != StatusDeliveryFailed
    case DoEvent(e) => e.DeliveryConfirmed? || e.SessionEstablished? || e.OtherEvent?
    case DoMessage(m) => !m.Unknown? && !m.Garbled? && (m.SystemInformation? ==> m.compatible)
    case _ => true
  }

  /** The errors of reading, offering and writing. */
  predicate IsSerialError(e: Error) {
    e in {ConnectionClosed, ReadFailed, ReceiveFailed, WriteFailed, CommitFailed}
  }

  /** A session reset drops the frame being written; nothing else touches the serial bytes. */
  predicate KeepsBytes(before: Link, after: Link, raised: Option<Error>) {
    if raised == Some(SessionLost)
    then after == before.(output := None, offset := 0, written := [], committed := [])
    else after == before
  }

  ghost predicate Hears(s: State, told: seq<Heard>, o: Outcome) {
    && !o.state.closed && KeepsBytes(s.link, o.state.link, o.raised)
    && s.log <= o.state.log
    && HeardIn(o.state.log) <= HeardIn(s.log) + told
    && (o.raised.None? ==> HeardIn(o.state.log) == HeardIn(s.log) + told)
    && (o.raised.Some? ==> !IsSerialError(o.raised.value))
  }

  lemma HeardOne(log: seq<Entry>, e: Entry)
    ensures HeardIn(log + [e]) == HeardIn(log) +
      match e
      case Confirmed(_) => [Confirmation]
      case Answered(_, _, r) => [Answer(r)]
      case ResultAccepted(id, tick, _) => [Result(id, tick)]
      case _ => []
  {
    assert (log + [e])[..|log|] == log;
  }

  lemma HeardNothing(log: seq<Entry>, told: seq<Heard>)
    ensures HeardIn(log) <= HeardIn(log) + told && HeardIn(log) + [] == HeardIn(log)
  {
  }

  lemma FailureHears(s: State, told: seq<Heard>, e: Error)
    requires !s.closed && !IsSerialError(e) && e != SessionLost
    ensures Hears(s, told, Raise(FailWorkflow(s), e))
  {
    HeardOne(s.log, WorkflowFailed);
    HeardNothing(s.log, told);
  }

  /** Finishing an operation hears nothing. */
  lemma FinishingHears(s: State, now: int)
    requires !s.closed
    ensures Hears(s, [], FinishPending(s, now))
  {
    var o := FinishPending(s, now);
    FinishAddsOne(s, now);
    FinishingKeepsBytes(s, now);
    HeardNothing(s.log, []);
    if o.state.log != s.log {
      var e :| o.state.log == s.log + [e] && LogsPlainly(s, e);
      HeardOne(s.log, e);
    }
  }

  lemma FinishingKeepsBytes(s: State, now: int)
    ensures var o := FinishPending(s, now);
      && o.state.link == s.link && o.state.closed == s.closed
      && (o.raised.Some? ==> o.raised.value in {NegativeResponse, OperationPending, NoActiveUpload})
  {
    if s.pending.Some? {
      var t, op := s.(pending := None), s.pending.value;
      NegativeKeepsBytes(t, op);
      match op.request.kind {
        case Configure =>
        case Tick =>
        case CompleteTest =>
        case _ =>
      }
    }
  }

  lemma NegativeKeepsBytes(s: State, op: Operation)
    ensures HandleNegative(s, op).link == s.link && HandleNegative(s, op).closed == s.closed
  {
  }

  /** Hearing something and then finishing the operation. */
  lemma NotedHears(s: State, e: Entry, told: seq<Heard>, noted: State, now: int)
    requires !s.closed && !noted.closed && noted.link == s.link && noted.log == s.log + [e]
    requires HeardIn(noted.log) == HeardIn(s.log) + told
    ensures Hears(s, told, FinishPending(noted, now))
  {
    FinishingHears(noted, now);
    FinishingKeepsBytes(noted, now);
    assert HeardIn(s.log) + told + [] == HeardIn(s.log) + told;
  }

  lemma ConfirmationHears(s: State, now: int)
    requires !s.closed
    ensures Hears(s, [Confirmation], ConfirmDelivery(s, now))
  {
    if s.pending.None? || !s.deliveryPending {
      FailureHears(s, [Confirmation], UnexpectedConfirmation);
    } else {
      HeardOne(s.log, Confirmed(s.pending.value.request));
      NotedHears(s, Confirmed(s.pending.value.request), [Confirmation], NoteDelivery(s, now), now);
    }
  }

  lemma ResetHears(s: State)
    requires !s.closed
    ensures Hears(s, [], HandleEvent(s, SessionReset))
  {
    HeardOne(s.log, WorkflowFailed);
    HeardNothing(s.log, []);
  }

  lemma OneConfirmation(e: TransportEvent)
    ensures Confirmations([e]) == if e.DeliveryConfirmed? then [Confirmation] else []
  {
    assert [e][1..] == [];
    assert Confirmations([]) == [];
  }

  lemma EventHears(s: State, e: TransportEvent)
    requires !s.closed
    ensures Hears(s, Confirmations([e]), HandleEvent(s, e))
    ensures HandleEvent(s, e).raised.None? ==> e.DeliveryConfirmed? || e.SessionEstablished? || e.OtherEvent?
  {
    OneConfirmation(e);
    match e {
      case DeliveryConfirmed(now) => ConfirmationHears(s, now);
      case DeliveryFailedEvent => FailureHears(s, [], DeliveryFailed);
      case ProtocolErrorEvent => FailureHears(s, [], ProtocolFault);
      case SessionReset => ResetHears(s);
      case SessionEstablished => HeardNothing(s.log, []);
      case OtherEvent => HeardNothing(s.log, []);
    }
  }

  lemma ResponseHears(s: State, r: Response, now: int)
    requires !s.closed
    ensures Hears(s, [Answer(r)], HandleResponse(s, r, now))
  {
    if s.pending.None? || s.pending.value.request.kind == Discovery {
      FailureHears(s, [Answer(r)], UnexpectedResponse);
    } else if !Matches(r, s.pending.value.request) {
      FailureHears(s, [Answer(r)], Mismatch);
    } else {
      AnswerFinishes(s, r, now);
      HeardOne(s.log, AnswerEntry(s, r));
      NotedHears(s, AnswerEntry(s, r), [Answer(r)], NoteAnswer(s, r), now);
    }
  }

  lemma InformationHears(s: State, compatible: bool, now: int)
    requires !s.closed
    ensures Hears(s, [], HandleInformation(s, compatible, now))
    ensures HandleInformation(s, compatible, now).raised.None? ==> compatible
  {
    if s.pending.None? || s.pending.value.request.kind != Discovery {
      FailureHears(s, [], UnexpectedInformation);
    } else if !compatible {
      FailureHears(s, [], Incompatible);
    } else {
      FinishingHears(s.(pending := Some(s.pending.value.(responseReceived := true))), now);
    }
  }

  lemma ResultHears(s: State, id: nat, tick: int, taken: bool)
    requires !s.closed
    ensures Hears(s, [Result(id, tick)], HandleResult(s, id, tick, taken))
  {
    HeardNothing(s.log, [Result(id, tick)]);
    HeardOne(s.log, ResultAccepted(id, tick, s.builder));
    HeardOne(s.log, WorkflowFailed);
  }

  lemma MessageHears(s: State, m: Inbound)
    requires !s.closed
    ensures Hears(s, Reply(m), HandleMessage(s, m))
    ensures HandleMessage(s, m).raised.None? ==> BenignStep(DoMessage(m))
  {
    HeardNothing(s.log, []);
    match m {
      case SystemInformation(compatible, now) => InformationHears(s, compatible, now);
      case ApplicationResponse(r, now) => ResponseHears(s, r, now);
      case ApplicationError(_, _) =>
      case TestResult(id, tick, taken) => ResultHears(s, id, tick, taken);
      case Unknown => FailureHears(s, [], UnexpectedMessage);
      case Garbled =>
    }
  }

  lemma SubmissionHears(s: State, established: bool, status: TransportStatus)
    requires !s.closed
    ensures Hears(s, [], Submit(s, established, status))
  {
    HeardNothing(s.log, []);
    if CanSubmit(s, established) {
      HeardOne(s.log, Submitted(s.pending.value.request, s.pending.value.messages[s.pending.value.nextMessage]));
      FailureHears(s, [], SubmissionFailed);
    }
  }

  lemma AdvancingHears(s: State, established: bool)
    requires !s.closed
    ensures Hears(s, [], Advance(s, established))
  {
    HeardNothing(s.log, []);
  }

  lemma ProcessingHears(s: State, status: TransportStatus)
    requires !s.closed
    ensures Hears(s, [], ProcessTransport(s, status))
    ensures ProcessTransport(s, status).raised.None? ==> status != StatusDeliveryFailed
  {
    HeardNothing(s.log, []);
    FailureHears(s, [], DeliveryFailed);
  }

  lemma CheckingHears(s: State, now: int)
    requires !s.closed
    ensures Hears(s, [], CheckTimeout(s, now))
  {
    HeardNothing(s.log, []);
    FailureHears(s, [], ResponseTimeout);
  }

  lemma QuietHears(s: State, a: Action)
    requires !s.closed && (a.DoProcess? || a.DoAdvance? || a.DoCheckTimeout? || a.DoSubmit?)
    ensures Hears(s, [], Step(s, a)) && (Step(s, a).raised.None? ==> BenignStep(a))
  {
    match a {
      case DoProcess(status) => ProcessingHears(s, status);
      case DoAdvance(established) => AdvancingHears(s, established);
      case DoCheckTimeout(now) => CheckingHears(s, now);
      case DoSubmit(established, status) => SubmissionHears(s, established, status);
      case _ =>
    }
  }

  lemma StepHears(s: State, a: Action)
    requires !s.closed && Inner(a)
    ensures Hears(s, ToldBy(a), Step(s, a)) && (Step(s, a).raised.None? ==> BenignStep(a))
  {
    match a {
      case DoEvent(e) => EventHears(s, e);
      case DoMessage(m) => MessageHears(s, m);
      case _ => QuietHears(s, a);
    }
  }

  // ---------- What several steps hear ----------

  function ToldByAll(actions: seq<Action>): seq<Heard> {
    if actions == [] then [] else ToldBy(actions[0]) + ToldByAll(actions[1..])
  }

  lemma HearingChains(s: State, first: Outcome, rest: Outcome, a: seq<Heard>, b: seq<Heard>)
    requires Hears(s, a, first) && first.raised.None? && Hears(first.state, b, rest)
    ensures Hears(s, a + b, rest)
  {
    assert HeardIn(s.log) + a + b == HeardIn(s.log) + (a + b);
  }

  lemma HearingStops(s: State, o: Outcome, a: seq<Heard>, b: seq<Heard>)
    requires Hears(s, a, o) && o.raised.Some?
    ensures Hears(s, a + b, o)
  {
    assert HeardIn(s.log) + a + b == HeardIn(s.log) + (a + b);
  }

  lemma {:induction false} PlayHears(s: State, actions: seq<Action>)
    requires !s.closed && forall a :: a in actions ==> Inner(a)
    ensures Hears(s, ToldByAll(actions), Play(s, actions))
    ensures Play(s, actions).raised.None? ==> forall a :: a in actions ==> BenignStep(a)
    decreases |actions|
  {
    if actions == [] {
      HeardNothing(s.log, []);
    } else {
      var first := Step(s, actions[0]);
      StepHears(s, actions[0]);
      if first.raised.Some? {
        HearingStops(s, first, ToldBy(actions[0]), ToldByAll(actions[1..]));
      } else {
        PlayHears(first.state, actions[1..]);
        HearingChains(s, first, Play(first.state, actions[1..]), ToldBy(actions[0]), ToldByAll(actions[1..]));
        assert actions == [actions[0]] + actions[1..];
      }
    }
  }

  lemma {:induction false} ToldConcat(a: seq<Action>, b: seq<Action>)
    ensures ToldByAll(a + b) == ToldByAll(a) + ToldByAll(b)
  {
    if a == [] {
      assert a + b == b;
    } else {
      assert (a + b)[1..] == a[1..] + b;
      ToldConcat(a[1..], b);
    }
  }

  lemma {:induction false} ToldByEvents(events: seq<TransportEvent>)
    ensures ToldByAll(EventActions(events)) == Confirmations(events)
  {
    if events != [] {
      OneConfirmation(events[0]);
      assert EventActions(events)[1..] == EventActions(events[1..]);
      ToldByEvents(events[1..]);
    }
  }

  lemma {:induction false} ToldByMessages(messages: seq<Inbound>)
    ensures ToldByAll(MessageActions(messages)) == Replies(messages)
  {
    if messages != [] {
      assert MessageActions(messages)[1..] == MessageActions(messages[1..]);
      ToldByMessages(messages[1..]);
    }
  }

  lemma ToldByInbox(inbox: Inbox)
    ensures ToldByAll(DrainActions(inbox)) == Told(inbox)
  {
    ToldConcat(EventActions(inbox.events), MessageActions(inbox.messages));
    ToldByEvents(inbox.events);
    ToldByMessages(inbox.messages);
  }

  lemma ToldByNobody(a: Action, b: Action)
    requires ToldBy(a) == [] && ToldBy(b) == []
    ensures ToldByAll([a]) == [] && ToldByAll([a, b]) == []
  {
    assert [a][1..] == [] && [a, b][1..] == [b] && [b][1..] == [];
    assert ToldByAll([b]) == [];
  }

  lemma InboxIsBenign(inbox: Inbox)
    requires forall a :: a in DrainActions(inbox) ==> BenignStep(a)
    ensures Benign(inbox)
  {
    forall e | e in inbox.events
      ensures BenignStep(DoEvent(e))
    {
      var k :| 0 <= k < |inbox.events| && inbox.events[k] == e;
      assert DrainActions(inbox)[k] == DoEvent(e);
    }
    forall m | m in inbox.messages
      ensures BenignStep(DoMessage(m))
    {
      var k :| 0 <= k < |inbox.messages| && inbox.messages[k] == m;
      assert DrainActions(inbox)[|inbox.events| + k] == DoMessage(m);
    }
  }

  /** Draining an inbox, advancing, and looking for an overdue response. */
  function SettleActions(inbox: Inbox, established: bool, now: int): seq<Action> {
    DrainActions(inbox) + [DoAdvance(established), DoCheckTimeout(now)]
  }

  lemma SettlingHears(s: State, inbox: Inbox, established: bool, now: int)
    requires !s.closed
    ensures Hears(s, Told(inbox), Play(s, SettleActions(inbox, established, now)))
    ensures Play(s, SettleActions(inbox, established, now)).raised.None? ==> Benign(inbox)
  {
    var drain, rest := DrainActions(inbox), [DoAdvance(established), DoCheckTimeout(now)];
    PlayHears(s, drain + rest);
    ToldConcat(drain, rest);
    ToldByInbox(inbox);
    ToldByNobody(DoAdvance(established), DoCheckTimeout(now));
    assert Told(inbox) + [] == Told(inbox);
    if Play(s, drain + rest).raised.None? {
      assert forall a :: a in drain ==> a in drain + rest;
      InboxIsBenign(inbox);
    }
  }

  /** No response is overdue, and a session is used: discovered, or the next queued operation made pending. */
  predicate Settled(s: State, established: bool, now: int) {
    && (s.pending.Some? && !s.pending.value.responseReceived && s.pending.value.deadline.Some? ==>
          now < s.pending.value.deadline.value)
    && (established ==> s.pending.Some? || (s.confirmed && s.operations == []))
  }

  lemma SettlingSettles(s: State, inbox: Inbox, established: bool, now: int)
    requires !s.closed && Play(s, SettleActions(inbox, established, now)).raised.None?
    ensures Settled(Play(s, SettleActions(inbox, established, now)).state, established, now)
    ensures inbox == Inbox([], []) ==>
      Play(s, SettleActions(inbox, established, now)).state == Advance(s, established).state
  {
    var drain, rest := DrainActions(inbox), [DoAdvance(established), DoCheckTimeout(now)];
    PlayConcat(s, drain, rest);
    PlayHears(s, drain);
    var drained := Play(s, drain).state;
    assert rest == [DoAdvance(established)] + [DoCheckTimeout(now)];
    PlayConcat(drained, [DoAdvance(established)], [DoCheckTimeout(now)]);
    PlayOne(drained, DoAdvance(established));
    PlayOne(Advance(drained, established).state, DoCheckTimeout(now));
    if inbox == Inbox([], []) {
      assert drain == [];
    }
  }

  // ---------- Bytes in ----------

  /** The last offer of a pass: Transport has emptied the buffer or stops taking. */
  predicate LastOffer(a: ReceiveAnswer, offered: seq<Byte>, left: seq<Byte>, failed: bool) {
    && a.consumed <= |offered| && left == offered[a.consumed..]
    && (left == [] || a.status != StatusOk)
    && (failed <==> a.status !in {StatusOk, StatusNotReady, StatusCapacityExhausted})
  }

  /** Transport was offered what was left of `buffered` until it took everything, or would not take more. */
  ghost predicate OfferedUntil(buffered: seq<Byte>, answer: (nat, seq<Byte>) -> ReceiveAnswer, left: seq<Byte>,
      failed: bool)
  {
    exists i: nat, taken: nat ::
      taken <= |buffered| && LastOffer(answer(i, buffered[taken..]), buffered[taken..], left, failed)
  }

  /**
   All data read is appended before the first offer; what Transport takes leaves the buffer at the front, and nothing
   is lost or repeated.
   */
  ghost predicate TakesIn(before: Link, after: Link, data: seq<Byte>, answer: (nat, seq<Byte>) -> ReceiveAnswer,
      failed: bool)
  {
    var buffered := before.incoming + data;
    && after.received == before.received + data
    && after.consumed + after.incoming == before.consumed + buffered
    && answer(0, buffered).consumed <= |buffered|
    && before.consumed + buffered[..answer(0, buffered).consumed] <= after.consumed
    && OfferedUntil(buffered, answer, after.incoming, failed)
  }

  lemma OneOffer(s: State, a: ReceiveAnswer)
    requires FairAnswer(a, s.link.incoming)
    ensures var o := Offer(s, a);
      && o.state == s.(link := s.link.(incoming := s.link.incoming[a.consumed..],
                                       consumed := s.link.consumed + s.link.incoming[..a.consumed]))
      && o.raised == if a.status in {StatusOk, StatusNotReady, StatusCapacityExhausted} then None
                     else Some(ReceiveFailed)
  {
  }

  /** Only the buffer and what was consumed change. */
  predicate OnlyOffers(s: State, t: State) {
    t == s.(link := s.link.(incoming := t.link.incoming, consumed := t.link.consumed))
  }

  lemma LeftOfLeft(buffered: seq<Byte>, k: nat, n: nat)
    requires k <= |buffered| && n <= |buffered| - k
    ensures buffered[k..][n..] == buffered[k + n..]
  {
  }

  lemma TakenJoins(consumed: seq<Byte>, offered: seq<Byte>, n: nat)
    requires n <= |offered|
    ensures consumed + offered[..n] + offered[n..] == consumed + offered
  {
    assert offered == offered[..n] + offered[n..];
  }

  lemma {:induction false} OffersTakeIn(s: State, answer: (nat, seq<Byte>) -> ReceiveAnswer, i: nat,
      buffered: seq<Byte>, taken: nat)
    requires FairTransport(answer) && taken <= |buffered| && s.link.incoming == buffered[taken..]
    ensures var o := OfferAll(s, answer, i);
      && OnlyOffers(s, o.state)
      && o.state.link.consumed + o.state.link.incoming == s.link.consumed + s.link.incoming
      && answer(i, s.link.incoming).consumed <= |s.link.incoming|
      && s.link.consumed + s.link.incoming[..answer(i, s.link.incoming).consumed] <= o.state.link.consumed
      && OfferedUntil(buffered, answer, o.state.link.incoming, o.raised.Some?)
      && (o.raised.Some? ==> o.raised == Some(ReceiveFailed))
    decreases |s.link.incoming|
  {
    var a := answer(i, s.link.incoming);
    assert FairAnswer(a, s.link.incoming);
    var o := Offer(s, a);
    OneOffer(s, a);
    TakenJoins(s.link.consumed, s.link.incoming, a.consumed);
    if a.status != StatusOk || o.state.link.incoming == [] {
      assert LastOffer(a, buffered[taken..], o.state.link.incoming, o.raised.Some?);
    } else {
      LeftOfLeft(buffered, taken, a.consumed);
      OffersTakeIn(o.state, answer, i + 1, buffered, taken + a.consumed);
    }
  }

  /** What was read and offered. */
  ghost function Offered(s: State, answer: (nat, seq<Byte>) -> ReceiveAnswer, e: Environment): Outcome
    requires FairTransport(answer) && e.data.Some?
  {
    OfferAll(s.(link := ReadBytes(s.link, e.data.value)), answer, 0)
  }

  lemma OfferingTakesIn(s: State, answer: (nat, seq<Byte>) -> ReceiveAnswer, e: Environment)
    requires FairTransport(answer) && e.data.Some?
    ensures var o := Offered(s, answer, e);
      && TakesIn(s.link, o.state.link, e.data.value, answer, o.raised.Some?)
      && o.state == s.(link := o.state.link)
      && SameOutput(s.link, o.state.link)
      && (o.raised.Some? ==> o.raised == Some(ReceiveFailed))
  {
    var read := s.(link := ReadBytes(s.link, e.data.value));
    assert read.link.incoming[0..] == read.link.incoming;
    OffersTakeIn(read, answer, 0, read.link.incoming, 0);
  }

  lemma OfferingStaysOpen(s: State, answer: (nat, seq<Byte>) -> ReceiveAnswer, e: Environment)
    requires FairTransport(answer) && e.data.Some? && !s.closed
    ensures !Offered(s, answer, e).state.closed
    ensures Step(s, DoRead(e.data.value)).state == s.(link := ReadBytes(s.link, e.data.value))
  {
    OfferingTakesIn(s, answer, e);
  }

  // ---------- Bytes out ----------

  predicate SameOutput(before: Link, after: Link) {
    && after.output == before.output && after.offset == before.offset
    && after.written == before.written && after.committed == before.committed
  }

  predicate SameInput(before: Link, after: Link) {
    && after.incoming == before.incoming && after.received == before.received && after.consumed == before.consumed
  }

  /**
   The pending frame, or else the one Transport offers, goes out by exactly the bytes the port accepts, and a whole
   frame is committed. A port that reports nonsense gets nothing more, and the frame stays pending.
   */
  predicate PutsOut(before: Link, after: Link, offered: Option<seq<Byte>>, accepted: Option<int>,
      commit: Option<TransportStatus>, raised: Option<Error>)
  {
    var frame := if before.output.Some? then before.output else offered;
    var from := if before.output.Some? then before.offset else 0;
    if frame.None? then
      && after.output.None? && after.written == before.written && after.committed == before.committed
      && raised != Some(WriteFailed) && raised != Some(CommitFailed)
    else if accepted.None? || accepted.value < 0 || |frame.value| < from + accepted.value then
      && after.output == frame && after.offset == from
      && after.written == before.written && after.committed == before.committed
      && raised == Some(WriteFailed)
    else
      var to := from + accepted.value;
      && after.written == before.written + frame.value[from..to]
      && raised != Some(WriteFailed)
      && if to < |frame.value| then
           && after.output == frame && after.offset == to && after.committed == before.committed
           && raised != Some(CommitFailed)
         else
           && after.output.None? && after.offset == 0 && after.committed == before.committed + frame.value
           && (raised == Some(CommitFailed) <==> commit != Some(StatusOk) && commit != Some(StatusNotReady))
  }

  /** A write changes the output side of the link only. */
  ghost predicate Writes(s: State, e: Environment, o: Outcome) {
    && PutsOut(s.link, o.state.link, e.frame, e.written, e.commit, o.raised) && SameInput(s.link, o.state.link)
    && o.state == s.(link := o.state.link)
    && (o.raised.Some? ==> o.raised.value in {WriteFailed, CommitFailed})
  }

  lemma AcceptedBytesGoOut(s: State, l: Link, e: Environment)
    requires l == LoadOutput(s.link, e.frame) && AcceptableWrite(l, e.written)
    ensures Writes(s, e, WriteOutput(s, e.frame, e.written, e.commit))
  {
    var to := l.offset + e.written.value;
    var sent := SendOutput(l, e.written.value);
    assert sent.written == s.link.written + l.output.value[l.offset..to];
    if to < |l.output.value| {
      assert sent.output == l.output && sent.offset == to && sent.committed == s.link.committed;
    } else {
      assert sent.output.None? && sent.offset == 0 && sent.committed == s.link.committed + l.output.value;
    }
  }

  lemma WritingPutsOut(s: State, e: Environment)
    ensures Writes(s, e, WriteOutput(s, e.frame, e.written, e.commit))
  {
    var l := LoadOutput(s.link, e.frame);
    if AcceptableWrite(l, e.written) {
      AcceptedBytesGoOut(s, l, e);
    }
  }

  // ---------- The whole pass ----------

  /** Up to the point where the output is serviced: the first half, the submission, and the processing it causes. */
  ghost function BeforeWriting(s: State, e: Environment): Outcome {
    var first := Play(s, FirstHalf(e));
    if first.raised.Some? then first
    else Play(first.state, [DoSubmit(e.submitEstablished, e.submitStatus)]
                           + if Submits(first.state, e) then [DoProcess(e.secondProcess)] else [])
  }

  /** A pass writes unless it raises before. */
  ghost predicate ReachesWriting(s: State, answer: (nat, seq<Byte>) -> ReceiveAnswer, e: Environment)
    requires FairTransport(answer)
  {
    && !s.closed && e.data.Some? && Offered(s, answer, e).raised.None?
    && BeforeWriting(Offered(s, answer, e).state, e).raised.None?
  }

  lemma SecondHalfInPieces(s: State, e: Environment)
    requires Play(s, FirstHalf(e)).raised.None?
    ensures var first, before := Play(s, FirstHalf(e)).state, BeforeWriting(s, e);
      Play(first, SecondHalf(e, Submits(first, e))) ==
        if before.raised.Some? then before
        else
          var written := Step(before.state, DoWrite(e.frame, e.written, e.commit));
          if written.raised.Some? then written
          else Play(written.state, SettleActions(e.secondInbox, e.secondEstablished, e.secondNow))
  {
    var first := Play(s, FirstHalf(e)).state;
    var submission := [DoSubmit(e.submitEstablished, e.submitStatus)]
      + if Submits(first, e) then [DoProcess(e.secondProcess)] else [];
    var write := [DoWrite(e.frame, e.written, e.commit)];
    var settle := SettleActions(e.secondInbox, e.secondEstablished, e.secondNow);
    assert SecondHalf(e, Submits(first, e)) == submission + (write + settle);
    PlayConcat(first, submission, write + settle);
    PlayConcat(BeforeWriting(s, e).state, write, settle);
    PlayOne(BeforeWriting(s, e).state, write[0]);
  }

  lemma FirstHalfHears(s: State, e: Environment)
    requires !s.closed
    ensures Hears(s, Told(e.firstInbox), Play(s, FirstHalf(e)))
    ensures Play(s, FirstHalf(e)).raised.None? ==> Benign(e.firstInbox) && e.firstProcess != StatusDeliveryFailed
  {
    var process, settle := DoProcess(e.firstProcess), SettleActions(e.firstInbox, e.firstEstablished, e.firstNow);
    assert FirstHalf(e) == [process] + settle;
    PlayConcat(s, [process], settle);
    PlayOne(s, process);
    StepHears(s, process);
    var first := Step(s, process);
    if first.raised.Some? {
      HearingStops(s, first, [], Told(e.firstInbox));
    } else {
      SettlingHears(first.state, e.firstInbox, e.firstEstablished, e.firstNow);
      HearingChains(s, first, Play(first.state, settle), [], Told(e.firstInbox));
    }
    assert [] + Told(e.firstInbox) == Told(e.firstInbox);
  }

  lemma BeforeWritingHears(s: State, e: Environment)
    requires !s.closed
    ensures Hears(s, Told(e.firstInbox), BeforeWriting(s, e))
    ensures BeforeWriting(s, e).raised.None? ==> Benign(e.firstInbox) && e.firstProcess != StatusDeliveryFailed
  {
    FirstHalfHears(s, e);
    var first := Play(s, FirstHalf(e));
    if first.raised.None? {
      var submission := [DoSubmit(e.submitEstablished, e.submitStatus)]
        + if Submits(first.state, e) then [DoProcess(e.secondProcess)] else [];
      PlayHears(first.state, submission);
      ToldByNobody(DoSubmit(e.submitEstablished, e.submitStatus), DoProcess(e.secondProcess));
      assert submission == if Submits(first.state, e)
        then [DoSubmit(e.submitEstablished, e.submitStatus), DoProcess(e.secondProcess)]
        else [DoSubmit(e.submitEstablished, e.submitStatus)];
      HearingChains(s, first, BeforeWriting(s, e), Told(e.firstInbox), []);
      assert Told(e.firstInbox) + [] == Told(e.firstInbox);
    }
  }

  lemma AfterWritingHears(s: State, e: Environment)
    requires !s.closed && BeforeWriting(s, e).raised.None?
    ensures var w := WriteOutput(BeforeWriting(s, e).state, e.frame, e.written, e.commit);
      !w.state.closed && w.state.log == BeforeWriting(s, e).state.log
      && Hears(w.state, Told(e.secondInbox),
         Play(w.state, SettleActions(e.secondInbox, e.secondEstablished, e.secondNow)))
  {
    BeforeWritingHears(s, e);
    WritingPutsOut(BeforeWriting(s, e).state, e);
    var w := WriteOutput(BeforeWriting(s, e).state, e.frame, e.written, e.commit);
    SettlingHears(w.state, e.secondInbox, e.secondEstablished, e.secondNow);
  }

  /** A pass in four pieces: offering, everything up to the write, the write, and the rest. */
  lemma PassInPieces(s: State, answer: (nat, seq<Byte>) -> ReceiveAnswer, e: Environment)
    requires FairTransport(answer) && !s.closed && e.data.Some?
    ensures var offered := Offered(s, answer, e); var before := BeforeWriting(offered.state, e);
      ServicePass(s, answer, e) ==
        if offered.raised.Some? then offered
        else if before.raised.Some? then before
        else
          var written := WriteOutput(before.state, e.frame, e.written, e.commit);
          if written.raised.Some? then written
          else Play(written.state, SettleActions(e.secondInbox, e.secondEstablished, e.secondNow))
  {
    var offered := Offered(s, answer, e);
    OfferingStaysOpen(s, answer, e);
    if offered.raised.None? {
      if Play(offered.state, FirstHalf(e)).raised.None? {
        BeforeWritingHears(offered.state, e);
        SecondHalfInPieces(offered.state, e);
      }
    }
  }

  /** The serial side of a pass. */
  ghost predicate Exchanges(before: Link, o: Outcome, answer: (nat, seq<Byte>) -> ReceiveAnswer, e: Environment,
      wrote: bool)
    requires e.data.Some?
  {
    && TakesIn(before, o.state.link, e.data.value, answer, o.raised == Some(ReceiveFailed))
    && if o.raised == Some(SessionLost) then
         o.state.link.output.None? && o.state.link.written == [] && o.state.link.committed == []
       else if wrote then PutsOut(before, o.state.link, e.frame, e.written, e.commit, o.raised)
       else SameOutput(before, o.state.link) && o.raised.Some? && o.raised.value !in {WriteFailed, CommitFailed}
  }

  lemma TakesInSame(before: Link, a: Link, b: Link, data: seq<Byte>, answer: (nat, seq<Byte>) -> ReceiveAnswer,
      failed: bool)
    requires TakesIn(before, a, data, answer, failed) && SameInput(a, b)
    ensures TakesIn(before, b, data, answer, failed)
  {
  }

  lemma PutsOutSame(a: Link, b: Link, c: Link, d: Link, e: Environment, raised: Option<Error>)
    requires PutsOut(b, c, e.frame, e.written, e.commit, None) && SameOutput(a, b) && SameOutput(c, d)
    requires raised.Some? ==> !IsSerialError(raised.value)
    ensures PutsOut(a, d, e.frame, e.written, e.commit, raised)
  {
  }

  lemma PassExchanges(s: State, answer: (nat, seq<Byte>) -> ReceiveAnswer, e: Environment)
    requires FairTransport(answer) && !s.closed && e.data.Some?
    ensures Exchanges(s.link, ServicePass(s, answer, e), answer, e, ReachesWriting(s, answer, e))
  {
    var offered := Offered(s, answer, e);
    var before := BeforeWriting(offered.state, e);
    var o := ServicePass(s, answer, e);
    PassInPieces(s, answer, e);
    OfferingTakesIn(s, answer, e);
    BeforeWritingHears(offered.state, e);
    if offered.raised.None? {
      TakesInSame(s.link, offered.state.link, before.state.link, e.data.value, answer, false);
      if before.raised.None? {
        var written := WriteOutput(before.state, e.frame, e.written, e.commit);
        WritingPutsOut(before.state, e);
        TakesInSame(s.link, before.state.link, written.state.link, e.data.value, answer, false);
        if written.raised.None? {
          AfterWritingHears(offered.state, e);
          TakesInSame(s.link, written.state.link, o.state.link, e.data.value, answer, false);
          if o.raised != Some(SessionLost) {
            PutsOutSame(s.link, before.state.link, written.state.link, o.state.link, e, o.raised);
          }
        }
      }
    }
  }

  /** What a pass hears: everything Transport has, in order, or a part of it up to where it raises. */
  ghost predicate Listens(before: seq<Entry>, o: Outcome, e: Environment, wrote: bool) {
    && before <= o.state.log
    && HeardIn(o.state.log) <= HeardIn(before) + (Told(e.firstInbox) + Told(e.secondInbox))
    && (!wrote ==> HeardIn(o.state.log) <= HeardIn(before) + Told(e.firstInbox))
    && (o.raised.None? ==>
          && HeardIn(o.state.log) == HeardIn(before) + (Told(e.firstInbox) + Told(e.secondInbox))
          && Benign(e.firstInbox) && Benign(e.secondInbox) && e.firstProcess != StatusDeliveryFailed)
  }

  lemma PrefixOfMore(heard: seq<Heard>, before: seq<Heard>, a: seq<Heard>, b: seq<Heard>)
    requires heard <= before + a
    ensures heard <= before + (a + b)
  {
    assert before + a + b == before + (a + b);
  }

  lemma PrefixOfBoth(heard: seq<Heard>, middle: seq<Heard>, before: seq<Heard>, a: seq<Heard>, b: seq<Heard>)
    requires middle == before + a && heard <= middle + b
    ensures heard <= before + (a + b) && (heard == middle + b ==> heard == before + (a + b))
  {
    assert before + a + b == before + (a + b);
  }

  lemma PassListens(s: State, answer: (nat, seq<Byte>) -> ReceiveAnswer, e: Environment)
    requires FairTransport(answer) && !s.closed && e.data.Some?
    ensures Listens(s.log, ServicePass(s, answer, e), e, ReachesWriting(s, answer, e))
    ensures !ServicePass(s, answer, e).state.closed
  {
    var offered := Offered(s, answer, e);
    var before := BeforeWriting(offered.state, e);
    var o := ServicePass(s, answer, e);
    PassInPieces(s, answer, e);
    OfferingTakesIn(s, answer, e);
    HeardNothing(s.log, Told(e.firstInbox));
    if offered.raised.Some? {
      PrefixOfMore(HeardIn(s.log), HeardIn(s.log), Told(e.firstInbox), Told(e.secondInbox));
    } else {
      BeforeWritingHears(offered.state, e);
      PrefixOfMore(HeardIn(before.state.log), HeardIn(s.log), Told(e.firstInbox), Told(e.secondInbox));
      if before.raised.None? {
        var written := WriteOutput(before.state, e.frame, e.written, e.commit);
        AfterWritingHears(offered.state, e);
        if written.raised.None? {
          SettlingHears(written.state, e.secondInbox, e.secondEstablished, e.secondNow);
          PrefixOfBoth(
            HeardIn(o.state.log), HeardIn(before.state.log), HeardIn(s.log), Told(e.firstInbox), Told(e.secondInbox));
        }
      }
    }
  }

  lemma PassSettles(s: State, answer: (nat, seq<Byte>) -> ReceiveAnswer, e: Environment)
    requires FairTransport(answer) && !s.closed && e.data.Some?
    ensures ServicePass(s, answer, e).raised.None? ==>
      Settled(ServicePass(s, answer, e).state, e.secondEstablished, e.secondNow)
  {
    var offered := Offered(s, answer, e);
    PassInPieces(s, answer, e);
    OfferingTakesIn(s, answer, e);
    if ServicePass(s, answer, e).raised.None? {
      AfterWritingHears(offered.state, e);
      var written := WriteOutput(BeforeWriting(offered.state, e).state, e.frame, e.written, e.commit).state;
      SettlingSettles(written, e.secondInbox, e.secondEstablished, e.secondNow);
    }
  }

  // ---------- A pass in which Transport has nothing to say at first ----------

  /** The operation whose message is next: the pending one, or discovery, or the first in the queue. */
  function Due(s: State, established: bool): Option<Operation> {
    if s.pending.Some? then s.pending
    else if !established then None
    else if !s.confirmed then Some(NewOperation(Request(Discovery, None, None), [SystemInfoRequest], None))
    else if s.operations != [] then Some(s.operations[0])
    else None
  }

  /** Whether its message may go out: one at a time, and in a confirmed session unless it is discovery. */
  predicate MaySend(s: State, op: Operation) {
    !s.deliveryPending && op.nextMessage < |op.messages| && (op.request.kind == Discovery || s.confirmed)
  }

  predicate IsOverdue(s: State, now: int) {
    && s.pending.Some? && !s.pending.value.responseReceived && s.pending.value.deadline.Some?
    && s.pending.value.deadline.value <= now
  }

  lemma QuietFirstHalf(s: State, e: Environment)
    requires !s.closed && e.firstInbox == Inbox([], []) && Play(s, FirstHalf(e)).raised.None?
    ensures Play(s, FirstHalf(e)).state == Advance(s, e.firstEstablished).state
    ensures Settled(Play(s, FirstHalf(e)).state, e.firstEstablished, e.firstNow)
  {
    var process, settle := DoProcess(e.firstProcess), SettleActions(e.firstInbox, e.firstEstablished, e.firstNow);
    assert FirstHalf(e) == [process] + settle;
    PlayConcat(s, [process], settle);
    PlayOne(s, process);
    SettlingSettles(s, e.firstInbox, e.firstEstablished, e.firstNow);
  }

  lemma DueIsPending(s: State, established: bool)
    requires Advance(s, established).raised.None?
    ensures var t := Advance(s, established).state;
      t.pending == Due(s, established) && t.deliveryPending == s.deliveryPending && t.confirmed == s.confirmed
      && t.log == s.log && t.closed == s.closed
  {
  }

  lemma AdvancingIsFine(s: State, established: bool)
    ensures Advance(s, established).raised.None?
  {
  }

  lemma SubmissionGoesOut(s: State, e: Environment)
    requires !s.closed && s.pending.Some? && MaySend(s, s.pending.value)
    requires e.submitEstablished && e.submitStatus == StatusOk
    ensures var op, o := s.pending.value, Play(s, [DoSubmit(true, StatusOk), DoProcess(e.secondProcess)]);
      && s.log <= o.state.log && |s.log| < |o.state.log|
      && o.state.log[|s.log|] == Submitted(op.request, op.messages[op.nextMessage])
      && (o.raised.None? ==> e.secondProcess != StatusDeliveryFailed)
  {
    var actions := [DoSubmit(true, StatusOk), DoProcess(e.secondProcess)];
    var sent := Submit(s, true, StatusOk).state;
    assert actions == [actions[0]] + [actions[1]];
    PlayConcat(s, [actions[0]], [actions[1]]);
    PlayOne(s, actions[0]);
    PlayOne(sent, actions[1]);
  }

  /** When nothing was heard before, the message that is due goes out in this very pass. */
  predicate SendsDue(s: State, o: Outcome, e: Environment) {
    var due := Due(s, e.firstEstablished);
    due.Some? && MaySend(s, due.value) && e.submitEstablished && e.submitStatus == StatusOk && o.raised.None? ==>
      && |s.log| < |o.state.log|
      && o.state.log[|s.log|] == Submitted(due.value.request, due.value.messages[due.value.nextMessage])
      && e.secondProcess != StatusDeliveryFailed
  }

  lemma QuietPassSends(s: State, answer: (nat, seq<Byte>) -> ReceiveAnswer, e: Environment)
    requires FairTransport(answer) && !s.closed && e.data.Some? && e.firstInbox == Inbox([], [])
    ensures SendsDue(s, ServicePass(s, answer, e), e)
  {
    var offered, o := Offered(s, answer, e).state, ServicePass(s, answer, e);
    PassInPieces(s, answer, e);
    OfferingTakesIn(s, answer, e);
    if o.raised.None? && e.submitEstablished && e.submitStatus == StatusOk {
      QuietFirstHalf(offered, e);
      AdvancingIsFine(offered, e.firstEstablished);
      DueIsPending(offered, e.firstEstablished);
      var first := Play(offered, FirstHalf(e)).state;
      if first.pending.Some? && MaySend(first, first.pending.value) {
        SubmissionGoesOut(first, e);
        AfterWritingHears(offered, e);
        assert [DoSubmit(true, StatusOk)] + [DoProcess(e.secondProcess)]
            == [DoSubmit(true, StatusOk), DoProcess(e.secondProcess)];
      }
    }
  }

  lemma OverdueBeforeRaises(s: State, answer: (nat, seq<Byte>) -> ReceiveAnswer, e: Environment)
    requires FairTransport(answer) && !s.closed && e.data.Some? && e.firstInbox == Inbox([], [])
    requires IsOverdue(s, e.firstNow)
    ensures ServicePass(s, answer, e).raised.Some?
  {
    var offered := Offered(s, answer, e);
    PassInPieces(s, answer, e);
    OfferingTakesIn(s, answer, e);
    if offered.raised.None? && Play(offered.state, FirstHalf(e)).raised.None? {
      QuietFirstHalf(offered.state, e);
    }
  }

  lemma SubmissionKeepsDeadline(s: State, e: Environment, now: int)
    requires !s.closed && IsOverdue(s, now)
    ensures var o := Play(s, [DoSubmit(e.submitEstablished, e.submitStatus)]
                             + if Submits(s, e) then [DoProcess(e.secondProcess)] else []);
      o.raised.None? ==> IsOverdue(o.state, now)
  {
    var submission := [DoSubmit(e.submitEstablished, e.submitStatus)];
    var again := if Submits(s, e) then [DoProcess(e.secondProcess)] else [];
    PlayConcat(s, submission, again);
    PlayOne(s, submission[0]);
    var sent := Step(s, submission[0]);
    if sent.raised.None? && again != [] {
      PlayOne(sent.state, again[0]);
    }
  }

  lemma OverdueAfterRaises(s: State, answer: (nat, seq<Byte>) -> ReceiveAnswer, e: Environment)
    requires FairTransport(answer) && !s.closed && e.data.Some?
    requires e.firstInbox == Inbox([], []) && e.secondInbox == Inbox([], []) && IsOverdue(s, e.secondNow)
    ensures ServicePass(s, answer, e).raised.Some?
  {
    var offered := Offered(s, answer, e).state;
    PassInPieces(s, answer, e);
    OfferingTakesIn(s, answer, e);
    if ServicePass(s, answer, e).raised.None? {
      QuietFirstHalf(offered, e);
      SubmissionKeepsDeadline(offered, e, e.secondNow);
      AfterWritingHears(offered, e);
      WritingPutsOut(BeforeWriting(offered, e).state, e);
      var written := WriteOutput(BeforeWriting(offered, e).state, e.frame, e.written, e.commit).state;
      SettlingSettles(written, e.secondInbox, e.secondEstablished, e.secondNow);
    }
  }

  /** All of it together. */
  lemma PassAchieves(s: State, answer: (nat, seq<Byte>) -> ReceiveAnswer, e: Environment)
    requires FairTransport(answer) && !s.closed && e.data.Some?
    ensures var o, wrote := ServicePass(s, answer, e), ReachesWriting(s, answer, e);
      && Exchanges(s.link, o, answer, e, wrote) && Listens(s.log, o, e, wrote)
      && (o.raised.None? ==> Settled(o.state, e.secondEstablished, e.secondNow))
      && (e.firstInbox == Inbox([], []) ==> SendsDue(s, o, e))
      && (e.firstInbox == Inbox([], []) && IsOverdue(s, e.firstNow) ==> o.raised.Some?)
      && (e.firstInbox == e.secondInbox == Inbox([], []) && IsOverdue(s, e.secondNow) ==> o.raised.Some?)
  {
    PassExchanges(s, answer, e);
    PassListens(s, answer, e);
    PassSettles(s, answer, e);
    if e.firstInbox == Inbox([], []) {
      QuietPassSends(s, answer, e);
      if IsOverdue(s, e.firstNow) {
        OverdueBeforeRaises(s, answer, e);
      }
      if e.secondInbox == Inbox([], []) && IsOverdue(s, e.secondNow) {
        OverdueAfterRaises(s, answer, e);
      }
    }
  }
}
