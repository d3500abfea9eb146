/** One service call of the connection, as a composition of the indivisible steps of `Workflow`. */
module WorkflowService {
  import opened Basics
  import opened Workflow

  /** Play actions in order, stopping at the first raised error. */
  function Play(s: State, actions: seq<Action>): Outcome
    decreases |actions|
  {
    if actions == [] then Done(s)
    else
      var o := Step(s, actions[0]);
      if o.raised.Some? then o else Play(o.state, actions[1..])
  }

  lemma {:induction false} PlayConcat(s: State, a: seq<Action>, b: seq<Action>)
    ensures Play(s, a + b) == if Play(s, a).raised.Some? then Play(s, a) else Play(Play(s, a).state, b)
    decreases |a|
  {
    if a == [] {
      assert a + b == b;
    } else {
      assert (a + b)[1..] == a[1..] + b;
      PlayConcat(Step(s, a[0]).state, a[1..], b);
    }
  }

  lemma PlayOne(s: State, a: Action)
    ensures Play(s, [a]) == Step(s, a)
  {
  }

  lemma RunOne(s: State, actions: seq<Action>, a: Action)
    ensures Run(s, actions + [a]) == Step(Run(s, actions), a).state
  {
    assert (actions + [a])[..|actions|] == actions;
  }

  /** What Transport may answer when offered bytes: it takes a prefix, and an OK answer makes progress. */
  predicate FairAnswer(a: ReceiveAnswer, offered: seq<Byte>) {
    a.consumed <= |offered| && (a.status == StatusOk && offered != [] ==> a.consumed > 0)
  }

  ghost predicate FairTransport(answer: (nat, seq<Byte>) -> ReceiveAnswer) {
    forall i: nat, offered: seq<Byte> :: FairAnswer(answer(i, offered), offered)
  }

  /** `_offer_received`: at least one offer, then more until the buffer is empty or Transport stops taking. */
  ghost function OfferAll(s: State, answer: (nat, seq<Byte>) -> ReceiveAnswer, i: nat): Outcome
    requires FairTransport(answer)
    decreases |s.link.incoming|
  {
    var a := answer(i, s.link.incoming);
    assert FairAnswer(a, s.link.incoming);
    var o := Offer(s, a);
    if a.status != StatusOk || o.state.link.incoming == [] then o else OfferAll(o.state, answer, i + 1)
  }

  function EventActions(events: seq<TransportEvent>): seq<Action> {
    seq(|events|, i requires 0 <= i < |events| => DoEvent(events[i]))
  }

  function MessageActions(messages: seq<Inbound>): seq<Action> {
    seq(|messages|, i requires 0 <= i < |messages| => DoMessage(messages[i]))
  }

  /** What Transport has ready during one drain: its events, then its Application messages. */
  datatype Inbox = Inbox(events: seq<TransportEvent>, messages: seq<Inbound>)

  function DrainActions(inbox: Inbox): seq<Action> {
    EventActions(inbox.events) + MessageActions(inbox.messages)
  }

  /** Everything the environment decides during one service pass; no data means that the port could not be read. */
  datatype Environment = Environment(
    data: Option<seq<Byte>>,
    firstProcess: TransportStatus,
    firstInbox: Inbox,
    firstEstablished: bool,
    firstNow: int,
    submitEstablished: bool,
    submitStatus: TransportStatus,
    secondProcess: TransportStatus,
    frame: Option<seq<Byte>>,
    written: Option<int>,
    commit: Option<TransportStatus>,
    secondInbox: Inbox,
    secondEstablished: bool,
    secondNow: int)

  function FirstHalf(e: Environment): seq<Action> {
    [DoProcess(e.firstProcess)] + DrainActions(e.firstInbox)
      + [DoAdvance(e.firstEstablished), DoCheckTimeout(e.firstNow)]
  }

  predicate Submits(s: State, e: Environment) {
    CanSubmit(s, e.submitEstablished) && e.submitStatus == StatusOk
  }

  function SecondHalf(e: Environment, submitted: bool): seq<Action> {
    [DoSubmit(e.submitEstablished, e.submitStatus)]
    + (if submitted then [DoProcess(e.secondProcess)] else [])
    + [DoWrite(e.frame, e.written, e.commit)]
    + DrainActions(e.secondInbox) + [DoAdvance(e.secondEstablished), DoCheckTimeout(e.secondNow)]
  }

  /**
   One `service` call: read, offer, process, drain, advance, time out, submit, process, write, drain, advance, time
   out.
   */
  ghost function ServicePass(s: State, answer: (nat, seq<Byte>) -> ReceiveAnswer, e: Environment): Outcome
    requires FairTransport(answer)
  {
    if s.closed then Raise(s, ConnectionClosed)
    else if e.data.None? then Raise(s, ReadFailed)
    else
      var offered := OfferAll(Step(s, DoRead(e.data.value)).state, answer, 0);
      if offered.raised.Some? then offered
      else
        var first := Play(offered.state, FirstHalf(e));
        if first.raised.Some? then first else Play(first.state, SecondHalf(e, Submits(first.state, e)))
  }

  // ---------- A service pass is a piece of a run ----------

  lemma {:induction false} RunAppends(s: State, first: seq<Action>, rest: seq<Action>)
    ensures Run(s, first + rest) == Run(Run(s, first), rest)
    decreases |rest|
  {
    if rest == [] {
      assert first + rest == first;
    } else {
      var n := |rest| - 1;
      RunAppends(s, first, rest[..n]);
      assert (first + rest)[..|first| + n] == first + rest[..n];
    }
  }

  /** The actions that `Play` carries out: all of them, or those up to the first raised error. */
  function Played(s: State, actions: seq<Action>): seq<Action>
    decreases |actions|
  {
    if actions == [] then []
    else
      var o := Step(s, actions[0]);
      [actions[0]] + if o.raised.Some? then [] else Played(o.state, actions[1..])
  }

  lemma StepIsRun(s: State, a: Action)
    ensures Run(s, [a]) == Step(s, a).state
  {
    RunOne(s, [], a);
    assert [] + [a] == [a];
  }

  lemma {:induction false} PlayIsRun(s: State, actions: seq<Action>)
    ensures Play(s, actions).state == Run(s, Played(s, actions))
    decreases |actions|
  {
    if actions != [] {
      var o := Step(s, actions[0]);
      StepIsRun(s, actions[0]);
      if o.raised.Some? {
        assert Played(s, actions) == [actions[0]];
      } else {
        PlayIsRun(o.state, actions[1..]);
        RunAppends(s, [actions[0]], Played(o.state, actions[1..]));
      }
    }
  }

  lemma {:induction false} PlayedAreSome(s: State, actions: seq<Action>)
    ensures Played(s, actions) <= actions
    decreases |actions|
  {
    if actions != [] && Step(s, actions[0]).raised.None? {
      PlayedAreSome(Step(s, actions[0]).state, actions[1..]);
      assert actions == [actions[0]] + actions[1..];
    }
  }

  /** The offers that `OfferAll` makes. */
  ghost function OfferActions(s: State, answer: (nat, seq<Byte>) -> ReceiveAnswer, i: nat): seq<Action>
    requires FairTransport(answer)
    decreases |s.link.incoming|
  {
    var a := answer(i, s.link.incoming);
    assert FairAnswer(a, s.link.incoming);
    var o := Offer(s, a);
    [DoOffer(a)] + if a.status != StatusOk || o.state.link.incoming == [] then []
      else OfferActions(o.state, answer, i + 1)
  }

  lemma {:induction false} OffersAreRun(s: State, answer: (nat, seq<Byte>) -> ReceiveAnswer, i: nat)
    requires FairTransport(answer) && !s.closed
    ensures OfferAll(s, answer, i).state == Run(s, OfferActions(s, answer, i)) && !OfferAll(s, answer, i).state.closed
    decreases |s.link.incoming|
  {
    var a := answer(i, s.link.incoming);
    assert FairAnswer(a, s.link.incoming);
    var o := Offer(s, a);
    StepIsRun(s, DoOffer(a));
    if a.status == StatusOk && o.state.link.incoming != [] {
      OffersAreRun(o.state, answer, i + 1);
      RunAppends(s, [DoOffer(a)], OfferActions(o.state, answer, i + 1));
    } else {
      assert OfferActions(s, answer, i) == [DoOffer(a)];
    }
  }

  lemma {:induction false} OffersOnly(s: State, answer: (nat, seq<Byte>) -> ReceiveAnswer, i: nat)
    requires FairTransport(answer)
    ensures forall a :: a in OfferActions(s, answer, i) ==> a.DoOffer?
    decreases |s.link.incoming|
  {
    var a := answer(i, s.link.incoming);
    assert FairAnswer(a, s.link.incoming);
    var o := Offer(s, a);
    if a.status == StatusOk && o.state.link.incoming != [] {
      OffersOnly(o.state, answer, i + 1);
    }
  }

  /** One `service` call as its environment sees it: how Transport answers offers, and everything else it decides. */
  datatype Pass = Pass(answer: (nat, seq<Byte>) -> ReceiveAnswer, environment: Environment)

  /** The steps that a service pass takes from `s`. */
  ghost function PassActions(s: State, pass: Pass): seq<Action>
    requires FairTransport(pass.answer)
  {
    var e := pass.environment;
    if s.closed || e.data.None? then []
    else
      var read := Step(s, DoRead(e.data.value)).state;
      var offered := OfferAll(read, pass.answer, 0);
      var offers := [DoRead(e.data.value)] + OfferActions(read, pass.answer, 0);
      if offered.raised.Some? then offers
      else
        var first := Play(offered.state, FirstHalf(e));
        offers + Played(offered.state, FirstHalf(e))
        + if first.raised.Some? then [] else Played(first.state, SecondHalf(e, Submits(first.state, e)))
  }

  lemma OffersOfAPass(s: State, pass: Pass)
    requires FairTransport(pass.answer) && !s.closed && pass.environment.data.Some?
    ensures var read := Step(s, DoRead(pass.environment.data.value)).state;
      OfferAll(read, pass.answer, 0).state
      == Run(s, [DoRead(pass.environment.data.value)] + OfferActions(read, pass.answer, 0))
  {
    var a := DoRead(pass.environment.data.value);
    var read := Step(s, a).state;
    StepIsRun(s, a);
    OffersAreRun(read, pass.answer, 0);
    RunAppends(s, [a], OfferActions(read, pass.answer, 0));
  }

  lemma PassIsRun(s: State, pass: Pass)
    requires FairTransport(pass.answer)
    ensures ServicePass(s, pass.answer, pass.environment).state == Run(s, PassActions(s, pass))
  {
    var e := pass.environment;
    if !s.closed && e.data.Some? {
      OffersOfAPass(s, pass);
      var read := Step(s, DoRead(e.data.value)).state;
      var offered := OfferAll(read, pass.answer, 0);
      var offers := [DoRead(e.data.value)] + OfferActions(read, pass.answer, 0);
      if offered.raised.None? {
        var first, played := Play(offered.state, FirstHalf(e)), Played(offered.state, FirstHalf(e));
        PlayIsRun(offered.state, FirstHalf(e));
        RunAppends(s, offers, played);
        if first.raised.Some? {
          assert offers + played + [] == offers + played;
        } else {
          PlayIsRun(first.state, SecondHalf(e, Submits(first.state, e)));
          RunAppends(s, offers + played, Played(first.state, SecondHalf(e, Submits(first.state, e))));
        }
      }
    }
  }

  ghost predicate FairPasses(passes: seq<Pass>) {
    forall k :: 0 <= k < |passes| ==> FairTransport(passes[k].answer)
  }

  /** A caller that keeps calling `service`, whatever the calls raise. */
  ghost function AfterPasses(s: State, passes: seq<Pass>): State
    requires FairPasses(passes)
    decreases |passes|
  {
    if passes == [] then s
    else
      var last := passes[|passes| - 1];
      ServicePass(AfterPasses(s, passes[..|passes| - 1]), last.answer, last.environment).state
  }

  ghost function PassesActions(s: State, passes: seq<Pass>): seq<Action>
    requires FairPasses(passes)
    decreases |passes|
  {
    if passes == [] then []
    else
      var before := passes[..|passes| - 1];
      PassesActions(s, before) + PassActions(AfterPasses(s, before), passes[|passes| - 1])
  }

  /** Any number of service passes is a run. */
  lemma {:induction false} PassesAreRuns(s: State, passes: seq<Pass>)
    requires FairPasses(passes)
    ensures AfterPasses(s, passes) == Run(s, PassesActions(s, passes))
    decreases |passes|
  {
    if passes != [] {
      var before, last := passes[..|passes| - 1], passes[|passes| - 1];
      PassesAreRuns(s, before);
      PassIsRun(AfterPasses(s, before), last);
      RunAppends(s, PassesActions(s, before), PassActions(AfterPasses(s, before), last));
    }
  }
}
