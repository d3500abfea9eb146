/**
 The captured-run builder as the connection sees it: the connection is the one producer of ticks, and puts them one at
 a time; other producers submit anything else, `finalize` may come at any time, and the writer runs in between.
 */
module CaptureTicks {
  import opened Basics
  import opened CaptureStore
  import opened BatchWriter
  import opened RunBuilder
  import Safety = WorkflowSafety

  /** The connection's thread among the producers. */
  const CONNECTION: nat := 0

  predicate IsTick(item: Item) {
    item.Row? && item.record.Tick?
  }

  /** An event that is not the connection's: any but its own check and put, and no tick. */
  predicate Foreign(e: Event) {
    match e
    case Check(p, item) => p != CONNECTION && !IsTick(item)
    case Put(p) => p != CONNECTION
    case PutTimesOut(p) => p != CONNECTION
    case _ => true
  }

  // ---------- Ticks among queued items ----------

  function TicksIn(items: seq<Item>): seq<int> {
    TickNumbers(RowsOf(items))
  }

  lemma {:induction false} TickNumbersConcat(a: seq<Record>, b: seq<Record>)
    ensures TickNumbers(a + b) == TickNumbers(a) + TickNumbers(b)
    decreases |b|
  {
    if b == [] {
      assert a + b == a;
    } else {
      var n := |b| - 1;
      TickNumbersConcat(a, b[..n]);
      assert a + b == (a + b[..n]) + [b[n]];
      TickNumbersAppend(a + b[..n], b[n]);
    }
  }

  lemma TicksOfOne(item: Item)
    ensures TicksIn([item]) == if IsTick(item) then [item.record.result.tick as int] else []
  {
    RowsOfOne(item);
    if item.Row? {
      TickNumbersAppend([], item.record);
      assert [] + [item.record] == [item.record];
    }
  }

  lemma TicksAppend(items: seq<Item>, item: Item)
    ensures TicksIn(items + [item]) == TicksIn(items) + TicksIn([item])
  {
    RowsOfAppend(items, item);
    TickNumbersConcat(RowsOf(items), RowsOf([item]));
  }

  lemma TicksBehindAppend(items: seq<Item>, item: Item)
    ensures TicksIn(Behind(items + [item])) ==
      TicksIn(Behind(items)) + (if NoFinalize(items) then [] else TicksIn([item]))
  {
    BehindAppend(items, item);
    TickNumbersConcat(RowsOf(Behind(items)), RowsOf([item]));
    assert RowsOf(Behind(items)) + [] == RowsOf(Behind(items));
  }

  lemma TicksOfTail(items: seq<Item>)
    requires items != []
    ensures TicksIn(items) == TicksIn([items[0]]) + TicksIn(items[1..])
  {
    RowsOfOne(items[0]);
    TickNumbersConcat(RowsOf([items[0]]), RowsOf(items[1..]));
    assert RowsOf(items) == RowsOf([items[0]]) + RowsOf(items[1..]);
  }

  predicate IsSuffix(some: seq<int>, all: seq<int>) {
    |some| <= |all| && some == all[|all| - |some|..]
  }

  lemma SuffixOfLonger(some: seq<int>, head: seq<int>, tail: seq<int>)
    requires IsSuffix(some, tail)
    ensures IsSuffix(some, head + tail)
  {
  }

  /** The ticks behind the request are the last of all queued ticks. */
  lemma {:induction false} TicksBehindAreLast(items: seq<Item>)
    ensures IsSuffix(TicksIn(Behind(items)), TicksIn(items))
  {
    if items == [] {
      assert Behind(items) == [];
    } else {
      TicksOfTail(items);
      if items[0].Finalize? {
        assert Behind(items) == items[1..];
      } else {
        TicksBehindAreLast(items[1..]);
        assert Behind(items) == Behind(items[1..]);
      }
      SuffixOfLonger(TicksIn(Behind(items)), TicksIn([items[0]]), TicksIn(items[1..]));
    }
  }

  /** At most the last of `n` ticks is among the items. */
  predicate OneLate(items: seq<Item>, n: nat) {
    TicksIn(items) == [] || (n > 0 && TicksIn(items) == [n - 1])
  }

  /** No tick is behind the finalize request, or left over by a finished writer. */
  predicate OnTime(b: Builder) {
    TicksIn(Behind(b.queue)) == [] && (b.writer.mode.Finished? ==> TicksIn(b.queue) == [])
  }

  // ---------- The capture fits what the connection counts ----------

  /** A status of COMPLETE was written only by a writer that saw a complete store. */
  predicate HonestStatus(w: Writer) {
    w.mode.Finished? && w.store.status == Complete ==> LooksComplete(w.store)
  }

  /** Whether the connection is between the check and the put of a result. */
  ghost predicate Asking(b: Builder, n: nat, asked: Option<TickResult>) {
    if asked.Some? then
      && CONNECTION in b.checked && b.checked[CONNECTION] == Row(Tick(asked.value)) && asked.value.tick == n
      && OnTime(b)
    else CONNECTION !in b.checked
  }

  /** The ticks accepted are 0 up to `n` in order, and at most the last of them came too late for the writer. */
  ghost predicate Fits(b: Builder, n: nat, asked: Option<TickResult>) {
    && Sound(b)
    && TickNumbers(b.accepted) == Safety.Count(n)
    && Asking(b, n, asked)
    && (forall p :: p in b.checked && p != CONNECTION ==> !IsTick(b.checked[p]))
    && OneLate(Behind(b.queue), n) && (b.writer.mode.Finished? ==> OneLate(b.queue, n))
    && HonestStatus(b.writer)
  }

  lemma AcceptingIsOnTime(b: Builder)
    requires Sound(b) && b.accepting
    ensures OnTime(b) && NoFinalize(b.queue)
  {
    NothingBehind(b.queue);
  }

  /** Putting an item that is no tick changes no account of ticks. */
  lemma NoTickPut(b: Builder, item: Item)
    requires !IsTick(item)
    ensures TicksIn(b.queue + [item]) == TicksIn(b.queue)
    ensures TicksIn(Behind(b.queue + [item])) == TicksIn(Behind(b.queue))
    ensures TickNumbers(b.accepted + RowsOf([item])) == TickNumbers(b.accepted)
  {
    TicksBehindAppend(b.queue, item);
    TicksAppend(b.queue, item);
    TicksOfOne(item);
    TickNumbersConcat(b.accepted, RowsOf([item]));
  }

  lemma OtherPutFits(b: Builder, n: nat, asked: Option<TickResult>, p: nat)
    requires Fits(b, n, asked) && p != CONNECTION
    ensures Fits(PutPassed(b, p).0, n, asked) && (OnTime(b) ==> OnTime(PutPassed(b, p).0))
  {
    if PutPassed(b, p).1.Queued? {
      PutKeeps(b, p);
      NoTickPut(b, b.checked[p]);
    }
  }

  lemma ConnectionPutFits(b: Builder, n: nat, r: TickResult)
    requires Fits(b, n, Some(r)) && PutPassed(b, CONNECTION).1.Queued?
    ensures Fits(PutPassed(b, CONNECTION).0, n + 1, None) && n < b.writer.store.expected
    ensures b.accepting ==> OnTime(PutPassed(b, CONNECTION).0)
  {
    var item := Row(Tick(r));
    PutKeeps(b, CONNECTION);
    TicksBehindAppend(b.queue, item);
    TicksAppend(b.queue, item);
    TicksOfOne(item);
    TickNumbersConcat(b.accepted, RowsOf([item]));
    assert Safety.Count(n + 1) == Safety.Count(n) + [n];
    if b.accepting {
      AcceptingIsOnTime(PutPassed(b, CONNECTION).0);
    }
  }

  /** The check of a result passes only while the builder accepts. */
  lemma ConnectionCheckFits(b: Builder, n: nat, r: TickResult)
    requires Fits(b, n, None) && r.tick == n && PassCheck(b, CONNECTION, Row(Tick(r))).1.Passed?
    ensures Fits(PassCheck(b, CONNECTION, Row(Tick(r))).0, n, Some(r)) && b.accepting
  {
    AcceptingIsOnTime(b);
  }

  lemma GivingUpFits(b: Builder, n: nat, r: TickResult)
    requires Fits(b, n, Some(r)) && |b.queue| >= b.capacity
    ensures Fits(GiveUpPut(b, CONNECTION), n, None) && OnTime(GiveUpPut(b, CONNECTION))
  {
  }

  lemma FinalizeFits(b: Builder, n: nat, asked: Option<TickResult>)
    requires Fits(b, n, asked)
    ensures Fits(PutFinalize(b).0, n, asked) && (OnTime(b) ==> OnTime(PutFinalize(b).0))
  {
    if PutFinalize(b).1.Queued? {
      PutFinalizeKeeps(b);
      TicksBehindAppend(b.queue, Finalize(b.closing.value));
      TicksOfOne(Finalize(b.closing.value));
    }
  }

  lemma TurnIsHonest(w: Writer, a: Arrival)
    requires w.mode.Running?
    ensures HonestStatus(Step(w, a))
  {
  }

  /**
   What is behind the request stays behind it when the head of the queue is taken, and is all that a request leaves.
   */
  lemma TakingHeadTicks(items: seq<Item>)
    requires items != []
    ensures |TicksIn(Behind(items[1..]))| <= |TicksIn(Behind(items))|
    ensures forall n: nat :: OneLate(Behind(items), n) ==> OneLate(Behind(items[1..]), n)
    ensures items[0].Finalize? ==> Behind(items) == items[1..]
  {
    TicksBehindAreLast(items[1..]);
  }

  lemma TakenQueue(b: Builder, now: int)
    requires b.queue != [] && b.writer.mode.Running?
    ensures var t := TakeNext(b, now);
      && t == b.(queue := t.queue, writer := t.writer)
      && (t.queue == b.queue[1..] || (t.queue == [] && t.writer.mode.Failed?))
      && (t.writer.mode.Finished? ==> b.queue[0].Finalize?) && HonestStatus(t.writer)
  {
    OnlyFinalizeFinishes(b.writer, Taken(b.queue[0], now));
    TurnIsHonest(b.writer, Taken(b.queue[0], now));
  }

  lemma TakingFits(b: Builder, n: nat, asked: Option<TickResult>, now: int)
    requires Fits(b, n, asked)
    ensures Fits(TakeNext(b, now), n, asked) && (OnTime(b) ==> OnTime(TakeNext(b, now)))
  {
    if b.queue != [] && b.writer.mode.Running? {
      TakeNextKeeps(b, now);
      TakenQueue(b, now);
      TakingHeadTicks(b.queue);
      assert Behind([]) == [] && TicksIn([]) == [];
    }
  }

  lemma ExpiringFits(b: Builder, n: nat, asked: Option<TickResult>)
    requires Fits(b, n, asked)
    ensures Fits(ExpireWait(b), n, asked) && (OnTime(b) ==> OnTime(ExpireWait(b)))
  {
    if b.queue == [] && b.writer.mode.Running? && b.writer.startedAt.Some? {
      ExpireKeeps(b);
      OnlyFinalizeFinishes(b.writer, Expired);
      TurnIsHonest(b.writer, Expired);
    }
  }

  lemma EventFits(b: Builder, n: nat, asked: Option<TickResult>, e: Event)
    requires Fits(b, n, asked) && Foreign(e)
    ensures Fits(React(b, e), n, asked) && React(b, e).writer.store.expected == b.writer.store.expected
    ensures OnTime(b) ==> OnTime(React(b, e))
  {
    ReactKeeps(b, e);
    match e
    case Check(_, _) =>
    case Put(p) => OtherPutFits(b, n, asked, p);
    case PutTimesOut(_) =>
    case BeginFinalize(_) =>
    case QueueFinalize => FinalizeFits(b, n, asked);
    case WriterTakes(now) => TakingFits(b, n, asked, now);
    case WriterWaitExpires => ExpiringFits(b, n, asked);
  }

  /** Stopping acceptance with no result in between leaves none late, and nothing changes that later. */
  lemma StaysPrompt(b: Builder, n: nat, asked: Option<TickResult>, e: Event)
    requires Fits(b, n, asked) && Foreign(e) && (b.accepting || (asked.None? && OnTime(b)))
    requires !(e.BeginFinalize? && asked.Some?)
    ensures React(b, e).accepting || (asked.None? && OnTime(React(b, e)))
  {
    EventFits(b, n, asked, e);
    if b.accepting {
      AcceptingIsOnTime(b);
    }
  }

  ghost predicate AllForeign(events: seq<Event>) {
    forall e :: e in events ==> Foreign(e)
  }

  /** A capture to which no tick was submitted yet fits a connection that has counted nothing. */
  lemma {:induction false} NoTicksYet(expected: nat, batchSize: nat, capacity: nat, events: seq<Event>)
    requires batchSize > 0 && AllForeign(events)
    ensures var b := Perform(Opened(expected, batchSize, capacity), events);
      Fits(b, 0, None) && OnTime(b) && b.writer.store.expected == expected
    decreases |events|
  {
    if events == [] {
      OpenedIsSound(expected, batchSize, capacity);
    } else {
      var n := |events| - 1;
      assert events[n] in events && forall e :: e in events[..n] ==> e in events;
      NoTicksYet(expected, batchSize, capacity, events[..n]);
      EventFits(Perform(Opened(expected, batchSize, capacity), events[..n]), 0, None, events[n]);
    }
  }

  // ---------- What a finished writer has stored ----------

  lemma CountTaken(n: nat)
    ensures forall t: nat :: t in Safety.Count(n) <==> t in Below(n)
  {
    forall t: nat
      ensures t in Safety.Count(n) <==> t in Below(n)
    {
      if t < n {
        assert Safety.Count(n)[t] == t;
      }
    }
  }

  lemma BelowIsInjective(m: nat, n: nat)
    ensures Below(m) == Below(n) <==> m == n
  {
  }

  /** The ticks among the records taken are the first ones. */
  lemma TicksOfDone(b: Builder, n: nat, late: nat)
    requires NothingIsLost(b) && !b.writer.mode.Failed? && TickNumbers(b.accepted) == Safety.Count(n)
    requires late == |TicksIn(b.queue)|
    ensures late <= n && TickNumbers(b.accepted[..|b.writer.taken|]) == Safety.Count(n - late)
  {
    var done := b.accepted[..|b.writer.taken|];
    assert b.accepted == done + RowsOf(b.queue);
    TickNumbersConcat(done, RowsOf(b.queue));
    assert TickNumbers(done) == Safety.Count(n)[..n - late];
  }

  lemma TicksOfTaken(taken: seq<Stored>, done: seq<Record>, m: nat)
    requires WritesAll(taken, done) && TickNumbers(done) == Safety.Count(m)
    ensures TicksTaken(taken) == Below(m)
  {
    TakenTicksArrived(taken, done);
    CountTaken(m);
    forall t: nat
      ensures t in TicksTaken(taken) <==> t in Below(m)
    {
      assert t in TicksTaken(taken) <==> t in TickNumbers(done);
    }
  }

  /** A finished writer has taken the ticks accepted, except one that was late. */
  lemma FinishedTicks(b: Builder, n: nat, asked: Option<TickResult>)
    requires Fits(b, n, asked) && b.writer.mode.Finished?
    ensures |TicksIn(b.queue)| <= 1 && |TicksIn(b.queue)| <= n
    ensures TicksTaken(b.writer.taken) == Below(n - |TicksIn(b.queue)|)
  {
    TicksOfDone(b, n, |TicksIn(b.queue)|);
    TicksOfTaken(b.writer.taken, b.accepted[..|b.writer.taken|], n - |TicksIn(b.queue)|);
  }

  lemma StoredMetadata(w: Writer)
    requires Inv(w)
    ensures MetadataExact(w.store)
  {
    CommitsExactlyWithoutClash(w.store.expected, w.taken[..w.persisted]);
    assert MetadataExact(w.store.(status := InProgress));
  }

  lemma FinishedStore(w: Writer)
    requires Inv(w) && w.mode.Finished?
    ensures MetadataExact(w.store) && w.store.ticks.Keys == TicksTaken(w.taken)
  {
    StoreHoldsThePrefix(w);
    assert w.taken[..w.persisted] == w.taken;
    StoredMetadata(w);
    TicksAreTheKeys(w.store, w.taken);
  }

  /** Its store has those ticks, and a status of COMPLETE means that they are all there. */
  lemma FinishedStatus(b: Builder, n: nat, asked: Option<TickResult>)
    requires Fits(b, n, asked) && b.writer.mode.Finished? && b.writer.store.expected > 0
    ensures |TicksIn(b.queue)| <= 1 && |TicksIn(b.queue)| <= n && MetadataExact(b.writer.store)
    ensures b.writer.store.ticks.Keys == Below(n - |TicksIn(b.queue)|)
    ensures b.writer.store.status == Complete ==> n - |TicksIn(b.queue)| == b.writer.store.expected
    ensures LooksComplete(b.writer.store) <==> n - |TicksIn(b.queue)| == b.writer.store.expected
  {
    FinishedTicks(b, n, asked);
    FinishedStore(b.writer);
    CompleteMeansEveryTick(b.writer.store);
    BelowIsInjective(n - |TicksIn(b.queue)|, b.writer.store.expected);
  }

  // ---------- When the writer never fails ----------

  /** Communications without ordinals of their own, and a run that is finalised without asking for a status. */
  predicate Plain(e: Event) {
    match e
    case Check(_, item) => item.Row? && item.record.Communication? ==> item.record.ordinal.None?
    case BeginFinalize(requested) => requested.None?
    case _ => true
  }

  ghost predicate AllPlain(events: seq<Event>) {
    forall e :: e in events ==> Plain(e)
  }

  /** A writer that finished without a requested status chose it by looking at its store. */
  predicate ChoseStatus(w: Writer) {
    w.mode.Finished? ==> w.store.status == if LooksComplete(w.store) then Complete else Incomplete
  }

  predicate PlainItem(item: Item) {
    match item
    case Row(r) => r.Communication? ==> r.ordinal.None?
    case Finalize(requested) => requested.None?
    case Flush => true
  }

  ghost predicate Healthy(b: Builder) {
    && AllAutomatic(b.accepted) && !b.writer.mode.Failed? && NoClash(b.writer.taken) && ChoseStatus(b.writer)
    && (b.closing.Some? ==> b.closing.value.None?)
    && (forall i :: i in b.queue ==> PlainItem(i))
    && (forall p :: p in b.checked ==> PlainItem(b.checked[p]))
  }

  lemma PutIsHealthy(b: Builder, p: nat)
    requires Healthy(b)
    ensures Healthy(PutPassed(b, p).0)
  {
    if PutPassed(b, p).1.Queued? {
      RowsOfOne(b.checked[p]);
    }
  }

  /** The record taken next continues what was taken, so it clashes with nothing. */
  lemma NextRecordIsHarmless(b: Builder, n: nat)
    requires Sound(b) && TickNumbers(b.accepted) == Safety.Count(n) && Healthy(b)
    requires b.queue != [] && b.queue[0].Row? && b.writer.mode.Running?
    ensures var done, r := b.accepted[..|b.writer.taken|], b.queue[0].record;
      && WritesAll(b.writer.taken, done)
      && Distinct(TickNumbers(done + [r])) && (r.Communication? ==> r.ordinal.None?)
  {
    var k, r := |b.writer.taken|, b.queue[0].record;
    assert RowsOf(b.queue)[0] == r && b.accepted[k..][0] == r;
    assert b.accepted == (b.accepted[..k] + [r]) + b.accepted[k + 1..];
    TickNumbersConcat(b.accepted[..k] + [r], b.accepted[k + 1..]);
    var some, all := TickNumbers(b.accepted[..k] + [r]), Safety.Count(n);
    assert some == all[..|some|];
    assert PlainItem(b.queue[0]);
  }

  lemma FinalizeSucceeds(w: Writer, a: Arrival)
    requires Inv(w) && w.mode.Running? && NoClash(w.taken)
    requires a.Taken? && a.item == Finalize(None)
    ensures var t := Step(w, a); t.mode.Finished? && NoClash(t.taken) && ChoseStatus(t)
  {
    FlushedStore(w);
    StepTakes(w, a);
  }

  lemma HarmlessTurnSucceeds(w: Writer, a: Arrival, records: seq<Record>)
    requires Inv(w) && w.mode.Running? && NoClash(w.taken) && WritesAll(w.taken, records)
    requires !(a.Taken? && a.item.Finalize?)
    requires a.Taken? && a.item.Row? ==>
      Distinct(TickNumbers(records + [a.item.record])) && (a.item.record.Communication? ==> a.item.record.ordinal.None?)
    ensures var t := Step(w, a); !t.mode.Failed? && NoClash(t.taken) && ChoseStatus(t)
  {
    HarmlessTurn(w, a, records);
  }

  /** No turn of the writer fails. */
  lemma TurnSucceeds(b: Builder, n: nat, a: Arrival)
    requires Sound(b) && TickNumbers(b.accepted) == Safety.Count(n) && Healthy(b) && b.writer.mode.Running?
    requires a.Taken? ==> b.queue != [] && a.item == b.queue[0]
    ensures var w := Step(b.writer, a); !w.mode.Failed? && NoClash(w.taken) && ChoseStatus(w)
  {
    if a.Taken? && a.item.Finalize? {
      assert PlainItem(a.item);
      FinalizeSucceeds(b.writer, a);
    } else {
      if a.Taken? && a.item.Row? {
        NextRecordIsHarmless(b, n);
      }
      HarmlessTurnSucceeds(b.writer, a, b.accepted[..|b.writer.taken|]);
    }
  }

  lemma EventIsHealthy(b: Builder, n: nat, e: Event)
    requires Sound(b) && TickNumbers(b.accepted) == Safety.Count(n) && Healthy(b) && Plain(e)
    ensures Healthy(React(b, e))
  {
    match e
    case Check(_, _) =>
    case Put(p) => PutIsHealthy(b, p);
    case PutTimesOut(_) =>
    case BeginFinalize(_) =>
    case QueueFinalize =>
    case WriterTakes(now) =>
      if b.queue != [] && b.writer.mode.Running? { TurnSucceeds(b, n, Taken(b.queue[0], now)); }
    case WriterWaitExpires =>
      if b.writer.mode.Running? { TurnSucceeds(b, n, Expired); }
  }

  lemma {:induction false} HealthyBefore(expected: nat, batchSize: nat, capacity: nat, events: seq<Event>)
    requires batchSize > 0 && AllForeign(events) && AllPlain(events)
    ensures Healthy(Perform(Opened(expected, batchSize, capacity), events))
    decreases |events|
  {
    if events != [] {
      var n := |events| - 1;
      assert events[n] in events && forall e :: e in events[..n] ==> e in events;
      HealthyBefore(expected, batchSize, capacity, events[..n]);
      NoTicksYet(expected, batchSize, capacity, events[..n]);
      EventIsHealthy(Perform(Opened(expected, batchSize, capacity), events[..n]), 0, events[n]);
    }
  }
}
