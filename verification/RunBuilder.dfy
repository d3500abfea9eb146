/**
 The captured-run builder: producers that submit records through a bounded queue, and the writer thread that empties
 it. A submission passes its last check and reaches the queue in two separate steps, so the calls of any number of
 producers, `finalize` and the turns of the writer interleave freely.
 */
module RunBuilder {
  import opened Basics
  import opened CaptureStore
  import opened BatchWriter

  /**
   `checked` holds, for each producer inside `_put`, the item that passed the last check and is not queued yet.
   `closing` is the status of a `finalize` call that stopped acceptance but has not queued its request. `accepted` is
   history: the records whose submission has gone through.
   */
  datatype Builder = Builder(
    capacity: nat,
    accepting: bool,
    closing: Option<Option<CaptureStatus>>,
    checked: map<nat, Item>,
    queue: seq<Item>,
    writer: Writer,
    accepted: seq<Record>)

  datatype Reply = Passed | Queued | QueueFull | OutOfRange | NotAccepting | WriterFailed | NotPassed

  datatype Event =
    | Check(producer: nat, item: Item)
    | Put(producer: nat)
    | PutTimesOut(producer: nat)
    | BeginFinalize(requested: Option<CaptureStatus>)
    | QueueFinalize
    | WriterTakes(now: int)
    | WriterWaitExpires

  function Opened(expected: nat, batchSize: nat, capacity: nat): Builder {
    Builder(capacity, true, None, map[], [], Started(expected, batchSize), [])
  }

  function RecordTick(r: Record): Option<nat> {
    match r
    case Tick(result) => Some(result.tick)
    case Communication(key, _, _) => Some(key.tick)
    case Diagnostic(row) => row.tick
  }

  predicate InRun(expected: nat, r: Record) {
    RecordTick(r).None? || RecordTick(r).value < expected
  }

  /** The last check of a submission before it tries the queue. */
  function PassCheck(b: Builder, producer: nat, item: Item): (Builder, Reply) {
    if item.Row? && !InRun(b.writer.store.expected, item.record) then (b, OutOfRange)
    else if b.writer.mode.Failed? then (b, WriterFailed)
    else if !b.accepting then (b, NotAccepting)
    else (b.(checked := b.checked[producer := item]), Passed)
  }

  /** The attempt to put: nothing is checked any more but the room in the queue. */
  function PutPassed(b: Builder, producer: nat): (Builder, Reply) {
    if producer !in b.checked then (b, NotPassed)
    else if |b.queue| >= b.capacity then (b, QueueFull)
    else
      var item := b.checked[producer];
      (b.(checked := b.checked - {producer}, queue := b.queue + [item], accepted := b.accepted + RowsOf([item])),
        Queued)
  }

  /** A full queue makes the producer check again before its next attempt. */
  function GiveUpPut(b: Builder, producer: nat): Builder {
    if |b.queue| >= b.capacity then b.(checked := b.checked - {producer}) else b
  }

  function StopAccepting(b: Builder, requested: Option<CaptureStatus>): (Builder, Reply) {
    if b.writer.mode.Failed? then (b, WriterFailed)
    else if !b.accepting then (b, NotAccepting)
    else (b.(accepting := false, closing := Some(requested)), Passed)
  }

  function PutFinalize(b: Builder): (Builder, Reply) {
    if b.closing.None? then (b, NotAccepting)
    else if b.writer.mode.Failed? then (b, WriterFailed)
    else if |b.queue| >= b.capacity then (b, QueueFull)
    else (b.(queue := b.queue + [Finalize(b.closing.value)], closing := None), Queued)
  }

  /** One turn of the writer; when it fails, whatever is still queued is answered with the error and dropped. */
  function Turn(b: Builder, a: Arrival): Builder {
    var w := Step(b.writer, a);
    b.(writer := w, queue := if w.mode.Failed? then [] else b.queue)
  }

  function TakeNext(b: Builder, now: int): Builder {
    if b.queue == [] || !b.writer.mode.Running? then b
    else Turn(b.(queue := b.queue[1..]), Taken(b.queue[0], now))
  }

  /** With nothing queued the writer waits only as long as a batch is pending. */
  function ExpireWait(b: Builder): Builder {
    if b.queue == [] && b.writer.mode.Running? && b.writer.startedAt.Some? then Turn(b, Expired) else b
  }

  /** The writer taking what is queued, until nothing is left or it stops. */
  function Drain(b: Builder, clock: nat -> int, turn: nat): Builder
    decreases |b.queue|
  {
    if b.queue == [] || !b.writer.mode.Running? then b else Drain(TakeNext(b, clock(turn)), clock, turn + 1)
  }

  function React(b: Builder, e: Event): Builder {
    match e
    case Check(p, item) => if p in b.checked || item.Finalize? then b else PassCheck(b, p, item).0
    case Put(p) => PutPassed(b, p).0
    case PutTimesOut(p) => GiveUpPut(b, p)
    case BeginFinalize(requested) => StopAccepting(b, requested).0
    case QueueFinalize => PutFinalize(b).0
    case WriterTakes(now) => TakeNext(b, now)
    case WriterWaitExpires => ExpireWait(b)
  }

  function Perform(b: Builder, events: seq<Event>): Builder {
    if events == [] then b else React(Perform(b, events[..|events| - 1]), events[|events| - 1])
  }

  lemma PerformOne(b: Builder, events: seq<Event>, e: Event)
    ensures Perform(b, events + [e]) == React(Perform(b, events), e)
  {
    assert (events + [e])[..|events|] == events;
  }

  lemma {:induction false} PerformConcat(b: Builder, first: seq<Event>, rest: seq<Event>)
    ensures Perform(b, first + rest) == Perform(Perform(b, first), rest)
    decreases |rest|
  {
    if rest == [] {
      assert first + rest == first;
    } else {
      var n := |rest| - 1;
      PerformConcat(b, first, rest[..n]);
      assert (first + rest)[..|first| + n] == first + rest[..n];
    }
  }

  /** The records among queued items. */
  function RowsOf(items: seq<Item>): seq<Record> {
    if items == [] then [] else (if items[0].Row? then [items[0].record] else []) + RowsOf(items[1..])
  }

  lemma {:induction false} RowsOfAppend(items: seq<Item>, item: Item)
    ensures RowsOf(items + [item]) == RowsOf(items) + RowsOf([item])
  {
    if items != [] {
      RowsOfAppend(items[1..], item);
      assert (items + [item])[1..] == items[1..] + [item];
    } else {
      assert items + [item] == [item];
    }
  }

  lemma RowsOfOne(item: Item)
    ensures RowsOf([item]) == if item.Row? then [item.record] else []
  {
    assert [item][1..] == [];
  }

  // ---------- The invariant ----------

  ghost predicate NoFinalize(items: seq<Item>) {
    forall i :: i in items ==> !i.Finalize?
  }

  /** One finalize request at most is ever queued, and only after acceptance stopped. */
  ghost predicate FinalizeOnce(b: Builder) {
    && (b.accepting || b.closing.Some? ==> NoFinalize(b.queue) && !b.writer.mode.Finished?)
    && (b.accepting ==> b.closing.None?)
  }

  /** Taken records, then queued records, are the accepted records, even when the writer has finished. */
  ghost predicate NothingIsLost(b: Builder) {
    && |b.writer.taken| <= |b.accepted|
    && WritesAll(b.writer.taken, b.accepted[..|b.writer.taken|])
    && (!b.writer.mode.Failed? ==> RowsOf(b.queue) == b.accepted[|b.writer.taken|..])
  }

  ghost predicate CheckedInRun(b: Builder) {
    forall p :: p in b.checked ==>
      !b.checked[p].Finalize? && (b.checked[p].Row? ==> InRun(b.writer.store.expected, b.checked[p].record))
  }

  ghost predicate Sound(b: Builder) {
    && Inv(b.writer)
    && |b.queue| <= b.capacity
    && FinalizeOnce(b)
    && NothingIsLost(b)
    && CheckedInRun(b)
    && forall r :: r in b.accepted ==> InRun(b.writer.store.expected, r)
  }

  lemma AppendingKeepsTheAccount(b: Builder, item: Item, t: Builder)
    requires NothingIsLost(b)
    requires t.queue == b.queue + [item] && t.accepted == b.accepted + RowsOf([item]) && t.writer == b.writer
    ensures NothingIsLost(t)
  {
    RowsOfAppend(b.queue, item);
    var n := |b.writer.taken|;
    var more := b.accepted + RowsOf([item]);
    assert more[..n] == b.accepted[..n] && more[n..] == b.accepted[n..] + RowsOf([item]);
  }

  lemma PutKeeps(b: Builder, p: nat)
    requires Sound(b)
    ensures Sound(PutPassed(b, p).0)
  {
    if p in b.checked && |b.queue| < b.capacity {
      AppendingKeepsTheAccount(b, b.checked[p], PutPassed(b, p).0);
      RowsOfOne(b.checked[p]);
    }
  }

  lemma PutFinalizeKeeps(b: Builder)
    requires Sound(b)
    ensures Sound(PutFinalize(b).0)
  {
    if PutFinalize(b).1.Queued? {
      var item := Finalize(b.closing.value);
      RowsOfOne(item);
      assert b.accepted + [] == b.accepted;
      AppendingKeepsTheAccount(b, item, PutFinalize(b).0);
    }
  }

  /** Moving the head of the queue into the taken records keeps the account. */
  lemma TakingKeepsTheAccount(b: Builder, a: Arrival, rest: seq<Item>, w: Writer)
    requires NothingIsLost(b) && b.writer.mode.Running?
    requires if a.Expired? then rest == b.queue else b.queue == [a.item] + rest
    requires w.taken ==
      if a.Taken? && a.item.Row? then b.writer.taken + [Numbered(b.writer.nextOrdinal, a.item.record)]
        else b.writer.taken
    ensures NothingIsLost(b.(writer := w, queue := rest))
  {
    if a.Taken? {
      assert b.queue[1..] == rest;
      if a.item.Row? {
        var n := |b.writer.taken|;
        assert RowsOf(b.queue)[0] == a.item.record;
        assert b.accepted[..n + 1] == b.accepted[..n] + [b.accepted[n]];
        assert b.accepted[n + 1..] == b.accepted[n..][1..];
      }
    }
  }

  lemma OnlyFinalizeFinishes(w: Writer, a: Arrival)
    requires w.mode.Running?
    ensures Step(w, a).mode.Finished? ==> a.Taken? && a.item.Finalize?
  {
  }

  lemma TakingKeepsFinalizeOnce(b: Builder, a: Arrival, rest: seq<Item>, w: Writer)
    requires FinalizeOnce(b) && b.writer.mode.Running?
    requires if a.Expired? then rest == b.queue else b.queue == [a.item] + rest
    requires w.mode.Finished? ==> a.Taken? && a.item.Finalize?
    ensures FinalizeOnce(b.(writer := w, queue := rest)) && FinalizeOnce(b.(writer := w, queue := []))
  {
    if a.Taken? {
      assert a.item in b.queue;
      assert forall i :: i in rest ==> i in b.queue;
    }
  }

  lemma TurnKeeps(b: Builder, a: Arrival, rest: seq<Item>)
    requires Sound(b) && b.writer.mode.Running?
    requires if a.Expired? then rest == b.queue else b.queue == [a.item] + rest
    ensures Sound(Turn(b.(queue := rest), a))
    ensures Turn(b.(queue := rest), a).writer.store.expected == b.writer.store.expected
  {
    var w := Step(b.writer, a);
    StepKeeps(b.writer, a);
    StepTakes(b.writer, a);
    ExpectedStays(b.writer, a);
    OnlyFinalizeFinishes(b.writer, a);
    TakingKeepsTheAccount(b, a, rest, w);
    TakingKeepsFinalizeOnce(b, a, rest, w);
  }

  lemma TakeNextKeeps(b: Builder, now: int)
    requires Sound(b)
    ensures Sound(TakeNext(b, now)) && TakeNext(b, now).writer.store.expected == b.writer.store.expected
  {
    if b.queue != [] && b.writer.mode.Running? {
      TurnKeeps(b, Taken(b.queue[0], now), b.queue[1..]);
    }
  }

  lemma ExpireKeeps(b: Builder)
    requires Sound(b)
    ensures Sound(ExpireWait(b)) && ExpireWait(b).writer.store.expected == b.writer.store.expected
  {
    if b.queue == [] && b.writer.mode.Running? && b.writer.startedAt.Some? {
      TurnKeeps(b, Expired, []);
      assert b.(queue := []) == b;
    }
  }

  /** Every call and every turn keeps the account of records. */
  lemma ReactKeeps(b: Builder, e: Event)
    requires Sound(b)
    ensures Sound(React(b, e)) && React(b, e).writer.store.expected == b.writer.store.expected
  {
    match e
    case Check(_, _) =>
    case Put(p) => PutKeeps(b, p);
    case PutTimesOut(_) =>
    case BeginFinalize(_) =>
    case QueueFinalize => PutFinalizeKeeps(b);
    case WriterTakes(now) => TakeNextKeeps(b, now);
    case WriterWaitExpires => ExpireKeeps(b);
  }

  lemma OpenedIsSound(expected: nat, batchSize: nat, capacity: nat)
    requires batchSize > 0
    ensures Sound(Opened(expected, batchSize, capacity))
  {
    EveryRunKeeps(expected, batchSize, []);
  }

  lemma {:induction false} PerformanceKeeps(b: Builder, events: seq<Event>)
    requires Sound(b)
    ensures Sound(Perform(b, events)) && Perform(b, events).writer.store.expected == b.writer.store.expected
  {
    if events != [] {
      PerformanceKeeps(b, events[..|events| - 1]);
      ReactKeeps(Perform(b, events[..|events| - 1]), events[|events| - 1]);
    }
  }

  /** In every interleaving, with any number of producers. */
  lemma EveryPerformanceIsSound(expected: nat, batchSize: nat, capacity: nat, events: seq<Event>)
    requires batchSize > 0
    ensures Sound(Perform(Opened(expected, batchSize, capacity), events))
    ensures Perform(Opened(expected, batchSize, capacity), events).writer.store.expected == expected
  {
    OpenedIsSound(expected, batchSize, capacity);
    PerformanceKeeps(Opened(expected, batchSize, capacity), events);
  }

  // ---------- The writer left alone ----------

  /** Taking everything keeps the account and empties the queue unless the writer stops. */
  lemma {:induction false} DrainKeeps(b: Builder, clock: nat -> int, turn: nat)
    requires Sound(b)
    ensures Sound(Drain(b, clock, turn)) && Drain(b, clock, turn).accepted == b.accepted
    ensures Drain(b, clock, turn).writer.mode.Running? ==> Drain(b, clock, turn).queue == []
    decreases |b.queue|
  {
    if b.queue != [] && b.writer.mode.Running? {
      TakeNextKeeps(b, clock(turn));
      DrainKeeps(TakeNext(b, clock(turn)), clock, turn + 1);
    }
  }

  /** `_writer_loop` until it would wait without limit: everything queued is taken, then the wait for more expires. */
  function Loop(b: Builder, clock: nat -> int, turn: nat): Builder {
    ExpireWait(Drain(b, clock, turn))
  }

  /** Every accepted record is in the store, and the store holds nothing else. */
  ghost predicate EverythingStored(b: Builder) {
    && WritesAll(b.writer.taken, b.accepted)
    && forall x :: Holds(b.writer.store, x) <==> x in b.writer.taken
  }

  lemma PersistedIsStored(b: Builder)
    requires Sound(b) && b.writer.persisted == |b.writer.taken| && RowsOf(b.queue) == [] && !b.writer.mode.Failed?
    ensures EverythingStored(b) && forall r :: r in b.accepted ==> HoldsRecord(b.writer.store, r)
  {
    StoreHoldsThePrefix(b.writer);
    assert b.accepted[..|b.writer.taken|] == b.accepted;
    assert b.writer.taken[..b.writer.persisted] == b.writer.taken;
    AllHeld(b.writer.store, b.writer.taken, b.accepted);
  }

  lemma ExpiredIsPersisted(w: Writer)
    requires Inv(w) && w.mode.Running?
    ensures Step(w, Expired).mode.Running? ==> Step(w, Expired).persisted == |Step(w, Expired).taken|
  {
    FlushKeeps(w);
  }

  /**
   A writer that is left alone and still runs has stored every accepted record: none waits for the next one to come.
   */
  lemma LoopStoresEverything(b: Builder, clock: nat -> int, turn: nat)
    requires Sound(b) && Loop(b, clock, turn).writer.mode.Running?
    ensures var t := Loop(b, clock, turn); Sound(t) && t.queue == [] && t.accepted == b.accepted && EverythingStored(t)
  {
    var d := Drain(b, clock, turn);
    DrainKeeps(b, clock, turn);
    ExpireKeeps(d);
    if d.writer.startedAt.Some? {
      ExpiredIsPersisted(d.writer);
    }
    PersistedIsStored(Loop(b, clock, turn));
  }

  // ---------- The flush barrier ----------

  predicate Takes(b: Builder, e: Event) {
    e.WriterTakes? && b.queue != [] && b.writer.mode.Running?
  }

  /** How many items the writer takes while these events happen. */
  function ItemsTaken(b: Builder, events: seq<Event>): nat {
    if events == [] then 0
    else
      var n := |events| - 1;
      ItemsTaken(b, events[..n]) + if Takes(Perform(b, events[..n]), events[n]) then 1 else 0
  }

  /**
   `x` comes from `b` after a flush request was put and `k` items were taken: the rest of the queue of that time and
   the request still head the queue, and the records to be taken before the request are those accepted then.
   */
  ghost predicate FlushWaits(b: Builder, x: Builder, k: nat) {
    && k <= |b.queue| && b.accepted <= x.accepted
    && (!x.writer.mode.Failed? ==>
          && b.queue[k..] + [Flush] <= x.queue
          && |x.writer.taken| + |RowsOf(b.queue[k..])| == |b.accepted|)
  }

  lemma PuttingFlushWaits(b: Builder, p: nat)
    requires Sound(b) && PutPassed(b, p).1.Queued? && b.checked[p] == Flush
    ensures FlushWaits(b, React(b, Put(p)), 0)
  {
    RowsOfOne(Flush);
    assert b.accepted + [] == b.accepted;
    assert b.queue[0..] == b.queue;
  }

  lemma TakenAheadOfFlush(b: Builder, x: Builder, k: nat, now: int)
    requires FlushWaits(b, x, k) && k < |b.queue| && x.writer.mode.Running?
    ensures FlushWaits(b, TakeNext(x, now), k + 1)
  {
    var before, item := b.queue[k..], b.queue[k];
    assert before == [item] + b.queue[k + 1..] && before[1..] == b.queue[k + 1..];
    assert (before + [Flush])[1..] == b.queue[k + 1..] + [Flush];
    assert x.queue[0] == (before + [Flush])[0] == item;
    StepTakes(x.writer, Taken(item, now));
  }

  /** What is not a take leaves the flush request where it is. */
  lemma FlushKeepsWaiting(b: Builder, x: Builder, k: nat, e: Event)
    requires FlushWaits(b, x, k) && !Takes(x, e)
    ensures FlushWaits(b, React(x, e), k)
  {
  }

  lemma {:induction false} FlushWaitsItsTurn(b: Builder, start: Builder, events: seq<Event>)
    requires FlushWaits(b, start, 0) && ItemsTaken(start, events) <= |b.queue|
    ensures FlushWaits(b, Perform(start, events), ItemsTaken(start, events))
    decreases |events|
  {
    if events != [] {
      var n := |events| - 1;
      var x := Perform(start, events[..n]);
      FlushWaitsItsTurn(b, start, events[..n]);
      if Takes(x, events[n]) {
        TakenAheadOfFlush(b, x, ItemsTaken(start, events[..n]), events[n].now);
      } else {
        FlushKeepsWaiting(b, x, ItemsTaken(start, events[..n]), events[n]);
      }
    }
  }

  /**
   What was accepted before a flush request was put is stored when the flush is answered with success, whatever other
   producers, `finalize` and the writer do in between. The request is answered when as many items have been taken as
   were queued ahead of it.
   */
  lemma FlushStoresWhatWasAccepted(b: Builder, p: nat, events: seq<Event>, now: int)
    requires Sound(b) && PutPassed(b, p).1.Queued? && b.checked[p] == Flush
    requires ItemsTaken(React(b, Put(p)), events) == |b.queue|
    requires Answer(Perform(React(b, Put(p)), events).writer, Taken(Flush, now)) == Some(true)
    ensures var x := Perform(React(b, Put(p)), events);
      && x.queue != [] && x.queue[0] == Flush
      && forall r :: r in b.accepted ==> HoldsRecord(React(x, WriterTakes(now)).writer.store, r)
  {
    var start := React(b, Put(p));
    var x := Perform(start, events);
    PuttingFlushWaits(b, p);
    ReactKeeps(b, Put(p));
    PerformanceKeeps(start, events);
    FlushWaitsItsTurn(b, start, events);
    FlushIsNext(b, x);
    FlushedPrefixIsHeld(x.writer, b.accepted, now);
    FlushIsTaken(x, now);
  }

  lemma FlushIsTaken(x: Builder, now: int)
    requires x.queue != [] && x.queue[0] == Flush && x.writer.mode.Running?
    ensures React(x, WriterTakes(now)).writer == Step(x.writer, Taken(Flush, now))
  {
  }

  lemma FlushIsNext(b: Builder, x: Builder)
    requires Sound(x) && FlushWaits(b, x, |b.queue|) && !x.writer.mode.Failed?
    ensures x.queue != [] && x.queue[0] == Flush && WritesAll(x.writer.taken, b.accepted)
  {
    assert b.queue[|b.queue|..] == [];
    assert (b.queue[|b.queue|..] + [Flush])[0] == Flush == x.queue[0];
    assert b.accepted == x.accepted[..|x.writer.taken|];
  }

  lemma FlushedPrefixIsHeld(w: Writer, records: seq<Record>, now: int)
    requires Inv(w) && WritesAll(w.taken, records) && Answer(w, Taken(Flush, now)) == Some(true)
    ensures forall r :: r in records ==> HoldsRecord(Step(w, Taken(Flush, now)).store, r)
  {
    var a := Taken(Flush, now);
    BarrierFlushes(w, a);
    StepKeeps(w, a);
    StoreHoldsThePrefix(Step(w, a));
    assert w.taken[..|w.taken|] == w.taken;
    AllHeld(Step(w, a).store, w.taken, records);
  }

  // ---------- A queue with a finalize request in it ----------

  /** A finishing writer takes nothing more, and its store holds exactly what it took. */
  lemma FinishingTurn(w: Writer, requested: Option<CaptureStatus>, now: int)
    requires Inv(w) && w.mode.Running?
    ensures var f := Step(w, Taken(Finalize(requested), now));
      && !f.mode.Running? && f.taken == w.taken
      && (f.mode.Finished? ==> forall x :: Holds(f.store, x) <==> x in f.taken)
  {
    var a := Taken(Finalize(requested), now);
    StepKeeps(w, a);
    StepTakes(w, a);
    FinalizeStops(w, a);
    var f := Step(w, a);
    StoreHoldsThePrefix(f);
    if f.mode.Finished? {
      assert f.taken[..f.persisted] == f.taken;
    }
  }

  lemma FinalizeStops(w: Writer, a: Arrival)
    requires w.mode.Running? && a.Taken? && a.item.Finalize?
    ensures !Step(w, a).mode.Running?
  {
  }

  /** Taking the head of a queue that still has a finalize request behind it. */
  lemma TurnAhead(b: Builder, records: seq<Record>, item: Item, now: int)
    requires Inv(b.writer) && b.writer.mode.Running? && WritesAll(b.writer.taken, records)
    requires b.queue != [] && b.queue[0] == item && !item.Finalize?
    ensures var next := TakeNext(b, now);
      && Inv(next.writer) && !next.writer.mode.Finished?
      && WritesAll(next.writer.taken, records + RowsOf([item]))
      && (next.writer.mode.Running? ==> next.queue == b.queue[1..])
  {
    var a := Taken(item, now);
    StepKeeps(b.writer, a);
    StepTakes(b.writer, a);
    OnlyFinalizeFinishes(b.writer, a);
  }

  /** A finished writer has taken and stored exactly `records`, and left `behind` in the queue. */
  ghost predicate TookExactly(b: Builder, records: seq<Record>, behind: seq<Item>) {
    b.writer.mode.Finished? ==>
      && b.queue == behind && WritesAll(b.writer.taken, records)
      && forall x :: Holds(b.writer.store, x) <==> x in b.writer.taken
  }

  lemma NothingIsAhead(b: Builder, records: seq<Record>, requested: Option<CaptureStatus>, behind: seq<Item>,
      clock: nat -> int, turn: nat)
    requires Inv(b.writer) && b.writer.mode.Running? && WritesAll(b.writer.taken, records)
    requires b.queue == [Finalize(requested)] + behind
    ensures TookExactly(Drain(b, clock, turn), records, behind)
  {
    FinishingTurn(b.writer, requested, clock(turn));
    assert b.queue[1..] == behind;
  }

  lemma RowsOfHead(items: seq<Item>, records: seq<Record>)
    requires items != []
    ensures records + RowsOf(items) == (records + RowsOf([items[0]])) + RowsOf(items[1..])
  {
    RowsOfOne(items[0]);
    var head, tail := RowsOf([items[0]]), RowsOf(items[1..]);
    assert RowsOf(items) == head + tail;
    assert records + (head + tail) == (records + head) + tail;
  }

  lemma DrainTurns(b: Builder, clock: nat -> int, turn: nat)
    requires b.queue != [] && b.writer.mode.Running?
    ensures var next := TakeNext(b, clock(turn));
      Drain(b, clock, turn) == if next.writer.mode.Running? then Drain(next, clock, turn + 1) else next
  {
  }

  lemma QueueAhead(queue: seq<Item>, ahead: seq<Item>, request: Item, behind: seq<Item>)
    requires ahead != [] && queue == ahead + [request] + behind
    ensures queue != [] && queue[0] == ahead[0] && queue[1..] == ahead[1..] + [request] + behind
  {
  }

  /**
   A record can pass its check and still reach the queue behind the finalize request. Whatever the queue holds, a
   finished writer has taken exactly the records ahead of that request.
   */
  lemma {:induction false} OnlyRecordsAheadAreTaken(
      b: Builder, records: seq<Record>, ahead: seq<Item>, requested: Option<CaptureStatus>, behind: seq<Item>,
      clock: nat -> int, turn: nat)
    requires Inv(b.writer) && b.writer.mode.Running? && WritesAll(b.writer.taken, records)
    requires NoFinalize(ahead) && b.queue == ahead + [Finalize(requested)] + behind
    ensures TookExactly(Drain(b, clock, turn), records + RowsOf(ahead), behind)
    decreases |ahead|
  {
    if ahead == [] {
      assert records + RowsOf(ahead) == records;
      NothingIsAhead(b, records, requested, behind, clock, turn);
    } else {
      HeadIsTaken(b, records, ahead, requested, behind, clock, turn);
      var next := TakeNext(b, clock(turn));
      if next.writer.mode.Running? {
        OnlyRecordsAheadAreTaken(next, records + RowsOf([ahead[0]]), ahead[1..], requested, behind, clock, turn + 1);
      }
    }
  }

  lemma HeadIsTaken(
      b: Builder, records: seq<Record>, ahead: seq<Item>, requested: Option<CaptureStatus>, behind: seq<Item>,
      clock: nat -> int, turn: nat)
    requires Inv(b.writer) && b.writer.mode.Running? && WritesAll(b.writer.taken, records)
    requires NoFinalize(ahead) && ahead != [] && b.queue == ahead + [Finalize(requested)] + behind
    ensures var next := TakeNext(b, clock(turn));
      && Drain(b, clock, turn) == (if next.writer.mode.Running? then Drain(next, clock, turn + 1) else next)
      && Inv(next.writer) && !next.writer.mode.Finished?
      && WritesAll(next.writer.taken, records + RowsOf([ahead[0]]))
      && (next.writer.mode.Running? ==> next.queue == ahead[1..] + [Finalize(requested)] + behind)
    ensures records + RowsOf(ahead) == (records + RowsOf([ahead[0]])) + RowsOf(ahead[1..]) && NoFinalize(ahead[1..])
  {
    QueueAhead(b.queue, ahead, Finalize(requested), behind);
    assert ahead[0] in ahead;
    TurnAhead(b, records, ahead[0], clock(turn));
    DrainTurns(b, clock, turn);
    RowsOfHead(ahead, records);
  }

  // ---------- When finalising loses nothing ----------

  /** No record is between its last check and its put. */
  ghost predicate NoRecordPassed(b: Builder) {
    forall p :: p in b.checked ==> !b.checked[p].Row?
  }

  /** What stands behind the finalize request. */
  function Behind(items: seq<Item>): seq<Item> {
    if items == [] then [] else if items[0].Finalize? then items[1..] else Behind(items[1..])
  }

  /** Acceptance has stopped with no record in between: none can reach the queue behind the request. */
  ghost predicate Sealed(b: Builder) {
    && !b.accepting && NoRecordPassed(b)
    && RowsOf(Behind(b.queue)) == []
    && (b.writer.mode.Finished? ==> RowsOf(b.queue) == [])
  }

  lemma {:induction false} BehindAppend(items: seq<Item>, item: Item)
    ensures RowsOf(Behind(items + [item])) == RowsOf(Behind(items)) + (if NoFinalize(items) then [] else RowsOf([item]))
  {
    if items == [] {
      assert items + [item] == [item];
      assert [item][1..] == [];
    } else {
      assert (items + [item])[1..] == items[1..] + [item];
      if items[0].Finalize? {
        RowsOfAppend(items[1..], item);
      } else {
        BehindAppend(items[1..], item);
        assert NoFinalize(items) <==> NoFinalize(items[1..]);
      }
    }
  }

  lemma {:induction false} NoRowsNorBehind(items: seq<Item>)
    requires RowsOf(items) == []
    ensures RowsOf(Behind(items)) == []
  {
    if items != [] {
      NoRowsNorBehind(items[1..]);
    }
  }

  lemma SealedPut(b: Builder, p: nat)
    requires Sound(b) && Sealed(b)
    ensures Sealed(PutPassed(b, p).0)
  {
    if p in b.checked && |b.queue| < b.capacity {
      BehindAppend(b.queue, b.checked[p]);
      RowsOfAppend(b.queue, b.checked[p]);
      RowsOfOne(b.checked[p]);
    }
  }

  lemma SealedPutFinalize(b: Builder)
    requires Sound(b) && Sealed(b)
    ensures Sealed(PutFinalize(b).0)
  {
    if PutFinalize(b).1.Queued? {
      BehindAppend(b.queue, Finalize(b.closing.value));
      RowsOfOne(Finalize(b.closing.value));
    }
  }

  lemma SealedTake(b: Builder, now: int)
    requires Sound(b) && Sealed(b)
    ensures Sealed(TakeNext(b, now))
  {
    if b.queue != [] && b.writer.mode.Running? {
      OnlyFinalizeFinishes(b.writer, Taken(b.queue[0], now));
      if b.queue[0].Finalize? {
        NoRowsNorBehind(b.queue[1..]);
      }
    }
  }

  lemma SealedStays(b: Builder, e: Event)
    requires Sound(b) && Sealed(b)
    ensures Sealed(React(b, e))
  {
    match e
    case Check(_, _) =>
    case Put(p) => SealedPut(b, p);
    case PutTimesOut(_) =>
    case BeginFinalize(_) =>
    case QueueFinalize => SealedPutFinalize(b);
    case WriterTakes(now) => SealedTake(b, now);
    case WriterWaitExpires =>
      if b.writer.mode.Running? { OnlyFinalizeFinishes(b.writer, Expired); }
  }

  lemma {:induction false} SealedForGood(b: Builder, events: seq<Event>)
    requires Sound(b) && Sealed(b)
    ensures Sound(Perform(b, events)) && Sealed(Perform(b, events))
  {
    if events != [] {
      SealedForGood(b, events[..|events| - 1]);
      ReactKeeps(Perform(b, events[..|events| - 1]), events[|events| - 1]);
      SealedStays(Perform(b, events[..|events| - 1]), events[|events| - 1]);
    }
  }

  lemma {:induction false} NothingBehind(items: seq<Item>)
    requires NoFinalize(items)
    ensures Behind(items) == []
  {
    if items != [] {
      NothingBehind(items[1..]);
    }
  }

  lemma StoppingSeals(b: Builder, requested: Option<CaptureStatus>)
    requires Sound(b) && b.accepting && !b.writer.mode.Failed? && NoRecordPassed(b)
    ensures Sealed(StopAccepting(b, requested).0)
  {
    NothingBehind(b.queue);
  }

  /** A finished writer has stored every accepted record exactly when none is left in the queue. */
  lemma FinishedStoresExactly(b: Builder)
    requires Sound(b) && b.writer.mode.Finished?
    ensures EverythingStored(b) <==> RowsOf(b.queue) == []
    ensures EverythingStored(b) ==> forall r :: r in b.accepted ==> HoldsRecord(b.writer.store, r)
  {
    if RowsOf(b.queue) == [] {
      PersistedIsStored(b);
    } else {
      assert |b.writer.taken| < |b.accepted|;
    }
  }

  /**
   Finalising loses nothing if no record is between its last check and its put when `finalize` stops acceptance: in
   every interleaving of any number of producers with the writer, before and after, a finished writer has stored every
   record whose submission went through. So a single producer that finalises the run itself loses nothing.
   */
  lemma FinalizeLosesNothing(
      expected: nat, batchSize: nat, capacity: nat, before: seq<Event>, requested: Option<CaptureStatus>,
        after: seq<Event>)
    requires batchSize > 0
    requires var b := Perform(Opened(expected, batchSize, capacity), before);
      b.accepting && !b.writer.mode.Failed? && NoRecordPassed(b)
    requires Perform(Opened(expected, batchSize, capacity),
      before + [BeginFinalize(requested)] + after).writer.mode.Finished?
    ensures var t := Perform(Opened(expected, batchSize, capacity), before + [BeginFinalize(requested)] + after);
      EverythingStored(t) && forall r :: r in t.accepted ==> HoldsRecord(t.writer.store, r)
  {
    var start := Opened(expected, batchSize, capacity);
    var b := Perform(start, before);
    EveryPerformanceIsSound(expected, batchSize, capacity, before);
    StoppingSeals(b, requested);
    ReactKeeps(b, BeginFinalize(requested));
    PerformOne(start, before, BeginFinalize(requested));
    PerformConcat(start, before + [BeginFinalize(requested)], after);
    SealedForGood(React(b, BeginFinalize(requested)), after);
    FinishedStoresExactly(Perform(start, before + [BeginFinalize(requested)] + after));
  }

  // ---------- When it does not ----------

  lemma {:induction false} FinishedWriterStays(b: Builder, events: seq<Event>)
    requires b.writer.mode.Finished?
    ensures Perform(b, events).writer == b.writer
  {
    if events != [] {
      FinishedWriterStays(b, events[..|events| - 1]);
    }
  }

  lemma {:induction false} DrainIsPerformed(b: Builder, clock: nat -> int, turn: nat) returns (events: seq<Event>)
    ensures Perform(b, events) == Drain(b, clock, turn)
    ensures var t := Drain(b, clock, turn);
      t.checked == b.checked && t.closing == b.closing && t.capacity == b.capacity && t.accepting == b.accepting
      && t.accepted == b.accepted
    decreases |b.queue|
  {
    if b.queue == [] || !b.writer.mode.Running? {
      events := [];
    } else {
      var rest := DrainIsPerformed(TakeNext(b, clock(turn)), clock, turn + 1);
      events := [WriterTakes(clock(turn))] + rest;
      PerformOne(b, [], WriterTakes(clock(turn)));
      assert [] + [WriterTakes(clock(turn))] == [WriterTakes(clock(turn))];
      PerformConcat(b, [WriterTakes(clock(turn))], rest);
    }
  }

  lemma LoopIsPerformed(b: Builder, clock: nat -> int) returns (events: seq<Event>)
    ensures Perform(b, events) == Loop(b, clock, 0)
    ensures var t := Loop(b, clock, 0);
      && t.checked == b.checked && t.closing == b.closing && t.capacity == b.capacity && t.accepting == b.accepting
      && t.accepted == b.accepted
  {
    var drains := DrainIsPerformed(b, clock, 0);
    PerformOne(b, drains, WriterWaitExpires);
    events := drains + [WriterWaitExpires];
  }

  /** Between the two halves of `finalize` the writer empties the queue or fails. */
  lemma LoopSettles(b: Builder, clock: nat -> int)
    requires Sound(b) && b.closing.Some?
    ensures var t := Loop(b, clock, 0);
      && Sound(t) && t.closing == b.closing && t.accepted == b.accepted
      && (t.writer.mode.Failed? || (t.queue == [] && t.writer.mode.Running?))
  {
    var events := LoopIsPerformed(b, clock);
    PerformanceKeeps(b, events);
    DrainKeeps(b, clock, 0);
  }

  /** After the second half it stops, and stores everything unless it fails. */
  lemma LoopFinishes(b: Builder, requested: Option<CaptureStatus>, clock: nat -> int)
    requires Sound(b) && b.writer.mode.Running? && b.queue == [Finalize(requested)]
    ensures var t := Loop(b, clock, 0);
      && !t.writer.mode.Running? && t.accepted == b.accepted
      && (t.writer.mode.Finished? ==>
            EverythingStored(t) && forall r :: r in t.accepted ==> HoldsRecord(t.writer.store, r))
  {
    RowsOfOne(Finalize(requested));
    FinalizeStops(b.writer, Taken(Finalize(requested), clock(0)));
    TakeNextKeeps(b, clock(0));
    DrainTurns(b, clock, 0);
    var t := TakeNext(b, clock(0));
    if t.writer.mode.Finished? {
      FinishedStoresExactly(t);
    }
  }

  /** What was accepted so far can be stored: the writer can take it all, and no two rows claim the same key. */
  ghost predicate Storable(b: Builder) {
    var d := Drain(b, (turn: nat) => 0, 0);
    d.writer.mode.Running? && NoClash(d.writer.taken)
  }

  lemma FinalizeFinishes(b: Builder)
    requires Sound(b) && b.writer.mode.Running? && NoClash(b.writer.taken) && b.queue == [Finalize(None)]
    ensures TakeNext(b, 0).writer.mode.Finished? && TakeNext(b, 0).queue == []
      && TakeNext(b, 0).writer.taken == b.writer.taken
  {
    FlushedStore(b.writer);
    StepTakes(b.writer, Taken(Finalize(None), 0));
  }

  lemma FinalizeGoesIn(b: Builder)
    requires b.queue == [] && b.closing == Some(None) && !b.writer.mode.Failed? && b.capacity > 0
    ensures PutFinalize(b).0 == b.(queue := [Finalize(None)], closing := None)
  {
    assert [] + [Finalize(None)] == [Finalize(None)];
  }

  lemma LateRecordGoesIn(b: Builder, p: nat)
    requires b.queue == [] && b.capacity > 0 && p in b.checked && b.checked[p].Row?
    ensures var t := PutPassed(b, p).0;
      t == b.(checked := b.checked - {p}, queue := [b.checked[p]], accepted := b.accepted + [b.checked[p].record])
  {
    RowsOfOne(b.checked[p]);
    assert [] + [b.checked[p]] == [b.checked[p]];
  }

  /** The end of the race: the request goes in and is taken, and then the record goes in. */
  function LosePassed(b: Builder, p: nat): Builder {
    React(React(React(b, QueueFinalize), WriterTakes(0)), Put(p))
  }

  lemma PassedIsLost(b: Builder, p: nat)
    requires Sound(b) && b.queue == [] && b.closing == Some(None) && b.capacity > 0 && p in b.checked
      && b.checked[p].Row?
    requires b.writer.mode.Running? && NoClash(b.writer.taken)
    ensures var t := LosePassed(b, p);
      && Sound(t) && t.writer.mode.Finished? && t.writer.taken == b.writer.taken
      && t.accepted == b.accepted + [b.checked[p].record] && RowsOf(t.queue) == [b.checked[p].record]
  {
    FinalizeGoesIn(b);
    var asked := React(b, QueueFinalize);
    ReactKeeps(b, QueueFinalize);
    FinalizeFinishes(asked);
    var finished := React(asked, WriterTakes(0));
    ReactKeeps(asked, WriterTakes(0));
    LateRecordGoesIn(finished, p);
    ReactKeeps(finished, Put(p));
    RowsOfOne(b.checked[p]);
  }

  lemma LosingIsPerformed(b: Builder, events: seq<Event>, p: nat)
    ensures Perform(b, events + [QueueFinalize] + [WriterTakes(0)] + [Put(p)]) == LosePassed(Perform(b, events), p)
  {
    PerformOne(b, events, QueueFinalize);
    PerformOne(b, events + [QueueFinalize], WriterTakes(0));
    PerformOne(b, events + [QueueFinalize] + [WriterTakes(0)], Put(p));
  }

  // ---------- The status a capture ends with ----------

  /** The one `finalize` call under way asked for `requested`: before, while and after its request is queued. */
  ghost predicate Asked(b: Builder, requested: Option<CaptureStatus>) {
    && !b.accepting
    && (b.closing.Some? ==> b.closing == Some(requested))
    && (forall i :: i in b.queue && i.Finalize? ==> i.requested == requested)
    && (b.writer.mode.Finished? ==> IsStatusFor(b.writer.store, requested))
  }

  lemma AskedTurn(b: Builder, requested: Option<CaptureStatus>, a: Arrival, rest: seq<Item>)
    requires Sound(b) && Asked(b, requested) && b.writer.mode.Running?
    requires a.Taken? && a.item.Finalize? ==> a.item.requested == requested
    requires forall i :: i in rest ==> i in b.queue
    ensures Asked(Turn(b.(queue := rest), a), requested)
  {
    if Step(b.writer, a).mode.Finished? {
      FinishingMeans(b.writer, a);
    }
  }

  lemma AskedStays(b: Builder, requested: Option<CaptureStatus>, e: Event)
    requires Sound(b) && Asked(b, requested)
    ensures Asked(React(b, e), requested)
  {
    match e
    case WriterTakes(now) =>
      if b.queue != [] && b.writer.mode.Running? {
        assert b.queue[0] in b.queue;
        AskedTurn(b, requested, Taken(b.queue[0], now), b.queue[1..]);
      }
    case WriterWaitExpires =>
      if b.queue == [] && b.writer.mode.Running? && b.writer.startedAt.Some? {
        AskedTurn(b, requested, Expired, b.queue);
        assert b.(queue := b.queue) == b;
      }
    case _ =>
  }

  lemma {:induction false} AskedForGood(b: Builder, requested: Option<CaptureStatus>, events: seq<Event>)
    requires Sound(b) && Asked(b, requested)
    ensures Asked(Perform(b, events), requested)
  {
    if events != [] {
      AskedForGood(b, requested, events[..|events| - 1]);
      PerformanceKeeps(b, events[..|events| - 1]);
      AskedStays(Perform(b, events[..|events| - 1]), requested, events[|events| - 1]);
    }
  }

  /** Acceptance stops at one event, a `finalize` or `abort` call that found the run accepting. */
  lemma {:induction false} AcceptanceStoppedOnce(b: Builder, events: seq<Event>) returns (k: nat)
    requires b.accepting && !Perform(b, events).accepting
    ensures k < |events| && events[k].BeginFinalize?
    ensures Perform(b, events[..k]).accepting && !Perform(b, events[..k]).writer.mode.Failed?
  {
    var n := |events| - 1;
    if Perform(b, events[..n]).accepting {
      k := n;
    } else {
      k := AcceptanceStoppedOnce(b, events[..n]);
      assert events[..n][..k] == events[..k];
    }
  }

  /**
   In every interleaving, a finished capture has the status that the call which stopped acceptance asked for; without a
   wish it is COMPLETE or INCOMPLETE, as every expected tick is stored or not. So a capture that was aborted is
   ABORTED.
   */
  lemma FinishedStatusWasWished(expected: nat, batchSize: nat, capacity: nat, events: seq<Event>) returns (k: nat)
    requires batchSize > 0 && Perform(Opened(expected, batchSize, capacity), events).writer.mode.Finished?
    ensures k < |events| && events[k].BeginFinalize?
      && Perform(Opened(expected, batchSize, capacity), events[..k]).accepting
    ensures var d := Perform(Opened(expected, batchSize, capacity), events).writer.store;
      var requested := events[k].requested;
      && (requested.Some? ==> d.status == requested.value)
      && (requested.None? ==>
            d.status == if d.expected > 0 && d.ticks.Keys == Below(d.expected) then Complete else Incomplete)
  {
    var start := Opened(expected, batchSize, capacity);
    EveryPerformanceIsSound(expected, batchSize, capacity, events);
    k := AcceptanceStoppedOnce(start, events);
    StatusSince(expected, batchSize, capacity, events, k);
  }

  lemma SplitAt(b: Builder, events: seq<Event>, k: nat)
    requires k < |events|
    ensures Perform(b, events) == Perform(React(Perform(b, events[..k]), events[k]), events[k + 1..])
  {
    PerformOne(b, events[..k], events[k]);
    PerformConcat(b, events[..k] + [events[k]], events[k + 1..]);
    assert events == events[..k] + [events[k]] + events[k + 1..];
  }

  lemma StoppingAsks(b: Builder, requested: Option<CaptureStatus>)
    requires Sound(b) && b.accepting && !b.writer.mode.Failed?
    ensures var t := React(b, BeginFinalize(requested)); Sound(t) && Asked(t, requested)
  {
    ReactKeeps(b, BeginFinalize(requested));
  }

  /** From the moment acceptance stops for a wish, the capture can only finish with it. */
  lemma StatusSince(expected: nat, batchSize: nat, capacity: nat, events: seq<Event>, k: nat)
    requires batchSize > 0 && k < |events| && events[k].BeginFinalize?
    requires var b := Perform(Opened(expected, batchSize, capacity), events[..k]);
      b.accepting && !b.writer.mode.Failed?
    ensures Asked(Perform(Opened(expected, batchSize, capacity), events), events[k].requested)
  {
    var start := Opened(expected, batchSize, capacity);
    EveryPerformanceIsSound(expected, batchSize, capacity, events[..k]);
    StoppingAsks(Perform(start, events[..k]), events[k].requested);
    SplitAt(start, events, k);
    AskedForGood(React(Perform(start, events[..k]), events[k]), events[k].requested, events[k + 1..]);
  }

  // ---------- Records that are lost ----------

  /**
   A record that is between its check and its put when `finalize` stops acceptance can be lost: in some continuation
   its submission goes through, and the writer has finished without it, for good.
   */
  lemma RecordInBetweenCanBeLost(b: Builder, p: nat) returns (events: seq<Event>)
    requires Sound(b) && b.accepting && b.capacity > 0 && p in b.checked && b.checked[p].Row?
    requires b.writer.mode.Running? && Storable(React(b, BeginFinalize(None)))
    ensures var t := Perform(React(b, BeginFinalize(None)), events);
      && Sound(t) && t.writer.mode.Finished? && t.accepted == b.accepted + [b.checked[p].record]
      && RowsOf(t.queue) == [b.checked[p].record] && WritesAll(t.writer.taken, b.accepted)
  {
    var stopped, clock := React(b, BeginFinalize(None)), (turn: nat) => 0;
    ReactKeeps(b, BeginFinalize(None));
    DrainKeeps(stopped, clock, 0);
    var drains := DrainIsPerformed(stopped, clock, 0);
    var drained := Drain(stopped, clock, 0);
    PassedIsLost(drained, p);
    LosingIsPerformed(stopped, drains, p);
    assert drained.accepted[..|drained.writer.taken|] == b.accepted;
    events := drains + [QueueFinalize] + [WriterTakes(0)] + [Put(p)];
  }

  /** However the run goes on, a finished writer has stored everything whose submission went through. */
  ghost predicate KeepsEverything(b: Builder) {
    forall events :: Perform(b, events).writer.mode.Finished? ==> EverythingStored(Perform(b, events))
  }

  /**
   The exact condition: a `finalize` call of a run whose accepted records can be stored keeps everything, in every
   continuation, exactly when no record is between its last check and its put at that moment.
   */
  lemma FinalizeKeepsEverythingExactlyWhen(b: Builder)
    requires Sound(b) && b.accepting && b.writer.mode.Running? && b.capacity > 0
    requires Storable(React(b, BeginFinalize(None)))
    ensures KeepsEverything(React(b, BeginFinalize(None))) <==> NoRecordPassed(b)
  {
    var stopped := React(b, BeginFinalize(None));
    ReactKeeps(b, BeginFinalize(None));
    if NoRecordPassed(b) {
      StoppingSeals(b, None);
      forall events | Perform(stopped, events).writer.mode.Finished?
        ensures EverythingStored(Perform(stopped, events))
      {
        SealedForGood(stopped, events);
        FinishedStoresExactly(Perform(stopped, events));
      }
    } else {
      var p :| p in b.checked && b.checked[p].Row?;
      var events := RecordInBetweenCanBeLost(b, p);
      FinishedStoresExactly(Perform(stopped, events));
    }
  }

  lemma NothingStored(b: Builder, r: Record)
    requires Sound(b) && b.writer.mode.Finished? && b.writer.taken == []
    ensures !HoldsRecord(b.writer.store, r)
  {
    StoreHoldsThePrefix(b.writer);
  }

  /**
   And such runs exist from the start: one producer checks a record, another finalises the run, and the record, whose
   submission then goes through, is not in the capture, whatever happens afterwards.
   */
  lemma LateRecordIsLost(expected: nat, batchSize: nat, capacity: nat, late: Record) returns (events: seq<Event>)
    requires batchSize > 0 && capacity > 0 && InRun(expected, late)
    ensures var t := Perform(Opened(expected, batchSize, capacity), events);
      && t.writer.mode.Finished? && t.accepted == [late]
      && forall more :: Perform(t, more).writer.mode.Finished? && !HoldsRecord(Perform(t, more).writer.store, late)
  {
    var start := Opened(expected, batchSize, capacity);
    var b := React(start, Check(0, Row(late)));
    OpenedIsSound(expected, batchSize, capacity);
    ReactKeeps(start, Check(0, Row(late)));
    PerformOne(start, [], Check(0, Row(late)));
    PerformOne(start, [] + [Check(0, Row(late))], BeginFinalize(None));
    var rest := RecordInBetweenCanBeLost(b, 0);
    PerformConcat(start, [] + [Check(0, Row(late))] + [BeginFinalize(None)], rest);
    events := [] + [Check(0, Row(late))] + [BeginFinalize(None)] + rest;
    var t := Perform(start, events);
    assert start.accepted + [late] == [late];
    NothingStored(t, late);
    forall more
      ensures Perform(t, more).writer == t.writer
    {
      FinishedWriterStays(t, more);
    }
  }
}
