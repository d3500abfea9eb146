/**
 The background writer: records leave the queue one by one, collect in pending lists and reach
 the store in batches. The specification of a whole run, and what every run guarantees.
 */
module BatchWriter {
  import opened Basics
  import opened CaptureStore

  /** A record as the producer submits it; a communication without an ordinal gets one from the writer. */
  datatype Record =
    | Tick(result: TickResult)
    | Communication(key: CommunicationKey, ordinal: Option<nat>, payload: seq<nat>)
    | Diagnostic(row: ErrorRow)

  datatype Item = Row(record: Record) | Flush | Finalize(requested: Option<CaptureStatus>)

  /** One turn of the writer: the queue wait expired, or an item was taken at some clock reading. */
  datatype Arrival = Expired | Taken(item: Item, now: int)

  /** A record as it is written. */
  datatype Stored =
    | StoredTick(result: TickResult)
    | StoredCommunication(row: CommunicationRow)
    | StoredDiagnostic(problem: ErrorRow)

  datatype Mode = Running | Finished | Failed

  /** `taken` and `persisted` are history: all records taken so far, and how many of them are committed. */
  datatype Writer = Writer(
    batchSize: nat,
    store: Database,
    batch: Batch,
    nextOrdinal: map<CommunicationKey, nat>,
    startedAt: Option<int>,
    mode: Mode,
    taken: seq<Stored>,
    persisted: nat)

  const EMPTY_BATCH := Batch([], [], [])

  function Started(expected: nat, batchSize: nat): Writer {
    Writer(batchSize, Created(expected), EMPTY_BATCH, map[], None, Running, [], 0)
  }

  function RecordCount(b: Batch): nat {
    |b.ticks| + |b.communications| + |b.errors|
  }

  function Extend(b: Batch, x: Stored): Batch {
    match x
    case StoredTick(r) => b.(ticks := b.ticks + [r])
    case StoredCommunication(r) => b.(communications := b.communications + [r])
    case StoredDiagnostic(r) => b.(errors := b.errors + [r])
  }

  function NextOrdinal(ordinals: map<CommunicationKey, nat>, key: CommunicationKey): nat {
    if key in ordinals then ordinals[key] else 0
  }

  /** The form in which a record will be written: only the ordinal may have to be filled in. */
  function Numbered(ordinals: map<CommunicationKey, nat>, r: Record): Stored {
    match r
    case Tick(result) => StoredTick(result)
    case Communication(key, ordinal, payload) =>
      StoredCommunication(CommunicationRow(key, if ordinal.Some? then ordinal.value
        else NextOrdinal(ordinals, key), payload))
    case Diagnostic(row) => StoredDiagnostic(row)
  }

  function Advanced(ordinals: map<CommunicationKey, nat>, x: Stored): map<CommunicationKey, nat> {
    if !x.StoredCommunication? then ordinals
    else
      var next := NextOrdinal(ordinals, x.row.key);
      ordinals[x.row.key := if next > x.row.ordinal + 1 then next else x.row.ordinal + 1]
  }

  function Enter(w: Writer, r: Record, now: int): Writer {
    var x := Numbered(w.nextOrdinal, r);
    w.(batch := Extend(w.batch, x), nextOrdinal := Advanced(w.nextOrdinal, x), taken := w.taken + [x],
       startedAt := if w.startedAt.None? then Some(now) else w.startedAt)
  }

  function FlushPending(w: Writer): Writer {
    match Committed(w.store, w.batch)
    case None => w.(mode := Failed)
    case Some(d) => w.(store := d, batch := EMPTY_BATCH, startedAt := None, persisted := |w.taken|)
  }

  function Finish(w: Writer, requested: Option<CaptureStatus>): Writer {
    match FinalStatus(w.store, requested)
    case Failure(_) => w.(mode := Failed)
    case Success(status) => w.(store := w.store.(status := status), mode := Finished)
  }

  function Step(w: Writer, a: Arrival): Writer {
    if !w.mode.Running? then w
    else match a
      case Expired => FlushPending(w)
      case Taken(Row(r), now) =>
        var e := Enter(w, r, now);
        if RecordCount(e.batch) >= e.batchSize then FlushPending(e) else e
      case Taken(Flush, _) => FlushPending(w)
      case Taken(Finalize(requested), _) =>
        var f := FlushPending(w);
        if f.mode.Failed? then f else Finish(f, requested)
  }

  function Run(w: Writer, arrivals: seq<Arrival>): Writer {
    if arrivals == [] then w
    else Step(Run(w, arrivals[..|arrivals| - 1]), arrivals[|arrivals| - 1])
  }

  /** What a waiting `flush` or `finalize` is told: nothing once the writer has stopped normally. */
  function Answer(w: Writer, a: Arrival): Option<bool> {
    if !a.Taken? || a.item.Row? || w.mode.Finished? then None
    else Some(w.mode.Running? && !Step(w, a).mode.Failed?)
  }

  /** How long the writer may block on its queue; nothing means without limit. */
  function WaitLimit(w: Writer, flushInterval: int, now: int): Option<int> {
    if w.startedAt.None? then None
    else Some(var left := flushInterval - (now - w.startedAt.value); if left > 0 then left else 0)
  }

  // ---------- Batches as sequences of stored records ----------

  function BatchOf(s: seq<Stored>): Batch {
    if s == [] then EMPTY_BATCH else Extend(BatchOf(s[..|s| - 1]), s[|s| - 1])
  }

  function Join(a: Batch, b: Batch): Batch {
    Batch(a.ticks + b.ticks, a.communications + b.communications, a.errors + b.errors)
  }

  lemma BatchOfAppend(s: seq<Stored>, x: Stored)
    ensures BatchOf(s + [x]) == Extend(BatchOf(s), x)
  {
    assert (s + [x])[..|s|] == s;
  }

  lemma JoinExtends(a: Batch, b: Batch, x: Stored)
    ensures Join(a, Extend(b, x)) == Extend(Join(a, b), x)
  {
    match x
    case StoredTick(r) => assert a.ticks + (b.ticks + [r]) == (a.ticks + b.ticks) + [r];
    case StoredCommunication(r) => assert a.communications + (b.communications + [r]) ==
      (a.communications + b.communications) + [r];
    case StoredDiagnostic(r) => assert a.errors + (b.errors + [r]) == (a.errors + b.errors) + [r];
  }

  lemma {:induction false} BatchOfConcat(a: seq<Stored>, b: seq<Stored>)
    ensures BatchOf(a + b) == Join(BatchOf(a), BatchOf(b))
  {
    if b == [] {
      assert a + b == a;
    } else {
      var c, x := b[..|b| - 1], b[|b| - 1];
      BatchOfConcat(a, c);
      BatchOfAppend(a + c, x);
      JoinExtends(BatchOf(a), BatchOf(c), x);
      assert a + b == (a + c) + [x];
    }
  }

  lemma {:induction false} BatchOfCounts(s: seq<Stored>)
    ensures RecordCount(BatchOf(s)) == |s|
  {
    if s != [] {
      BatchOfCounts(s[..|s| - 1]);
    }
  }

  lemma {:induction false} TicksInPieces(table: map<nat, TickResult>, a: seq<TickResult>, b: seq<TickResult>)
    ensures InsertTicks(table, a + b) ==
      match InsertTicks(table, a) { case None => None case Some(next) => InsertTicks(next, b) }
    decreases |a|
  {
    if a == [] {
      assert a + b == b;
    } else {
      assert (a + b)[1..] == a[1..] + b;
      if a[0].tick !in table {
        TicksInPieces(table[a[0].tick := a[0]], a[1..], b);
      }
    }
  }

  lemma {:induction false} CommunicationsInPieces(
      table: map<(CommunicationKey, nat), seq<nat>>, a: seq<CommunicationRow>, b: seq<CommunicationRow>)
    ensures InsertCommunications(table, a + b) ==
      match InsertCommunications(table, a) { case None => None case Some(next) => InsertCommunications(next, b) }
    decreases |a|
  {
    if a == [] {
      assert a + b == b;
    } else {
      assert (a + b)[1..] == a[1..] + b;
      if (a[0].key, a[0].ordinal) !in table {
        CommunicationsInPieces(table[(a[0].key, a[0].ordinal) := a[0].payload], a[1..], b);
      }
    }
  }

  lemma {:induction false} ExtremesInPieces(a: seq<TickResult>, b: seq<TickResult>)
    requires a != [] && b != []
    ensures LeastTick(a + b) == if LeastTick(a) < LeastTick(b) then LeastTick(a) else LeastTick(b)
    ensures GreatestTick(a + b) == if GreatestTick(a) > GreatestTick(b) then GreatestTick(a) else GreatestTick(b)
  {
    assert (a + b)[1..] == a[1..] + b;
    if |a| > 1 {
      ExtremesInPieces(a[1..], b);
    } else {
      assert a[1..] + b == b;
    }
  }

  lemma CountInPieces(d: Database, a: seq<TickResult>, b: seq<TickResult>)
    ensures CountTicks(CountTicks(d, a), b) == CountTicks(d, a + b)
  {
    if a == [] {
      assert a + b == b;
    } else if b == [] {
      assert a + b == a;
    } else {
      ExtremesInPieces(a, b);
    }
  }

  lemma CountIgnoresTables(d: Database, rows: seq<TickResult>, t: map<nat, TickResult>,
                           c: map<(CommunicationKey, nat), seq<nat>>, e: seq<ErrorRow>)
    ensures CountTicks(d.(ticks := t, communications := c, errors := e), rows) ==
      CountTicks(d, rows).(ticks := t, communications := c, errors := e)
  {
  }

  /** Committing two batches in turn is committing their concatenation, failures included. */
  lemma CommittedInPieces(d: Database, a: Batch, b: Batch)
    ensures Committed(d, Join(a, b)) ==
      match Committed(d, a) { case None => None case Some(next) => Committed(next, b) }
  {
    TicksInPieces(d.ticks, a.ticks, b.ticks);
    CommunicationsInPieces(d.communications, a.communications, b.communications);
    if Committed(d, a).Some? {
      var next := Committed(d, a).value;
      CountInPieces(d, a.ticks, b.ticks);
      CountIgnoresTables(CountTicks(d, a.ticks), b.ticks, next.ticks, next.communications, next.errors);
      assert d.errors + (a.errors + b.errors) == (d.errors + a.errors) + b.errors;
    }
  }

  // ---------- The invariant of every run ----------

  /** The ordinal counters lie above every ordinal used so far, and absent keys were never used. */
  ghost predicate OrdinalsAbove(ordinals: map<CommunicationKey, nat>, taken: seq<Stored>) {
    forall x :: x in taken && x.StoredCommunication? ==> x.row.ordinal < NextOrdinal(ordinals, x.row.key)
  }

  /** The store is what one single batch of the first `persisted` records would have made of an empty one. */
  ghost predicate StoresPrefix(w: Writer) {
    && w.persisted <= |w.taken|
    && Committed(Created(w.store.expected), BatchOf(w.taken[..w.persisted])) == Some(w.store.(status := InProgress))
  }

  ghost predicate Inv(w: Writer) {
    && w.batchSize > 0
    && StoresPrefix(w)
    && w.batch == BatchOf(w.taken[w.persisted..])
    && OrdinalsAbove(w.nextOrdinal, w.taken)
    && (w.mode.Running? ==> |w.taken| - w.persisted < w.batchSize && w.store.status == InProgress)
    && (!w.mode.Failed? ==> (w.startedAt.Some? <==> w.persisted < |w.taken|))
    && (w.mode.Finished? ==> w.persisted == |w.taken| && w.store.status != InProgress)
  }

  /** The invariant part way through a turn, when a full batch may be pending. */
  ghost predicate Ready(w: Writer) {
    && w.batchSize > 0
    && StoresPrefix(w)
    && w.batch == BatchOf(w.taken[w.persisted..])
    && OrdinalsAbove(w.nextOrdinal, w.taken)
    && w.mode.Running? && w.store.status == InProgress
    && (w.startedAt.Some? <==> w.persisted < |w.taken|)
  }

  lemma CountersStayAbove(ordinals: map<CommunicationKey, nat>, taken: seq<Stored>, x: Stored)
    requires OrdinalsAbove(ordinals, taken)
    ensures OrdinalsAbove(Advanced(ordinals, x), taken + [x])
  {
  }

  lemma EnterKeeps(w: Writer, r: Record, now: int)
    requires Ready(w)
    ensures Ready(Enter(w, r, now))
    ensures RecordCount(Enter(w, r, now).batch) == |w.taken| + 1 - w.persisted
  {
    var x := Numbered(w.nextOrdinal, r);
    assert (w.taken + [x])[..w.persisted] == w.taken[..w.persisted];
    assert (w.taken + [x])[w.persisted..] == w.taken[w.persisted..] + [x];
    BatchOfAppend(w.taken[w.persisted..], x);
    BatchOfCounts(w.taken[w.persisted..] + [x]);
    CountersStayAbove(w.nextOrdinal, w.taken, x);
  }

  /** Flushing commits everything taken, or fails, according to whether it could all be one batch. */
  lemma FlushCommitsEverything(w: Writer)
    requires Ready(w)
    ensures Committed(Created(w.store.expected), BatchOf(w.taken)) == Committed(w.store, w.batch)
  {
    assert w.taken == w.taken[..w.persisted] + w.taken[w.persisted..];
    BatchOfConcat(w.taken[..w.persisted], w.taken[w.persisted..]);
    CommittedInPieces(Created(w.store.expected), BatchOf(w.taken[..w.persisted]), BatchOf(w.taken[w.persisted..]));
    assert w.store.(status := InProgress) == w.store;
  }

  lemma FlushKeeps(w: Writer)
    requires Ready(w)
    ensures Inv(FlushPending(w))
    ensures FlushPending(w).mode.Running? ==> FlushPending(w).persisted == |w.taken|
  {
    FlushCommitsEverything(w);
    assert w.taken[..|w.taken|] == w.taken && w.taken[|w.taken|..] == [];
    if Committed(w.store, w.batch).Some? {
      var d := Committed(w.store, w.batch).value;
      assert d.(status := InProgress) == d;
    }
  }

  lemma FinishKeeps(w: Writer, requested: Option<CaptureStatus>)
    requires Inv(w) && w.mode.Running? && w.persisted == |w.taken|
    ensures Inv(Finish(w, requested))
  {
    var f := Finish(w, requested);
    assert f.store.(status := InProgress) == w.store.(status := InProgress);
  }

  /** Every turn of the writer keeps the invariant. */
  lemma StepKeeps(w: Writer, a: Arrival)
    requires Inv(w)
    ensures Inv(Step(w, a))
  {
    if w.mode.Running? {
      match a
      case Expired => FlushKeeps(w);
      case Taken(Row(r), now) =>
        EnterKeeps(w, r, now);
        FlushKeeps(Enter(w, r, now));
      case Taken(Flush, _) => FlushKeeps(w);
      case Taken(Finalize(requested), _) =>
        FlushKeeps(w);
        if !FlushPending(w).mode.Failed? {
          FinishKeeps(FlushPending(w), requested);
        }
    }
  }

  /**
   In every run: the stored rows are a batch-aligned prefix of the records taken, fewer records than a
   batch are pending between turns, and the batch timer is set exactly when something is pending.
   */
  lemma {:induction false} EveryRunKeeps(expected: nat, batchSize: nat, arrivals: seq<Arrival>)
    requires batchSize > 0
    ensures Inv(Run(Started(expected, batchSize), arrivals))
    ensures Run(Started(expected, batchSize), arrivals).store.expected == expected
  {
    if arrivals == [] {
      var w := Started(expected, batchSize);
      assert w.taken[..0] == [] && w.taken[0..] == [];
      assert w.store.errors + EMPTY_BATCH.errors == [];
    } else {
      EveryRunKeeps(expected, batchSize, arrivals[..|arrivals| - 1]);
      StepKeeps(Run(Started(expected, batchSize), arrivals[..|arrivals| - 1]), arrivals[|arrivals| - 1]);
      ExpectedStays(Run(Started(expected, batchSize), arrivals[..|arrivals| - 1]), arrivals[|arrivals| - 1]);
    }
  }

  lemma ExpectedStays(w: Writer, a: Arrival)
    ensures Step(w, a).store.expected == w.store.expected
  {
  }

  /**
   When a turn commits: a record that leaves fewer than a batch unsaved commits nothing, and every other turn commits
   everything taken, or stops the writer.
   */
  lemma CommitsExactlyWhen(w: Writer, a: Arrival)
    requires Inv(w) && w.mode.Running?
    ensures var t := Step(w, a);
      if a.Taken? && a.item.Row? && |w.taken| + 1 - w.persisted < w.batchSize
      then t.mode.Running? && t.persisted == w.persisted && t.store == w.store && |t.taken| == |w.taken| + 1
      else t.mode.Failed? || t.persisted == |t.taken|
  {
    if a.Taken? && a.item.Row? {
      EnterKeeps(w, a.item.record, a.now);
    }
  }

  /** The clock reading at which the oldest unsaved record was taken. */
  ghost predicate OldestUnsavedSince(expected: nat, batchSize: nat, arrivals: seq<Arrival>, c: int) {
    exists k ::
      && 0 <= k < |arrivals| && arrivals[k].Taken? && arrivals[k].item.Row? && arrivals[k].now == c
      && |Run(Started(expected, batchSize), arrivals[..k]).taken|
         == Run(Started(expected, batchSize), arrivals).persisted
  }

  lemma StepStarts(w: Writer, a: Arrival)
    requires Inv(w) && Step(w, a).startedAt.Some? && w.mode.Running? && !Step(w, a).mode.Failed?
    ensures Step(w, a).persisted == w.persisted && Step(w, a).mode.Running?
    ensures w.startedAt.Some? ==> Step(w, a).startedAt == w.startedAt
    ensures w.startedAt.None? ==>
      a.Taken? && a.item.Row? && Step(w, a).startedAt == Some(a.now) && |w.taken| == w.persisted
  {
  }

  lemma {:induction false} TimerIsExact(expected: nat, batchSize: nat, arrivals: seq<Arrival>)
    requires batchSize > 0
    requires var w := Run(Started(expected, batchSize), arrivals); w.mode.Running? && w.startedAt.Some?
    ensures OldestUnsavedSince(expected, batchSize, arrivals,
      Run(Started(expected, batchSize), arrivals).startedAt.value)
  {
    var n := |arrivals| - 1;
    var before := Run(Started(expected, batchSize), arrivals[..n]);
    EveryRunKeeps(expected, batchSize, arrivals[..n]);
    StepStarts(before, arrivals[n]);
    if before.startedAt.Some? {
      TimerIsExact(expected, batchSize, arrivals[..n]);
      var k :| 0 <= k < n && arrivals[..n][k].Taken? && arrivals[..n][k].item.Row?
        && arrivals[..n][k].now == before.startedAt.value
        && |Run(Started(expected, batchSize), arrivals[..n][..k]).taken| == before.persisted;
      assert arrivals[..n][..k] == arrivals[..k];
    }
  }

  /**
   How long a running writer waits for its queue: without limit when everything is saved; otherwise until the flush
   interval has passed since the oldest unsaved record was taken, and not at all after that.
   */
  lemma UnsavedRecordsAreNotForgotten(expected: nat, batchSize: nat, arrivals: seq<Arrival>, flushInterval: int,
      now: int) returns (c: int)
    requires batchSize > 0 && Run(Started(expected, batchSize), arrivals).mode.Running?
    ensures var w := Run(Started(expected, batchSize), arrivals);
      && (w.persisted == |w.taken| ==> WaitLimit(w, flushInterval, now).None?)
      && (w.persisted < |w.taken| ==>
            && OldestUnsavedSince(expected, batchSize, arrivals, c)
            && WaitLimit(w, flushInterval, now)
               == Some(if now < c + flushInterval then c + flushInterval - now else 0))
  {
    var w := Run(Started(expected, batchSize), arrivals);
    EveryRunKeeps(expected, batchSize, arrivals);
    if w.persisted < |w.taken| {
      c := w.startedAt.value;
      TimerIsExact(expected, batchSize, arrivals);
    } else {
      c := 0;
    }
  }

  // ---------- The status a run ends with ----------

  /** The turn takes a finalize request and stops the writer with the status that was asked for. */
  ghost predicate FinishesAsAsked(w: Writer, a: Arrival) {
    && w.mode.Running? && a.Taken? && a.item.Finalize? && Step(w, a).mode.Finished?
    && IsStatusFor(Step(w, a).store, a.item.requested)
  }

  lemma StoredMetadataIsExact(w: Writer)
    requires Inv(w)
    ensures MetadataExact(w.store)
  {
    assert MetadataExact(Created(w.store.expected));
    BatchKeepsMetadataExact(Created(w.store.expected), BatchOf(w.taken[..w.persisted]));
    assert MetadataExact(w.store.(status := InProgress));
  }

  lemma FinishMeans(w: Writer, requested: Option<CaptureStatus>)
    requires MetadataExact(w.store) && Finish(w, requested).mode.Finished?
    ensures var d := Finish(w, requested).store;
      && IsStatusFor(d, requested) && requested != Some(InProgress)
      && (d.status == Complete ==> d.expected > 0 && d.ticks.Keys == Below(d.expected))
  {
    FinalizationMeans(w.store, requested);
  }

  lemma FinishingMeans(w: Writer, a: Arrival)
    requires Inv(w) && w.mode.Running? && Step(w, a).mode.Finished?
    ensures FinishesAsAsked(w, a) && a.item.requested != Some(InProgress)
    ensures var d := Step(w, a).store; d.status == Complete ==> d.expected > 0 && d.ticks.Keys == Below(d.expected)
  {
    FlushKeeps(w);
    StoredMetadataIsExact(FlushPending(w));
    assert a.Taken? && a.item.Finalize? && Step(w, a) == Finish(FlushPending(w), a.item.requested);
    FinishMeans(FlushPending(w), a.item.requested);
  }

  /**
   Over whole runs: a finished writer took one finalize request while it was running, finished on it, and stays as it
   was then; and the status in the store is the one that request named. COMPLETE was only stored with every expected
   tick there, and IN_PROGRESS never.
   */
  lemma {:induction false} FinishedStatusWasAskedFor(expected: nat, batchSize: nat, arrivals: seq<Arrival>)
    returns (k: nat)
    requires batchSize > 0 && Run(Started(expected, batchSize), arrivals).mode.Finished?
    ensures k < |arrivals| && arrivals[k].Taken? && arrivals[k].item.Finalize?
    ensures Run(Started(expected, batchSize), arrivals[..k]).mode.Running?
    ensures Run(Started(expected, batchSize), arrivals) == Run(Started(expected, batchSize), arrivals[..k + 1])
    ensures var d, requested := Run(Started(expected, batchSize), arrivals).store, arrivals[k].item.requested;
      var everyTick := d.expected > 0 && d.ticks.Keys == Below(d.expected);
      && (requested.Some? ==> d.status == requested.value && d.status != InProgress)
      && (requested.None? ==> d.status == if everyTick then Complete else Incomplete)
      && (d.status == Complete ==> everyTick)
  {
    var n := |arrivals| - 1;
    var start := Started(expected, batchSize);
    var before := Run(start, arrivals[..n]);
    EveryRunKeeps(expected, batchSize, arrivals[..n]);
    if before.mode.Running? {
      k := n;
      assert arrivals[..n + 1] == arrivals;
      FinishingMeans(before, arrivals[n]);
    } else {
      k := FinishedStatusWasAskedFor(expected, batchSize, arrivals[..n]);
      assert arrivals[..n][..k] == arrivals[..k] && arrivals[..n][..k + 1] == arrivals[..k + 1];
    }
  }

  /** The only failure after which the batch is nevertheless stored: a finalize request whose status is refused. */
  predicate OnlyStatusRefused(w: Writer, a: Arrival) {
    && a.Taken? && a.item.Finalize? && Committed(w.store, w.batch).Some?
    && FinalStatus(Committed(w.store, w.batch).value, a.item.requested).Failure?
  }

  /**
   A turn that fails stops the writer for good. Its batch is not stored at all, unless the batch was part of a finalize
   request and only the status of the run was refused; then it is stored whole.
   */
  lemma FailureLeavesTheStore(w: Writer, a: Arrival, more: seq<Arrival>)
    requires w.mode.Running? && Step(w, a).mode.Failed?
    ensures !OnlyStatusRefused(w, a) ==> Step(w, a).store == w.store && Step(w, a).persisted == w.persisted
    ensures OnlyStatusRefused(w, a) ==>
      Some(Step(w, a).store) == Committed(w.store, w.batch) && Step(w, a).persisted == |w.taken|
    ensures Run(Step(w, a), more) == Step(w, a)
  {
    StoppedStays(Step(w, a), more);
  }

  lemma {:induction false} StoppedStays(w: Writer, more: seq<Arrival>)
    requires !w.mode.Running?
    ensures Run(w, more) == w
  {
    if more != [] {
      StoppedStays(w, more[..|more| - 1]);
    }
  }

  // ---------- What was taken ----------

  /** The records among the arrivals, in order. */
  function Records(arrivals: seq<Arrival>): seq<Record> {
    if arrivals == [] then []
    else
      var last := arrivals[|arrivals| - 1];
      Records(arrivals[..|arrivals| - 1]) + if last.Taken? && last.item.Row? then [last.item.record] else []
  }

  /** `x` is `r`, with an ordinal filled in where `r` had none. */
  predicate Writes(x: Stored, r: Record) {
    match r
    case Tick(result) => x == StoredTick(result)
    case Communication(key, ordinal, payload) =>
      x.StoredCommunication? && x.row.key == key && x.row.payload == payload
        && (ordinal.Some? ==> x.row.ordinal == ordinal.value)
    case Diagnostic(row) => x == StoredDiagnostic(row)
  }

  ghost predicate WritesAll(taken: seq<Stored>, records: seq<Record>) {
    |taken| == |records| && forall k :: 0 <= k < |taken| ==> Writes(taken[k], records[k])
  }

  /** One turn takes one record at most, and never drops or changes an earlier one. */
  lemma StepTakes(w: Writer, a: Arrival)
    requires w.mode.Running?
    ensures var e := Step(w, a);
      if a.Taken? && a.item.Row? then
        e.taken == w.taken + [Numbered(w.nextOrdinal, a.item.record)]
        && e.nextOrdinal == Advanced(w.nextOrdinal, Numbered(w.nextOrdinal, a.item.record))
      else e.taken == w.taken && e.nextOrdinal == w.nextOrdinal
  {
  }

  lemma RunningBefore(w: Writer, arrivals: seq<Arrival>)
    requires arrivals != [] && Run(w, arrivals).mode.Running?
    ensures Run(w, arrivals[..|arrivals| - 1]).mode.Running?
  {
  }

  /** The records among the arrivals that came while the writer ran. */
  function TakenRecords(w: Writer, arrivals: seq<Arrival>): seq<Record> {
    if arrivals == [] then []
    else
      var before, last := arrivals[..|arrivals| - 1], arrivals[|arrivals| - 1];
      TakenRecords(w, before)
      + if Run(w, before).mode.Running? && last.Taken? && last.item.Row? then [last.item.record] else []
  }

  /** While it runs, those are all of them; once it stopped, those before it stopped. */
  lemma {:induction false} RunningTakesAll(w: Writer, arrivals: seq<Arrival>)
    requires Run(w, arrivals).mode.Running?
    ensures TakenRecords(w, arrivals) == Records(arrivals)
  {
    if arrivals != [] {
      RunningBefore(w, arrivals);
      RunningTakesAll(w, arrivals[..|arrivals| - 1]);
    }
  }

  /** In every run the writer has taken exactly those records, in order and unaltered. */
  lemma {:induction false} NothingElseIsTaken(expected: nat, batchSize: nat, arrivals: seq<Arrival>)
    ensures WritesAll(Run(Started(expected, batchSize), arrivals).taken,
      TakenRecords(Started(expected, batchSize), arrivals))
  {
    if arrivals != [] {
      var before := arrivals[..|arrivals| - 1];
      NothingElseIsTaken(expected, batchSize, before);
      if Run(Started(expected, batchSize), before).mode.Running? {
        StepTakes(Run(Started(expected, batchSize), before), arrivals[|arrivals| - 1]);
      }
    }
  }

  /** A running writer has taken exactly the records that arrived, in order and unaltered. */
  lemma NothingIsSkipped(expected: nat, batchSize: nat, arrivals: seq<Arrival>)
    requires Run(Started(expected, batchSize), arrivals).mode.Running?
    ensures WritesAll(Run(Started(expected, batchSize), arrivals).taken, Records(arrivals))
  {
    NothingElseIsTaken(expected, batchSize, arrivals);
    RunningTakesAll(Started(expected, batchSize), arrivals);
  }

  // ---------- Barriers ----------

  /** The row `x` is in the store. */
  predicate Holds(d: Database, x: Stored) {
    match x
    case StoredTick(r) => r.tick in d.ticks && d.ticks[r.tick] == r
    case StoredCommunication(r) => (r.key, r.ordinal) in d.communications
      && d.communications[(r.key, r.ordinal)] == r.payload
    case StoredDiagnostic(r) => r in d.errors
  }

  /** The diagnostics among stored records, in order. */
  function Problems(s: seq<Stored>): seq<ErrorRow> {
    if s == [] then []
    else
      var last := s[|s| - 1];
      Problems(s[..|s| - 1]) + if last.StoredDiagnostic? then [last.problem] else []
  }

  lemma {:induction false} BatchHasItsProblems(s: seq<Stored>)
    ensures BatchOf(s).errors == Problems(s)
  {
    if s != [] {
      BatchHasItsProblems(s[..|s| - 1]);
      assert Problems(s[..|s| - 1]) + [] == Problems(s[..|s| - 1]);
    }
  }

  /** The diagnostics in the store are those of the saved records, in the order in which they were taken. */
  lemma DiagnosticsKeepTheirOrder(w: Writer)
    requires Inv(w)
    ensures w.store.errors == Problems(w.taken[..w.persisted])
  {
    var saved := w.taken[..w.persisted];
    BatchHasItsProblems(saved);
    assert Created(w.store.expected).errors + BatchOf(saved).errors == BatchOf(saved).errors;
    assert w.store.(status := InProgress).errors == w.store.errors;
  }

  ghost predicate HoldsRecord(d: Database, r: Record) {
    exists x :: Writes(x, r) && Holds(d, x)
  }

  /** Adding one row to a database, as a batch of its own. */
  function PutRow(d: Database, x: Stored): Option<Database> {
    Committed(d, Extend(EMPTY_BATCH, x))
  }

  predicate Fresh(d: Database, x: Stored) {
    match x
    case StoredTick(r) => r.tick !in d.ticks
    case StoredCommunication(r) => (r.key, r.ordinal) !in d.communications
    case StoredDiagnostic(_) => true
  }

  lemma OneTick(table: map<nat, TickResult>, r: TickResult)
    ensures InsertTicks(table, [r]) == if r.tick in table then None else Some(table[r.tick := r])
  {
    assert [r][1..] == [];
  }

  lemma OneCommunication(table: map<(CommunicationKey, nat), seq<nat>>, r: CommunicationRow)
    ensures InsertCommunications(table, [r]) ==
      if (r.key, r.ordinal) in table then None else Some(table[(r.key, r.ordinal) := r.payload])
  {
    assert [r][1..] == [];
  }

  lemma PutRowAdds(d: Database, x: Stored)
    ensures PutRow(d, x).Some? <==> Fresh(d, x)
    ensures Fresh(d, x) ==> forall y :: Holds(PutRow(d, x).value, y) <==> Holds(d, y) || x == y
    ensures Fresh(d, x) ==> PutRow(d, x).value.ticks == if x.StoredTick? then d.ticks[x.result.tick := x.result]
      else d.ticks
  {
    match x
    case StoredTick(r) =>
      OneTick(d.ticks, r);
      assert EMPTY_BATCH.ticks + [r] == [r];
      assert d.errors + [] == d.errors;
    case StoredCommunication(r) =>
      OneCommunication(d.communications, r);
      assert EMPTY_BATCH.communications + [r] == [r];
      assert d.errors + [] == d.errors;
    case StoredDiagnostic(r) =>
      assert EMPTY_BATCH.errors + [r] == [r];
  }

  /** Committing a batch is adding its rows one by one. */
  lemma CommitSplitsOffLast(d: Database, s: seq<Stored>)
    requires s != []
    ensures Committed(d, BatchOf(s)) ==
      match Committed(d, BatchOf(s[..|s| - 1])) { case None => None case Some(next) => PutRow(next, s[|s| - 1]) }
  {
    JoinOne(BatchOf(s[..|s| - 1]), s[|s| - 1]);
    CommittedInPieces(d, BatchOf(s[..|s| - 1]), Extend(EMPTY_BATCH, s[|s| - 1]));
  }

  lemma JoinOne(b: Batch, x: Stored)
    ensures Extend(b, x) == Join(b, Extend(EMPTY_BATCH, x))
  {
    JoinExtends(b, EMPTY_BATCH, x);
    assert Join(b, EMPTY_BATCH) == b;
  }

  /** The store of a committed sequence of rows holds those rows and no others. */
  lemma {:induction false} CommitHoldsExactly(expected: nat, s: seq<Stored>)
    requires Committed(Created(expected), BatchOf(s)).Some?
    ensures forall y :: Holds(Committed(Created(expected), BatchOf(s)).value, y) <==> y in s
  {
    if s != [] {
      CommitSplitsOffLast(Created(expected), s);
      CommitHoldsExactly(expected, s[..|s| - 1]);
      PutRowAdds(Committed(Created(expected), BatchOf(s[..|s| - 1])).value, s[|s| - 1]);
      assert s == s[..|s| - 1] + [s[|s| - 1]];
    }
  }

  /** At every point the store holds exactly the first `persisted` of the records taken. */
  lemma StoreHoldsThePrefix(w: Writer)
    requires Inv(w)
    ensures forall y :: Holds(w.store, y) <==> y in w.taken[..w.persisted]
  {
    CommitHoldsExactly(w.store.expected, w.taken[..w.persisted]);
    assert forall y :: Holds(w.store.(status := InProgress), y) == Holds(w.store, y);
  }

  lemma AllHeld(d: Database, taken: seq<Stored>, records: seq<Record>)
    requires WritesAll(taken, records)
    requires forall x :: x in taken ==> Holds(d, x)
    ensures forall r :: r in records ==> HoldsRecord(d, r)
  {
    forall r | r in records
      ensures HoldsRecord(d, r)
    {
      var k :| 0 <= k < |records| && records[k] == r;
      assert Writes(taken[k], r) && Holds(d, taken[k]);
    }
  }

  /** A `flush` or `finalize` that reports success means that every record queued before it is stored. */
  lemma SuccessfulBarrierMeansStored(expected: nat, batchSize: nat, before: seq<Arrival>, a: Arrival)
    requires batchSize > 0
    requires Answer(Run(Started(expected, batchSize), before), a) == Some(true)
    ensures var after := Run(Started(expected, batchSize), before + [a]);
      after.persisted == |after.taken| && forall r :: r in Records(before) ==> HoldsRecord(after.store, r)
  {
    var w := Run(Started(expected, batchSize), before);
    assert (before + [a])[..|before|] == before;
    EveryRunKeeps(expected, batchSize, before);
    NothingIsSkipped(expected, batchSize, before);
    StepKeeps(w, a);
    BarrierFlushes(w, a);
    var after := Step(w, a);
    StoreHoldsThePrefix(after);
    assert after.taken[..after.persisted] == w.taken;
    AllHeld(after.store, w.taken, Records(before));
  }

  lemma BarrierFlushes(w: Writer, a: Arrival)
    requires Inv(w) && Answer(w, a) == Some(true)
    ensures Step(w, a).taken == w.taken && Step(w, a).persisted == |w.taken|
  {
    FlushKeeps(w);
  }

  /** What is stored stays stored, whatever arrives later. */
  lemma {:induction false} StoredRowsStay(w: Writer, more: seq<Arrival>, x: Stored)
    requires Inv(w) && Holds(w.store, x)
    ensures Inv(Run(w, more)) && Holds(Run(w, more).store, x)
  {
    if more != [] {
      StoredRowsStay(w, more[..|more| - 1], x);
      var v := Run(w, more[..|more| - 1]);
      var a := more[|more| - 1];
      StepKeeps(v, a);
      StoreHoldsThePrefix(v);
      StoreHoldsThePrefix(Step(v, a));
      StepExtends(v, a);
      assert x in v.taken[..v.persisted];
      var k :| 0 <= k < v.persisted && v.taken[k] == x;
      assert Step(v, a).taken[..Step(v, a).persisted][k] == x;
    }
  }

  lemma StepExtends(w: Writer, a: Arrival)
    requires Inv(w)
    ensures w.taken <= Step(w, a).taken && w.persisted <= Step(w, a).persisted
  {
  }

  // ---------- Ordinals ----------

  predicate Automatic(r: Record) {
    r.Communication? && r.ordinal.None?
  }

  /** A row of the key `key` whose ordinal is at least `n`. */
  predicate Reaches(x: Stored, key: CommunicationKey, n: nat) {
    x.StoredCommunication? && x.row.key == key && x.row.ordinal >= n
  }

  /**
   An ordinal filled in by the writer is above every earlier ordinal of its key, batches and failures notwithstanding.
   */
  lemma AutomaticOrdinalIsNew(w: Writer, r: Record, now: int)
    requires Inv(w) && w.mode.Running? && Automatic(r)
    ensures var e := Step(w, Taken(Row(r), now));
      && |e.taken| == |w.taken| + 1 && e.taken[|w.taken|].StoredCommunication?
      && forall x :: x in w.taken ==> !Reaches(x, r.key, e.taken[|w.taken|].row.ordinal)
  {
    EnterKeeps(w, r, now);
    assert Enter(w, r, now).taken[|w.taken|] == Numbered(w.nextOrdinal, r);
  }

  function OfKey(key: CommunicationKey): Record -> bool {
    (r: Record) => r.Communication? && r.key == key
  }

  function NumbersOf(key: CommunicationKey, s: seq<Stored>): seq<nat> {
    if s == [] then []
    else
      var x := s[|s| - 1];
      NumbersOf(key, s[..|s| - 1]) + if x.StoredCommunication? && x.row.key == key then [x.row.ordinal] else []
  }

  lemma NumbersOfAppend(key: CommunicationKey, s: seq<Stored>, x: Stored)
    ensures NumbersOf(key, s + [x]) ==
      NumbersOf(key, s) + if x.StoredCommunication? && x.row.key == key then [x.row.ordinal] else []
  {
    assert (s + [x])[..|s|] == s;
  }

  /** The key's rows are numbered 0, 1, 2, … and there are as many as records of the key. */
  ghost predicate NumberedInOrder(key: CommunicationKey, taken: seq<Stored>, records: seq<Record>,
      ordinals: map<CommunicationKey, nat>) {
    && |NumbersOf(key, taken)| == |Filter(OfKey(key), records)| == NextOrdinal(ordinals, key)
    && forall k :: 0 <= k < |NumbersOf(key, taken)| ==> NumbersOf(key, taken)[k] == k
  }

  lemma NumberingContinues(key: CommunicationKey, taken: seq<Stored>, records: seq<Record>,
      ordinals: map<CommunicationKey, nat>, r: Record)
    requires NumberedInOrder(key, taken, records, ordinals)
    requires OfKey(key)(r) ==> Automatic(r)
    ensures var x := Numbered(ordinals, r);
      NumberedInOrder(key, taken + [x], records + [r], Advanced(ordinals, x))
  {
    NumbersOfAppend(key, taken, Numbered(ordinals, r));
    FilterConcat(OfKey(key), records, [r]);
    FilterOne(OfKey(key), r);
    if !OfKey(key)(r) {
      assert NumbersOf(key, taken) + [] == NumbersOf(key, taken);
      assert Filter(OfKey(key), records) + [] == Filter(OfKey(key), records);
    }
  }

  lemma FilterOne(keep: Record -> bool, r: Record)
    ensures Filter(keep, [r]) == if keep(r) then [r] else []
  {
    assert [r][1..] == [];
  }

  /**
   When no record of a key brings its own ordinal, the key's rows are numbered from 0 on in arrival order, one for each
   of its records taken, whether the writer still runs, has failed or has finalised the capture.
   */
  lemma {:induction false} AutomaticOrdinalsCount(expected: nat, batchSize: nat, arrivals: seq<Arrival>,
      key: CommunicationKey)
    requires forall r :: r in TakenRecords(Started(expected, batchSize), arrivals) && OfKey(key)(r) ==> Automatic(r)
    ensures var w := Run(Started(expected, batchSize), arrivals);
      NumberedInOrder(key, w.taken, TakenRecords(Started(expected, batchSize), arrivals), w.nextOrdinal)
  {
    if arrivals != [] {
      var start, before, last := Started(expected, batchSize), arrivals[..|arrivals| - 1], arrivals[|arrivals| - 1];
      var w := Run(start, before);
      AutomaticOrdinalsCount(expected, batchSize, before, key);
      if w.mode.Running? {
        StepTakes(w, last);
      }
      if w.mode.Running? && last.Taken? && last.item.Row? {
        assert TakenRecords(start, arrivals) == TakenRecords(start, before) + [last.item.record];
        assert last.item.record in TakenRecords(start, arrivals);
        NumberingContinues(key, w.taken, TakenRecords(start, before), w.nextOrdinal, last.item.record);
      } else {
        assert TakenRecords(start, arrivals) == TakenRecords(start, before);
      }
    }
  }

  // ---------- When a writer fails, and what COMPLETE means ----------

  /** No tick is reported twice, and no ordinal of a communication key is used twice. */
  ghost predicate NoClash(s: seq<Stored>) {
    forall i, j :: 0 <= i < j < |s| ==> !Clash(s[i], s[j])
  }

  predicate Clash(x: Stored, y: Stored) {
    match x
    case StoredTick(r) => y.StoredTick? && y.result.tick == r.tick
    case StoredCommunication(r) => y.StoredCommunication? && y.row.key == r.key && y.row.ordinal == r.ordinal
    case StoredDiagnostic(_) => false
  }

  lemma FreshMeansNoClash(d: Database, s: seq<Stored>, x: Stored)
    requires forall y :: Holds(d, y) <==> y in s
    requires forall t :: t in d.ticks ==> d.ticks[t].tick == t
    ensures Fresh(d, x) <==> forall y :: y in s ==> !Clash(y, x)
  {
    if x.StoredTick? && x.result.tick in d.ticks {
      assert Holds(d, StoredTick(d.ticks[x.result.tick]));
    }
    if x.StoredCommunication? && (x.row.key, x.row.ordinal) in d.communications {
      assert Holds(d,
        StoredCommunication(CommunicationRow(x.row.key, x.row.ordinal, d.communications[(x.row.key, x.row.ordinal)])));
    }
    forall y | y in s && Clash(y, x)
      ensures !Fresh(d, x)
    {
      assert Holds(d, y);
    }
  }

  /** Rows can be committed exactly when no two of them claim the same key. */
  lemma {:induction false} CommitsExactlyWithoutClash(expected: nat, s: seq<Stored>)
    ensures Committed(Created(expected), BatchOf(s)).Some? <==> NoClash(s)
    ensures Committed(Created(expected), BatchOf(s)).Some? ==>
      MetadataExact(Committed(Created(expected), BatchOf(s)).value)
  {
    if Committed(Created(expected), BatchOf(s)).Some? {
      BatchKeepsMetadataExact(Created(expected), BatchOf(s));
    }
    if s != [] {
      var front, x := s[..|s| - 1], s[|s| - 1];
      CommitsExactlyWithoutClash(expected, front);
      CommitSplitsOffLast(Created(expected), s);
      assert s == front + [x];
      if NoClash(front) {
        CommitHoldsExactly(expected, front);
        var d := Committed(Created(expected), BatchOf(front)).value;
        PutRowAdds(d, x);
        FreshMeansNoClash(d, front, x);
        assert NoClash(s) <==> forall y :: y in front ==> !Clash(y, x);
      } else {
        var i, j :| 0 <= i < j < |front| && Clash(front[i], front[j]);
        assert Clash(s[i], s[j]);
      }
    }
  }

  /** A flush succeeds exactly when no two records taken so far claim the same key. */
  lemma FlushFailsExactlyOnClash(w: Writer, now: int)
    requires Inv(w) && w.mode.Running?
    ensures Answer(w, Taken(Flush, now)) == Some(NoClash(w.taken))
  {
    FlushCommitsEverything(w);
    CommitsExactlyWithoutClash(w.store.expected, w.taken);
  }

  ghost function TicksTaken(taken: seq<Stored>): set<nat> {
    set x | x in taken && x.StoredTick? :: x.result.tick
  }

  /** After a flush that went through, the stored ticks are the ticks taken and the metadata is exact. */
  lemma FlushedStore(w: Writer)
    requires Ready(w)
    ensures FlushPending(w).mode.Running? <==> NoClash(w.taken)
    ensures NoClash(w.taken) ==>
      var d := FlushPending(w).store;
      MetadataExact(d) && d.ticks.Keys == TicksTaken(w.taken) && d.expected == w.store.expected
        && d.status == InProgress
  {
    FlushCommitsEverything(w);
    CommitsExactlyWithoutClash(w.store.expected, w.taken);
    if NoClash(w.taken) {
      CommitHoldsExactly(w.store.expected, w.taken);
      TicksAreTheKeys(FlushPending(w).store, w.taken);
    }
  }

  /** Finalising without an explicit status: COMPLETE is reported exactly when every tick of the run was taken. */
  lemma CompleteExactlyWhenEveryTickCame(w: Writer, now: int)
    requires Inv(w) && w.mode.Running? && w.store.expected > 0
    ensures var f := Step(w, Taken(Finalize(None), now));
      && (f.mode.Finished? <==> NoClash(w.taken))
      && (f.store.status == Complete <==> NoClash(w.taken) && TicksTaken(w.taken) == Below(w.store.expected))
  {
    FlushedStore(w);
    if NoClash(w.taken) {
      CompleteIsJustified(FlushPending(w).store, None);
    }
  }

  lemma TicksAreTheKeys(d: Database, s: seq<Stored>)
    requires forall y :: Holds(d, y) <==> y in s
    requires forall t :: t in d.ticks ==> d.ticks[t].tick == t
    ensures d.ticks.Keys == TicksTaken(s)
  {
    forall t | t in d.ticks
      ensures t in TicksTaken(s)
    {
      assert Holds(d, StoredTick(d.ticks[t]));
    }
    forall t | t in TicksTaken(s)
      ensures t in d.ticks
    {
      var x :| x in s && x.StoredTick? && x.result.tick == t;
      assert Holds(d, x);
    }
  }

  /**
   A status of COMPLETE in any reachable state, however it was requested, means that every expected tick is stored.
   */
  lemma {:induction false} CompleteIsAlwaysJustified(expected: nat, batchSize: nat, arrivals: seq<Arrival>)
    requires batchSize > 0 && expected > 0
    requires Run(Started(expected, batchSize), arrivals).store.status == Complete
    ensures Run(Started(expected, batchSize), arrivals).mode.Finished?
    ensures Run(Started(expected, batchSize), arrivals).store.ticks.Keys == Below(expected)
    ensures MetadataExact(Run(Started(expected, batchSize), arrivals).store)
  {
    if arrivals != [] {
      var before := arrivals[..|arrivals| - 1];
      var w := Run(Started(expected, batchSize), before);
      var a := arrivals[|arrivals| - 1];
      EveryRunKeeps(expected, batchSize, before);
      if w.store.status == Complete {
        CompleteIsAlwaysJustified(expected, batchSize, before);
      } else {
        assert a.Taken? && a.item.Finalize? && w.mode.Running?;
        FlushedStore(w);
        CompleteIsJustified(FlushPending(w).store, a.item.requested);
      }
    }
  }

  // ---------- Runs that cannot fail ----------

  /** The ticks of the fixed results among some records, in order. */
  function TickNumbers(records: seq<Record>): seq<int> {
    if records == [] then []
    else
      var last := records[|records| - 1];
      TickNumbers(records[..|records| - 1]) + if last.Tick? then [last.result.tick] else []
  }

  lemma TickNumbersAppend(records: seq<Record>, r: Record)
    ensures TickNumbers(records + [r]) == TickNumbers(records) + if r.Tick? then [r.result.tick] else []
  {
    assert (records + [r])[..|records|] == records;
  }

  ghost predicate Distinct(s: seq<int>) {
    forall i, j :: 0 <= i < j < |s| ==> s[i] != s[j]
  }

  ghost predicate AllAutomatic(records: seq<Record>) {
    forall r :: r in records && r.Communication? ==> r.ordinal.None?
  }

  ghost predicate NeverFinalized(arrivals: seq<Arrival>) {
    forall a :: a in arrivals ==> !(a.Taken? && a.item.Finalize?)
  }

  /** The ticks taken are the ticks that arrived. */
  lemma {:induction false} TakenTicksArrived(taken: seq<Stored>, records: seq<Record>)
    requires WritesAll(taken, records)
    ensures forall t :: t in TickNumbers(records) <==> exists x :: x in taken && x.StoredTick? && x.result.tick == t
  {
    if taken != [] {
      var front, x := taken[..|taken| - 1], taken[|taken| - 1];
      TakenTicksArrived(front, records[..|records| - 1]);
      assert Writes(x, records[|records| - 1]);
      assert taken == front + [x];
    }
  }

  lemma NewRecordDoesNotClash(w: Writer, records: seq<Record>, r: Record)
    requires OrdinalsAbove(w.nextOrdinal, w.taken) && NoClash(w.taken) && WritesAll(w.taken, records)
    requires Distinct(TickNumbers(records + [r])) && (r.Communication? ==> r.ordinal.None?)
    ensures NoClash(w.taken + [Numbered(w.nextOrdinal, r)])
  {
    var x := Numbered(w.nextOrdinal, r);
    TickNumbersAppend(records, r);
    TakenTicksArrived(w.taken, records);
    forall y | y in w.taken
      ensures !Clash(y, x)
    {
      if y.StoredTick? && r.Tick? {
        var ticks := TickNumbers(records);
        assert y.result.tick in ticks;
        var k :| 0 <= k < |ticks| && ticks[k] == y.result.tick;
        assert TickNumbers(records + [r])[k] == y.result.tick && TickNumbers(records + [r])[|ticks|] == r.result.tick;
      }
    }
  }

  /** One turn of a run that reports no tick twice, numbers no communication itself and has not been finalised. */
  lemma HarmlessTurn(w: Writer, a: Arrival, records: seq<Record>)
    requires Inv(w) && w.mode.Running? && NoClash(w.taken) && WritesAll(w.taken, records)
    requires !(a.Taken? && a.item.Finalize?)
    requires a.Taken? && a.item.Row? ==>
      Distinct(TickNumbers(records + [a.item.record])) && (a.item.record.Communication? ==> a.item.record.ordinal.None?)
    ensures Step(w, a).mode.Running? && NoClash(Step(w, a).taken)
  {
    if a.Taken? && a.item.Row? {
      NewRecordDoesNotClash(w, records, a.item.record);
      EnterKeeps(w, a.item.record, a.now);
      FlushedStore(Enter(w, a.item.record, a.now));
    } else {
      FlushedStore(w);
    }
  }

  lemma EarlierRecords(arrivals: seq<Arrival>)
    requires arrivals != []
    requires Distinct(TickNumbers(Records(arrivals))) && AllAutomatic(Records(arrivals))
    ensures var before, a := arrivals[..|arrivals| - 1], arrivals[|arrivals| - 1];
      && Distinct(TickNumbers(Records(before))) && AllAutomatic(Records(before))
      && (a.Taken? && a.item.Row? ==>
            Records(arrivals) == Records(before) + [a.item.record]
              && (a.item.record.Communication? ==> a.item.record.ordinal.None?))
  {
    var before, a := arrivals[..|arrivals| - 1], arrivals[|arrivals| - 1];
    if a.Taken? && a.item.Row? {
      var r := a.item.record;
      TickNumbersAppend(Records(before), r);
      assert r in Records(before) + [r];
      var some, all := TickNumbers(Records(before)), TickNumbers(Records(before) + [r]);
      assert forall i :: 0 <= i < |some| ==> some[i] == all[i];
      assert forall x :: x in Records(before) ==> x in Records(before) + [r];
    } else {
      assert Records(arrivals) == Records(before);
    }
  }

  /** Distinct ticks and automatic ordinals: no batch ever fails, wherever the batch boundaries fall. */
  lemma {:induction false} DistinctRecordsNeverFail(expected: nat, batchSize: nat, arrivals: seq<Arrival>)
    requires batchSize > 0 && NeverFinalized(arrivals)
    requires Distinct(TickNumbers(Records(arrivals))) && AllAutomatic(Records(arrivals))
    ensures Run(Started(expected, batchSize), arrivals).mode.Running?
    ensures NoClash(Run(Started(expected, batchSize), arrivals).taken)
  {
    if arrivals != [] {
      var before, a := arrivals[..|arrivals| - 1], arrivals[|arrivals| - 1];
      var w := Run(Started(expected, batchSize), before);
      assert a in arrivals && forall x :: x in before ==> x in arrivals;
      EarlierRecords(arrivals);
      DistinctRecordsNeverFail(expected, batchSize, before);
      EveryRunKeeps(expected, batchSize, before);
      NothingIsSkipped(expected, batchSize, before);
      HarmlessTurn(w, a, Records(before));
    }
  }

  /**
   A run that delivers ticks 0, 1, …, expected - 1 in order, with anything harmless in between, is finalised COMPLETE.
   */
  lemma OrderedRunIsComplete(expected: nat, batchSize: nat, arrivals: seq<Arrival>, now: int)
    requires batchSize > 0 && expected > 0 && NeverFinalized(arrivals) && AllAutomatic(Records(arrivals))
    requires TickNumbers(Records(arrivals)) == seq(expected, i => i)
    ensures var f := Step(Run(Started(expected, batchSize), arrivals), Taken(Finalize(None), now));
      f.mode.Finished? && f.store.status == Complete
  {
    var w := Run(Started(expected, batchSize), arrivals);
    DistinctRecordsNeverFail(expected, batchSize, arrivals);
    EveryRunKeeps(expected, batchSize, arrivals);
    NothingIsSkipped(expected, batchSize, arrivals);
    TakenTicksArrived(w.taken, Records(arrivals));
    var ticks := TickNumbers(Records(arrivals));
    assert forall t: nat :: t < expected ==> ticks[t] == t;
    forall t: nat
      ensures t in TicksTaken(w.taken) <==> t in Below(expected)
    {
      if t < expected {
        assert ticks[t] in ticks;
      }
      if t in ticks {
        var k :| 0 <= k < |ticks| && ticks[k] == t;
      }
    }
    CompleteExactlyWhenEveryTickCame(w, now);
  }
}
