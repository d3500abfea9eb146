/**
 The capture database: tables as maps with key constraints, one atomic transaction per batch,
 metadata kept up to date batch by batch, and the final status decided from three numbers.
 */
module CaptureStore {
  import opened Basics

  datatype PwmMeasurement = PwmMeasurement(period: nat, dutyPermyriad: nat)

  const DIGITAL_INPUTS: nat := 10
  const ANALOGUE_INPUTS: nat := 2
  const PWM_INPUTS: nat := 2

  /** An execution problem carries no measurement at all; a partial result still carries every fixed one. */
  datatype FixedResult =
    | Measured(tick: nat, digital: seq<bool>, analogue: seq<int>, pwm: seq<PwmMeasurement>, partial: bool)
    | ExecutionProblem(tick: nat)
  {
    predicate Valid() {
      Measured? ==> |digital| == DIGITAL_INPUTS && |analogue| == ANALOGUE_INPUTS && |pwm| == PWM_INPUTS
    }
  }

  /** The record's constructor admits no other number of values. */
  type TickResult = r: FixedResult | r.Valid() witness ExecutionProblem(0)

  datatype CommunicationPeripheral = CaptureI2C | CaptureSPI | CaptureUART

  datatype CommunicationKey = CommunicationKey(tick: nat, peripheral: CommunicationPeripheral, channel: nat)

  datatype CommunicationRow = CommunicationRow(key: CommunicationKey, ordinal: nat, payload: seq<nat>)

  datatype ErrorRow = ErrorRow(tick: Option<nat>, recoverable: bool, detail: string)

  datatype CaptureStatus = InProgress | Complete | Incomplete | SessionLost | ProtocolError | Aborted

  /** One unit of work: the rows of every table that a batch inserts. */
  datatype Batch = Batch(ticks: seq<TickResult>, communications: seq<CommunicationRow>, errors: seq<ErrorRow>)

  datatype Database = Database(
    expected: nat,
    ticks: map<nat, TickResult>,
    communications: map<(CommunicationKey, nat), seq<nat>>,
    errors: seq<ErrorRow>,
    received: nat,
    first: Option<nat>,
    last: Option<nat>,
    status: CaptureStatus)

  function Created(expected: nat): Database {
    Database(expected, map[], map[], [], 0, None, None, InProgress)
  }

  // ---------- One batch ----------

  /** Insert rows one by one; a repeated primary key aborts. */
  function InsertTicks(table: map<nat, TickResult>, rows: seq<TickResult>): Option<map<nat, TickResult>>
    decreases |rows|
  {
    if rows == [] then Some(table)
    else if rows[0].tick in table then None
    else InsertTicks(table[rows[0].tick := rows[0]], rows[1..])
  }

  function InsertCommunications(table: map<(CommunicationKey, nat), seq<nat>>, rows: seq<CommunicationRow>)
    : Option<map<(CommunicationKey, nat), seq<nat>>>
    decreases |rows|
  {
    if rows == [] then Some(table)
    else if (rows[0].key, rows[0].ordinal) in table then None
    else InsertCommunications(table[(rows[0].key, rows[0].ordinal) := rows[0].payload], rows[1..])
  }

  function LeastTick(rows: seq<TickResult>): nat
    requires rows != []
  {
    if |rows| == 1 then rows[0].tick
    else if rows[0].tick < LeastTick(rows[1..]) then rows[0].tick else LeastTick(rows[1..])
  }

  function GreatestTick(rows: seq<TickResult>): nat
    requires rows != []
  {
    if |rows| == 1 then rows[0].tick
    else if rows[0].tick > GreatestTick(rows[1..]) then rows[0].tick else GreatestTick(rows[1..])
  }

  function Lower(current: Option<nat>, t: nat): Option<nat> {
    if current.None? || current.value > t then Some(t) else current
  }

  function Raise(current: Option<nat>, t: nat): Option<nat> {
    if current.None? || current.value < t then Some(t) else current
  }

  /** The metadata update that follows the insertion of a batch's tick rows. */
  function CountTicks(d: Database, rows: seq<TickResult>): Database {
    if rows == [] then d
    else d.(received := d.received + |rows|, first := Lower(d.first, LeastTick(rows)),
      last := Raise(d.last, GreatestTick(rows)))
  }

  /** The database after a committed batch, or nothing when a key constraint fails. */
  function Committed(d: Database, b: Batch): Option<Database> {
    var ticks := InsertTicks(d.ticks, b.ticks);
    var communications := InsertCommunications(d.communications, b.communications);
    if ticks.None? || communications.None? then None
    else Some(CountTicks(d, b.ticks).(ticks := ticks.value, communications := communications.value,
      errors := d.errors + b.errors))
  }

  // ---------- Exact metadata ----------

  ghost predicate IsGreatest(m: nat, keys: set<nat>) {
    m in keys && forall k :: k in keys ==> k <= m
  }

  /** The count, first tick and last tick are the size, minimum and maximum of the stored tick set. */
  ghost predicate MetadataExact(d: Database) {
    && d.received == |d.ticks|
    && (forall t :: t in d.ticks ==> d.ticks[t].tick == t)
    && (if d.ticks == map[] then d.first.None? && d.last.None?
        else
          && d.first.Some? && IsLeast(d.first.value, d.ticks.Keys)
          && d.last.Some? && IsGreatest(d.last.value, d.ticks.Keys))
  }

  lemma {:induction false} InsertionAddsExactly(table: map<nat, TickResult>, rows: seq<TickResult>)
    requires InsertTicks(table, rows).Some?
    requires forall t :: t in table ==> table[t].tick == t
    ensures var after := InsertTicks(table, rows).value;
      && |after| == |table| + |rows|
      && (forall t :: t in after <==> t in table || exists r :: r in rows && r.tick == t)
      && (forall t :: t in table ==> after[t] == table[t])
      && (forall r :: r in rows ==> after[r.tick] == r)
      && (forall t :: t in after ==> after[t].tick == t)
    decreases |rows|
  {
    if rows != [] {
      var next := table[rows[0].tick := rows[0]];
      InsertionAddsExactly(next, rows[1..]);
      assert rows == [rows[0]] + rows[1..];
      assert next.Keys == table.Keys + {rows[0].tick};
      assert |next| == |next.Keys| && |table| == |table.Keys|;
    }
  }

  lemma {:induction false} ExtremesOf(rows: seq<TickResult>)
    requires rows != []
    ensures forall r :: r in rows ==> LeastTick(rows) <= r.tick <= GreatestTick(rows)
    ensures (exists r :: r in rows && r.tick == LeastTick(rows))
      && (exists r :: r in rows && r.tick == GreatestTick(rows))
  {
    if |rows| == 1 {
      assert rows[0] in rows;
    } else {
      ExtremesOf(rows[1..]);
      assert rows[0] in rows;
      assert forall r :: r in rows <==> r == rows[0] || r in rows[1..];
    }
  }

  /** Incremental metadata stays exact across every committed batch. */
  lemma BatchKeepsMetadataExact(d: Database, b: Batch)
    requires MetadataExact(d) && Committed(d, b).Some?
    ensures MetadataExact(Committed(d, b).value)
  {
    InsertionAddsExactly(d.ticks, b.ticks);
    if b.ticks != [] {
      ExtremesOf(b.ticks);
      MetadataGrows(d, b.ticks, InsertTicks(d.ticks, b.ticks).value);
    }
  }

  lemma MetadataGrows(d: Database, rows: seq<TickResult>, after: map<nat, TickResult>)
    requires MetadataExact(d) && rows != []
    requires forall t :: t in after <==> t in d.ticks || exists r :: r in rows && r.tick == t
    ensures after != map[]
    ensures IsLeast(CountTicks(d, rows).first.value, after.Keys)
    ensures IsGreatest(CountTicks(d, rows).last.value, after.Keys)
  {
    ExtremesOf(rows);
    var least :| least in rows && least.tick == LeastTick(rows);
    assert least.tick in after;
    if d.ticks != map[] {
      assert d.first.value in after && d.last.value in after;
    } else {
      assert forall t :: t !in d.ticks;
    }
  }

  // ---------- Completeness by counting ----------

  /** The ticks 0 through n - 1. */
  ghost function Below(n: nat): (r: set<nat>)
    ensures |r| == n
    ensures forall t: nat :: t in r <==> t < n
  {
    if n == 0 then {} else Below(n - 1) + {n - 1}
  }

  lemma FullSubset(small: set<nat>, large: set<nat>)
    requires small <= large && |small| == |large|
    ensures small == large
  {
    var extra := large - small;
    assert large == small + extra;
    assert |large| == |small| + |extra|;
  }

  /** The three numbers `finalize` looks at. */
  predicate LooksComplete(d: Database) {
    d.received == d.expected && d.first == Some(0) && d.last.Some? && d.last.value == d.expected - 1
  }

  /** With exact metadata the three numbers say that every expected tick is stored, and no other. */
  lemma CompleteMeansEveryTick(d: Database)
    requires MetadataExact(d) && d.expected > 0
    ensures LooksComplete(d) <==> d.ticks.Keys == Below(d.expected)
  {
    assert |d.ticks| == |d.ticks.Keys|;
    if LooksComplete(d) {
      assert d.ticks != map[];
      FullSubset(d.ticks.Keys, Below(d.expected));
    }
    if d.ticks.Keys == Below(d.expected) {
      assert 0 in d.ticks.Keys && d.expected - 1 in d.ticks.Keys;
    }
  }

  // ---------- Finalising ----------

  datatype FinalizeError = CannotStayInProgress | NotComplete

  function FinalStatus(d: Database, requested: Option<CaptureStatus>): Result<CaptureStatus, FinalizeError> {
    var status := if requested.Some? then requested.value else if LooksComplete(d) then Complete else Incomplete;
    if status == InProgress then Failure(CannotStayInProgress)
    else if status == Complete && !LooksComplete(d) then Failure(NotComplete)
    else Success(status)
  }

  /** COMPLETE is written exactly when it was not overridden and every expected tick is stored. */
  lemma CompleteIsJustified(d: Database, requested: Option<CaptureStatus>)
    requires MetadataExact(d) && d.expected > 0
    ensures FinalStatus(d, requested) == Success(Complete)
      <==> d.ticks.Keys == Below(d.expected) && (requested.None? || requested == Some(Complete))
  {
    CompleteMeansEveryTick(d);
  }

  /** `status` is what a request for `requested` stores: the requested status, or what the stored ticks call for. */
  ghost predicate IsStatusFor(d: Database, requested: Option<CaptureStatus>) {
    match requested
    case Some(wanted) => d.status == wanted
    case None => d.status == if d.expected > 0 && d.ticks.Keys == Below(d.expected) then Complete else Incomplete
  }

  /**
   What a finalisation decides. IN_PROGRESS is refused, and so is COMPLETE while some tick is missing; any other status
   that is asked for is the one that is stored, and without a request it is COMPLETE or INCOMPLETE, as every expected
   tick is stored or not.
   */
  lemma FinalizationMeans(d: Database, requested: Option<CaptureStatus>)
    requires MetadataExact(d)
    ensures var everyTick := d.expected > 0 && d.ticks.Keys == Below(d.expected);
      FinalStatus(d, requested) ==
        match requested
        case Some(InProgress) => Failure(CannotStayInProgress)
        case Some(Complete) => if everyTick then Success(Complete) else Failure(NotComplete)
        case Some(Incomplete) => Success(Incomplete)
        case Some(SessionLost) => Success(SessionLost)
        case Some(ProtocolError) => Success(ProtocolError)
        case Some(Aborted) => Success(Aborted)
        case None => Success(if everyTick then Complete else Incomplete)
  {
    if d.expected > 0 {
      CompleteMeansEveryTick(d);
    } else {
      assert LooksComplete(d) ==> d.ticks != map[];
    }
  }

  // ---------- Ordered range query ----------

  /** `iter_ticks`: the stored rows from `from` through `until` in ascending order. */
  function RowsBetween(table: map<nat, TickResult>, from: nat, until: int): seq<TickResult>
    decreases until - from + 1
  {
    if from > until then []
    else (if from in table then [table[from]] else []) + RowsBetween(table, from + 1, until)
  }

  // ---------- The writer object ----------

  class CaptureWriter {
    const expected: nat
    var ticks: map<nat, TickResult>
    var communications: map<(CommunicationKey, nat), seq<nat>>
    var errors: seq<ErrorRow>
    var received: nat
    var first: Option<nat>
    var last: Option<nat>
    var status: CaptureStatus

    ghost function View(): Database
      reads this
    {
      Database(expected, ticks, communications, errors, received, first, last, status)
    }

    constructor (expected: nat)
      ensures View() == Created(expected)
    {
      this.expected := expected;
      ticks, communications, errors := map[], map[], [];
      received, first, last, status := 0, None, None, InProgress;
    }

    method InsertTickRows(rows: seq<TickResult>) returns (ok: bool)
      modifies this`ticks
      ensures ok == InsertTicks(old(ticks), rows).Some?
      ensures ok ==> ticks == InsertTicks(old(ticks), rows).value
    {
      var k := 0;
      assert rows[0..] == rows;
      while k < |rows|
        invariant 0 <= k <= |rows|
        invariant InsertTicks(old(ticks), rows) == InsertTicks(ticks, rows[k..])
      {
        if rows[k].tick in ticks {
          return false;
        }
        ticks := ticks[rows[k].tick := rows[k]];
        assert rows[k..][1..] == rows[k + 1..];
        k := k + 1;
      }
      ok := true;
    }

    method InsertCommunicationRows(rows: seq<CommunicationRow>) returns (ok: bool)
      modifies this`communications
      ensures ok == InsertCommunications(old(communications), rows).Some?
      ensures ok ==> communications == InsertCommunications(old(communications), rows).value
    {
      var k := 0;
      assert rows[0..] == rows;
      while k < |rows|
        invariant 0 <= k <= |rows|
        invariant InsertCommunications(old(communications), rows) == InsertCommunications(communications, rows[k..])
      {
        if (rows[k].key, rows[k].ordinal) in communications {
          return false;
        }
        communications := communications[(rows[k].key, rows[k].ordinal) := rows[k].payload];
        assert rows[k..][1..] == rows[k + 1..];
        k := k + 1;
      }
      ok := true;
    }

    method UpdateMetadata(rows: seq<TickResult>)
      requires rows != []
      modifies this`received, this`first, this`last
      ensures View() == CountTicks(old(View()), rows)
    {
      var least, greatest := rows[0].tick, rows[0].tick;
      var k := 1;
      ExtremesOf(rows);
      while k < |rows|
        invariant 1 <= k <= |rows|
        invariant (forall r :: r in rows[..k] ==> least <= r.tick <= greatest)
        invariant exists r :: r in rows && r.tick == least
        invariant exists r :: r in rows && r.tick == greatest
      {
        assert rows[..k + 1] == rows[..k] + [rows[k]];
        least := if rows[k].tick < least then rows[k].tick else least;
        greatest := if rows[k].tick > greatest then rows[k].tick else greatest;
        k := k + 1;
      }
      assert rows[..k] == rows;
      received := received + |rows|;
      first := Lower(first, least);
      last := Raise(last, greatest);
    }

    /** `write_batch`: everything or nothing. */
    method WriteBatch(b: Batch) returns (ok: bool)
      modifies this
      ensures ok == Committed(old(View()), b).Some?
      ensures View() == if ok then Committed(old(View()), b).value else old(View())
    {
      if b.ticks == [] && b.communications == [] && b.errors == [] {
        assert errors + [] == errors;
        return true;
      }
      var savedTicks, savedCommunications, savedReceived, savedFirst, savedLast :=
        ticks, communications, received, first, last;
      ok := InsertTickRows(b.ticks);
      if ok && b.ticks != [] {
        UpdateMetadata(b.ticks);
      }
      if ok {
        ok := InsertCommunicationRows(b.communications);
      }
      if !ok {
        ticks, communications, received, first, last :=
          savedTicks, savedCommunications, savedReceived, savedFirst, savedLast;
        return;
      }
      errors := errors + b.errors;
    }

    /** `finalize`: the status is written only when it is justified. */
    method Finalize(requested: Option<CaptureStatus>) returns (r: Result<CaptureStatus, FinalizeError>)
      modifies this`status
      ensures r == FinalStatus(old(View()), requested)
      ensures View() == if r.Success? then old(View()).(status := r.value) else old(View())
      ensures requested.Some? && requested.value !in {InProgress, Complete} ==>
        r == Success(requested.value) && status == requested.value
      ensures requested == Some(InProgress) ==> r == Failure(CannotStayInProgress)
      ensures
        var allThere := received == expected && first == Some(0) && last.Some? && last.value == expected - 1;
        && (requested == Some(Complete) ==> r == if allThere then Success(Complete) else Failure(NotComplete))
        && (requested.None? ==> r == Success(status) && status == if allThere then Complete else Incomplete)
    {
      var complete := received == expected && first == Some(0) && last.Some? && last.value == expected - 1;
      var chosen := if requested.Some? then requested.value else if complete then Complete else Incomplete;
      if chosen == InProgress {
        return Failure(CannotStayInProgress);
      }
      if chosen == Complete && !complete {
        return Failure(NotComplete);
      }
      status := chosen;
      r := Success(chosen);
    }
  }
}
