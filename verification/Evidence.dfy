/** Evidence for one channel: stored samples, explicit gaps, and counting over them. */
module Evidence {
  import opened Basics
  import opened CaptureStore

  /** One expected tick; a stored tick without a usable value is invalid, an absent one is missing. */
  datatype Sample<T> = Sample(tick: int, value: Option<T>, missing: bool) {
    predicate Valid() {
      !missing && value.Some?
    }

    predicate Invalid() {
      !missing && value.None?
    }
  }

  function Missing<T>(tick: int): Sample<T> {
    Sample(tick, None, true)
  }

  // ---------- Gap filling ----------

  ghost predicate Ascending<T>(samples: seq<Sample<T>>, from: int) {
    && (forall s :: s in samples ==> from <= s.tick)
    && (forall i, j :: 0 <= i < j < |samples| ==> samples[i].tick < samples[j].tick)
  }

  /** One item per tick from `from` on: the stored sample where there is one, a gap marker elsewhere. */
  ghost predicate Fills<T>(items: seq<Sample<T>>, samples: seq<Sample<T>>, from: int) {
    && (forall k :: 0 <= k < |items| ==> items[k].tick == from + k)
    && (forall s :: s in samples ==> s in items)
    && (forall i :: i in items ==>
          i in samples || (i == Missing(i.tick) && forall s :: s in samples ==> s.tick != i.tick))
  }

  lemma FillOne<T>(items: seq<Sample<T>>, samples: seq<Sample<T>>, from: int, item: Sample<T>)
    requires Fills(items, samples, from) && item.tick == from + |items|
    requires forall s :: s in samples ==> s.tick < item.tick
    ensures Fills(items + [item], samples + [item], from)
    ensures item == Missing(item.tick) ==> Fills(items + [item], samples, from)
  {
  }

  /** `_include_missing_ticks`: refuses exactly the inputs that repeat a tick, go back, or start too early. */
  method IncludeMissingTicks<T>(samples: seq<Sample<T>>, from: int, until: int) returns (filled: Option<seq<Sample<T>>>)
    ensures filled.Some? <==> Ascending(samples, from)
    ensures filled.Some? ==>
      && Fills(filled.value, samples, from)
      && |filled.value| >= until - from + 1
      && ((forall s :: s in samples ==> s.tick <= until) && from <= until ==> |filled.value| == until - from + 1)
  {
    var items: seq<Sample<T>> := [];
    var expectedTick := from;
    var k := 0;
    while k < |samples|
      invariant 0 <= k <= |samples|
      invariant Ascending(samples[..k], from) && Fills(items, samples[..k], from)
      invariant expectedTick == from + |items|
      invariant if k == 0 then items == [] else expectedTick == samples[k - 1].tick + 1
    {
      assert samples[..k + 1] == samples[..k] + [samples[k]];
      if samples[k].tick < expectedTick {
        assert samples[k] in samples;
        assert k > 0 ==> samples[k].tick <= samples[k - 1].tick;
        return None;
      }
      while expectedTick < samples[k].tick
        invariant expectedTick <= samples[k].tick
        invariant expectedTick == from + |items|
        invariant Fills(items, samples[..k], from)
        invariant forall s :: s in samples[..k] ==> s.tick < expectedTick
        decreases samples[k].tick - expectedTick
      {
        FillOne(items, samples[..k], from, Missing(expectedTick));
        items := items + [Missing(expectedTick)];
        expectedTick := expectedTick + 1;
      }
      FillOne(items, samples[..k], from, samples[k]);
      items := items + [samples[k]];
      expectedTick := expectedTick + 1;
      k := k + 1;
    }
    assert samples[..k] == samples;
    while expectedTick <= until
      invariant expectedTick == from + |items|
      invariant Fills(items, samples, from)
      invariant forall s :: s in samples ==> s.tick < expectedTick
      invariant (forall s :: s in samples ==> s.tick <= until) && from <= until ==> expectedTick <= until + 1
      decreases until - expectedTick
    {
      FillOne(items, samples, from, Missing(expectedTick));
      items := items + [Missing(expectedTick)];
      expectedTick := expectedTick + 1;
    }
    return Some(items);
  }

  // ---------- Queries on a stored run ----------

  ghost predicate Keyed(table: map<nat, TickResult>) {
    forall t :: t in table ==> table[t].tick == t
  }

  /** What the store says about one tick. */
  function SampleAt<T>(table: map<nat, TickResult>, read: TickResult -> Option<T>, t: int): (s: Sample<T>)
    ensures s.tick == t
  {
    if t >= 0 && t in table then Sample(t, read(table[t]), false) else Missing(t)
  }

  /** The evidence of an inclusive range: one sample per tick. */
  function Items<T>(table: map<nat, TickResult>, read: TickResult -> Option<T>, from: int, until: int): seq<Sample<T>>
    requires from <= until
  {
    seq(until - from + 1, k => SampleAt(table, read, from + k))
  }

  lemma ItemIsSample<T>(table: map<nat, TickResult>, read: TickResult -> Option<T>, from: int, until: int, k: nat)
    requires from <= until && k <= until - from
    ensures Items(table, read, from, until)[k] == SampleAt(table, read, from + k)
    ensures Items(table, read, from, until)[k].tick == from + k
  {
  }

  lemma {:induction false} RowsBetweenExact(table: map<nat, TickResult>, from: nat, until: int)
    requires Keyed(table)
    ensures var rows := RowsBetween(table, from, until);
      && (forall r :: r in rows <==> from <= r.tick <= until && r.tick in table && table[r.tick] == r)
      && (forall i, j :: 0 <= i < j < |rows| ==> rows[i].tick < rows[j].tick)
    decreases until - from + 1
  {
    if from <= until {
      RowsBetweenExact(table, from + 1, until);
      var rest := RowsBetween(table, from + 1, until);
      assert forall i :: 0 <= i < |rest| ==> rest[i] in rest && rest[i].tick > from;
    }
  }

  function SamplesOf<T>(rows: seq<TickResult>, read: TickResult -> Option<T>): (s: seq<Sample<T>>)
    ensures |s| == |rows| && forall k :: 0 <= k < |s| ==> s[k] == Sample(rows[k].tick, read(rows[k]), false)
  {
    if rows == [] then [] else [Sample(rows[0].tick, read(rows[0]), false)] + SamplesOf(rows[1..], read)
  }

  /** The samples are those of the stored ticks of the range, in order. */
  ghost predicate Describe<T>(samples: seq<Sample<T>>, table: map<nat, TickResult>, read: TickResult -> Option<T>,
      from: nat, until: nat) {
    && Ascending(samples, from)
    && (forall s :: s in samples ==> s.tick <= until && s == SampleAt(table, read, s.tick))
    && (forall t :: from <= t <= until && t in table ==> SampleAt(table, read, t) in samples)
  }

  lemma RowsDescribe<T>(table: map<nat, TickResult>, read: TickResult -> Option<T>, from: nat, until: nat)
    requires Keyed(table)
    ensures Describe(SamplesOf(RowsBetween(table, from, until), read), table, read, from, until)
  {
    var rows := RowsBetween(table, from, until);
    var samples := SamplesOf(rows, read);
    RowsBetweenExact(table, from, until);
    forall s | s in samples
      ensures from <= s.tick <= until && s == SampleAt(table, read, s.tick)
    {
      var k :| 0 <= k < |samples| && samples[k] == s;
      assert rows[k] in rows;
    }
    forall t | from <= t <= until && t in table
      ensures SampleAt(table, read, t) in samples
    {
      assert table[t] in rows;
      var k :| 0 <= k < |rows| && rows[k] == table[t];
      assert samples[k] in samples;
    }
  }

  lemma FilledIsEvidence<T>(items: seq<Sample<T>>, samples: seq<Sample<T>>, table: map<nat, TickResult>,
                            read: TickResult -> Option<T>, from: nat, until: nat, k: nat)
    requires Describe(samples, table, read, from, until) && Fills(items, samples, from)
    requires k < |items| && from + k <= until
    ensures items[k] == SampleAt(table, read, from + k)
  {
    assert items[k] in items && items[k].tick == from + k;
    if from + k in table {
      assert SampleAt(table, read, from + k) in samples;
    }
  }

  /** `digital_range`, `analogue_range` and `pwm_range`: exactly one item per requested tick, and never an error. */
  method RangeEvidence<T>(table: map<nat, TickResult>, read: TickResult -> Option<T>, from: nat, until: nat)
    returns (items: seq<Sample<T>>)
    requires Keyed(table) && from <= until
    ensures items == Items(table, read, from, until)
  {
    var samples := SamplesOf(RowsBetween(table, from, until), read);
    RowsDescribe(table, read, from, until);
    var filled := IncludeMissingTicks(samples, from, until);
    items := filled.value;
    forall k | 0 <= k < |items|
      ensures items[k] == SampleAt(table, read, from + k)
    {
      FilledIsEvidence(items, samples, table, read, from, until, k);
    }
  }

  // ---------- Counting ----------

  function Tally<T(!new)>(p: Sample<T> -> bool, items: seq<Sample<T>>): nat {
    if items == [] then 0
    else Tally(p, items[..|items| - 1]) + if p(items[|items| - 1]) then 1 else 0
  }

  function FirstTick<T(!new)>(p: Sample<T> -> bool, items: seq<Sample<T>>): Option<int> {
    if items == [] then None
    else
      var earlier := FirstTick(p, items[..|items| - 1]);
      if earlier.Some? then earlier
      else if p(items[|items| - 1]) then Some(items[|items| - 1].tick) else None
  }

  /** A count is zero exactly when nothing satisfies the test, and the first tick is the least one that does. */
  lemma {:induction false} TallyMeaning<T(!new)>(p: Sample<T> -> bool, items: seq<Sample<T>>)
    ensures Tally(p, items) == 0 <==> forall i :: i in items ==> !p(i)
    ensures FirstTick(p, items).None? <==> Tally(p, items) == 0
    ensures FirstTick(p, items).Some? ==> exists k ::
      && 0 <= k < |items| && items[k].tick == FirstTick(p, items).value && p(items[k])
      && forall j :: 0 <= j < k ==> !p(items[j])
  {
    if items != [] {
      var front, last := items[..|items| - 1], items[|items| - 1];
      TallyMeaning(p, front);
      assert items == front + [last];
      if FirstTick(p, front).Some? {
        var k :| 0 <= k < |front| && front[k].tick == FirstTick(p, front).value && p(front[k])
                 && forall j :: 0 <= j < k ==> !p(front[j]);
        assert items[k] == front[k] && forall j :: 0 <= j < k ==> items[j] == front[j];
      } else {
        assert forall j :: 0 <= j < |front| ==> front[j] in front && items[j] == front[j];
      }
    }
  }

  lemma TallyOne<T(!new)>(p: Sample<T> -> bool, items: seq<Sample<T>>, k: nat)
    requires k < |items|
    ensures Tally(p, items[..k + 1]) == Tally(p, items[..k]) + if p(items[k]) then 1 else 0
    ensures FirstTick(p, items[..k + 1]) ==
      if FirstTick(p, items[..k]).Some? then FirstTick(p, items[..k])
      else if p(items[k]) then Some(items[k].tick) else None
  {
    assert items[..k + 1][..k] == items[..k];
  }

  /** Something in the evidence of a range passes the test exactly when the sample of some tick does. */
  lemma AnyTick<T(!new)>(p: Sample<T> -> bool, table: map<nat, TickResult>, read: TickResult -> Option<T>, from: int,
      until: int)
    requires from <= until
    ensures Tally(p, Items(table, read, from, until)) != 0
      <==> exists t :: from <= t <= until && p(SampleAt(table, read, t))
  {
    var items := Items(table, read, from, until);
    TallyMeaning(p, items);
    if t :| from <= t <= until && p(SampleAt(table, read, t)) {
      assert items[t - from] == SampleAt(table, read, t);
      assert items[t - from] in items;
    }
    if i :| i in items && p(i) {
      var k :| 0 <= k < |items| && items[k] == i;
      assert p(SampleAt(table, read, from + k));
    }
  }

  lemma ItemsGrow<T>(table: map<nat, TickResult>, read: TickResult -> Option<T>, from: int, until: int)
    requires from < until
    ensures Items(table, read, from, until) == Items(table, read, from, until - 1) + [SampleAt(table, read, until)]
  {
  }

  /** The ticks of a range that count. */
  function Counting(from: int, until: int, counts: int -> bool): set<int> {
    set t: int | from <= t <= until && counts(t)
  }

  lemma CountingGrows(from: int, until: int, counts: int -> bool)
    requires from <= until
    ensures |Counting(from, until, counts)| == |Counting(from, until - 1, counts)| + if counts(until) then 1 else 0
  {
    assert Counting(from, until, counts) == Counting(from, until - 1, counts) + if counts(until) then {until} else {};
  }

  /** A count is the number of ticks of the range whose sample passes the test. */
  lemma {:induction false} TallyIsSize<T(!new)>(p: Sample<T> -> bool, table: map<nat, TickResult>,
      read: TickResult -> Option<T>, from: int, until: int, counts: int -> bool)
    requires from <= until
    requires forall t :: from <= t <= until ==> (p(SampleAt(table, read, t)) <==> counts(t))
    ensures Tally(p, Items(table, read, from, until)) == |Counting(from, until, counts)|
    decreases until - from
  {
    CountingGrows(from, until, counts);
    if from == until {
      assert Items(table, read, from, until) == [SampleAt(table, read, until)];
      assert Counting(from, until - 1, counts) == {};
    } else {
      TallyIsSize(p, table, read, from, until - 1, counts);
      ItemsGrow(table, read, from, until);
    }
  }

  function IsValid<T>(): Sample<T> -> bool {
    (s: Sample<T>) => s.Valid()
  }

  function IsMissing<T>(): Sample<T> -> bool {
    (s: Sample<T>) => s.missing
  }

  function IsInvalid<T>(): Sample<T> -> bool {
    (s: Sample<T>) => s.Invalid()
  }

  /** Usable samples that fail the test. */
  function Violates<T>(accepts: T -> bool): Sample<T> -> bool {
    (s: Sample<T>) => s.Valid() && !accepts(s.value.value)
  }

  /** Every requested tick is counted exactly once as valid, missing or invalid. */
  lemma {:induction false} CountsAddUp<T(!new)>(items: seq<Sample<T>>)
    ensures Tally(IsValid(), items) + Tally(IsMissing(), items) + Tally(IsInvalid(), items) == |items|
  {
    if items != [] {
      CountsAddUp(items[..|items| - 1]);
    }
  }

  /** The usable values, in order. */
  function Values<T>(items: seq<Sample<T>>): seq<T> {
    if items == [] then []
    else
      var last := items[|items| - 1];
      Values(items[..|items| - 1]) + if last.Valid() then [last.value.value] else []
  }

  lemma {:induction false} ValuesAreThose<T>(items: seq<Sample<T>>, v: T)
    ensures v in Values(items) <==> exists k :: 0 <= k < |items| && items[k].Valid() && items[k].value.value == v
  {
    if items != [] {
      var n := |items| - 1;
      ValuesAreThose(items[..n], v);
      if v in Values(items[..n]) {
        var k :| 0 <= k < n && items[..n][k].Valid() && items[..n][k].value.value == v;
        assert items[k] == items[..n][k];
      }
      if k :| 0 <= k < |items| && items[k].Valid() && items[k].value.value == v {
        assert k < n ==> items[..n][k] == items[k];
      }
    }
  }

  lemma ValuesOne<T>(items: seq<Sample<T>>, k: nat)
    requires k < |items|
    ensures Values(items[..k + 1]) == Values(items[..k]) + if items[k].Valid() then [items[k].value.value] else []
  {
    assert items[..k + 1][..k] == items[..k];
  }
}
