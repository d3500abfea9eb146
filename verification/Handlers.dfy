/** The assertion handlers: loops with accumulators over the evidence of one channel. */
module Handlers {
  import opened Basics
  import opened CaptureStore
  import opened Evidence
  import opened Verdicts

  datatype Observed =
    | NothingObserved
    | StateObserved(state: bool)
    | StateCounts(high: nat, low: nat)
    | CrossingObserved(high: nat, low: nat, at: Option<int>)
    | VoltageObserved(microvolts: int)
    | VoltageRange(minimum: Option<int>, maximum: Option<int>, firstFailing: Option<int>)
    | WaveformObserved(measurement: PwmMeasurement)
    | MetricRange(lowest: Option<real>, highest: Option<real>, firstFailingMetric: Option<real>, noWaveform: nat)

  datatype Outcome = Outcome(
    verdict: Verdict,
    valid: nat,
    missing: nat,
    invalid: nat,
    violations: nat,
    firstFailure: Option<int>,
    observed: Observed)

  // ---------- Reading one channel of a stored tick ----------

  function DigitalReader(c: nat): TickResult -> Option<bool>
    requires c < DIGITAL_INPUTS
  {
    (r: TickResult) => if r.Measured? then Some(r.digital[c]) else None
  }

  function AnalogueReader(c: nat): TickResult -> Option<int>
    requires c < ANALOGUE_INPUTS
  {
    (r: TickResult) => if r.Measured? then Some(r.analogue[c]) else None
  }

  function PwmReader(c: nat): TickResult -> Option<PwmMeasurement>
    requires c < PWM_INPUTS
  {
    (r: TickResult) => if r.Measured? then Some(r.pwm[c]) else None
  }

  function KnownOf<T>(table: map<nat, TickResult>, read: TickResult -> Option<T>): Known<T> {
    (t: int) => SampleAt(table, read, t).value
  }

  // ---------- From counts to verdicts ----------

  /** `range_verdict`. */
  function VerdictOfCounts(violations: nat, missing: nat, invalid: nat): Verdict {
    if violations != 0 then Fail else if missing != 0 || invalid != 0 then Inconclusive else Pass
  }

  /**
   The outcome's counts are the numbers of usable, absent, unusable and failing ticks, and its first failure the least
   failing tick.
   */
  ghost predicate Counted<T(!new)>(o: Outcome, accepts: T -> bool, items: seq<Sample<T>>) {
    && o.valid == Tally(IsValid(), items)
    && o.missing == Tally(IsMissing(), items)
    && o.invalid == Tally(IsInvalid(), items)
    && o.violations == Tally(Violates(accepts), items)
    && o.firstFailure == FirstTick(Violates(accepts), items)
  }

  /** Counting decides the verdict correctly, and no tick of the range escapes the count. */
  lemma CountsDecide<T(!new)>(accepts: T -> bool, table: map<nat, TickResult>, read: TickResult -> Option<T>, from: int,
      until: int)
    requires from <= until
    ensures var items := Items(table, read, from, until);
      && VerdictOfCounts(Tally(Violates(accepts), items), Tally(IsMissing(), items), Tally(IsInvalid(), items))
         == RangeVerdict(accepts, KnownOf(table, read), from, until)
      && Tally(IsValid(), items) + Tally(IsMissing(), items) + Tally(IsInvalid(), items) == until - from + 1
  {
    var items := Items(table, read, from, until);
    var known := KnownOf(table, read);
    CountsAddUp(items);
    AnyTick(Violates(accepts), table, read, from, until);
    UnknownTick(table, read, from, until);
    assert forall t :: Violates(accepts)(SampleAt(table, read, t)) <==> known(t).Some? && !accepts(known(t).value);
  }

  /** A tick was counted as absent or unusable exactly when some tick is unknown. */
  lemma UnknownTick<T(!new)>(table: map<nat, TickResult>, read: TickResult -> Option<T>, from: int, until: int)
    requires from <= until
    ensures var items := Items(table, read, from, until);
      (Tally(IsMissing(), items) != 0 || Tally(IsInvalid(), items) != 0)
      <==> exists t :: from <= t <= until && KnownOf(table, read)(t).None?
  {
    AnyTick(IsMissing<T>(), table, read, from, until);
    AnyTick(IsInvalid<T>(), table, read, from, until);
    var known := KnownOf(table, read);
    if t :| from <= t <= until && known(t).None? {
      assert IsMissing<T>()(SampleAt(table, read, t)) || IsInvalid<T>()(SampleAt(table, read, t));
    }
    if t :| && from <= t <= until
            && (IsMissing<T>()(SampleAt(table, read, t)) || IsInvalid<T>()(SampleAt(table, read, t))) {
      assert known(t).None?;
    }
  }

  // ---------- Digital inputs ----------

  function Is(expected: bool): bool -> bool {
    (v: bool) => v == expected
  }

  function IsState(expected: bool): Sample<bool> -> bool {
    (s: Sample<bool>) => s.Valid() && s.value.value == expected
  }

  /** `_evaluate_remain_state`. */
  method EvaluateRemainState(table: map<nat, TickResult>, c: nat, from: nat, until: nat, expected: bool)
    returns (o: Outcome)
    requires Keyed(table) && c < DIGITAL_INPUTS && from <= until
    ensures o.verdict == RangeVerdict(Is(expected), KnownOf(table, DigitalReader(c)), from, until)
    ensures Counted(o, Is(expected), Items(table, DigitalReader(c), from, until))
    ensures o.valid + o.missing + o.invalid == until - from + 1
    ensures var items := Items(table, DigitalReader(c), from, until);
      o.observed == StateCounts(Tally(IsState(true), items), Tally(IsState(false), items))
  {
    var items := RangeEvidence(table, DigitalReader(c), from, until);
    var valid, missing, invalid, violations, high, low := 0, 0, 0, 0, 0, 0;
    var firstFailure: Option<int> := None;
    var k := 0;
    while k < |items|
      invariant 0 <= k <= |items|
      invariant valid == Tally(IsValid(), items[..k])
      invariant missing == Tally(IsMissing(), items[..k])
      invariant invalid == Tally(IsInvalid(), items[..k])
      invariant violations == Tally(Violates(Is(expected)), items[..k])
      invariant firstFailure == FirstTick(Violates(Is(expected)), items[..k])
      invariant high == Tally(IsState(true), items[..k]) && low == Tally(IsState(false), items[..k])
    {
      TallyOne(IsValid<bool>(), items, k);
      TallyOne(IsMissing<bool>(), items, k);
      TallyOne(IsInvalid<bool>(), items, k);
      TallyOne(Violates(Is(expected)), items, k);
      TallyOne(IsState(true), items, k);
      TallyOne(IsState(false), items, k);
      var evidence := items[k];
      if evidence.missing {
        missing := missing + 1;
      } else if evidence.Invalid() {
        invalid := invalid + 1;
      } else {
        var actual := evidence.value.value;
        valid := valid + 1;
        if actual {
          high := high + 1;
        } else {
          low := low + 1;
        }
        if actual != expected {
          violations := violations + 1;
          if firstFailure.None? {
            firstFailure := Some(evidence.tick);
          }
        }
      }
      k := k + 1;
    }
    assert items[..k] == items;
    CountsDecide(Is(expected), table, DigitalReader(c), from, until);
    o := Outcome(VerdictOfCounts(violations, missing, invalid), valid, missing, invalid, violations, firstFailure,
      StateCounts(high, low));
  }

  /** The pair of adjacent usable samples ending at position `k` makes the transition. */
  predicate CrossesAt(items: seq<Sample<bool>>, a: bool, b: bool, k: int) {
    0 < k < |items| && items[k - 1].Valid() && items[k].Valid() && items[k - 1].value.value == a
      && items[k].value.value == b
  }

  /** The least such position below `n`. */
  function FirstCrossing(items: seq<Sample<bool>>, a: bool, b: bool, n: nat): Option<nat>
    requires n <= |items|
  {
    if n == 0 then None
    else
      var earlier := FirstCrossing(items, a, b, n - 1);
      if earlier.Some? then earlier else if CrossesAt(items, a, b, n - 1) then Some(n - 1) else None
  }

  lemma {:induction false} FirstCrossingIsFirst(items: seq<Sample<bool>>, a: bool, b: bool, n: nat)
    requires n <= |items|
    ensures var r := FirstCrossing(items, a, b, n);
      if r.None? then forall j :: 0 <= j < n ==> !CrossesAt(items, a, b, j)
      else r.value < n && CrossesAt(items, a, b, r.value) && forall j :: 0 <= j < r.value ==> !CrossesAt(items, a, b, j)
  {
    if n > 0 {
      FirstCrossingIsFirst(items, a, b, n - 1);
    }
  }

  function Latest(items: seq<Sample<bool>>, k: nat): Option<(int, bool)>
    requires k <= |items|
  {
    if k > 0 && items[k - 1].Valid() then Some((items[k - 1].tick, items[k - 1].value.value)) else None
  }

  /** Comparing a sample with the latest usable one recognises a transition. */
  lemma CrossingHere(items: seq<Sample<bool>>, a: bool, b: bool, k: nat)
    requires k < |items| && items[k].Valid()
    requires k > 0 ==> items[k - 1].tick + 1 == items[k].tick
    ensures CrossesAt(items, a, b, k)
      <==> && Latest(items, k).Some? && Latest(items, k).value.0 + 1 == items[k].tick
           && Latest(items, k).value.1 == a && items[k].value.value == b
  {
  }

  ghost predicate Consecutive(items: seq<Sample<bool>>) {
    forall k :: 0 < k < |items| ==> items[k].tick == items[k - 1].tick + 1
  }

  /** The tick on which the first crossing starts. */
  function CrossingTick(items: seq<Sample<bool>>, a: bool, b: bool, n: nat): Option<int>
    requires n <= |items|
  {
    var first := FirstCrossing(items, a, b, n);
    if first.Some? && 0 < first.value < n then Some(items[first.value - 1].tick) else None
  }

  lemma CrossingTickOne(items: seq<Sample<bool>>, a: bool, b: bool, k: nat)
    requires k < |items|
    ensures CrossingTick(items, a, b, k + 1) ==
      if CrossingTick(items, a, b, k).Some? then CrossingTick(items, a, b, k)
      else if CrossesAt(items, a, b, k) then Some(items[k - 1].tick) else None
  {
    FirstCrossingIsFirst(items, a, b, k);
  }

  /** The loop of `evaluate_transition`. */
  method ScanForTransition(items: seq<Sample<bool>>, a: bool, b: bool)
    returns (valid: nat, missing: nat, invalid: nat, high: nat, low: nat, at: Option<int>)
    requires Consecutive(items)
    ensures valid == Tally(IsValid(), items) && missing == Tally(IsMissing(), items)
      && invalid == Tally(IsInvalid(), items)
    ensures high == Tally(IsState(true), items) && low == Tally(IsState(false), items)
    ensures at == CrossingTick(items, a, b, |items|)
  {
    valid, missing, invalid, high, low := 0, 0, 0, 0, 0;
    at := None;
    var previous: Option<(int, bool)> := None;
    var k := 0;
    while k < |items|
      invariant 0 <= k <= |items|
      invariant valid == Tally(IsValid(), items[..k])
      invariant missing == Tally(IsMissing(), items[..k])
      invariant invalid == Tally(IsInvalid(), items[..k])
      invariant high == Tally(IsState(true), items[..k]) && low == Tally(IsState(false), items[..k])
      invariant previous == Latest(items, k)
      invariant at == CrossingTick(items, a, b, k)
    {
      TallyOne(IsValid<bool>(), items, k);
      TallyOne(IsMissing<bool>(), items, k);
      TallyOne(IsInvalid<bool>(), items, k);
      TallyOne(IsState(true), items, k);
      TallyOne(IsState(false), items, k);
      CrossingTickOne(items, a, b, k);
      var evidence := items[k];
      if evidence.missing {
        missing := missing + 1;
        previous := None;
      } else if evidence.Invalid() {
        invalid := invalid + 1;
        previous := None;
      } else {
        CrossingHere(items, a, b, k);
        var actual := evidence.value.value;
        valid := valid + 1;
        if actual {
          high := high + 1;
        } else {
          low := low + 1;
        }
        if at.None? && previous.Some? && previous.value.0 + 1 == evidence.tick && previous.value.1 == a && actual == b {
          at := Some(previous.value.0);
        }
        previous := Some((evidence.tick, actual));
      }
      k := k + 1;
    }
    assert items[..k] == items;
  }

  /** `evaluate_transition`. */
  method EvaluateTransition(table: map<nat, TickResult>, c: nat, from: nat, until: nat, a: bool, b: bool)
    returns (o: Outcome)
    requires Keyed(table) && c < DIGITAL_INPUTS && from <= until
    ensures o.verdict == TransitionVerdict(KnownOf(table, DigitalReader(c)), a, b, from, until)
    ensures o.valid + o.missing + o.invalid == until - from + 1
    ensures var items := Items(table, DigitalReader(c), from, until);
      && o.valid == Tally(IsValid(), items) && o.missing == Tally(IsMissing(), items)
      && o.invalid == Tally(IsInvalid(), items)
      && o.observed == CrossingObserved(Tally(IsState(true), items), Tally(IsState(false), items),
         CrossingTick(items, a, b, |items|))
    ensures o.violations == (if o.verdict == Fail then 1 else 0) && o.firstFailure == None
  {
    var items := RangeEvidence(table, DigitalReader(c), from, until);
    forall k | 0 < k < |items|
      ensures items[k].tick == items[k - 1].tick + 1
    {
      ItemIsSample(table, DigitalReader(c), from, until, k);
      ItemIsSample(table, DigitalReader(c), from, until, k - 1);
    }
    var valid, missing, invalid, high, low, at := ScanForTransition(items, a, b);
    CrossingsAreSeen(table, c, from, until, a, b);
    UnknownTick(table, DigitalReader(c), from, until);
    CountsAddUp(items);
    var verdict := if at.Some? then Pass else if missing != 0 || invalid != 0 then Inconclusive else Fail;
    var failures := if verdict == Fail then 1 else 0;
    o := Outcome(verdict, valid, missing, invalid, failures, None, CrossingObserved(high, low, at));
  }

  /** The transition is seen in the run exactly when some pair of adjacent samples makes it. */
  lemma CrossingsAreSeen(table: map<nat, TickResult>, c: nat, from: int, until: int, a: bool, b: bool)
    requires c < DIGITAL_INPUTS && from <= until
    ensures var items := Items(table, DigitalReader(c), from, until);
      CrossingTick(items, a, b, |items|).Some? <==> SeenCrossing(KnownOf(table, DigitalReader(c)), a, b, from, until)
  {
    var items := Items(table, DigitalReader(c), from, until);
    var known := KnownOf(table, DigitalReader(c));
    if t :| from <= t < until && SeenTurning(known, a, b, t) {
      assert items[t - from] == SampleAt(table, DigitalReader(c), t);
      assert items[t + 1 - from] == SampleAt(table, DigitalReader(c), t + 1);
      assert CrossesAt(items, a, b, t + 1 - from);
    }
    FirstCrossingIsFirst(items, a, b, |items|);
    var first := FirstCrossing(items, a, b, |items|);
    if first.Some? {
      var t := from + (first.value - 1);
      assert items[first.value - 1] == SampleAt(table, DigitalReader(c), t);
      assert items[first.value] == SampleAt(table, DigitalReader(c), t + 1);
      assert SeenTurning(known, a, b, t);
    }
  }

  // ---------- Failing values and extremes ----------

  /** The value of the first usable sample that fails the test. */
  function FirstFailing<T(!new)>(accepts: T -> bool, items: seq<Sample<T>>): Option<T> {
    if items == [] then None
    else
      var earlier := FirstFailing(accepts, items[..|items| - 1]);
      var last := items[|items| - 1];
      if earlier.Some? then earlier else if Violates(accepts)(last) then last.value else None
  }

  lemma {:induction false} FirstFailingIsFirst<T(!new)>(accepts: T -> bool, items: seq<Sample<T>>)
    ensures FirstFailing(accepts, items).Some? <==> FirstTick(Violates(accepts), items).Some?
    ensures FirstFailing(accepts, items).Some? ==> exists k ::
      && 0 <= k < |items| && Violates(accepts)(items[k]) && items[k].value == FirstFailing(accepts, items)
      && items[k].tick == FirstTick(Violates(accepts), items).value
      && forall j :: 0 <= j < k ==> !Violates(accepts)(items[j])
  {
    if items != [] {
      var front := items[..|items| - 1];
      FirstFailingIsFirst(accepts, front);
      TallyMeaning(Violates(accepts), front);
      assert forall j :: 0 <= j < |front| ==> front[j] in front && items[j] == front[j];
      if FirstFailing(accepts, front).Some? {
        var k :| 0 <= k < |front| && Violates(accepts)(front[k]) && front[k].value == FirstFailing(accepts, front)
                 && front[k].tick == FirstTick(Violates(accepts), front).value
                 && forall j :: 0 <= j < k ==> !Violates(accepts)(front[j]);
        assert items[k] == front[k];
      } else {
        assert forall j :: 0 <= j < |front| ==> !Violates(accepts)(items[j]);
        var n := |front|;
        assert Violates(accepts)(items[n]) ==> items[n].Valid() && items[n].value == FirstFailing(accepts, items);
        assert Violates(accepts)(items[n]) ==> items[n].tick == FirstTick(Violates(accepts), items).value;
      }
    }
  }

  lemma FirstFailingOne<T(!new)>(accepts: T -> bool, items: seq<Sample<T>>, k: nat)
    requires k < |items|
    ensures FirstFailing(accepts, items[..k + 1]) ==
      if FirstFailing(accepts, items[..k]).Some? then FirstFailing(accepts, items[..k])
      else if Violates(accepts)(items[k]) then items[k].value else None
  {
    assert items[..k + 1][..k] == items[..k];
  }

  /** The least and greatest of the usable voltages; nothing when there are none. */
  ghost predicate VoltageExtremes(values: seq<int>, least: Option<int>, greatest: Option<int>) {
    if values == [] then least.None? && greatest.None?
    else
      && least.Some? && least.value in values && (forall v :: v in values ==> least.value <= v)
      && greatest.Some? && greatest.value in values && (forall v :: v in values ==> v <= greatest.value)
  }

  ghost predicate MetricExtremes(values: seq<real>, least: Option<real>, greatest: Option<real>) {
    if values == [] then least.None? && greatest.None?
    else
      && least.Some? && least.value in values && (forall v :: v in values ==> least.value <= v)
      && greatest.Some? && greatest.value in values && (forall v :: v in values ==> v <= greatest.value)
  }

  // ---------- Analogue inputs ----------

  /** The loop of `_evaluate_range` for voltages. */
  method ScanVoltages(items: seq<Sample<int>>, accepts: int -> bool)
    returns (o: Outcome)
    ensures Counted(o, accepts, items)
    ensures o.verdict == VerdictOfCounts(o.violations, o.missing, o.invalid)
    ensures o.observed.VoltageRange? && o.observed.firstFailing == FirstFailing(accepts, items)
    ensures VoltageExtremes(Values(items), o.observed.minimum, o.observed.maximum)
  {
    var valid, missing, invalid, violations := 0, 0, 0, 0;
    var minimum, maximum, firstFailure, firstValue: Option<int> := None, None, None, None;
    var k := 0;
    while k < |items|
      invariant 0 <= k <= |items|
      invariant valid == Tally(IsValid(), items[..k])
      invariant missing == Tally(IsMissing(), items[..k])
      invariant invalid == Tally(IsInvalid(), items[..k])
      invariant violations == Tally(Violates(accepts), items[..k])
      invariant firstFailure == FirstTick(Violates(accepts), items[..k])
      invariant firstValue == FirstFailing(accepts, items[..k])
      invariant firstFailure.Some? <==> firstValue.Some?
      invariant VoltageExtremes(Values(items[..k]), minimum, maximum)
    {
      TallyOne(IsValid<int>(), items, k);
      TallyOne(IsMissing<int>(), items, k);
      TallyOne(IsInvalid<int>(), items, k);
      TallyOne(Violates(accepts), items, k);
      FirstFailingOne(accepts, items, k);
      ValuesOne(items, k);
      var evidence := items[k];
      if evidence.missing {
        missing := missing + 1;
      } else if evidence.Invalid() {
        invalid := invalid + 1;
      } else {
        var actual := evidence.value.value;
        valid := valid + 1;
        minimum := if minimum.None? || actual < minimum.value then Some(actual) else minimum;
        maximum := if maximum.None? || actual > maximum.value then Some(actual) else maximum;
        if !accepts(actual) {
          violations := violations + 1;
          if firstFailure.None? {
            firstFailure := Some(evidence.tick);
            firstValue := Some(actual);
          }
        }
      }
      k := k + 1;
    }
    assert items[..k] == items;
    o := Outcome(VerdictOfCounts(violations, missing, invalid), valid, missing, invalid, violations, firstFailure,
                 VoltageRange(minimum, maximum, firstValue));
  }

  /** `_evaluate_range` for voltages. */
  method EvaluateVoltageRange(table: map<nat, TickResult>, c: nat, from: nat, until: nat, accepts: int -> bool)
    returns (o: Outcome)
    requires Keyed(table) && c < ANALOGUE_INPUTS && from <= until
    ensures o.verdict == RangeVerdict(accepts, KnownOf(table, AnalogueReader(c)), from, until)
    ensures var items := Items(table, AnalogueReader(c), from, until);
      && Counted(o, accepts, items)
      && o.observed.VoltageRange? && o.observed.firstFailing == FirstFailing(accepts, items)
      && VoltageExtremes(Values(items), o.observed.minimum, o.observed.maximum)
    ensures o.valid + o.missing + o.invalid == until - from + 1
  {
    var items := RangeEvidence(table, AnalogueReader(c), from, until);
    o := ScanVoltages(items, accepts);
    CountsDecide(accepts, table, AnalogueReader(c), from, until);
  }

  // ---------- PWM inputs ----------

  function Frequency(m: PwmMeasurement): real
    requires m.period != 0
  {
    1_000_000_000.0 / (m.period as real)
  }

  function Duty(m: PwmMeasurement): real {
    (m.dutyPermyriad as real) / 10_000.0
  }

  /** A zero period means that no waveform was measured, which fails every PWM test. */
  function Measurable(m: PwmMeasurement): bool {
    m.period != 0
  }

  datatype Metric = FrequencyHz | DutyCycle {
    function Of(m: PwmMeasurement): real
      requires Measurable(m)
    {
      if FrequencyHz? then Frequency(m) else Duty(m)
    }
  }

  function MetricTest(metric: Metric, accepts: real -> bool): PwmMeasurement -> bool {
    (m: PwmMeasurement) => Measurable(m) && accepts(metric.Of(m))
  }

  function NoWaveform(): Sample<PwmMeasurement> -> bool {
    (s: Sample<PwmMeasurement>) => s.Valid() && !Measurable(s.value.value)
  }

  /** The metric of every usable sample that shows a waveform. */
  function Metrics(metric: Metric, items: seq<Sample<PwmMeasurement>>): seq<real> {
    if items == [] then []
    else
      var last := items[|items| - 1];
      Metrics(metric, items[..|items| - 1])
      + if last.Valid() && Measurable(last.value.value) then [metric.Of(last.value.value)] else []
  }

  predicate HasMetric(metric: Metric, s: Sample<PwmMeasurement>, v: real) {
    s.Valid() && Measurable(s.value.value) && metric.Of(s.value.value) == v
  }

  lemma {:induction false} MetricsAreThose(metric: Metric, items: seq<Sample<PwmMeasurement>>, v: real)
    ensures v in Metrics(metric, items) <==> exists k :: 0 <= k < |items| && HasMetric(metric, items[k], v)
  {
    if items != [] {
      var n := |items| - 1;
      MetricsAreThose(metric, items[..n], v);
      if v in Metrics(metric, items[..n]) {
        var k :| 0 <= k < n && HasMetric(metric, items[..n][k], v);
        assert items[k] == items[..n][k];
      }
      if k :| 0 <= k < |items| && HasMetric(metric, items[k], v) {
        assert k < n ==> items[..n][k] == items[k];
      }
    }
  }

  lemma MetricsOne(metric: Metric, items: seq<Sample<PwmMeasurement>>, k: nat)
    requires k < |items|
    ensures Metrics(metric, items[..k + 1]) ==
      Metrics(metric, items[..k]) + if items[k].Valid() && Measurable(items[k].value.value)
        then [metric.Of(items[k].value.value)] else []
  {
    assert items[..k + 1][..k] == items[..k];
  }

  function MetricOf(metric: Metric, m: Option<PwmMeasurement>): Option<real> {
    if m.Some? && Measurable(m.value) then Some(metric.Of(m.value)) else None
  }

  /** The loop of `_evaluate_metric_range`. */
  method ScanMetric(items: seq<Sample<PwmMeasurement>>, metric: Metric, accepts: real -> bool) returns (o: Outcome)
    ensures Counted(o, MetricTest(metric, accepts), items)
    ensures o.verdict == VerdictOfCounts(o.violations, o.missing, o.invalid)
    ensures o.observed.MetricRange? && MetricExtremes(Metrics(metric, items), o.observed.lowest, o.observed.highest)
    ensures o.observed.firstFailingMetric == MetricOf(metric, FirstFailing(MetricTest(metric, accepts), items))
    ensures o.observed.noWaveform == Tally(NoWaveform(), items)
  {
    var test := MetricTest(metric, accepts);
    var valid, missing, invalid, violations, noWaveform := 0, 0, 0, 0, 0;
    var minimum, maximum, firstValue: Option<real> := None, None, None;
    var firstFailure: Option<int> := None;
    var k := 0;
    while k < |items|
      invariant 0 <= k <= |items|
      invariant valid == Tally(IsValid(), items[..k])
      invariant missing == Tally(IsMissing(), items[..k])
      invariant invalid == Tally(IsInvalid(), items[..k])
      invariant violations == Tally(Violates(test), items[..k])
      invariant noWaveform == Tally(NoWaveform(), items[..k])
      invariant firstFailure == FirstTick(Violates(test), items[..k])
      invariant firstFailure.Some? <==> FirstFailing(test, items[..k]).Some?
      invariant firstValue == MetricOf(metric, FirstFailing(test, items[..k]))
      invariant MetricExtremes(Metrics(metric, items[..k]), minimum, maximum)
    {
      TallyOne(IsValid<PwmMeasurement>(), items, k);
      TallyOne(IsMissing<PwmMeasurement>(), items, k);
      TallyOne(IsInvalid<PwmMeasurement>(), items, k);
      TallyOne(Violates(test), items, k);
      TallyOne(NoWaveform(), items, k);
      FirstFailingOne(test, items, k);
      MetricsOne(metric, items, k);
      var evidence := items[k];
      k := k + 1;
      if evidence.missing {
        missing := missing + 1;
      } else if evidence.Invalid() {
        invalid := invalid + 1;
      } else {
        var measurement := evidence.value.value;
        valid := valid + 1;
        if measurement.period == 0 {
          noWaveform := noWaveform + 1;
          violations := violations + 1;
          if firstFailure.None? {
            firstFailure := Some(evidence.tick);
          }
          continue;
        }
        var value := metric.Of(measurement);
        minimum := if minimum.None? || value < minimum.value then Some(value) else minimum;
        maximum := if maximum.None? || value > maximum.value then Some(value) else maximum;
        if !accepts(value) {
          violations := violations + 1;
          if firstFailure.None? {
            firstFailure := Some(evidence.tick);
            firstValue := Some(value);
          }
        }
      }
    }
    assert items[..k] == items;
    o := Outcome(VerdictOfCounts(violations, missing, invalid), valid, missing, invalid, violations, firstFailure,
                 MetricRange(minimum, maximum, firstValue, noWaveform));
  }

  /** `_evaluate_metric_range`. */
  method EvaluateMetricRange(table: map<nat, TickResult>, c: nat, from: nat, until: nat, metric: Metric,
      accepts: real -> bool)
    returns (o: Outcome)
    requires Keyed(table) && c < PWM_INPUTS && from <= until
    ensures o.verdict == RangeVerdict(MetricTest(metric, accepts), KnownOf(table, PwmReader(c)), from, until)
    ensures var items := Items(table, PwmReader(c), from, until);
      && Counted(o, MetricTest(metric, accepts), items)
      && o.observed.MetricRange? && MetricExtremes(Metrics(metric, items), o.observed.lowest, o.observed.highest)
      && o.observed.firstFailingMetric == MetricOf(metric, FirstFailing(MetricTest(metric, accepts), items))
      && o.observed.noWaveform == Tally(NoWaveform(), items)
    ensures o.valid + o.missing + o.invalid == until - from + 1
  {
    var items := RangeEvidence(table, PwmReader(c), from, until);
    o := ScanMetric(items, metric, accepts);
    CountsDecide(MetricTest(metric, accepts), table, PwmReader(c), from, until);
  }

  // ---------- Single ticks ----------

  function PointOutcome<T>(accepts: T -> bool, s: Sample<T>, observed: T -> Observed): Outcome {
    if s.missing then Outcome(Inconclusive, 0, 1, 0, 0, None, NothingObserved)
    else if s.Invalid() then Outcome(Inconclusive, 0, 0, 1, 0, None, NothingObserved)
    else if accepts(s.value.value) then Outcome(Pass, 1, 0, 0, 0, None, observed(s.value.value))
    else Outcome(Fail, 1, 0, 0, 1, Some(s.tick), observed(s.value.value))
  }

  /** A single tick is the range from itself to itself: same verdict, same counts, same first failure. */
  lemma PointIsRange<T(!new)>(accepts: T -> bool, table: map<nat, TickResult>, read: TickResult -> Option<T>, t: nat,
      observed: T -> Observed)
    ensures var o := PointOutcome(accepts, SampleAt(table, read, t), observed);
      && o.verdict == RangeVerdict(accepts, KnownOf(table, read), t, t)
      && Counted(o, accepts, Items(table, read, t, t))
  {
    var items := Items(table, read, t, t);
    ItemIsSample(table, read, t, t, 0);
    assert items == [SampleAt(table, read, t)];
    assert items[..0] == [];
    var known := KnownOf(table, read);
    assert known(t) == SampleAt(table, read, t).value;
  }
}
