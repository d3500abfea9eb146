/**
 Evaluation of stored assertions: dispatch to the handlers, the overall verdict, and what verdicts say
 about everything the inputs may have done.
 */
module Evaluator {
  import opened AssertionMeaning
  import opened Basics
  import opened Definition
  import opened CaptureStore
  import opened Evidence
  import opened Verdicts
  import opened Handlers

  // ---------- The test each operation applies to a value ----------

  function AtMost(distance: real, tolerance: real): bool {
    -tolerance <= distance <= tolerance
  }

  function Between(minimum: real, maximum: real): real -> bool {
    (v: real) => minimum <= v <= maximum
  }

  function DigitalTest(check: Check): bool -> bool
    requires ReadsDigital(check) && !check.Transition?
  {
    if check.StateAtTick? then Is(check.expected) else Is(check.RemainHigh?)
  }

  function AnalogueTest(check: Check): int -> bool
    requires ReadsAnalogue(check)
  {
    match check
    case Near(_, target, tolerance) => (v: int) => -tolerance <= v - target <= tolerance
    case Within(_, minimum, maximum) => (v: int) => minimum <= v <= maximum
    case RemainWithin(_, _, minimum, maximum) => (v: int) => minimum <= v <= maximum
    case RemainAbove(_, _, threshold) => (v: int) => v > threshold
    case RemainBelow(_, _, threshold) => (v: int) => v < threshold
  }

  function PwmTest(check: Check): PwmMeasurement -> bool
    requires ReadsPwm(check)
  {
    match check
    case PeriodNear(_, period, tolerance) =>
      (m: PwmMeasurement) => Measurable(m) && -tolerance <= m.period - period <= tolerance
    case FrequencyNear(_, frequency, tolerance) =>
      (m: PwmMeasurement) => Measurable(m) && AtMost(Frequency(m) - frequency, tolerance)
    case DutyCycleNear(_, duty, tolerance) =>
      (m: PwmMeasurement) => Measurable(m) && AtMost(Duty(m) - duty, tolerance)
    case WaveformNear(_, frequency, frequencyTolerance, duty, dutyTolerance) =>
      (m: PwmMeasurement) => Measurable(m) && AtMost(Frequency(m) - frequency, frequencyTolerance)
        && AtMost(Duty(m) - duty, dutyTolerance)
    case FrequencyRemainWithin(_, _, minimum, maximum) => MetricTest(FrequencyHz, Between(minimum, maximum))
    case DutyCycleRemainWithin(_, _, minimum, maximum) => MetricTest(DutyCycle, Between(minimum, maximum))
  }

  lemma DigitalTestIsMeant(check: Check, high: bool)
    requires ReadsDigital(check) && !check.Transition?
    ensures DigitalTest(check)(high) <==> LevelMeets(check, high)
  {
  }

  lemma AnalogueTestIsMeant(check: Check, microvolts: int)
    requires ReadsAnalogue(check)
    ensures AnalogueTest(check)(microvolts) <==> VoltageMeets(check, microvolts)
  {
  }

  /** A measurement without a waveform fails every PWM assertion. */
  lemma SilenceFails(check: Check, silence: PwmMeasurement)
    requires ReadsPwm(check) && !Measurable(silence)
    ensures !PwmTest(check)(silence)
  {
    match check
    case PeriodNear(_, _, _) =>
    case FrequencyNear(_, _, _) =>
    case DutyCycleNear(_, _, _) =>
    case WaveformNear(_, _, _, _, _) =>
    case FrequencyRemainWithin(_, _, _, _) =>
    case DutyCycleRemainWithin(_, _, _, _) =>
  }

  lemma DistanceIsMeant(x: real, y: real, tolerance: real)
    ensures AtMost(x - y, tolerance) <==> y - tolerance <= x <= y + tolerance
  {
  }

  lemma PwmTestIsMeant(check: Check, m: PwmMeasurement)
    requires ReadsPwm(check)
    ensures PwmTest(check)(m) <==> WaveformMeets(check, m)
  {
    if Measurable(m) {
      match check
      case PeriodNear(_, _, _) =>
      case FrequencyNear(_, frequency, tolerance) => DistanceIsMeant(Frequency(m), frequency, tolerance);
      case DutyCycleNear(_, duty, tolerance) => DistanceIsMeant(Duty(m), duty, tolerance);
      case WaveformNear(_, frequency, frequencyTolerance, duty, dutyTolerance) =>
        DistanceIsMeant(Frequency(m), frequency, frequencyTolerance);
        DistanceIsMeant(Duty(m), duty, dutyTolerance);
      case FrequencyRemainWithin(_, _, minimum, maximum) =>
        assert PwmTest(check)(m) <==> Between(minimum, maximum)(FrequencyHz.Of(m));
      case DutyCycleRemainWithin(_, _, minimum, maximum) =>
        assert PwmTest(check)(m) <==> Between(minimum, maximum)(DutyCycle.Of(m));
    } else {
      SilenceFails(check, m);
    }
  }

  // ---------- One assertion ----------

  /** The verdict an assertion deserves on a stored run, stated without any counting. */
  ghost function DeservedVerdict(a: Assertion, table: map<nat, TickResult>): Verdict
    requires Fault(a).None?
  {
    var c, from, until := a.channel.index, a.check.FirstTick(), a.check.LastTick();
    if a.check.Transition? then
      TransitionVerdict(KnownOf(table, DigitalReader(c)), a.check.fromState, a.check.toState, from, until)
    else if ReadsDigital(a.check) then RangeVerdict(DigitalTest(a.check), KnownOf(table, DigitalReader(c)), from, until)
    else if ReadsAnalogue(a.check)
      then RangeVerdict(AnalogueTest(a.check), KnownOf(table, AnalogueReader(c)), from, until)
    else RangeVerdict(PwmTest(a.check), KnownOf(table, PwmReader(c)), from, until)
  }

  /**
   The outcome deserves its verdict and its counts: usable, missing and invalid ticks, failing ticks and the first
   failing tick of the assertion's range. A transition that failed counts as one violation without a tick.
   */
  ghost predicate Explains(o: Outcome, a: Assertion, table: map<nat, TickResult>)
    requires Fault(a).None?
  {
    var c, from, until := a.channel.index, a.check.FirstTick(), a.check.LastTick();
    && o.verdict == DeservedVerdict(a, table)
    && o.valid + o.missing + o.invalid == until - from + 1
    && if a.check.Transition? then
         var items := Items(table, DigitalReader(c), from, until);
         && o.valid == Tally(IsValid(), items) && o.missing == Tally(IsMissing(), items)
         && o.invalid == Tally(IsInvalid(), items)
         && o.violations == (if o.verdict == Fail then 1 else 0) && o.firstFailure == None
       else if ReadsDigital(a.check) then Counted(o, DigitalTest(a.check), Items(table, DigitalReader(c), from, until))
       else if ReadsAnalogue(a.check)
         then Counted(o, AnalogueTest(a.check), Items(table, AnalogueReader(c), from, until))
       else Counted(o, PwmTest(a.check), Items(table, PwmReader(c), from, until))
  }

  // ---------- What the tests say of the stored rows ----------

  /** The channel is read from measured rows only, and the test on its value is what the assertion asks of the row. */
  ghost predicate Reads<T>(a: Assertion, read: TickResult -> Option<T>, accepts: T -> bool)
    requires Fault(a).None?
  {
    forall r: TickResult :: (read(r).Some? <==> r.Measured?)
      && (r.Measured? ==> (accepts(read(r).value) <==> Meets(a, r)))
  }

  lemma DigitalIsRead(a: Assertion)
    requires Fault(a).None? && ReadsDigital(a.check) && !a.check.Transition?
    ensures Reads(a, DigitalReader(a.channel.index), DigitalTest(a.check))
  {
    forall r: TickResult | r.Measured?
      ensures DigitalTest(a.check)(r.digital[a.channel.index]) <==> Meets(a, r)
    {
      DigitalTestIsMeant(a.check, r.digital[a.channel.index]);
    }
  }

  lemma AnalogueIsRead(a: Assertion)
    requires Fault(a).None? && ReadsAnalogue(a.check)
    ensures Reads(a, AnalogueReader(a.channel.index), AnalogueTest(a.check))
  {
    forall r: TickResult | r.Measured?
      ensures AnalogueTest(a.check)(r.analogue[a.channel.index]) <==> Meets(a, r)
    {
      AnalogueTestIsMeant(a.check, r.analogue[a.channel.index]);
    }
  }

  lemma PwmIsRead(a: Assertion)
    requires Fault(a).None? && ReadsPwm(a.check)
    ensures Reads(a, PwmReader(a.channel.index), PwmTest(a.check))
  {
    forall r: TickResult | r.Measured?
      ensures PwmTest(a.check)(r.pwm[a.channel.index]) <==> Meets(a, r)
    {
      PwmTestIsMeant(a.check, r.pwm[a.channel.index]);
    }
  }

  lemma RangeIsJudged<T(!new)>(a: Assertion, table: map<nat, TickResult>, read: TickResult -> Option<T>,
      accepts: T -> bool)
    requires Fault(a).None? && !a.check.Transition? && Reads(a, read, accepts)
    ensures Judges(RangeVerdict(accepts, KnownOf(table, read), a.check.FirstTick(), a.check.LastTick()), a, table)
  {
    var known := KnownOf(table, read);
    forall t
      ensures known(t).Some? <==> Shown(table, t)
      ensures Shown(table, t) ==> (accepts(known(t).value) <==> Meets(a, table[t]))
    {
      if t >= 0 && t in table {
        assert read(table[t]).Some? <==> table[t].Measured?;
      }
    }
  }

  lemma TransitionIsJudged(a: Assertion, table: map<nat, TickResult>)
    requires Fault(a).None? && a.check.Transition?
    ensures Judges(DeservedVerdict(a, table), a, table)
  {
    var known := KnownOf(table, DigitalReader(a.channel.index));
    forall t
      ensures SeenTurning(known, a.check.fromState, a.check.toState, t) <==> Turned(a, table, t)
      ensures known(t).Some? <==> Shown(table, t)
    {
    }
  }

  /** The deserved verdict is the one the stored rows deserve by the meaning of the operation. */
  lemma DeservedIsJudged(a: Assertion, table: map<nat, TickResult>)
    requires Fault(a).None?
    ensures Judges(DeservedVerdict(a, table), a, table)
  {
    var c := a.channel.index;
    if a.check.Transition? {
      TransitionIsJudged(a, table);
    } else if ReadsDigital(a.check) {
      DigitalIsRead(a);
      RangeIsJudged(a, table, DigitalReader(c), DigitalTest(a.check));
    } else if ReadsAnalogue(a.check) {
      AnalogueIsRead(a);
      RangeIsJudged(a, table, AnalogueReader(c), AnalogueTest(a.check));
    } else {
      PwmIsRead(a);
      RangeIsJudged(a, table, PwmReader(c), PwmTest(a.check));
    }
  }

  // ---------- What the counts and observations say of the stored rows ----------

  /** A sample stands for its tick: absent, stored without measurements, or measured. */
  lemma SampleIsShown<T(!new)>(a: Assertion, table: map<nat, TickResult>, read: TickResult -> Option<T>,
      accepts: T -> bool, t: int)
    requires Fault(a).None? && Reads(a, read, accepts) && t >= 0
    ensures var s := SampleAt(table, read, t);
      && (IsMissing()(s) <==> t !in table) && (IsInvalid()(s) <==> t in table && !table[t].Measured?)
      && (IsValid()(s) <==> Shown(table, t)) && (s.Valid() ==> s.value == read(table[t]))
      && (Violates(accepts)(s) <==> Shown(table, t) && !Meets(a, table[t]))
  {
    if t in table {
      assert read(table[t]).Some? <==> table[t].Measured?;
    }
  }

  lemma MissingIsCounted<T(!new)>(a: Assertion, table: map<nat, TickResult>, read: TickResult -> Option<T>,
      accepts: T -> bool)
    requires Fault(a).None? && Reads(a, read, accepts)
    ensures var from, until := a.check.FirstTick(), a.check.LastTick();
      && Tally(IsMissing(), Items(table, read, from, until)) == |set t: int | from <= t <= until && t !in table|
      && Tally(IsInvalid(), Items(table, read, from, until))
         == |set t: int | from <= t <= until && t in table && !table[t].Measured?|
  {
    var from, until := a.check.FirstTick(), a.check.LastTick();
    var absent := (t: int) => t !in table;
    var unusable := (t: int) => t in table && !table[t].Measured?;
    forall t | from <= t <= until
      ensures IsMissing()(SampleAt(table, read, t)) <==> absent(t)
      ensures IsInvalid()(SampleAt(table, read, t)) <==> unusable(t)
    {
      SampleIsShown(a, table, read, accepts, t);
    }
    TallyIsSize(IsMissing(), table, read, from, until, absent);
    TallyIsSize(IsInvalid(), table, read, from, until, unusable);
    assert Counting(from, until, absent) == set t: int | from <= t <= until && t !in table;
    assert Counting(from, until, unusable) == set t: int | from <= t <= until && t in table && !table[t].Measured?;
  }

  lemma MeasuredIsCounted<T(!new)>(a: Assertion, table: map<nat, TickResult>, read: TickResult -> Option<T>,
      accepts: T -> bool)
    requires Fault(a).None? && Reads(a, read, accepts)
    ensures var from, until := a.check.FirstTick(), a.check.LastTick();
      && Tally(IsValid(), Items(table, read, from, until)) == |set t: int | from <= t <= until && Shown(table, t)|
      && Tally(Violates(accepts), Items(table, read, from, until))
         == |set t: int | from <= t <= until && Shown(table, t) && !Meets(a, table[t])|
  {
    var from, until := a.check.FirstTick(), a.check.LastTick();
    var usable := (t: int) => Shown(table, t);
    var failing := (t: int) => Shown(table, t) && !Meets(a, table[t]);
    forall t | from <= t <= until
      ensures IsValid()(SampleAt(table, read, t)) <==> usable(t)
      ensures Violates(accepts)(SampleAt(table, read, t)) <==> failing(t)
    {
      SampleIsShown(a, table, read, accepts, t);
    }
    TallyIsSize(IsValid(), table, read, from, until, usable);
    TallyIsSize(Violates(accepts), table, read, from, until, failing);
    assert Counting(from, until, usable) == set t: int | from <= t <= until && Shown(table, t);
    assert Counting(from, until, failing) == set t: int | from <= t <= until && Shown(table, t) && !Meets(a, table[t]);
  }

  /** The sample at position `k` of the evidence fails exactly when its tick was measured and does not meet it. */
  lemma ItemFails<T(!new)>(a: Assertion, table: map<nat, TickResult>, read: TickResult -> Option<T>,
      accepts: T -> bool, t: int)
    requires Fault(a).None? && Reads(a, read, accepts) && a.check.FirstTick() <= t <= a.check.LastTick()
    ensures var item := Items(table, read, a.check.FirstTick(), a.check.LastTick())[t - a.check.FirstTick()];
      item.tick == t && (Violates(accepts)(item) <==> Shown(table, t) && !Meets(a, table[t]))
  {
    SampleIsShown(a, table, read, accepts, t);
  }

  lemma FirstFailureIsFirst<T(!new)>(a: Assertion, table: map<nat, TickResult>, read: TickResult -> Option<T>,
      accepts: T -> bool)
    requires Fault(a).None? && Reads(a, read, accepts)
    ensures IsFirstFailure(
      FirstTick(Violates(accepts), Items(table, read, a.check.FirstTick(), a.check.LastTick())), a, table)
  {
    var from, until := a.check.FirstTick(), a.check.LastTick();
    var items := Items(table, read, from, until);
    var first := FirstTick(Violates(accepts), items);
    TallyMeaning(Violates(accepts), items);
    if first.Some? {
      var k :| 0 <= k < |items| && items[k].tick == first.value && Violates(accepts)(items[k])
        && forall j :: 0 <= j < k ==> !Violates(accepts)(items[j]);
      ItemFails(a, table, read, accepts, from + k);
      forall t | from <= t < from + k && Shown(table, t)
        ensures Meets(a, table[t])
      {
        ItemFails(a, table, read, accepts, t);
        assert !Violates(accepts)(items[t - from]);
      }
    } else {
      forall t | from <= t <= until && Shown(table, t)
        ensures Meets(a, table[t])
      {
        ItemFails(a, table, read, accepts, t);
        assert items[t - from] in items;
      }
    }
  }

  /** Counting the samples of a range counts its ticks. */
  lemma CountedCounts<T(!new)>(o: Outcome, a: Assertion, table: map<nat, TickResult>, read: TickResult -> Option<T>,
      accepts: T -> bool)
    requires Fault(a).None? && !a.check.Transition? && Reads(a, read, accepts)
    requires Counted(o, accepts, Items(table, read, a.check.FirstTick(), a.check.LastTick()))
    ensures Counts(o, a, table)
  {
    MissingIsCounted(a, table, read, accepts);
    MeasuredIsCounted(a, table, read, accepts);
    FirstFailureIsFirst(a, table, read, accepts);
  }

  /** The evidence of a range, tick by tick. */
  lemma ItemsAreTicks<T(!new)>(a: Assertion, table: map<nat, TickResult>, read: TickResult -> Option<T>,
      accepts: T -> bool)
    requires Fault(a).None? && Reads(a, read, accepts)
    ensures var from, until := a.check.FirstTick(), a.check.LastTick();
      var items := Items(table, read, from, until);
      && |items| == until - from + 1
      && forall k :: 0 <= k < |items| ==>
           && (items[k].Valid() <==> Shown(table, from + k))
           && (items[k].Valid() ==> items[k].value == read(table[from + k]))
  {
    var from, until := a.check.FirstTick(), a.check.LastTick();
    var items := Items(table, read, from, until);
    forall k | 0 <= k < |items|
      ensures items[k].Valid() <==> Shown(table, from + k)
      ensures items[k].Valid() ==> items[k].value == read(table[from + k])
    {
      SampleIsShown(a, table, read, accepts, from + k);
    }
  }

  /** Every tick of the range has its position in the evidence. */
  lemma TickIsItem<T(!new)>(a: Assertion, table: map<nat, TickResult>, read: TickResult -> Option<T>,
      accepts: T -> bool, t: int)
    requires Fault(a).None? && Reads(a, read, accepts)
    requires a.check.FirstTick() <= t <= a.check.LastTick() && Shown(table, t)
    ensures var from := a.check.FirstTick(); var items := Items(table, read, from, a.check.LastTick());
      items[t - from].Valid() && items[t - from].value == read(table[t])
  {
    ItemsAreTicks(a, table, read, accepts);
    assert a.check.FirstTick() + (t - a.check.FirstTick()) == t;
  }

  lemma VoltageWasMeasured(a: Assertion, table: map<nat, TickResult>, v: int) returns (t: int)
    requires Fault(a).None? && ReadsAnalogue(a.check)
    requires v in Values(Items(table, AnalogueReader(a.channel.index), a.check.FirstTick(), a.check.LastTick()))
    ensures a.check.FirstTick() <= t <= a.check.LastTick()
    ensures Shown(table, t) && table[t].analogue[a.channel.index] == v
  {
    var c, from, until := a.channel.index, a.check.FirstTick(), a.check.LastTick();
    var items := Items(table, AnalogueReader(c), from, until);
    AnalogueIsRead(a);
    ItemsAreTicks(a, table, AnalogueReader(c), AnalogueTest(a.check));
    ValuesAreThose(items, v);
    var k :| 0 <= k < |items| && items[k].Valid() && items[k].value.value == v;
    t := from + k;
  }

  lemma MeasuredVoltageIsValue(a: Assertion, table: map<nat, TickResult>, t: int)
    requires Fault(a).None? && ReadsAnalogue(a.check)
    requires a.check.FirstTick() <= t <= a.check.LastTick() && Shown(table, t)
    ensures table[t].analogue[a.channel.index]
      in Values(Items(table, AnalogueReader(a.channel.index), a.check.FirstTick(), a.check.LastTick()))
  {
    var c := a.channel.index;
    AnalogueIsRead(a);
    TickIsItem(a, table, AnalogueReader(c), AnalogueTest(a.check), t);
    ValuesAreThose(Items(table, AnalogueReader(c), a.check.FirstTick(), a.check.LastTick()), table[t].analogue[c]);
  }

  lemma ExtremesOfVoltages(a: Assertion, table: map<nat, TickResult>, least: Option<int>, greatest: Option<int>)
    requires Fault(a).None? && ReadsAnalogue(a.check)
    requires VoltageExtremes(
      Values(Items(table, AnalogueReader(a.channel.index), a.check.FirstTick(), a.check.LastTick())), least, greatest)
    ensures AreVoltageExtremes(least, greatest, a, table)
  {
    var c, from, until := a.channel.index, a.check.FirstTick(), a.check.LastTick();
    var values := Values(Items(table, AnalogueReader(c), from, until));
    forall t | from <= t <= until && Shown(table, t)
      ensures table[t].analogue[c] in values
    {
      MeasuredVoltageIsValue(a, table, t);
    }
    if values != [] {
      var s := VoltageWasMeasured(a, table, least.value);
      var t := VoltageWasMeasured(a, table, greatest.value);
    }
  }

  /** The value at the first failure. */
  lemma FailingValue<T(!new)>(a: Assertion, table: map<nat, TickResult>, read: TickResult -> Option<T>,
      accepts: T -> bool)
    requires Fault(a).None? && Reads(a, read, accepts)
    ensures var from := a.check.FirstTick(); var items := Items(table, read, from, a.check.LastTick());
      var first := FirstTick(Violates(accepts), items);
      && (first.None? ==> FirstFailing(accepts, items).None?)
      && (first.Some? ==>
            from <= first.value <= a.check.LastTick() && Shown(table, first.value)
            && FirstFailing(accepts, items) == read(table[first.value]))
  {
    var from := a.check.FirstTick();
    var items := Items(table, read, from, a.check.LastTick());
    FirstFailingIsFirst(accepts, items);
    ItemsAreTicks(a, table, read, accepts);
    if FirstFailing(accepts, items).Some? {
      var k :| 0 <= k < |items| && Violates(accepts)(items[k]) && items[k].value == FirstFailing(accepts, items)
        && items[k].tick == FirstTick(Violates(accepts), items).value;
      assert items[k].tick == from + k;
    }
  }

  lemma LevelsAreCounted(a: Assertion, table: map<nat, TickResult>, high: bool)
    requires Fault(a).None? && ReadsDigital(a.check)
    ensures Tally(IsState(high), Items(table, DigitalReader(a.channel.index), a.check.FirstTick(), a.check.LastTick()))
      == |LevelTicks(a, table, high)|
  {
    var c, from, until := a.channel.index, a.check.FirstTick(), a.check.LastTick();
    var shows := (t: int) => Shown(table, t) && table[t].digital[c] == high;
    TallyIsSize(IsState(high), table, DigitalReader(c), from, until, shows);
    assert Counting(from, until, shows) == LevelTicks(a, table, high);
  }

  lemma FirstTurnIsFirst(a: Assertion, table: map<nat, TickResult>)
    requires Fault(a).None? && a.check.Transition?
    ensures var items := Items(table, DigitalReader(a.channel.index), a.check.fromTick, a.check.untilTick);
      IsFirstTurn(CrossingTick(items, a.check.fromState, a.check.toState, |items|), a, table)
  {
    var c, from, until := a.channel.index, a.check.fromTick, a.check.untilTick;
    var items := Items(table, DigitalReader(c), from, until);
    FirstCrossingIsFirst(items, a.check.fromState, a.check.toState, |items|);
    forall t | from <= t < until
      ensures CrossesAt(items, a.check.fromState, a.check.toState, t + 1 - from) <==> Turned(a, table, t)
    {
      assert items[t - from] == SampleAt(table, DigitalReader(c), t);
      assert items[t + 1 - from] == SampleAt(table, DigitalReader(c), t + 1);
    }
    var first := FirstCrossing(items, a.check.fromState, a.check.toState, |items|);
    forall t | from <= t < until && (first.None? || t + 1 - from < first.value)
      ensures !Turned(a, table, t)
    {
      var j: nat := t + 1 - from;
      assert j < |items| && j < (if first.Some? then first.value else |items|);
      assert !CrossesAt(items, a.check.fromState, a.check.toState, j);
    }
    if first.Some? {
      assert CrossesAt(items, a.check.fromState, a.check.toState, first.value);
      ItemIsSample(table, DigitalReader(c), from, until, first.value - 1);
      var t := from + (first.value - 1);
      assert t + 1 - from == first.value && Turned(a, table, t);
    }
  }

  /** Which quantity the PWM range operations look at. */
  function MetricFor(check: Check): Metric {
    if check.FrequencyRemainWithin? then FrequencyHz else DutyCycle
  }

  lemma MetricWasMeasured(a: Assertion, table: map<nat, TickResult>, v: real) returns (t: int)
    requires Fault(a).None? && ReadsPwm(a.check)
    requires v in Metrics(MetricFor(a.check),
      Items(table, PwmReader(a.channel.index), a.check.FirstTick(), a.check.LastTick()))
    ensures a.check.FirstTick() <= t <= a.check.LastTick()
    ensures ShowsWaveform(a, table, t) && MetricAt(a.check, table[t].pwm[a.channel.index]) == v
  {
    var c, from, until := a.channel.index, a.check.FirstTick(), a.check.LastTick();
    var items, metric := Items(table, PwmReader(c), from, until), MetricFor(a.check);
    PwmIsRead(a);
    ItemsAreTicks(a, table, PwmReader(c), PwmTest(a.check));
    MetricsAreThose(metric, items, v);
    var k :| 0 <= k < |items| && HasMetric(metric, items[k], v);
    t := from + k;
  }

  lemma MeasuredMetricIsValue(a: Assertion, table: map<nat, TickResult>, t: int)
    requires Fault(a).None? && ReadsPwm(a.check)
    requires a.check.FirstTick() <= t <= a.check.LastTick() && ShowsWaveform(a, table, t)
    ensures MetricAt(a.check, table[t].pwm[a.channel.index])
      in Metrics(MetricFor(a.check), Items(table, PwmReader(a.channel.index), a.check.FirstTick(), a.check.LastTick()))
  {
    var c, from := a.channel.index, a.check.FirstTick();
    var items, metric := Items(table, PwmReader(c), from, a.check.LastTick()), MetricFor(a.check);
    PwmIsRead(a);
    TickIsItem(a, table, PwmReader(c), PwmTest(a.check), t);
    MetricsAreThose(metric, items, MetricAt(a.check, table[t].pwm[c]));
    assert HasMetric(metric, items[t - from], MetricAt(a.check, table[t].pwm[c]));
  }

  lemma ExtremesOfMetrics(a: Assertion, table: map<nat, TickResult>, least: Option<real>, greatest: Option<real>)
    requires Fault(a).None? && ReadsPwm(a.check)
    requires MetricExtremes(Metrics(MetricFor(a.check),
      Items(table, PwmReader(a.channel.index), a.check.FirstTick(), a.check.LastTick())), least, greatest)
    ensures AreMetricExtremes(least, greatest, a, table)
  {
    var c, from, until := a.channel.index, a.check.FirstTick(), a.check.LastTick();
    var values := Metrics(MetricFor(a.check), Items(table, PwmReader(c), from, until));
    forall t | from <= t <= until && ShowsWaveform(a, table, t)
      ensures MetricAt(a.check, table[t].pwm[c]) in values
    {
      MeasuredMetricIsValue(a, table, t);
    }
    if values != [] {
      var s := MetricWasMeasured(a, table, least.value);
      var t := MetricWasMeasured(a, table, greatest.value);
    }
  }

  lemma SilentTicksAreCounted(a: Assertion, table: map<nat, TickResult>)
    requires Fault(a).None? && ReadsPwm(a.check)
    ensures var from, until := a.check.FirstTick(), a.check.LastTick();
      Tally(NoWaveform(), Items(table, PwmReader(a.channel.index), from, until))
      == |set t: int | from <= t <= until && Shown(table, t) && !ShowsWaveform(a, table, t)|
  {
    var c, from, until := a.channel.index, a.check.FirstTick(), a.check.LastTick();
    var silent := (t: int) => Shown(table, t) && !ShowsWaveform(a, table, t);
    TallyIsSize(NoWaveform(), table, PwmReader(c), from, until, silent);
    assert Counting(from, until, silent)
        == set t: int | from <= t <= until && Shown(table, t) && !ShowsWaveform(a, table, t);
  }

  lemma CountedTransition(o: Outcome, a: Assertion, table: map<nat, TickResult>)
    requires Fault(a).None? && a.check.Transition? && Explains(o, a, table)
    ensures Counts(o, a, table)
  {
    var c, from, until := a.channel.index, a.check.FirstTick(), a.check.LastTick();
    var absent := (t: int) => t !in table;
    var unusable := (t: int) => t in table && !table[t].Measured?;
    var usable := (t: int) => Shown(table, t);
    TallyIsSize(IsMissing(), table, DigitalReader(c), from, until, absent);
    TallyIsSize(IsInvalid(), table, DigitalReader(c), from, until, unusable);
    TallyIsSize(IsValid(), table, DigitalReader(c), from, until, usable);
    assert Counting(from, until, absent) == set t: int | from <= t <= until && t !in table;
    assert Counting(from, until, unusable) == set t: int | from <= t <= until && t in table && !table[t].Measured?;
    assert Counting(from, until, usable) == set t: int | from <= t <= until && Shown(table, t);
  }

  lemma DigitalTells(o: Outcome, a: Assertion, table: map<nat, TickResult>)
    requires Fault(a).None? && ReadsDigital(a.check) && Explains(o, a, table)
    requires var items := Items(table, DigitalReader(a.channel.index), a.check.FirstTick(), a.check.LastTick());
      var high, low := Tally(IsState(true), items), Tally(IsState(false), items);
      if a.check.StateAtTick? then ObservesPoint(o, a, table)
      else if a.check.Transition? then
        o.observed
          == CrossingObserved(high, low, CrossingTick(items, a.check.fromState, a.check.toState, |items|))
      else o.observed == StateCounts(high, low)
    ensures Tells(o, a, table)
  {
    DeservedIsJudged(a, table);
    LevelsAreCounted(a, table, true);
    LevelsAreCounted(a, table, false);
    if a.check.Transition? {
      CountedTransition(o, a, table);
      FirstTurnIsFirst(a, table);
    } else {
      DigitalIsRead(a);
      CountedCounts(o, a, table, DigitalReader(a.channel.index), DigitalTest(a.check));
    }
  }

  lemma AnalogueTells(o: Outcome, a: Assertion, table: map<nat, TickResult>)
    requires Fault(a).None? && ReadsAnalogue(a.check) && Explains(o, a, table)
    requires var items := Items(table, AnalogueReader(a.channel.index), a.check.FirstTick(), a.check.LastTick());
      if a.check.IsPoint() then ObservesPoint(o, a, table)
      else
        && o.observed.VoltageRange? && o.observed.firstFailing == FirstFailing(AnalogueTest(a.check), items)
        && VoltageExtremes(Values(items), o.observed.minimum, o.observed.maximum)
    ensures Tells(o, a, table)
  {
    var read, test := AnalogueReader(a.channel.index), AnalogueTest(a.check);
    DeservedIsJudged(a, table);
    AnalogueIsRead(a);
    CountedCounts(o, a, table, read, test);
    if !a.check.IsPoint() {
      FailingValue(a, table, read, test);
      ExtremesOfVoltages(a, table, o.observed.minimum, o.observed.maximum);
    }
  }

  lemma FailingMetric(o: Outcome, a: Assertion, table: map<nat, TickResult>)
    requires Fault(a).None? && ReadsPwm(a.check)
    requires var items := Items(table, PwmReader(a.channel.index), a.check.FirstTick(), a.check.LastTick());
      && o.firstFailure == FirstTick(Violates(PwmTest(a.check)), items)
      && o.observed.MetricRange?
      && o.observed.firstFailingMetric == MetricOf(MetricFor(a.check), FirstFailing(PwmTest(a.check), items))
    ensures o.firstFailure.Some? ==> Shown(table, o.firstFailure.value)
    ensures o.observed.firstFailingMetric == (
      if o.firstFailure.None? || !ShowsWaveform(a, table, o.firstFailure.value) then None
      else Some(MetricAt(a.check, table[o.firstFailure.value].pwm[a.channel.index])))
  {
    PwmIsRead(a);
    FailingValue(a, table, PwmReader(a.channel.index), PwmTest(a.check));
  }

  lemma PwmTells(o: Outcome, a: Assertion, table: map<nat, TickResult>)
    requires Fault(a).None? && ReadsPwm(a.check) && Explains(o, a, table)
    requires var items := Items(table, PwmReader(a.channel.index), a.check.FirstTick(), a.check.LastTick());
      if a.check.IsPoint() then ObservesPoint(o, a, table)
      else
        var metric := MetricFor(a.check);
        && o.observed.MetricRange? && MetricExtremes(Metrics(metric, items), o.observed.lowest, o.observed.highest)
        && o.observed.firstFailingMetric == MetricOf(metric, FirstFailing(PwmTest(a.check), items))
        && o.observed.noWaveform == Tally(NoWaveform(), items)
    ensures Tells(o, a, table)
  {
    var read, test := PwmReader(a.channel.index), PwmTest(a.check);
    DeservedIsJudged(a, table);
    PwmIsRead(a);
    CountedCounts(o, a, table, read, test);
    if !a.check.IsPoint() {
      ExtremesOfMetrics(a, table, o.observed.lowest, o.observed.highest);
      SilentTicksAreCounted(a, table);
      FailingMetric(o, a, table);
    }
  }

  /** The digital handlers: the outcome tells the truth about the stored rows. */
  method EvaluateDigital(a: Assertion, table: map<nat, TickResult>) returns (o: Outcome)
    requires Keyed(table) && Fault(a).None? && ReadsDigital(a.check)
    ensures Explains(o, a, table) && Tells(o, a, table)
  {
    var c := a.channel.index;
    match a.check
    case StateAtTick(tick, expected) =>
      o := PointOutcome(Is(expected), SampleAt(table, DigitalReader(c), tick), (v: bool) => StateObserved(v));
      PointIsRange(Is(expected), table, DigitalReader(c), tick, (v: bool) => StateObserved(v));
      DigitalTells(o, a, table);
    case RemainHigh(from, until) =>
      o := EvaluateRemainState(table, c, from, until, true);
      DigitalTells(o, a, table);
    case RemainLow(from, until) =>
      o := EvaluateRemainState(table, c, from, until, false);
      DigitalTells(o, a, table);
    case Transition(from, until, fromState, toState) =>
      o := EvaluateTransition(table, c, from, until, fromState, toState);
      DigitalTells(o, a, table);
  }

  /** The voltage handlers. */
  method EvaluateAnalogue(a: Assertion, table: map<nat, TickResult>) returns (o: Outcome)
    requires Keyed(table) && Fault(a).None? && ReadsAnalogue(a.check)
    ensures Explains(o, a, table) && Tells(o, a, table)
  {
    var c := a.channel.index;
    if a.check.Near? || a.check.Within? {
      o := PointOutcome(AnalogueTest(a.check), SampleAt(table, AnalogueReader(c), a.check.tick),
        (v: int) => VoltageObserved(v));
      PointIsRange(AnalogueTest(a.check), table, AnalogueReader(c), a.check.tick, (v: int) => VoltageObserved(v));
    } else {
      o := EvaluateVoltageRange(table, c, a.check.fromTick, a.check.untilTick, AnalogueTest(a.check));
    }
    AnalogueTells(o, a, table);
  }

  /** The PWM handlers. */
  method EvaluatePwm(a: Assertion, table: map<nat, TickResult>) returns (o: Outcome)
    requires Keyed(table) && Fault(a).None? && ReadsPwm(a.check)
    ensures Explains(o, a, table) && Tells(o, a, table)
  {
    var c := a.channel.index;
    if a.check.FrequencyRemainWithin? {
      o := EvaluateMetricRange(table, c, a.check.fromTick, a.check.untilTick, FrequencyHz,
        Between(a.check.minimumHz, a.check.maximumHz));
    } else if a.check.DutyCycleRemainWithin? {
      o := EvaluateMetricRange(table, c, a.check.fromTick, a.check.untilTick, DutyCycle,
        Between(a.check.minimumDuty, a.check.maximumDuty));
    } else {
      o := PointOutcome(PwmTest(a.check), SampleAt(table, PwmReader(c), a.check.tick),
        (m: PwmMeasurement) => WaveformObserved(m));
      PointIsRange(PwmTest(a.check), table, PwmReader(c), a.check.tick, (m: PwmMeasurement) => WaveformObserved(m));
    }
    PwmTells(o, a, table);
  }

  /** Registry dispatch: the outcome's verdict is the deserved one, and its counts cover every tick of the assertion. */
  method EvaluateAssertion(a: Assertion, table: map<nat, TickResult>) returns (r: Result<Outcome, EvaluationError>)
    requires Keyed(table)
    ensures r.Failure? <==> Fault(a).Some?
    ensures r.Failure? ==> r.error == Fault(a).value
    ensures r.Success? ==> Explains(r.value, a, table) && Tells(r.value, a, table)
  {
    var fault := Fault(a);
    if fault.Some? {
      return Failure(fault.value);
    }
    var o: Outcome;
    if ReadsDigital(a.check) {
      o := EvaluateDigital(a, table);
    } else if ReadsAnalogue(a.check) {
      o := EvaluateAnalogue(a, table);
    } else {
      o := EvaluatePwm(a, table);
    }
    r := Success(o);
  }

  // ---------- A whole assertion set ----------

  datatype Report = Report(verdict: Verdict, outcomes: seq<Outcome>)

  predicate Fatal(e: ErrorRow) {
    !e.recoverable
  }

  /** `_overall_verdict`. */
  function Overall(verdicts: seq<Verdict>, status: CaptureStatus, fatalErrors: nat): Verdict {
    if Fail in verdicts then Fail
    else if verdicts == [] || Inconclusive in verdicts || status != Complete || fatalErrors != 0 then Inconclusive
    else Pass
  }

  /**
   A run passes exactly when it is complete, has no fatal error, and has assertions all of which pass; one failure
   fails it.
   */
  lemma OverallMeaning(verdicts: seq<Verdict>, run: Database)
    ensures var v := Overall(verdicts, run.status, |Filter(Fatal, run.errors)|);
      && (v == Pass <==>
            verdicts != [] && (forall x :: x in verdicts ==> x == Pass) && run.status == Complete
              && forall e :: e in run.errors ==> e.recoverable)
      && (v == Fail <==> exists x :: x in verdicts && x == Fail)
  {
    var fatal := Filter(Fatal, run.errors);
    if fatal != [] {
      assert fatal[0] in fatal;
    }
    assert forall e :: e in run.errors && !e.recoverable ==> e in fatal;
    if verdicts != [] {
      assert verdicts[0] in verdicts;
    }
  }

  /** One explained outcome per assertion, and the overall verdict that follows from them. */
  ghost predicate Reports(report: Report, run: Database, assertions: seq<Assertion>) {
    && |report.outcomes| == |assertions|
    && (forall k :: 0 <= k < |assertions| ==>
          && Fault(assertions[k]).None? && Explains(report.outcomes[k], assertions[k], run.ticks)
          && Tells(report.outcomes[k], assertions[k], run.ticks))
    && report.verdict == Overall(VerdictsOf(report.outcomes), run.status, |Filter(Fatal, run.errors)|)
  }

  /** `evaluate`: all assertions in order, or the first fault. */
  method Evaluate(run: Database, assertions: seq<Assertion>) returns (r: Result<Report, EvaluationError>)
    requires Keyed(run.ticks)
    ensures run.status == InProgress ==> r == Failure(RunNotFinal)
    ensures run.status != InProgress ==> (r.Success? <==> forall a :: a in assertions ==> Fault(a).None?)
    ensures run.status != InProgress && r.Failure? ==>
      exists k :: 0 <= k < |assertions| && Fault(assertions[k]) == Some(r.error)
                  && forall j :: 0 <= j < k ==> Fault(assertions[j]).None?
    ensures r.Success? ==> Reports(r.value, run, assertions)
  {
    if run.status == InProgress {
      return Failure(RunNotFinal);
    }
    var outcomes: seq<Outcome> := [];
    var k := 0;
    while k < |assertions|
      invariant 0 <= k <= |assertions| && |outcomes| == k
      invariant forall j :: 0 <= j < k ==>
        && Fault(assertions[j]).None? && Explains(outcomes[j], assertions[j], run.ticks)
        && Tells(outcomes[j], assertions[j], run.ticks)
    {
      var outcome := EvaluateAssertion(assertions[k], run.ticks);
      if outcome.Failure? {
        assert assertions[k] in assertions;
        return Failure(outcome.error);
      }
      outcomes := outcomes + [outcome.value];
      k := k + 1;
    }
    r := Success(Report(Overall(VerdictsOf(outcomes), run.status, |Filter(Fatal, run.errors)|), outcomes));
  }

  function VerdictsOf(outcomes: seq<Outcome>): (v: seq<Verdict>)
    ensures |v| == |outcomes| && forall k :: 0 <= k < |v| ==> v[k] == outcomes[k].verdict
  {
    if outcomes == [] then [] else [outcomes[0].verdict] + VerdictsOf(outcomes[1..])
  }

  // ---------- Verdicts and the truth ----------

  function DigitalSeries(w: World, c: int): int -> bool {
    (t: int) => w.digital(c, t)
  }

  function AnalogueSeries(w: World, c: int): int -> int {
    (t: int) => w.analogue(c, t)
  }

  function PwmSeries(w: World, c: int): int -> PwmMeasurement {
    (t: int) => w.pwm(c, t)
  }

  /** The account agrees with every usable measurement of the run; absent and unusable ticks are free. */
  ghost predicate Completion(w: World, table: map<nat, TickResult>) {
    && (forall t, c :: t in table && table[t].Measured? && 0 <= c < DIGITAL_INPUTS ==>
          w.digital(c, t) == table[t].digital[c])
    && (forall t, c :: t in table && table[t].Measured? && 0 <= c < ANALOGUE_INPUTS ==>
          w.analogue(c, t) == table[t].analogue[c])
    && (forall t, c :: t in table && table[t].Measured? && 0 <= c < PWM_INPUTS ==> w.pwm(c, t) == table[t].pwm[c])
  }

  /** The account passes the tests that the handlers apply. */
  ghost predicate PassesTests(a: Assertion, w: World)
    requires Fault(a).None?
  {
    var c, from, until := a.channel.index, a.check.FirstTick(), a.check.LastTick();
    if a.check.Transition? then Crosses(DigitalSeries(w, c), a.check.fromState, a.check.toState, from, until)
    else if ReadsDigital(a.check) then AcceptsAll(DigitalTest(a.check), DigitalSeries(w, c), from, until)
    else if ReadsAnalogue(a.check) then AcceptsAll(AnalogueTest(a.check), AnalogueSeries(w, c), from, until)
    else AcceptsAll(PwmTest(a.check), PwmSeries(w, c), from, until)
  }

  lemma DigitalTestsAreTrue(a: Assertion, w: World)
    requires Fault(a).None? && ReadsDigital(a.check) && !a.check.Transition?
    ensures PassesTests(a, w) <==> Holds(a, w)
  {
    var c := a.channel.index;
    forall t {:trigger w.digital(c, t)}
      ensures DigitalTest(a.check)(DigitalSeries(w, c)(t)) <==> LevelMeets(a.check, w.digital(c, t))
    {
      DigitalTestIsMeant(a.check, w.digital(c, t));
    }
  }

  lemma AnalogueTestsAreTrue(a: Assertion, w: World)
    requires Fault(a).None? && ReadsAnalogue(a.check)
    ensures PassesTests(a, w) <==> Holds(a, w)
  {
    var c := a.channel.index;
    forall t {:trigger w.analogue(c, t)}
      ensures AnalogueTest(a.check)(AnalogueSeries(w, c)(t)) <==> VoltageMeets(a.check, w.analogue(c, t))
    {
      AnalogueTestIsMeant(a.check, w.analogue(c, t));
    }
  }

  lemma PwmTestsAreTrue(a: Assertion, w: World)
    requires Fault(a).None? && ReadsPwm(a.check)
    ensures PassesTests(a, w) <==> Holds(a, w)
  {
    var c := a.channel.index;
    forall t {:trigger w.pwm(c, t)}
      ensures PwmTest(a.check)(PwmSeries(w, c)(t)) <==> WaveformMeets(a.check, w.pwm(c, t))
    {
      PwmTestIsMeant(a.check, w.pwm(c, t));
    }
  }

  lemma TransitionTestIsTrue(a: Assertion, w: World)
    requires Fault(a).None? && a.check.Transition?
    ensures PassesTests(a, w) <==> Holds(a, w)
  {
    var c, from, until := a.channel.index, a.check.FirstTick(), a.check.LastTick();
    var before, after := a.check.fromState, a.check.toState;
    if PassesTests(a, w) {
      var t :| from <= t < until && Turns(DigitalSeries(w, c), before, after, t);
      assert w.digital(c, t) == before && w.digital(c, t + 1) == after;
    }
    if Holds(a, w) {
      var t :| from <= t < until && w.digital(c, t) == before && w.digital(c, t + 1) == after;
      assert Turns(DigitalSeries(w, c), before, after, t);
    }
  }

  /** The handlers' tests decide each of the fifteen operations as it is meant. */
  lemma TestsAreTrue(a: Assertion, w: World)
    requires Fault(a).None?
    ensures PassesTests(a, w) <==> Holds(a, w)
  {
    if a.check.Transition? {
      TransitionTestIsTrue(a, w);
    } else if ReadsDigital(a.check) {
      DigitalTestsAreTrue(a, w);
    } else if ReadsAnalogue(a.check) {
      AnalogueTestsAreTrue(a, w);
    } else {
      PwmTestsAreTrue(a, w);
    }
  }

  /** PASS: true in every completion of the missing and invalid ticks. FAIL: true in none. */
  lemma VerdictIsSound(a: Assertion, table: map<nat, TickResult>, w: World)
    requires Fault(a).None? && Completion(w, table)
    ensures DeservedVerdict(a, table) == Pass ==> Holds(a, w)
    ensures DeservedVerdict(a, table) == Fail ==> !Holds(a, w)
  {
    TestsAreTrue(a, w);
    var c, from, until := a.channel.index, a.check.FirstTick(), a.check.LastTick();
    if a.check.Transition? {
      TransitionVerdictIsSound(KnownOf(table, DigitalReader(c)), a.check.fromState, a.check.toState, from, until,
        DigitalSeries(w, c));
    } else if ReadsDigital(a.check) {
      RangeVerdictIsSound(DigitalTest(a.check), KnownOf(table, DigitalReader(c)), from, until, DigitalSeries(w, c));
    } else if ReadsAnalogue(a.check) {
      RangeVerdictIsSound(AnalogueTest(a.check), KnownOf(table, AnalogueReader(c)), from, until, AnalogueSeries(w, c));
    } else {
      RangeVerdictIsSound(PwmTest(a.check), KnownOf(table, PwmReader(c)), from, until, PwmSeries(w, c));
    }
  }

  /** The completion that fills every free tick with a default value. */
  function StoredWorld(table: map<nat, TickResult>): World {
    World(
      (c: int, t: int) => t >= 0 && t in table && table[t].Measured? && 0 <= c < DIGITAL_INPUTS && table[t].digital[c],
      (c: int, t: int) => if t >= 0 && t in table && table[t].Measured? && 0 <= c < ANALOGUE_INPUTS
        then table[t].analogue[c] else 0,
      (c: int, t: int) => if t >= 0 && t in table && table[t].Measured? && 0 <= c < PWM_INPUTS then table[t].pwm[c]
        else PwmMeasurement(0, 0))
  }

  function Override<T>(f: (int, int) -> T, c: int, g: int -> T): (int, int) -> T {
    (d: int, t: int) => if d == c then g(t) else f(d, t)
  }

  /** The same with the free ticks of one channel filled by `v`. */
  function DigitalFilled(table: map<nat, TickResult>, c: nat, v: bool): World
    requires c < DIGITAL_INPUTS
  {
    var w := StoredWorld(table);
    World(Override(w.digital, c, Filled(KnownOf(table, DigitalReader(c)), v)), w.analogue, w.pwm)
  }

  function AnalogueFilled(table: map<nat, TickResult>, c: nat, v: int): World
    requires c < ANALOGUE_INPUTS
  {
    var w := StoredWorld(table);
    World(w.digital, Override(w.analogue, c, Filled(KnownOf(table, AnalogueReader(c)), v)), w.pwm)
  }

  function PwmFilled(table: map<nat, TickResult>, c: nat, v: PwmMeasurement): World
    requires c < PWM_INPUTS
  {
    var w := StoredWorld(table);
    World(w.digital, w.analogue, Override(w.pwm, c, Filled(KnownOf(table, PwmReader(c)), v)))
  }

  lemma DigitalFilledCompletes(table: map<nat, TickResult>, c: nat, v: bool)
    requires c < DIGITAL_INPUTS
    ensures Completion(DigitalFilled(table, c, v), table)
  {
    forall t | t in table && table[t].Measured?
      ensures DigitalFilled(table, c, v).digital(c, t) == table[t].digital[c]
    {
      assert KnownOf(table, DigitalReader(c))(t) == Some(table[t].digital[c]);
    }
  }

  lemma AnalogueFilledCompletes(table: map<nat, TickResult>, c: nat, v: int)
    requires c < ANALOGUE_INPUTS
    ensures Completion(AnalogueFilled(table, c, v), table)
  {
    forall t | t in table && table[t].Measured?
      ensures AnalogueFilled(table, c, v).analogue(c, t) == table[t].analogue[c]
    {
      assert KnownOf(table, AnalogueReader(c))(t) == Some(table[t].analogue[c]);
    }
  }

  lemma PwmFilledCompletes(table: map<nat, TickResult>, c: nat, v: PwmMeasurement)
    requires c < PWM_INPUTS
    ensures Completion(PwmFilled(table, c, v), table)
  {
    forall t | t in table && table[t].Measured?
      ensures PwmFilled(table, c, v).pwm(c, t) == table[t].pwm[c]
    {
      assert KnownOf(table, PwmReader(c))(t) == Some(table[t].pwm[c]);
    }
  }

  /** The three verdicts say that the assertion is true in all, in no, or in some but not all completions. */
  ghost predicate Exact(a: Assertion, table: map<nat, TickResult>)
    requires Fault(a).None?
  {
    && (DeservedVerdict(a, table) != Fail <==> exists w :: Completion(w, table) && Holds(a, w))
    && (DeservedVerdict(a, table) != Pass <==> exists w :: Completion(w, table) && !Holds(a, w))
  }

  lemma ExactFromWitnesses(a: Assertion, table: map<nat, TickResult>, good: World, bad: World)
    requires Fault(a).None? && Completion(good, table) && Completion(bad, table)
    requires DeservedVerdict(a, table) != Fail ==> PassesTests(a, good)
    requires DeservedVerdict(a, table) != Pass ==> !PassesTests(a, bad)
    ensures Exact(a, table)
  {
    TestsAreTrue(a, good);
    TestsAreTrue(a, bad);
    forall w | Completion(w, table)
      ensures DeservedVerdict(a, table) == Pass ==> Holds(a, w)
      ensures DeservedVerdict(a, table) == Fail ==> !Holds(a, w)
    {
      VerdictIsSound(a, table, w);
    }
  }

  /**
   Filling every unknown tick with an accepted value satisfies an assertion that did not fail; a rejected one breaks
   one that did not pass.
   */
  lemma FillingDecides<T>(accepts: T -> bool, known: Known<T>, from: int, until: int, good: T, bad: T)
    requires accepts(good) && !accepts(bad)
    ensures RangeVerdict(accepts, known, from, until) != Fail ==> AcceptsAll(accepts, Filled(known, good), from, until)
    ensures RangeVerdict(accepts, known, from, until) != Pass ==> !AcceptsAll(accepts, Filled(known, bad), from, until)
  {
    if RangeVerdict(accepts, known, from, until) == Fail {
      var t :| from <= t <= until && known(t).Some? && !accepts(known(t).value);
      assert !accepts(Filled(known, bad)(t));
    } else if RangeVerdict(accepts, known, from, until) == Inconclusive {
      var t :| from <= t <= until && known(t).None?;
      assert !accepts(Filled(known, bad)(t));
    }
  }

  lemma SameSeries<T>(accepts: T -> bool, g: int -> T, h: int -> T, from: int, until: int)
    requires forall t :: g(t) == h(t)
    ensures AcceptsAll(accepts, g, from, until) == AcceptsAll(accepts, h, from, until)
  {
  }

  /**
   For a digital level the verdict is always exact: INCONCLUSIVE means that the assertion may be true and may be false.
   */
  lemma DigitalLevelVerdictIsExact(a: Assertion, table: map<nat, TickResult>)
    requires Fault(a).None? && ReadsDigital(a.check) && !a.check.Transition?
    ensures Exact(a, table)
  {
    var c, from, until := a.channel.index, a.check.FirstTick(), a.check.LastTick();
    var known := KnownOf(table, DigitalReader(c));
    var wanted := if a.check.StateAtTick? then a.check.expected else a.check.RemainHigh?;
    DigitalFilledCompletes(table, c, wanted);
    DigitalFilledCompletes(table, c, !wanted);
    FillingDecides(DigitalTest(a.check), known, from, until, wanted, !wanted);
    SameSeries(DigitalTest(a.check), Filled(known, wanted), DigitalSeries(DigitalFilled(table, c, wanted), c), from,
      until);
    SameSeries(DigitalTest(a.check), Filled(known, !wanted), DigitalSeries(DigitalFilled(table, c, !wanted), c), from,
      until);
    ExactFromWitnesses(a, table, DigitalFilled(table, c, wanted), DigitalFilled(table, c, !wanted));
  }

  /** Some voltage passes and some voltage fails: every band except an empty one. */
  lemma VoltagesPassAndFail(check: Check) returns (good: int, bad: int)
    requires ReadsAnalogue(check)
    requires check.Near? ==> check.tolerance >= 0
    requires check.Within? || check.RemainWithin? ==> check.minimum <= check.maximum
    ensures AnalogueTest(check)(good) && !AnalogueTest(check)(bad)
  {
    match check
    case Near(_, target, tolerance) => good, bad := target, target + tolerance + 1;
    case Within(_, minimum, maximum) => good, bad := minimum, maximum + 1;
    case RemainWithin(_, _, minimum, maximum) => good, bad := minimum, maximum + 1;
    case RemainAbove(_, _, threshold) => good, bad := threshold + 1, threshold;
    case RemainBelow(_, _, threshold) => good, bad := threshold - 1, threshold;
  }

  /** For voltages the verdict is exact as soon as the band is not empty. */
  lemma VoltageVerdictIsExact(a: Assertion, table: map<nat, TickResult>)
    requires Fault(a).None? && ReadsAnalogue(a.check)
    requires a.check.Near? ==> a.check.tolerance >= 0
    requires a.check.Within? || a.check.RemainWithin? ==> a.check.minimum <= a.check.maximum
    ensures Exact(a, table)
  {
    var c, from, until := a.channel.index, a.check.FirstTick(), a.check.LastTick();
    var known := KnownOf(table, AnalogueReader(c));
    var good, bad := VoltagesPassAndFail(a.check);
    AnalogueFilledCompletes(table, c, good);
    AnalogueFilledCompletes(table, c, bad);
    FillingDecides(AnalogueTest(a.check), known, from, until, good, bad);
    SameSeries(AnalogueTest(a.check), Filled(known, good), AnalogueSeries(AnalogueFilled(table, c, good), c), from,
      until);
    SameSeries(AnalogueTest(a.check), Filled(known, bad), AnalogueSeries(AnalogueFilled(table, c, bad), c), from,
      until);
    ExactFromWitnesses(a, table, AnalogueFilled(table, c, good), AnalogueFilled(table, c, bad));
  }

  /** For waveforms the verdict is exact as soon as some measurement at all would pass; no waveform always fails. */
  lemma WaveformVerdictIsExact(a: Assertion, table: map<nat, TickResult>, good: PwmMeasurement)
    requires Fault(a).None? && ReadsPwm(a.check) && PwmTest(a.check)(good)
    ensures Exact(a, table)
  {
    var c, from, until := a.channel.index, a.check.FirstTick(), a.check.LastTick();
    var known := KnownOf(table, PwmReader(c));
    var bad := PwmMeasurement(0, 0);
    SilenceFails(a.check, bad);
    PwmFilledCompletes(table, c, good);
    PwmFilledCompletes(table, c, bad);
    FillingDecides(PwmTest(a.check), known, from, until, good, bad);
    SameSeries(PwmTest(a.check), Filled(known, good), PwmSeries(PwmFilled(table, c, good), c), from, until);
    SameSeries(PwmTest(a.check), Filled(known, bad), PwmSeries(PwmFilled(table, c, bad), c), from, until);
    ExactFromWitnesses(a, table, PwmFilled(table, c, good), PwmFilled(table, c, bad));
  }

  /** An overall PASS is about something, and every assertion is true whatever the missing and invalid ticks were. */
  lemma OverallPassIsTrue(report: Report, run: Database, assertions: seq<Assertion>, w: World)
    requires Reports(report, run, assertions) && report.verdict == Pass && Completion(w, run.ticks)
    ensures assertions != [] && run.status == Complete
    ensures forall a :: a in assertions ==> Fault(a).None? && Holds(a, w)
  {
    var verdicts := VerdictsOf(report.outcomes);
    OverallMeaning(verdicts, run);
    forall a | a in assertions
      ensures Fault(a).None? && Holds(a, w)
    {
      var k :| 0 <= k < |assertions| && assertions[k] == a;
      assert Explains(report.outcomes[k], a, run.ticks);
      assert verdicts[k] in verdicts && verdicts[k] == report.outcomes[k].verdict;
      VerdictIsSound(a, run.ticks, w);
    }
  }

  /** An overall FAIL has a culprit that is false whatever the missing and invalid ticks were. */
  lemma OverallFailIsFalse(report: Report, run: Database, assertions: seq<Assertion>) returns (k: nat)
    requires Reports(report, run, assertions) && report.verdict == Fail
    ensures k < |assertions| && Fault(assertions[k]).None?
    ensures forall w :: Completion(w, run.ticks) ==> !Holds(assertions[k], w)
  {
    var verdicts := VerdictsOf(report.outcomes);
    OverallMeaning(verdicts, run);
    k :| 0 <= k < |verdicts| && verdicts[k] == Fail;
    assert Explains(report.outcomes[k], assertions[k], run.ticks);
    forall w | Completion(w, run.ticks)
      ensures !Holds(assertions[k], w)
    {
      VerdictIsSound(assertions[k], run.ticks, w);
    }
  }

  // ---------- More evidence ----------

  /** Every usable row is kept; missing and unusable ticks may have been replaced. */
  ghost predicate MoreEvidence(fuller: map<nat, TickResult>, table: map<nat, TickResult>) {
    forall t :: t in table && table[t].Measured? ==> t in fuller && fuller[t] == table[t]
  }

  /** More evidence never turns a PASS or a FAIL into anything else. */
  lemma VerdictIsMonotone(a: Assertion, table: map<nat, TickResult>, fuller: map<nat, TickResult>)
    requires Fault(a).None? && MoreEvidence(fuller, table)
    requires DeservedVerdict(a, table) != Inconclusive
    ensures DeservedVerdict(a, fuller) == DeservedVerdict(a, table)
  {
    var c, from, until := a.channel.index, a.check.FirstTick(), a.check.LastTick();
    if a.check.Transition? {
      TransitionVerdictIsMonotone(KnownOf(table, DigitalReader(c)), KnownOf(fuller, DigitalReader(c)),
        a.check.fromState, a.check.toState, from, until);
    } else if ReadsDigital(a.check) {
      RangeVerdictIsMonotone(DigitalTest(a.check), KnownOf(table, DigitalReader(c)), KnownOf(fuller, DigitalReader(c)),
        from, until);
    } else if ReadsAnalogue(a.check) {
      RangeVerdictIsMonotone(AnalogueTest(a.check), KnownOf(table, AnalogueReader(c)),
        KnownOf(fuller, AnalogueReader(c)), from, until);
    } else {
      RangeVerdictIsMonotone(PwmTest(a.check), KnownOf(table, PwmReader(c)), KnownOf(fuller, PwmReader(c)), from,
        until);
    }
  }
}
