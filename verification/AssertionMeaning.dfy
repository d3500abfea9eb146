/**
 What the fifteen assertion operations mean: of the rows a run stored, and of a complete account of what the inputs
 did. Nothing here mentions how an operation is evaluated.
 */
module AssertionMeaning {
  import opened Basics
  import opened Definition
  import opened CaptureStore
  import opened Verdicts
  import opened Handlers

  datatype EvaluationError = RunNotFinal | UnsupportedAssertion | InvalidChannelIndex | InvalidTickRange

  predicate ReadsDigital(check: Check) {
    check.StateAtTick? || check.RemainHigh? || check.RemainLow? || check.Transition?
  }

  predicate ReadsAnalogue(check: Check) {
    check.Near? || check.Within? || check.RemainWithin? || check.RemainAbove? || check.RemainBelow?
  }

  predicate ReadsPwm(check: Check) {
    !ReadsDigital(check) && !ReadsAnalogue(check)
  }

  /** The registry: an operation is known for the one kind of input it reads. */
  predicate Registered(a: Assertion) {
    match a.channel.kind
    case DigitalInput => ReadsDigital(a.check)
    case AnalogueInput => ReadsAnalogue(a.check)
    case PwmInput => ReadsPwm(a.check)
    case _ => false
  }

  /** Why an assertion cannot be evaluated, in the order in which it is noticed. */
  function Fault(a: Assertion): Option<EvaluationError> {
    if !Registered(a) then Some(UnsupportedAssertion)
    else if !a.channel.Valid() then Some(InvalidChannelIndex)
    else if a.check.FirstTick() < 0 || a.check.LastTick() < 0 || a.check.FirstTick() > a.check.LastTick()
      then Some(InvalidTickRange)
    else None
  }

  /** What can be evaluated, and which complaint comes first about anything else. */
  lemma FaultMeans(a: Assertion)
    ensures var known :=
        || (a.channel.kind == DigitalInput
            && (a.check.StateAtTick? || a.check.RemainHigh? || a.check.RemainLow? || a.check.Transition?))
        || (a.channel.kind == AnalogueInput
            && (a.check.Near? || a.check.Within? || a.check.RemainWithin? || a.check.RemainAbove?
                || a.check.RemainBelow?))
        || (a.channel.kind == PwmInput
            && (a.check.PeriodNear? || a.check.FrequencyNear? || a.check.DutyCycleNear? || a.check.WaveformNear?
                || a.check.FrequencyRemainWithin? || a.check.DutyCycleRemainWithin?));
      var inRange := 0 <= a.channel.index < if a.channel.kind == DigitalInput then 10 else 2;
      && (Fault(a) == Some(UnsupportedAssertion) <==> !known)
      && (Fault(a) == Some(InvalidChannelIndex) <==> known && !inRange)
      && (Fault(a).None? <==> known && inRange && 0 <= a.check.FirstTick() <= a.check.LastTick())
  {
  }

  // ---------- The fifteen operations ----------

  /** What an operation, other than a transition, asks of a digital input at one tick. */
  predicate LevelMeets(check: Check, high: bool)
    requires ReadsDigital(check) && !check.Transition?
  {
    match check
    case StateAtTick(_, expected) => high == expected
    case RemainHigh(_, _) => high
    case RemainLow(_, _) => !high
  }

  /** What an operation asks of a voltage. */
  predicate VoltageMeets(check: Check, microvolts: int)
    requires ReadsAnalogue(check)
  {
    match check
    case Near(_, target, tolerance) => target - tolerance <= microvolts <= target + tolerance
    case Within(_, minimum, maximum) => minimum <= microvolts <= maximum
    case RemainWithin(_, _, minimum, maximum) => minimum <= microvolts <= maximum
    case RemainAbove(_, _, threshold) => microvolts > threshold
    case RemainBelow(_, _, threshold) => microvolts < threshold
  }

  /** What an operation asks of a waveform: one without a period has no frequency and no duty cycle. */
  predicate WaveformMeets(check: Check, m: PwmMeasurement)
    requires ReadsPwm(check)
  {
    && m.period != 0
    && var hertz, fraction := 1_000_000_000.0 / m.period as real, m.dutyPermyriad as real / 10_000.0;
       match check
       case PeriodNear(_, period, tolerance) => period - tolerance <= m.period <= period + tolerance
       case FrequencyNear(_, frequency, tolerance) => frequency - tolerance <= hertz <= frequency + tolerance
       case DutyCycleNear(_, duty, tolerance) => duty - tolerance <= fraction <= duty + tolerance
       case WaveformNear(_, frequency, frequencyTolerance, duty, dutyTolerance) =>
         && frequency - frequencyTolerance <= hertz <= frequency + frequencyTolerance
         && duty - dutyTolerance <= fraction <= duty + dutyTolerance
       case FrequencyRemainWithin(_, _, minimum, maximum) => minimum <= hertz <= maximum
       case DutyCycleRemainWithin(_, _, minimum, maximum) => minimum <= fraction <= maximum
  }

  // ---------- What really happened at the inputs ----------

  /** A complete account of every input at every tick. */
  datatype World = World(digital: (int, int) -> bool, analogue: (int, int) -> int, pwm: (int, int) -> PwmMeasurement)

  /** Whether the assertion is true of that account. */
  ghost predicate Holds(a: Assertion, w: World) {
    var c, from, until := a.channel.index, a.check.FirstTick(), a.check.LastTick();
    if a.check.Transition? then
      exists t :: from <= t < until && w.digital(c, t) == a.check.fromState && w.digital(c, t + 1) == a.check.toState
    else if ReadsDigital(a.check) then forall t :: from <= t <= until ==> LevelMeets(a.check, w.digital(c, t))
    else if ReadsAnalogue(a.check) then forall t :: from <= t <= until ==> VoltageMeets(a.check, w.analogue(c, t))
    else forall t :: from <= t <= until ==> WaveformMeets(a.check, w.pwm(c, t))
  }

  // ---------- What a stored run shows ----------

  /** Tick `t` was stored with measurements. */
  predicate Shown(table: map<nat, TickResult>, t: int) {
    t >= 0 && t in table && table[t].Measured?
  }

  /** A measured row meets the assertion, as far as one tick can. */
  predicate Meets(a: Assertion, r: TickResult)
    requires Fault(a).None? && r.Measured?
  {
    var c := a.channel.index;
    if a.check.Transition? then true
    else if ReadsDigital(a.check) then LevelMeets(a.check, r.digital[c])
    else if ReadsAnalogue(a.check) then VoltageMeets(a.check, r.analogue[c])
    else WaveformMeets(a.check, r.pwm[c])
  }

  /** Two adjacent measured ticks of a digital input show the transition that the assertion asks for. */
  predicate Turned(a: Assertion, table: map<nat, TickResult>, t: int)
    requires Fault(a).None? && a.check.Transition?
  {
    && Shown(table, t) && Shown(table, t + 1)
    && table[t].digital[a.channel.index] == a.check.fromState
    && table[t + 1].digital[a.channel.index] == a.check.toState
  }

  /**
   The verdict that the stored rows deserve. A transition passes when it is seen and fails when every tick is measured
   and it is not; every other operation passes when every tick of its range is stored, measured and meets it, and fails
   when some measured tick does not meet it.
   */
  ghost predicate Judges(v: Verdict, a: Assertion, table: map<nat, TickResult>)
    requires Fault(a).None?
  {
    var from, until := a.check.FirstTick(), a.check.LastTick();
    if a.check.Transition? then
      && (v == Pass <==> exists t :: from <= t < until && Turned(a, table, t))
      && (v == Fail <==>
            && (forall t :: from <= t <= until ==> Shown(table, t))
            && forall t :: from <= t < until ==> !Turned(a, table, t))
    else
      && (v == Pass <==> forall t :: from <= t <= until ==> Shown(table, t) && Meets(a, table[t]))
      && (v == Fail <==> exists t :: from <= t <= until && Shown(table, t) && !Meets(a, table[t]))
  }

  /** Those conditions leave one verdict. */
  lemma JudgedOnce(v: Verdict, u: Verdict, a: Assertion, table: map<nat, TickResult>)
    requires Fault(a).None? && Judges(v, a, table) && Judges(u, a, table)
    ensures u == v
  {
  }

  // ---------- The counts and the values of an outcome ----------

  /** The least failing tick of the range, if there is one. */
  ghost predicate IsFirstFailure(first: Option<int>, a: Assertion, table: map<nat, TickResult>)
    requires Fault(a).None?
  {
    var from, until := a.check.FirstTick(), a.check.LastTick();
    match first
    case None => forall t :: from <= t <= until && Shown(table, t) ==> Meets(a, table[t])
    case Some(f) =>
      && from <= f <= until && Shown(table, f) && !Meets(a, table[f])
      && forall t :: from <= t < f && Shown(table, t) ==> Meets(a, table[t])
  }

  /**
   The numbers of an outcome: ticks of the range that were never stored, stored without measurements, measured, and
   measured without meeting the assertion. A failed transition counts as one violation without a tick.
   */
  ghost predicate Counts(o: Outcome, a: Assertion, table: map<nat, TickResult>)
    requires Fault(a).None?
  {
    var from, until := a.check.FirstTick(), a.check.LastTick();
    && o.missing == |set t: int | from <= t <= until && t !in table|
    && o.invalid == |set t: int | from <= t <= until && t in table && !table[t].Measured?|
    && o.valid == |set t: int | from <= t <= until && Shown(table, t)|
    && if a.check.Transition? then
         o.violations == (if o.verdict == Fail then 1 else 0) && o.firstFailure == None
       else
         && o.violations == |set t: int | from <= t <= until && Shown(table, t) && !Meets(a, table[t])|
         && IsFirstFailure(o.firstFailure, a, table)
  }

  /** The least tick on which a transition is seen to start. */
  ghost predicate IsFirstTurn(at: Option<int>, a: Assertion, table: map<nat, TickResult>)
    requires Fault(a).None? && a.check.Transition?
  {
    var from, until := a.check.fromTick, a.check.untilTick;
    match at
    case None => forall t :: from <= t < until ==> !Turned(a, table, t)
    case Some(f) => from <= f < until && Turned(a, table, f) && forall t :: from <= t < f ==> !Turned(a, table, t)
  }

  /** `least` and `greatest` are the extremes of the voltages measured in the range; nothing without a measurement. */
  ghost predicate AreVoltageExtremes(least: Option<int>, greatest: Option<int>, a: Assertion,
      table: map<nat, TickResult>)
    requires Fault(a).None? && ReadsAnalogue(a.check)
  {
    var c, from, until := a.channel.index, a.check.FirstTick(), a.check.LastTick();
    if forall t :: from <= t <= until ==> !Shown(table, t) then least.None? && greatest.None?
    else
      && least.Some? && greatest.Some?
      && (exists t :: from <= t <= until && Shown(table, t) && table[t].analogue[c] == least.value)
      && (exists t :: from <= t <= until && Shown(table, t) && table[t].analogue[c] == greatest.value)
      && forall t :: from <= t <= until && Shown(table, t) ==> least.value <= table[t].analogue[c] <= greatest.value
  }

  /** The quantity a PWM range operation looks at: hertz, or the duty cycle as a fraction. */
  function MetricAt(check: Check, m: PwmMeasurement): real
    requires m.period != 0
  {
    if check.FrequencyRemainWithin? then 1_000_000_000.0 / m.period as real else m.dutyPermyriad as real / 10_000.0
  }

  /** Tick `t` was stored with a waveform on the assertion's input. */
  predicate ShowsWaveform(a: Assertion, table: map<nat, TickResult>, t: int)
    requires Fault(a).None? && ReadsPwm(a.check)
  {
    Shown(table, t) && table[t].pwm[a.channel.index].period != 0
  }

  ghost predicate AreMetricExtremes(least: Option<real>, greatest: Option<real>, a: Assertion,
      table: map<nat, TickResult>)
    requires Fault(a).None? && ReadsPwm(a.check)
  {
    var c, from, until := a.channel.index, a.check.FirstTick(), a.check.LastTick();
    if forall t :: from <= t <= until ==> !ShowsWaveform(a, table, t) then least.None? && greatest.None?
    else
      && least.Some? && greatest.Some?
      && (exists t :: from <= t <= until && ShowsWaveform(a, table, t)
           && MetricAt(a.check, table[t].pwm[c]) == least.value)
      && (exists t :: from <= t <= until && ShowsWaveform(a, table, t)
           && MetricAt(a.check, table[t].pwm[c]) == greatest.value)
      && forall t :: from <= t <= until && ShowsWaveform(a, table, t)
           ==> least.value <= MetricAt(a.check, table[t].pwm[c]) <= greatest.value
  }

  /** The observation of an operation on a single tick: what was measured there. */
  ghost predicate ObservesPoint(o: Outcome, a: Assertion, table: map<nat, TickResult>)
    requires Fault(a).None? && a.check.IsPoint()
  {
    var c, t := a.channel.index, a.check.tick;
    if !Shown(table, t) then o.observed == NothingObserved
    else if ReadsDigital(a.check) then o.observed == StateObserved(table[t].digital[c])
    else if ReadsAnalogue(a.check) then o.observed == VoltageObserved(table[t].analogue[c])
    else o.observed == WaveformObserved(table[t].pwm[c])
  }

  /** The observation of a voltage range: its extremes, and the value at the first failure. */
  ghost predicate ObservesVoltages(o: Outcome, a: Assertion, table: map<nat, TickResult>)
    requires Fault(a).None? && ReadsAnalogue(a.check) && IsFirstFailure(o.firstFailure, a, table)
  {
    && o.observed.VoltageRange? && AreVoltageExtremes(o.observed.minimum, o.observed.maximum, a, table)
    && o.observed.firstFailing ==
         if o.firstFailure.None? then None else Some(table[o.firstFailure.value].analogue[a.channel.index])
  }

  /** The observation of a PWM range; a failure without a waveform has no value, and is counted. */
  ghost predicate ObservesMetric(o: Outcome, a: Assertion, table: map<nat, TickResult>)
    requires Fault(a).None? && ReadsPwm(a.check) && IsFirstFailure(o.firstFailure, a, table)
  {
    var c, from, until := a.channel.index, a.check.FirstTick(), a.check.LastTick();
    && o.observed.MetricRange? && AreMetricExtremes(o.observed.lowest, o.observed.highest, a, table)
    && o.observed.firstFailingMetric == (
         if o.firstFailure.None? || !ShowsWaveform(a, table, o.firstFailure.value) then None
         else Some(MetricAt(a.check, table[o.firstFailure.value].pwm[c])))
    && o.observed.noWaveform
       == |set t: int | from <= t <= until && Shown(table, t) && !ShowsWaveform(a, table, t)|
  }

  /** How many measured ticks of the range show this level. */
  function LevelTicks(a: Assertion, table: map<nat, TickResult>, high: bool): set<int>
    requires Fault(a).None? && ReadsDigital(a.check)
  {
    set t: int | a.check.FirstTick() <= t <= a.check.LastTick() && Shown(table, t)
      && table[t].digital[a.channel.index] == high
  }

  /** The observation of a digital range: how many ticks were high and low, and where the transition was seen. */
  ghost predicate ObservesLevels(o: Outcome, a: Assertion, table: map<nat, TickResult>)
    requires Fault(a).None? && ReadsDigital(a.check)
  {
    var high, low := |LevelTicks(a, table, true)|, |LevelTicks(a, table, false)|;
    if a.check.Transition?
    then o.observed.CrossingObserved? && o.observed == CrossingObserved(high, low, o.observed.at)
         && IsFirstTurn(o.observed.at, a, table)
    else o.observed == StateCounts(high, low)
  }

  /** An outcome that tells the truth about the stored rows. */
  ghost predicate Tells(o: Outcome, a: Assertion, table: map<nat, TickResult>)
    requires Fault(a).None?
  {
    && Judges(o.verdict, a, table) && Counts(o, a, table)
    && if a.check.IsPoint() then ObservesPoint(o, a, table)
       else if ReadsDigital(a.check) then ObservesLevels(o, a, table)
       else if ReadsAnalogue(a.check) then ObservesVoltages(o, a, table)
       else ObservesMetric(o, a, table)
  }

  // ---------- The operations one by one ----------

  /** The digital operations on stored rows: a level by its PASS and its FAIL, a transition by adjacent ticks. */
  lemma DigitalOperations(v: Verdict, a: Assertion, table: map<nat, TickResult>)
    requires Fault(a).None? && ReadsDigital(a.check) && Judges(v, a, table)
    ensures var c := a.channel.index;
      match a.check
      case StateAtTick(tick, expected) =>
        && (v == Pass <==> Shown(table, tick) && table[tick].digital[c] == expected)
        && (v == Fail <==> Shown(table, tick) && table[tick].digital[c] != expected)
      case RemainHigh(from, until) =>
        && (v == Pass <==> forall t :: from <= t <= until ==> Shown(table, t) && table[t].digital[c])
        && (v == Fail <==> exists t :: from <= t <= until && Shown(table, t) && !table[t].digital[c])
      case RemainLow(from, until) =>
        && (v == Pass <==> forall t :: from <= t <= until ==> Shown(table, t) && !table[t].digital[c])
        && (v == Fail <==> exists t :: from <= t <= until && Shown(table, t) && table[t].digital[c])
      case Transition(from, until, before, after) =>
        v == Pass <==> exists t ::
          && from <= t < until && Shown(table, t) && Shown(table, t + 1)
          && table[t].digital[c] == before && table[t + 1].digital[c] == after
  {
    if a.check.Transition? {
      var c, from, until := a.channel.index, a.check.fromTick, a.check.untilTick;
      if t :| from <= t < until && Shown(table, t) && Shown(table, t + 1)
              && table[t].digital[c] == a.check.fromState && table[t + 1].digital[c] == a.check.toState
      {
        assert Turned(a, table, t);
      }
    }
  }

  /** The voltage operations on stored rows. */
  lemma AnalogueOperations(v: Verdict, a: Assertion, table: map<nat, TickResult>)
    requires Fault(a).None? && ReadsAnalogue(a.check) && Judges(v, a, table)
    ensures var c := a.channel.index;
      match a.check
      case Near(tick, target, tolerance) =>
        v == Pass <==> Shown(table, tick) && -tolerance <= table[tick].analogue[c] - target <= tolerance
      case Within(tick, minimum, maximum) =>
        v == Pass <==> Shown(table, tick) && minimum <= table[tick].analogue[c] <= maximum
      case RemainWithin(from, until, minimum, maximum) =>
        v == Pass <==> forall t :: from <= t <= until ==>
          Shown(table, t) && minimum <= table[t].analogue[c] <= maximum
      case RemainAbove(from, until, threshold) =>
        v == Pass <==> forall t :: from <= t <= until ==> Shown(table, t) && table[t].analogue[c] > threshold
      case RemainBelow(from, until, threshold) =>
        v == Pass <==> forall t :: from <= t <= until ==> Shown(table, t) && table[t].analogue[c] < threshold
  {
  }

  /** The PWM point operations on stored rows; a measurement without a period passes none of them. */
  lemma PwmPointOperations(v: Verdict, a: Assertion, table: map<nat, TickResult>)
    requires Fault(a).None? && ReadsPwm(a.check) && a.check.IsPoint() && Judges(v, a, table)
    ensures v == Pass <==>
      && ShowsWaveform(a, table, a.check.tick)
      && var m := table[a.check.tick].pwm[a.channel.index];
         var hertz, fraction := 1_000_000_000.0 / m.period as real, m.dutyPermyriad as real / 10_000.0;
         match a.check
         case PeriodNear(_, period, tolerance) => -tolerance <= m.period - period <= tolerance
         case FrequencyNear(_, frequency, tolerance) => -tolerance <= hertz - frequency <= tolerance
         case DutyCycleNear(_, duty, tolerance) => -tolerance <= fraction - duty <= tolerance
         case WaveformNear(_, frequency, frequencyTolerance, duty, dutyTolerance) =>
           && -frequencyTolerance <= hertz - frequency <= frequencyTolerance
           && -dutyTolerance <= fraction - duty <= dutyTolerance
         case _ => false
  {
    if ShowsWaveform(a, table, a.check.tick) {
      WaveformDistances(a.check, table[a.check.tick].pwm[a.channel.index]);
    }
  }

  /** Tick `t` shows a frequency within the band. */
  predicate FrequencyWithin(a: Assertion, table: map<nat, TickResult>, t: int, minimum: real, maximum: real)
    requires Fault(a).None? && ReadsPwm(a.check)
  {
    ShowsWaveform(a, table, t)
    && minimum <= 1_000_000_000.0 / table[t].pwm[a.channel.index].period as real <= maximum
  }

  /** Tick `t` shows a duty cycle within the band. */
  predicate DutyWithin(a: Assertion, table: map<nat, TickResult>, t: int, minimum: real, maximum: real)
    requires Fault(a).None? && ReadsPwm(a.check)
  {
    ShowsWaveform(a, table, t)
    && minimum <= table[t].pwm[a.channel.index].dutyPermyriad as real / 10_000.0 <= maximum
  }

  /** The PWM range operations on stored rows. */
  lemma PwmRangeOperations(v: Verdict, a: Assertion, table: map<nat, TickResult>)
    requires Fault(a).None? && ReadsPwm(a.check) && !a.check.IsPoint() && Judges(v, a, table)
    ensures a.check.FrequencyRemainWithin? ==>
      (v == Pass <==> forall t :: a.check.fromTick <= t <= a.check.untilTick ==>
         FrequencyWithin(a, table, t, a.check.minimumHz, a.check.maximumHz))
    ensures a.check.DutyCycleRemainWithin? ==>
      (v == Pass <==> forall t :: a.check.fromTick <= t <= a.check.untilTick ==>
         DutyWithin(a, table, t, a.check.minimumDuty, a.check.maximumDuty))
  {
    forall t
      ensures a.check.FrequencyRemainWithin? ==>
        (FrequencyWithin(a, table, t, a.check.minimumHz, a.check.maximumHz)
         <==> Shown(table, t) && Meets(a, table[t]))
      ensures a.check.DutyCycleRemainWithin? ==>
        (DutyWithin(a, table, t, a.check.minimumDuty, a.check.maximumDuty) <==> Shown(table, t) && Meets(a, table[t]))
    {
    }
  }

  lemma WaveformDistances(check: Check, m: PwmMeasurement)
    requires check.PeriodNear? || check.FrequencyNear? || check.DutyCycleNear? || check.WaveformNear?
    requires m.period != 0
    ensures var hertz, fraction := 1_000_000_000.0 / m.period as real, m.dutyPermyriad as real / 10_000.0;
      WaveformMeets(check, m) <==>
        match check
        case PeriodNear(_, period, tolerance) => -tolerance <= m.period - period <= tolerance
        case FrequencyNear(_, frequency, tolerance) => -tolerance <= hertz - frequency <= tolerance
        case DutyCycleNear(_, duty, tolerance) => -tolerance <= fraction - duty <= tolerance
        case WaveformNear(_, frequency, frequencyTolerance, duty, dutyTolerance) =>
          && -frequencyTolerance <= hertz - frequency <= frequencyTolerance
          && -dutyTolerance <= fraction - duty <= dutyTolerance
        case _ => false
  {
  }

  /** Inconclusive means that nothing measured speaks against the assertion, and something was not measured. */
  lemma InconclusiveMeans(v: Verdict, a: Assertion, table: map<nat, TickResult>)
    requires Fault(a).None? && !a.check.Transition? && Judges(v, a, table)
    ensures v == Inconclusive <==>
      && (forall t :: a.check.FirstTick() <= t <= a.check.LastTick() && Shown(table, t) ==> Meets(a, table[t]))
      && exists t :: a.check.FirstTick() <= t <= a.check.LastTick() && !Shown(table, t)
  {
  }
}
