/**
 The public builders: handles, exact value validation, sequential identifiers, and freezing on compilation.
 Whatever they accept can be compiled (up to the protocol's tick limit), lowered and evaluated.
 */
module Api {
  import opened Basics
  import opened Definition
  import opened Compiler
  import opened Lowering
  import AssertionMeaning
  import OutputMeaning

  datatype ApiError =
    | FrozenTest
    | InvalidIndex
    | AlreadyConfigured
    | InvalidValue
    | InvalidTime
    | NotConfigured
    | TimingTooLate
    | NotCompiled(reason: CompileError)

  // ---------- Times ----------

  datatype Time = AtTick(tick: int) | AtMilliseconds(milliseconds: real) | AtSeconds(seconds: real)

  function NonNegative(t: Option<int>): Option<int> {
    if t.Some? && t.value >= 0 then t else None
  }

  /** `resolve_timestamp`: a time that does not fall on a tick is refused. */
  function Resolve(mode: FrequencyMode, time: Time): Option<int> {
    match time
    case AtTick(t) => NonNegative(Some(t))
    case AtMilliseconds(ms) => NonNegative(Exact(ms * (Hertz(mode) as real) / 1_000.0))
    case AtSeconds(s) => NonNegative(Exact(s * (Hertz(mode) as real)))
  }

  /** `resolve_time_range`. */
  function ResolveRange(mode: FrequencyMode, from: Time, until: Time): Option<(int, int)> {
    var start, end := Resolve(mode, from), Resolve(mode, until);
    if start.None? || end.None? || start.value > end.value then None else Some((start.value, end.value))
  }

  lemma QuotientIsExact(x: real, rate: real, y: real)
    requires rate > 0.0
    ensures x * rate == y <==> x == y / rate
  {
    var q := y / rate;
    assert q * rate == y;
    if x * rate == y {
      assert (x - q) * rate == 0.0;
    }
  }

  lemma ScaledExactly(x: real, rate: real, t: int)
    requires rate > 0.0
    ensures Exact(x * rate) == Some(t) <==> x == t as real / rate
  {
    assert (t as real).Floor == t;
    QuotientIsExact(x, rate, t as real);
  }

  lemma SecondsResolve(mode: FrequencyMode, x: real, t: int)
    ensures Resolve(mode, AtSeconds(x)) == Some(t) <==> x == t as real / Hertz(mode) as real && t >= 0
  {
    ScaledExactly(x, Hertz(mode) as real, t);
  }

  lemma MillisecondsResolve(mode: FrequencyMode, x: real, t: int)
    ensures Resolve(mode, AtMilliseconds(x)) == Some(t) <==> x == t as real * 1_000.0 / Hertz(mode) as real && t >= 0
  {
    var hertz := Hertz(mode) as real;
    ScaledExactly(x, hertz / 1_000.0, t);
    assert x * hertz / 1_000.0 == x * (hertz / 1_000.0);
    assert t as real / (hertz / 1_000.0) == t as real * 1_000.0 / hertz;
  }

  /** A time resolves to a tick exactly when it names that tick; nothing is rounded, and negative times are refused. */
  lemma TimesResolveExactly(mode: FrequencyMode, x: real, k: int, t: int)
    ensures Resolve(mode, AtTick(k)) == Some(t) <==> k == t && t >= 0
    ensures Resolve(mode, AtSeconds(x)) == Some(t) <==> x == t as real / Hertz(mode) as real && t >= 0
    ensures Resolve(mode, AtMilliseconds(x)) == Some(t) <==> x == t as real * 1_000.0 / Hertz(mode) as real && t >= 0
  {
    SecondsResolve(mode, x, t);
    MillisecondsResolve(mode, x, t);
  }

  /** A range resolves to its two ticks, unless one of them does not resolve or they are in the wrong order. */
  lemma RangesResolve(mode: FrequencyMode, from: Time, until: Time, start: int, end: int)
    ensures ResolveRange(mode, from, until) == Some((start, end))
      <==> Resolve(mode, from) == Some(start) && Resolve(mode, until) == Some(end) && start <= end
  {
  }

  // ---------- Values ----------

  const MAX_ANALOGUE_OUTPUT_VOLTAGE: real := 20.0

  predicate Whole(v: real) {
    v.Floor as real == v
  }

  /** `_analogue_output_voltage`. */
  predicate VoltageAccepted(v: real) {
    0.0 <= v <= MAX_ANALOGUE_OUTPUT_VOLTAGE && Whole(v * 1_000_000.0)
  }

  /** `_protocol_pwm_duty_cycle`. */
  predicate DutyAccepted(v: real) {
    0.0 <= v <= 1.0 && Whole(v * 10_000.0)
  }

  /** `_protocol_pwm_frequency`. */
  predicate FrequencyAccepted(f: real) {
    f > 0.0 && Whole(1_000_000_000.0 / f) && 1_000_000_000.0 / f <= UINT32_MAX as real
  }

  /** The builders' value checks are the adapter's: duty and frequency exactly, voltage up to the output's own limit. */
  lemma AcceptedValuesConvert(v: real)
    ensures FrequencyAccepted(v) <==> FrequencyToPeriod(v).Some?
    ensures DutyAccepted(v) <==> DutyToPermyriad(v).Some?
    ensures VoltageAccepted(v) <==> VoltsToMicrovolts(v).Some? && v <= 20.0
  {
    if v > 0.0 {
      assert 1_000_000_000.0 / v > 0.0;
    }
  }

  /** The values one operation carries. */
  predicate OperationAccepted(operation: Stimulus) {
    match operation
    case SetWaveform(f, d) => FrequencyAccepted(f) && DutyAccepted(d)
    case SetFrequency(f) => FrequencyAccepted(f)
    case SetDutyCycle(d) => DutyAccepted(d)
    case SetVoltage(v) => VoltageAccepted(v)
    case _ => true
  }

  predicate ParametersAccepted(p: Parameters) {
    match p
    case PwmOutputParameters(f, d, _) => FrequencyAccepted(f) && DutyAccepted(d)
    case AnalogueOutputParameters(v) => VoltageAccepted(v)
    case _ => true
  }

  /** The expectation builders' checks of tolerances, bands and states. */
  predicate CheckAccepted(check: Check) {
    match check
    case Transition(_, _, fromState, toState) => fromState != toState
    case PeriodNear(_, period, tolerance) => period > 0 && tolerance >= 0
    case FrequencyNear(_, frequency, tolerance) => frequency > 0.0 && tolerance >= 0.0
    case DutyCycleNear(_, duty, tolerance) => 0.0 <= duty <= 1.0 && 0.0 <= tolerance <= 1.0
    case WaveformNear(_, frequency, frequencyTolerance, duty, dutyTolerance) =>
      frequency > 0.0 && frequencyTolerance >= 0.0 && 0.0 <= duty <= 1.0 && 0.0 <= dutyTolerance <= 1.0
    case FrequencyRemainWithin(_, _, minimum, maximum) => 0.0 <= minimum <= maximum
    case DutyCycleRemainWithin(_, _, minimum, maximum) => 0.0 <= minimum <= maximum <= 1.0
    case Near(_, _, tolerance) => tolerance >= 0
    case Within(_, minimum, maximum) => minimum <= maximum
    case RemainWithin(_, _, minimum, maximum) => minimum <= maximum
    case _ => true
  }

  /** The stimulus methods of each kind of handle. */
  predicate Offers(kind: Peripheral, operation: Stimulus) {
    match kind
    case DigitalOutput => operation.SetState?
    case PwmOutput => operation.SetEnabled? || operation.SetWaveform? || operation.SetFrequency?
      || operation.SetDutyCycle?
    case AnalogueOutput => operation.SetVoltage?
    case I2C | SPI | UART => operation.Transfer?
    case _ => false
  }

  /** What a stimulus method accepts is what the wire can carry, with at most 20 V on an analogue output. */
  lemma AcceptedOperationsAreWire(kind: Peripheral, operation: Stimulus)
    requires Offers(kind, operation)
    ensures OperationAccepted(operation)
      <==> OutputMeaning.WireOperation(kind, operation) && (operation.SetVoltage? ==> operation.voltage <= 20.0)
  {
    match operation
    case SetWaveform(f, d) =>
      AcceptedValuesAreWire(f);
      AcceptedValuesAreWire(d);
    case SetFrequency(f) => AcceptedValuesAreWire(f);
    case SetDutyCycle(d) => AcceptedValuesAreWire(d);
    case SetVoltage(v) => AcceptedValuesAreWire(v);
    case _ =>
  }

  /** And so are the initial outputs that a configuration may ask for. */
  lemma AcceptedParametersAreWire(kind: Peripheral, p: Parameters)
    requires Fits(kind, p)
    ensures ParametersAccepted(p)
      <==> OutputMeaning.WireParameters(kind, p) && (p.AnalogueOutputParameters? ==> p.initialVoltage <= 20.0)
  {
    match p
    case PwmOutputParameters(f, d, _) =>
      AcceptedValuesAreWire(f);
      AcceptedValuesAreWire(d);
    case AnalogueOutputParameters(v) => AcceptedValuesAreWire(v);
    case _ =>
  }

  lemma AcceptedValuesAreWire(v: real)
    ensures FrequencyAccepted(v) <==> OutputMeaning.WireFrequency(v)
    ensures DutyAccepted(v) <==> OutputMeaning.WireDuty(v)
    ensures VoltageAccepted(v) <==> OutputMeaning.WireVoltage(v) && v <= 20.0
  {
    AcceptedValuesConvert(v);
    OutputMeaning.ConversionsSucceedExactlyWhen(v);
  }

  // ---------- Which expectations are accepted ----------

  /** A voltage expectation is accepted exactly when some voltage can meet it. */
  lemma AcceptedVoltagesCanBeMet(check: Check)
    requires AssertionMeaning.ReadsAnalogue(check)
    ensures CheckAccepted(check) <==> exists v :: AssertionMeaning.VoltageMeets(check, v)
  {
    match check
    case Near(_, target, tolerance) => assert tolerance >= 0 ==> AssertionMeaning.VoltageMeets(check, target);
    case Within(_, minimum, maximum) => assert minimum <= maximum ==> AssertionMeaning.VoltageMeets(check, minimum);
    case RemainWithin(_, _, minimum, maximum) =>
      assert minimum <= maximum ==> AssertionMeaning.VoltageMeets(check, minimum);
    case RemainAbove(_, _, threshold) => assert AssertionMeaning.VoltageMeets(check, threshold + 1);
    case RemainBelow(_, _, threshold) => assert AssertionMeaning.VoltageMeets(check, threshold - 1);
  }

  /** A digital expectation is accepted unless it is a transition from a state to itself. */
  lemma AcceptedLevels(check: Check)
    requires AssertionMeaning.ReadsDigital(check)
    ensures CheckAccepted(check) <==> !(check.Transition? && check.fromState == check.toState)
  {
  }

  /**
   A PWM expectation is accepted when its target is a waveform, with a positive period or frequency and a duty cycle
   that is a fraction, its tolerances are not negative, and its band is a band.
   */
  lemma AcceptedWaveforms(check: Check)
    requires AssertionMeaning.ReadsPwm(check)
    ensures CheckAccepted(check) <==>
      && (check.PeriodNear? ==> check.period > 0 && check.tolerance >= 0)
      && (check.FrequencyNear? || check.WaveformNear? ==> check.frequency > 0.0 && check.frequencyTolerance >= 0.0)
      && (check.DutyCycleNear? || check.WaveformNear? ==>
            0.0 <= check.duty <= 1.0 && 0.0 <= check.dutyTolerance <= 1.0)
      && (check.FrequencyRemainWithin? ==> 0.0 <= check.minimumHz <= check.maximumHz)
      && (check.DutyCycleRemainWithin? ==> 0.0 <= check.minimumDuty <= check.maximumDuty <= 1.0)
  {
  }

  /** The same check over other ticks. */
  function Timed(check: Check, from: int, until: int): Check {
    if check.IsPoint() then check.(tick := from) else check.(fromTick := from, untilTick := until)
  }

  /** Giving a check its ticks changes nothing else about it. */
  lemma TimedMeans(check: Check, from: int, until: int)
    requires check.IsPoint() ==> from == until
    ensures var timed := Timed(check, from, until);
      && timed.FirstTick() == from && timed.LastTick() == until && timed.IsPoint() == check.IsPoint()
      && AssertionMeaning.ReadsDigital(timed) == AssertionMeaning.ReadsDigital(check)
      && AssertionMeaning.ReadsAnalogue(timed) == AssertionMeaning.ReadsAnalogue(check)
      && timed.Transition? == check.Transition?
      && (check.Transition? ==> timed.fromState == check.fromState && timed.toState == check.toState)
      && (AssertionMeaning.ReadsDigital(check) && !check.Transition? ==> forall high ::
            AssertionMeaning.LevelMeets(timed, high) == AssertionMeaning.LevelMeets(check, high))
      && (AssertionMeaning.ReadsAnalogue(check) ==> forall v ::
            AssertionMeaning.VoltageMeets(timed, v) == AssertionMeaning.VoltageMeets(check, v))
      && (AssertionMeaning.ReadsPwm(check) ==> forall m ::
            AssertionMeaning.WaveformMeets(timed, m) == AssertionMeaning.WaveformMeets(check, m))
  {
  }

  // ---------- What the builders accept ----------

  ghost predicate InstructionAccepted(i: Instruction, id: int, channels: map<Channel, Parameters>) {
    InstructionFault(i, id, channels).None? && Offers(i.channel.kind, i.operation) && OperationAccepted(i.operation)
  }

  ghost predicate AssertionAccepted(a: Assertion, id: int, channels: map<Channel, Parameters>) {
    AssertionFault(a, id, channels).None? && AssertionMeaning.Registered(a) && CheckAccepted(a.check)
  }

  ghost predicate Accepted(d: TestDefinition) {
    && (forall c :: c in d.channels ==> c.Valid() && Fits(c.kind, d.channels[c]) && ParametersAccepted(d.channels[c]))
    && (forall k :: 0 <= k < |d.instructions| ==> InstructionAccepted(d.instructions[k], k, d.channels))
    && (forall k :: 0 <= k < |d.assertions| ==> AssertionAccepted(d.assertions[k], k, d.channels))
  }

  lemma AcceptedIsRepresentable(c: Channel, p: Parameters)
    requires c.Valid() && Fits(c.kind, p) && ParametersAccepted(p)
    ensures Representable(c, p) && Configurable(c, p)
  {
    match p
    case PwmOutputParameters(f, d, _) =>
      AcceptedValuesConvert(f);
      AcceptedValuesConvert(d);
    case AnalogueOutputParameters(v) => AcceptedValuesConvert(v);
    case _ =>
  }

  lemma AcceptedIsConvertible(i: Instruction)
    requires i.channel.Valid() && Offers(i.channel.kind, i.operation) && OperationAccepted(i.operation)
    ensures IsFixedOutput(i) ==> Convertible(i)
  {
    match i.operation
    case SetWaveform(f, d) =>
      AcceptedValuesConvert(f);
      AcceptedValuesConvert(d);
    case SetFrequency(f) => AcceptedValuesConvert(f);
    case SetDutyCycle(d) => AcceptedValuesConvert(d);
    case SetVoltage(v) => AcceptedValuesConvert(v);
    case _ =>
  }

  lemma AcceptedHasNoFault(d: TestDefinition)
    requires Accepted(d)
    ensures InstructionFaults(d).None? && AssertionFaults(d).None? && ChannelsValid(d.channels)
  {
    forall k | 0 <= k < |d.instructions|
      ensures InstructionFault(d.instructions[k], k, d.channels).None?
    {
      assert InstructionAccepted(d.instructions[k], k, d.channels);
    }
    forall k | 0 <= k < |d.assertions|
      ensures AssertionFault(d.assertions[k], k, d.channels).None?
    {
      assert AssertionAccepted(d.assertions[k], k, d.channels);
    }
  }

  /**
   Acceptance implies everything downstream: compilation can only fail on the tick limit, and a compiled test
   has a configuration message, a full sparse upload, and only assertions that the evaluator knows.
   */
  lemma AcceptanceImpliesLowering(d: TestDefinition, r: Result<CompiledTest, CompileError>)
    requires Accepted(d) && Compiles(d, r)
    ensures r.Failure? ==> r.error == TooManyTicks
    ensures r.Success? ==>
      && WellCompiled(d, r.value)
      && SparseInstructions(r.value).Some? && ConfigurationMessage(r.value).Some?
      && forall a :: a in r.value.assertions ==> AssertionMeaning.Fault(a).None?
  {
    AcceptedHasNoFault(d);
    if r.Success? {
      CompilationCoversEveryAssertion(d, r);
      LoweringOfAccepted(d, r.value);
      forall a | a in d.assertions
        ensures AssertionMeaning.Fault(a).None?
      {
        var k :| 0 <= k < |d.assertions| && d.assertions[k] == a;
        assert AssertionAccepted(d.assertions[k], k, d.channels);
      }
    }
  }

  lemma ConfigurationFits(t: CompiledTest, mode: FrequencyMode)
    requires AllConfigurable(t.configurations) && t.hertz == Hertz(mode)
    ensures ConfigurationMessage(t).Some?
  {
    match mode
    case Hz100 => assert t.hertz == 100;
    case Hz1k => assert t.hertz == 1_000;
    case Hz10k => assert t.hertz == 10_000;
  }

  lemma AcceptedInstruction(d: TestDefinition, i: Instruction)
    requires Accepted(d) && i in d.instructions
    ensures IsFixedOutput(i) ==> Convertible(i)
  {
    var k :| 0 <= k < |d.instructions| && d.instructions[k] == i;
    assert InstructionAccepted(d.instructions[k], k, d.channels);
    AcceptedIsConvertible(i);
  }

  lemma AcceptedChannels(d: TestDefinition)
    requires Accepted(d)
    ensures AllRepresentable(d.channels) && AllConfigurable(d.channels)
  {
    forall c | c in d.channels
      ensures Representable(c, d.channels[c]) && Configurable(c, d.channels[c])
    {
      AcceptedIsRepresentable(c, d.channels[c]);
    }
  }

  lemma LoweringOfAccepted(d: TestDefinition, t: CompiledTest)
    requires Accepted(d) && WellCompiled(d, t)
    ensures SparseInstructions(t).Some? && ConfigurationMessage(t).Some?
  {
    AcceptedChannels(d);
    ConfigurationFits(t, d.frequency);
    forall i | i in d.instructions && IsFixedOutput(i)
      ensures Convertible(i)
    {
      AcceptedInstruction(d, i);
    }
    LoweringSucceedsExactlyWhen(d, t);
  }

  /** A new channel configuration disturbs nothing accepted so far. */
  lemma ConfiguringKeepsAccepted(d: TestDefinition, c: Channel, p: Parameters)
    requires Accepted(d) && c !in d.channels && c.Valid() && Fits(c.kind, p) && ParametersAccepted(p)
    ensures Accepted(d.(channels := d.channels[c := p]))
  {
    var more := d.channels[c := p];
    forall k | 0 <= k < |d.instructions|
      ensures InstructionAccepted(d.instructions[k], k, more)
    {
      assert InstructionAccepted(d.instructions[k], k, d.channels);
    }
    forall k | 0 <= k < |d.assertions|
      ensures AssertionAccepted(d.assertions[k], k, more)
    {
      assert AssertionAccepted(d.assertions[k], k, d.channels);
    }
  }

  lemma TimedIsAccepted(c: Channel, check: Check, from: int, until: int, id: int, channels: map<Channel, Parameters>)
    requires c.Valid() && Configured(c, channels) && 0 <= from <= until && (check.IsPoint() ==> from == until)
    requires AssertionMeaning.Registered(Assertion(0, c, check)) && CheckAccepted(check)
    ensures AssertionAccepted(Assertion(id, c, Timed(check, from, until)), id, channels)
  {
  }

  // ---------- The Test object ----------

  class Test {
    const testId: nat
    var frequency: FrequencyMode
    var startMode: StartMode
    var timingSet: bool
    var handles: set<Channel>
    var channels: map<Channel, Parameters>
    var instructions: seq<Instruction>
    var assertions: seq<Assertion>
    var nextInstructionId: nat
    var nextAssertionId: nat
    var compiledPlan: Option<CompiledTest>

    function View(): TestDefinition
      reads this
    {
      TestDefinition(testId, frequency, startMode, channels, instructions, assertions)
    }

    ghost predicate Valid()
      reads this
    {
      && Accepted(View())
      && nextInstructionId == |instructions| && nextAssertionId == |assertions|
      && (forall c :: c in handles ==> c.Valid())
      && (compiledPlan.Some? ==> Compiles(View(), Success(compiledPlan.value)))
    }

    constructor (testId: nat)
      ensures Valid() && compiledPlan == None
      ensures View() == TestDefinition(testId, Hz1k, Immediate, map[], [], [])
    {
      this.testId := testId;
      frequency, startMode, timingSet := Hz1k, Immediate, false;
      handles, channels, instructions, assertions := {}, map[], [], [];
      nextInstructionId, nextAssertionId, compiledPlan := 0, 0, None;
    }

    // ---------- Definition ----------

    /** `_handle`: handles are stable, and new ones cannot be created on a frozen test. */
    method Handle(c: Channel) returns (refusal: Option<ApiError>)
      requires Valid()
      modifies this`handles
      ensures Valid()
      ensures refusal == if !c.Valid() then Some(InvalidIndex)
        else if c !in old(handles) && compiledPlan.Some? then Some(FrozenTest) else None
      ensures handles == if refusal.None? then old(handles) + {c} else old(handles)
    {
      if !c.Valid() {
        return Some(InvalidIndex);
      }
      if c !in handles {
        if compiledPlan.Some? {
          return Some(FrozenTest);
        }
        handles := handles + {c};
      }
      refusal := None;
    }

    /** `configure` of the test: once, and before anything that depends on ticks. */
    method Configure(mode: FrequencyMode, start: StartMode) returns (refusal: Option<ApiError>)
      requires Valid()
      modifies this`frequency, this`startMode, this`timingSet
      ensures Valid()
      ensures refusal ==
        if compiledPlan.Some? then Some(FrozenTest)
        else if old(timingSet) then Some(AlreadyConfigured)
        else if instructions != [] || assertions != [] then Some(TimingTooLate)
        else None
      ensures refusal.None? ==> View() == old(View()).(frequency := mode, startMode := start) && timingSet
      ensures refusal.Some? ==> View() == old(View()) && timingSet == old(timingSet)
    {
      if compiledPlan.Some? {
        return Some(FrozenTest);
      }
      if timingSet {
        return Some(AlreadyConfigured);
      }
      if instructions != [] || assertions != [] {
        return Some(TimingTooLate);
      }
      frequency, startMode, timingSet := mode, start, true;
      refusal := None;
    }

    /** `configure` of a channel handle. */
    method ConfigureChannel(c: Channel, p: Parameters) returns (refusal: Option<ApiError>)
      requires Valid() && c in handles && Fits(c.kind, p)
      modifies this`channels
      ensures Valid()
      ensures refusal ==
        if !ParametersAccepted(p) then Some(InvalidValue)
        else if compiledPlan.Some? then Some(FrozenTest)
        else if c in old(channels) then Some(AlreadyConfigured)
        else None
      ensures View() == if refusal.None? then old(View()).(channels := old(channels)[c := p]) else old(View())
    {
      if !ParametersAccepted(p) {
        return Some(InvalidValue);
      }
      if compiledPlan.Some? {
        return Some(FrozenTest);
      }
      if c in channels {
        return Some(AlreadyConfigured);
      }
      ghost var before := View();
      channels := channels[c := p];
      ConfiguringKeepsAccepted(before, c, p);
      refusal := None;
    }

    /**
     The stimulus methods of the handles, and `_schedule`: the next sequential identifier goes to the new instruction.
     */
    method Schedule(c: Channel, operation: Stimulus, time: Time) returns (refusal: Option<ApiError>)
      requires Valid() && c in handles && Offers(c.kind, operation)
      modifies this`instructions, this`nextInstructionId
      ensures Valid()
      ensures refusal ==
        if operation.SetVoltage? && !Configured(c, channels) then Some(NotConfigured)
        else if !OperationAccepted(operation) then Some(InvalidValue)
        else if compiledPlan.Some? then Some(FrozenTest)
        else if Resolve(frequency, time).None? then Some(InvalidTime)
        else if !Configured(c, channels) then Some(NotConfigured)
        else None
      ensures refusal.None? ==> View() == old(View()).(instructions :=
        old(instructions) + [Instruction(|old(instructions)|, Resolve(frequency, time).value, c, operation)])
      ensures refusal.Some? ==> View() == old(View())
    {
      if operation.SetVoltage? && !Configured(c, channels) {
        return Some(NotConfigured);
      }
      if !OperationAccepted(operation) {
        return Some(InvalidValue);
      }
      if compiledPlan.Some? {
        return Some(FrozenTest);
      }
      var tick := Resolve(frequency, time);
      if tick.None? {
        return Some(InvalidTime);
      }
      var instruction := Instruction(nextInstructionId, tick.value, c, operation);
      if !Configured(c, channels) {
        return Some(NotConfigured);
      }
      instructions := instructions + [instruction];
      nextInstructionId := nextInstructionId + 1;
      refusal := None;
    }

    /** The expectation builders, and `_add_assertion`; a point assertion names its one time twice. */
    method AddAssertion(c: Channel, check: Check, from: Time, until: Time) returns (refusal: Option<ApiError>)
      requires Valid() && c in handles && AssertionMeaning.Registered(Assertion(0, c, check))
      requires check.IsPoint() ==> from == until
      modifies this`assertions, this`nextAssertionId
      ensures Valid()
      ensures refusal ==
        if compiledPlan.Some? then Some(FrozenTest)
        else if !CheckAccepted(check) then Some(InvalidValue)
        else if ResolveRange(frequency, from, until).None? then Some(InvalidTime)
        else if !Configured(c, channels) then Some(NotConfigured)
        else None
      ensures refusal.None? ==>
        var range := ResolveRange(frequency, from, until).value;
        View() == old(View()).(assertions := old(assertions)
          + [Assertion(|old(assertions)|, c, Timed(check, range.0, range.1))])
      ensures refusal.Some? ==> View() == old(View())
    {
      if compiledPlan.Some? {
        return Some(FrozenTest);
      }
      if !CheckAccepted(check) {
        return Some(InvalidValue);
      }
      var range := ResolveRange(frequency, from, until);
      if range.None? {
        return Some(InvalidTime);
      }
      var assertion := Assertion(nextAssertionId, c, Timed(check, range.value.0, range.value.1));
      if !Configured(c, channels) {
        return Some(NotConfigured);
      }
      TimedIsAccepted(c, check, range.value.0, range.value.1, nextAssertionId, channels);
      assertions := assertions + [assertion];
      nextAssertionId := nextAssertionId + 1;
      refusal := None;
    }

    /** `compile`: the first success freezes the test; later calls return the same plan. */
    method Compile() returns (r: Result<CompiledTest, ApiError>)
      requires Valid()
      modifies this`compiledPlan
      ensures Valid()
      ensures r.Failure? ==> r.error == NotCompiled(TooManyTicks) && compiledPlan == old(compiledPlan) == None
      ensures r.Success? ==>
        && compiledPlan == Some(r.value) && (old(compiledPlan).Some? ==> compiledPlan == old(compiledPlan))
        && WellCompiled(View(), r.value)
        && SparseInstructions(r.value).Some? && ConfigurationMessage(r.value).Some?
        && forall a :: a in r.value.assertions ==> AssertionMeaning.Fault(a).None?
    {
      if compiledPlan.None? {
        var compiled := CompileTest(View());
        AcceptanceImpliesLowering(View(), compiled);
        if compiled.Failure? {
          return Failure(NotCompiled(compiled.error));
        }
        compiledPlan := Some(compiled.value);
      }
      AcceptanceImpliesLowering(View(), Success(compiledPlan.value));
      r := Success(compiledPlan.value);
    }
  }
}
