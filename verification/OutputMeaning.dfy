/**
 What a test's outputs are, said of the user's own instruction list: the last instruction that sets a quantity decides
 it, in the order of ticks and, within a tick, of creation. The rig is shown to drive exactly these values.
 */
module OutputMeaning {
  import opened Basics
  import opened Definition
  import opened Compiler
  import opened Lowering

  // ---------- The instruction that decides ----------

  /** `i` is carried out after `j`. */
  predicate After(i: Instruction, j: Instruction) {
    j.tick < i.tick || (j.tick == i.tick && j.id < i.id)
  }

  /** Everything scheduled up to and including tick `t`. */
  function UpTo(d: TestDefinition, t: int): set<Instruction> {
    set i | i in d.instructions && i.tick <= t
  }

  /** `i` is the last instruction of `past` that concerns this quantity. */
  ghost predicate Latest(past: set<Instruction>, concerns: Instruction -> bool, i: Instruction) {
    i in past && concerns(i) && forall j :: j in past && concerns(j) && j != i ==> After(i, j)
  }

  ghost predicate Untouched(past: set<Instruction>, concerns: Instruction -> bool) {
    forall j :: j in past ==> !concerns(j)
  }

  function SetsLevel(c: Channel): Instruction -> bool {
    (i: Instruction) => i.channel == c && (i.operation == SetState(High) || i.operation == SetState(Low))
  }

  function SetsVoltage(c: Channel): Instruction -> bool {
    (i: Instruction) => i.channel == c && i.operation.SetVoltage?
  }

  function Switches(c: Channel): Instruction -> bool {
    (i: Instruction) => i.channel == c && i.operation.SetEnabled?
  }

  function SetsFrequency(c: Channel): Instruction -> bool {
    (i: Instruction) => i.channel == c && (i.operation.SetFrequency? || i.operation.SetWaveform?)
  }

  function SetsDuty(c: Channel): Instruction -> bool {
    (i: Instruction) => i.channel == c && (i.operation.SetDutyCycle? || i.operation.SetWaveform?)
  }

  // ---------- The value it gives ----------

  predicate IsToggle(c: Channel, x: Instruction) {
    x.channel == c && x.operation == SetState(Toggle)
  }

  function Toggles(past: set<Instruction>, c: Channel): set<Instruction> {
    set x | x in past && IsToggle(c, x)
  }

  function TogglesAfter(past: set<Instruction>, c: Channel, i: Instruction): set<Instruction> {
    set x | x in past && IsToggle(c, x) && After(x, i)
  }

  /** A digital output: the last High or Low, or else the configured level, flipped once by every later Toggle. */
  ghost predicate ShowsLevel(channels: map<Channel, Parameters>, past: set<Instruction>, k: int, high: bool) {
    var c := Channel(DigitalOutput, k);
    if Untouched(past, SetsLevel(c)) then
      var initially := c in channels && channels[c] == DigitalOutputParameters(true);
      high == (initially != (|Toggles(past, c)| % 2 == 1))
    else
      exists i :: Latest(past, SetsLevel(c), i)
        && high == ((i.operation == SetState(High)) != (|TogglesAfter(past, c, i)| % 2 == 1))
  }

  /** An analogue output: the last voltage, or else the configured one, in microvolts. */
  ghost predicate ShowsVoltage(channels: map<Channel, Parameters>, past: set<Instruction>, k: int, microvolts: int) {
    var c := Channel(AnalogueOutput, k);
    if Untouched(past, SetsVoltage(c)) then
      if c in channels && channels[c].AnalogueOutputParameters?
      then microvolts as real == channels[c].initialVoltage * 1_000_000.0
      else microvolts == 0
    else
      exists i :: Latest(past, SetsVoltage(c), i) && microvolts as real == i.operation.voltage * 1_000_000.0
  }

  ghost predicate IsOn(channels: map<Channel, Parameters>, past: set<Instruction>, c: Channel, on: bool) {
    if Untouched(past, Switches(c)) then
      on == (c in channels && channels[c].PwmOutputParameters? && channels[c].initiallyEnabled)
    else
      exists i :: Latest(past, Switches(c), i) && i.operation == SetEnabled(on)
  }

  /** The period in nanoseconds whose product with the requested frequency in hertz is one second. */
  ghost predicate HasPeriod(channels: map<Channel, Parameters>, past: set<Instruction>, c: Channel, period: int) {
    if Untouched(past, SetsFrequency(c)) then
      if c in channels && channels[c].PwmOutputParameters?
      then period as real * channels[c].initialFrequency == 1_000_000_000.0
      else period == 0
    else
      exists i :: Latest(past, SetsFrequency(c), i) && period as real * i.operation.frequency == 1_000_000_000.0
  }

  ghost predicate HasDuty(channels: map<Channel, Parameters>, past: set<Instruction>, c: Channel, permyriad: int) {
    if Untouched(past, SetsDuty(c)) then
      if c in channels && channels[c].PwmOutputParameters?
      then permyriad as real == channels[c].initialDuty * 10_000.0
      else permyriad == 0
    else
      exists i :: Latest(past, SetsDuty(c), i) && permyriad as real == i.operation.duty * 10_000.0
  }

  /** A PWM output: nothing at all while it is switched off, otherwise the last frequency and the last duty cycle. */
  ghost predicate ShowsWaveform(channels: map<Channel, Parameters>, past: set<Instruction>, k: int, v: PwmValue) {
    var c := Channel(PwmOutput, k);
    || (IsOn(channels, past, c, false) && v == PwmValue(0, 0))
    || (IsOn(channels, past, c, true) && HasPeriod(channels, past, c, v.period) && HasDuty(channels, past, c, v.duty))
  }

  /** The outputs `o` are those the user's test asks for at tick `t`. */
  ghost predicate Shows(d: TestDefinition, t: int, o: Outputs) {
    && |o.digital| == 10 && |o.analogue| == 6 && |o.pwm| == 2
    && (forall k :: 0 <= k < 10 ==> ShowsLevel(d.channels, UpTo(d, t), k, o.digital[k]))
    && (forall k :: 0 <= k < 6 ==> ShowsVoltage(d.channels, UpTo(d, t), k, o.analogue[k]))
    && (forall k :: 0 <= k < 2 ==> ShowsWaveform(d.channels, UpTo(d, t), k, o.pwm[k]))
  }

  lemma LatestIsUnique(past: set<Instruction>, concerns: Instruction -> bool, i: Instruction, j: Instruction)
    requires Latest(past, concerns, i) && Latest(past, concerns, j)
    ensures i == j
  {
  }

  lemma SwitchIsDetermined(channels: map<Channel, Parameters>, past: set<Instruction>, c: Channel, on: bool)
    requires IsOn(channels, past, c, on)
    ensures !IsOn(channels, past, c, !on)
  {
    if IsOn(channels, past, c, !on) && !Untouched(past, Switches(c)) {
      var i :| Latest(past, Switches(c), i) && i.operation == SetEnabled(on);
      var j :| Latest(past, Switches(c), j) && j.operation == SetEnabled(!on);
      LatestIsUnique(past, Switches(c), i, j);
    }
  }

  lemma SamePeriod(a: int, b: int, f: real)
    requires a as real * f == 1_000_000_000.0 && b as real * f == 1_000_000_000.0
    ensures a == b
  {
    assert (a as real - b as real) * f == 0.0;
    assert f != 0.0;
  }

  lemma PeriodIsDetermined(channels: map<Channel, Parameters>, past: set<Instruction>, c: Channel, a: int, b: int)
    requires HasPeriod(channels, past, c, a) && HasPeriod(channels, past, c, b)
    ensures a == b
  {
    if !Untouched(past, SetsFrequency(c)) {
      var i :| Latest(past, SetsFrequency(c), i) && a as real * i.operation.frequency == 1_000_000_000.0;
      var j :| Latest(past, SetsFrequency(c), j) && b as real * j.operation.frequency == 1_000_000_000.0;
      LatestIsUnique(past, SetsFrequency(c), i, j);
      SamePeriod(a, b, i.operation.frequency);
    } else if c in channels && channels[c].PwmOutputParameters? {
      SamePeriod(a, b, channels[c].initialFrequency);
    }
  }

  lemma DutyIsDetermined(channels: map<Channel, Parameters>, past: set<Instruction>, c: Channel, a: int, b: int)
    requires HasDuty(channels, past, c, a) && HasDuty(channels, past, c, b)
    ensures a == b
  {
    if !Untouched(past, SetsDuty(c)) {
      var i :| Latest(past, SetsDuty(c), i) && a as real == i.operation.duty * 10_000.0;
      var j :| Latest(past, SetsDuty(c), j) && b as real == j.operation.duty * 10_000.0;
      LatestIsUnique(past, SetsDuty(c), i, j);
    }
    assert a as real == b as real;
  }

  lemma WaveformIsDetermined(
      channels: map<Channel, Parameters>, past: set<Instruction>, k: int, a: PwmValue, b: PwmValue)
    requires ShowsWaveform(channels, past, k, a) && ShowsWaveform(channels, past, k, b)
    ensures a == b
  {
    var c := Channel(PwmOutput, k);
    if IsOn(channels, past, c, false) {
      SwitchIsDetermined(channels, past, c, false);
    } else {
      PeriodIsDetermined(channels, past, c, a.period, b.period);
      DutyIsDetermined(channels, past, c, a.duty, b.duty);
    }
  }

  lemma VoltageIsDetermined(channels: map<Channel, Parameters>, past: set<Instruction>, k: int, a: int, b: int)
    requires ShowsVoltage(channels, past, k, a) && ShowsVoltage(channels, past, k, b)
    ensures a == b
  {
    var concerns := SetsVoltage(Channel(AnalogueOutput, k));
    if !Untouched(past, concerns) {
      var i :| Latest(past, concerns, i) && a as real == i.operation.voltage * 1_000_000.0;
      var j :| Latest(past, concerns, j) && b as real == j.operation.voltage * 1_000_000.0;
      LatestIsUnique(past, concerns, i, j);
    }
    assert a as real == b as real;
  }

  lemma LevelIsDetermined(channels: map<Channel, Parameters>, past: set<Instruction>, k: int, a: bool, b: bool)
    requires ShowsLevel(channels, past, k, a) && ShowsLevel(channels, past, k, b)
    ensures a == b
  {
    var c := Channel(DigitalOutput, k);
    if !Untouched(past, SetsLevel(c)) {
      var i :| Latest(past, SetsLevel(c), i)
        && a == ((i.operation == SetState(High)) != (|TogglesAfter(past, c, i)| % 2 == 1));
      var j :| Latest(past, SetsLevel(c), j)
        && b == ((j.operation == SetState(High)) != (|TogglesAfter(past, c, j)| % 2 == 1));
      LatestIsUnique(past, SetsLevel(c), i, j);
    }
  }

  /** Those conditions name one definite set of outputs. */
  lemma OutputsAreDetermined(d: TestDefinition, t: int, o: Outputs, p: Outputs)
    requires Shows(d, t, o) && Shows(d, t, p)
    ensures o == p
  {
    forall k | 0 <= k < 10
      ensures o.digital[k] == p.digital[k]
    {
      LevelIsDetermined(d.channels, UpTo(d, t), k, o.digital[k], p.digital[k]);
    }
    forall k | 0 <= k < 6
      ensures o.analogue[k] == p.analogue[k]
    {
      VoltageIsDetermined(d.channels, UpTo(d, t), k, o.analogue[k], p.analogue[k]);
    }
    forall k | 0 <= k < 2
      ensures o.pwm[k] == p.pwm[k]
    {
      WaveformIsDetermined(d.channels, UpTo(d, t), k, o.pwm[k], p.pwm[k]);
    }
    assert o.digital == p.digital && o.analogue == p.analogue && o.pwm == p.pwm;
  }

  // ---------- One instruction at a time ----------

  /** The retained state that stands for `past`; a PWM output keeps its waveform while it is off. */
  ghost predicate Retains(channels: map<Channel, Parameters>, past: set<Instruction>, f: Frame) {
    && Shaped(f)
    && (forall k :: 0 <= k < 10 ==> ShowsLevel(channels, past, k, f.digital[k]))
    && (forall k :: 0 <= k < 6 ==> ShowsVoltage(channels, past, k, f.analogue[k]))
    && (forall k :: 0 <= k < 2 ==> RetainsWaveform(channels, past, Channel(PwmOutput, k), f.pwm[k]))
  }

  ghost predicate RetainsWaveform(channels: map<Channel, Parameters>, past: set<Instruction>, c: Channel, s: PwmState) {
    && IsOn(channels, past, c, s.enabled)
    && HasPeriod(channels, past, c, s.period)
    && HasDuty(channels, past, c, s.duty)
  }

  ghost predicate Follows(past: set<Instruction>, x: Instruction) {
    forall j :: j in past ==> After(x, j)
  }

  lemma LatestIsKept(past: set<Instruction>, x: Instruction, concerns: Instruction -> bool)
    requires !concerns(x)
    ensures Untouched(past + {x}, concerns) <==> Untouched(past, concerns)
    ensures forall i :: Latest(past + {x}, concerns, i) <==> Latest(past, concerns, i)
  {
    forall i
      ensures Latest(past + {x}, concerns, i) <==> Latest(past, concerns, i)
    {
      assert forall j :: j in past + {x} && concerns(j) <==> j in past && concerns(j);
    }
    assert forall j :: j in past ==> j in past + {x};
  }

  lemma NewestIsLatest(past: set<Instruction>, x: Instruction, concerns: Instruction -> bool)
    requires Follows(past, x) && concerns(x)
    ensures !Untouched(past + {x}, concerns) && Latest(past + {x}, concerns, x)
  {
    assert x in past + {x};
  }

  lemma VoltageStep(channels: map<Channel, Parameters>, past: set<Instruction>, x: Instruction, k: int, n: int)
    requires Follows(past, x)
    requires if SetsVoltage(Channel(AnalogueOutput, k))(x) then n as real == x.operation.voltage * 1_000_000.0
             else ShowsVoltage(channels, past, k, n)
    ensures ShowsVoltage(channels, past + {x}, k, n)
  {
    var concerns := SetsVoltage(Channel(AnalogueOutput, k));
    if concerns(x) {
      NewestIsLatest(past, x, concerns);
    } else {
      LatestIsKept(past, x, concerns);
    }
  }

  lemma SwitchStep(channels: map<Channel, Parameters>, past: set<Instruction>, x: Instruction, c: Channel, on: bool)
    requires Follows(past, x)
    requires if Switches(c)(x) then x.operation == SetEnabled(on) else IsOn(channels, past, c, on)
    ensures IsOn(channels, past + {x}, c, on)
  {
    if Switches(c)(x) {
      NewestIsLatest(past, x, Switches(c));
    } else {
      LatestIsKept(past, x, Switches(c));
    }
  }

  lemma PeriodStep(channels: map<Channel, Parameters>, past: set<Instruction>, x: Instruction, c: Channel, n: int)
    requires Follows(past, x)
    requires if SetsFrequency(c)(x) then n as real * x.operation.frequency == 1_000_000_000.0
             else HasPeriod(channels, past, c, n)
    ensures HasPeriod(channels, past + {x}, c, n)
  {
    if SetsFrequency(c)(x) {
      NewestIsLatest(past, x, SetsFrequency(c));
    } else {
      LatestIsKept(past, x, SetsFrequency(c));
    }
  }

  lemma DutyStep(channels: map<Channel, Parameters>, past: set<Instruction>, x: Instruction, c: Channel, n: int)
    requires Follows(past, x)
    requires if SetsDuty(c)(x) then n as real == x.operation.duty * 10_000.0 else HasDuty(channels, past, c, n)
    ensures HasDuty(channels, past + {x}, c, n)
  {
    if SetsDuty(c)(x) {
      NewestIsLatest(past, x, SetsDuty(c));
    } else {
      LatestIsKept(past, x, SetsDuty(c));
    }
  }

  /** A toggle joins those already there; nothing else changes them. */
  lemma TogglesStep(past: set<Instruction>, x: Instruction, c: Channel)
    requires Follows(past, x)
    ensures |Toggles(past + {x}, c)| == |Toggles(past, c)| + if IsToggle(c, x) then 1 else 0
  {
    assert x !in past;
    assert Toggles(past + {x}, c) == Toggles(past, c) + if IsToggle(c, x) then {x} else {};
  }

  lemma LaterTogglesStep(past: set<Instruction>, x: Instruction, c: Channel, i: Instruction)
    requires Follows(past, x) && i in past
    ensures |TogglesAfter(past + {x}, c, i)| == |TogglesAfter(past, c, i)| + if IsToggle(c, x) then 1 else 0
  {
    assert x !in past;
    assert TogglesAfter(past + {x}, c, i) == TogglesAfter(past, c, i) + if IsToggle(c, x) then {x} else {};
  }

  /** Setting a level hides every earlier toggle. */
  lemma LevelIsSet(channels: map<Channel, Parameters>, past: set<Instruction>, x: Instruction, k: int)
    requires Follows(past, x) && SetsLevel(Channel(DigitalOutput, k))(x)
    ensures ShowsLevel(channels, past + {x}, k, x.operation == SetState(High))
  {
    var c := Channel(DigitalOutput, k);
    NewestIsLatest(past, x, SetsLevel(c));
    assert TogglesAfter(past + {x}, c, x) == {};
  }

  lemma InitialLevelIsKept(channels: map<Channel, Parameters>, past: set<Instruction>, x: Instruction, k: int,
      high: bool)
    requires Follows(past, x) && !SetsLevel(Channel(DigitalOutput, k))(x)
    requires ShowsLevel(channels, past, k, high) && Untouched(past, SetsLevel(Channel(DigitalOutput, k)))
    ensures ShowsLevel(channels, past + {x}, k, high != IsToggle(Channel(DigitalOutput, k), x))
  {
    var c := Channel(DigitalOutput, k);
    LatestIsKept(past, x, SetsLevel(c));
    TogglesStep(past, x, c);
  }

  lemma SetLevelIsKept(channels: map<Channel, Parameters>, past: set<Instruction>, x: Instruction, k: int, high: bool,
      i: Instruction)
    requires Follows(past, x) && !SetsLevel(Channel(DigitalOutput, k))(x)
    requires Latest(past, SetsLevel(Channel(DigitalOutput, k)), i)
    requires high == ((i.operation == SetState(High))
      != (|TogglesAfter(past, Channel(DigitalOutput, k), i)| % 2 == 1))
    ensures ShowsLevel(channels, past + {x}, k, high != IsToggle(Channel(DigitalOutput, k), x))
  {
    var c := Channel(DigitalOutput, k);
    LatestIsKept(past, x, SetsLevel(c));
    LaterTogglesStep(past, x, c, i);
    assert Latest(past + {x}, SetsLevel(c), i);
  }

  lemma LevelIsKept(channels: map<Channel, Parameters>, past: set<Instruction>, x: Instruction, k: int, high: bool)
    requires Follows(past, x) && !SetsLevel(Channel(DigitalOutput, k))(x)
    requires ShowsLevel(channels, past, k, high)
    ensures ShowsLevel(channels, past + {x}, k, high != IsToggle(Channel(DigitalOutput, k), x))
  {
    var c := Channel(DigitalOutput, k);
    if Untouched(past, SetsLevel(c)) {
      InitialLevelIsKept(channels, past, x, k, high);
    } else {
      var i :| Latest(past, SetsLevel(c), i)
        && high == ((i.operation == SetState(High)) != (|TogglesAfter(past, c, i)| % 2 == 1));
      SetLevelIsKept(channels, past, x, k, high, i);
    }
  }

  lemma DigitalStep(channels: map<Channel, Parameters>, past: set<Instruction>, f: Frame, x: Instruction, g: Frame)
    requires Retains(channels, past, f) && Follows(past, x) && Apply(f, x) == Some(g)
    ensures |g.digital| == 10 && forall k :: 0 <= k < 10 ==> ShowsLevel(channels, past + {x}, k, g.digital[k])
  {
    forall k | 0 <= k < 10
      ensures ShowsLevel(channels, past + {x}, k, g.digital[k])
    {
      if SetsLevel(Channel(DigitalOutput, k))(x) {
        LevelIsSet(channels, past, x, k);
      } else {
        LevelIsKept(channels, past, x, k, f.digital[k]);
      }
    }
  }

  lemma AnalogueStep(channels: map<Channel, Parameters>, past: set<Instruction>, f: Frame, x: Instruction, g: Frame)
    requires Retains(channels, past, f) && Follows(past, x) && Apply(f, x) == Some(g)
    ensures |g.analogue| == 6 && forall k :: 0 <= k < 6 ==> ShowsVoltage(channels, past + {x}, k, g.analogue[k])
  {
    forall k | 0 <= k < 6
      ensures ShowsVoltage(channels, past + {x}, k, g.analogue[k])
    {
      if SetsVoltage(Channel(AnalogueOutput, k))(x) {
        ConversionsAreExact(x.operation.voltage, g.analogue[k]);
      }
      VoltageStep(channels, past, x, k, g.analogue[k]);
    }
  }

  lemma PwmSwitchStep(
      channels: map<Channel, Parameters>, past: set<Instruction>, s: PwmState, x: Instruction, r: PwmState, c: Channel)
    requires IsOn(channels, past, c, s.enabled) && Follows(past, x)
    requires if x.channel == c then ApplyPwm(s, x.operation) == Some(r) else r == s
    ensures IsOn(channels, past + {x}, c, r.enabled)
  {
    SwitchStep(channels, past, x, c, r.enabled);
  }

  lemma PwmPeriodStep(
      channels: map<Channel, Parameters>, past: set<Instruction>, s: PwmState, x: Instruction, r: PwmState, c: Channel)
    requires HasPeriod(channels, past, c, s.period) && Follows(past, x)
    requires if x.channel == c then ApplyPwm(s, x.operation) == Some(r) else r == s
    ensures HasPeriod(channels, past + {x}, c, r.period)
  {
    if SetsFrequency(c)(x) {
      ConversionsAreExact(x.operation.frequency, r.period);
    }
    PeriodStep(channels, past, x, c, r.period);
  }

  lemma PwmDutyStep(
      channels: map<Channel, Parameters>, past: set<Instruction>, s: PwmState, x: Instruction, r: PwmState, c: Channel)
    requires HasDuty(channels, past, c, s.duty) && Follows(past, x)
    requires if x.channel == c then ApplyPwm(s, x.operation) == Some(r) else r == s
    ensures HasDuty(channels, past + {x}, c, r.duty)
  {
    if SetsDuty(c)(x) {
      ConversionsAreExact(x.operation.duty, r.duty);
    }
    DutyStep(channels, past, x, c, r.duty);
  }

  lemma WaveformStep(
      channels: map<Channel, Parameters>, past: set<Instruction>, s: PwmState, x: Instruction, r: PwmState, c: Channel)
    requires RetainsWaveform(channels, past, c, s) && Follows(past, x)
    requires if x.channel == c then ApplyPwm(s, x.operation) == Some(r) else r == s
    ensures RetainsWaveform(channels, past + {x}, c, r)
  {
    PwmSwitchStep(channels, past, s, x, r, c);
    PwmPeriodStep(channels, past, s, x, r, c);
    PwmDutyStep(channels, past, s, x, r, c);
  }

  /** Carrying out the newest instruction keeps the state equal to what its past asks for. */
  lemma InstructionStep(channels: map<Channel, Parameters>, past: set<Instruction>, f: Frame, x: Instruction, g: Frame)
    requires Retains(channels, past, f) && Follows(past, x) && Apply(f, x) == Some(g)
    ensures Retains(channels, past + {x}, g)
  {
    DigitalStep(channels, past, f, x, g);
    AnalogueStep(channels, past, f, x, g);
    forall k | 0 <= k < 2
      ensures RetainsWaveform(channels, past + {x}, Channel(PwmOutput, k), g.pwm[k])
    {
      WaveformStep(channels, past, f.pwm[k], x, g.pwm[k], Channel(PwmOutput, k));
    }
  }

  // ---------- One tick at a time ----------

  /** The instructions of `s` as a set. */
  function Members(s: seq<Instruction>): set<Instruction> {
    set i | i in s
  }

  ghost predicate InOrder(s: seq<Instruction>) {
    forall i, j :: 0 <= i < j < |s| ==> After(s[j], s[i])
  }

  lemma {:induction false} SequenceStep(
      channels: map<Channel, Parameters>, past: set<Instruction>, f: Frame, s: seq<Instruction>)
    requires Retains(channels, past, f) && ApplyAll(f, s).Some?
    requires InOrder(s) && forall x :: x in s ==> Follows(past, x)
    ensures Retains(channels, past + Members(s), ApplyAll(f, s).value)
    decreases |s|
  {
    if s == [] {
      assert past + Members(s) == past;
    } else {
      assert s[0] in s;
      InstructionStep(channels, past, f, s[0], Apply(f, s[0]).value);
      assert forall k :: 0 <= k < |s[1..]| ==> s[1..][k] == s[k + 1];
      SequenceStep(channels, past + {s[0]}, Apply(f, s[0]).value, s[1..]);
      assert s == [s[0]] + s[1..];
      assert past + {s[0]} + Members(s[1..]) == past + Members(s);
    }
  }

  /** Filtering keeps the order of identifiers. */
  lemma {:induction false} FilterKeepsIds(keep: Instruction -> bool, s: seq<Instruction>)
    requires AscendingIds(s)
    ensures AscendingIds(Filter(keep, s))
  {
    if s != [] {
      FilterKeepsIds(keep, s[1..]);
      forall y | y in Filter(keep, s[1..])
        ensures s[0].id < y.id
      {
        var k :| 0 <= k < |s[1..]| && s[1..][k] == y;
        assert s[k + 1] == y;
      }
    }
  }

  lemma ScheduleIsInOrder(d: TestDefinition, t: int)
    requires AscendingIds(d.instructions)
    ensures InOrder(ScheduledAt(d, t))
  {
    var s := ScheduledAt(d, t);
    FilterKeepsIds(i => FixedAt(t, i), d.instructions);
    forall i, j | 0 <= i < j < |s|
      ensures After(s[j], s[i])
    {
      assert s[i] in s && s[j] in s;
    }
  }

  /** The fixed-output instructions up to tick `t`. */
  function FixedUpTo(d: TestDefinition, t: int): set<Instruction> {
    set i | i in d.instructions && i.tick <= t && IsFixedOutput(i)
  }

  lemma InitialWaveformRetained(channels: map<Channel, Parameters>, k: int)
    requires AllConfigurable(channels)
    ensures RetainsWaveform(channels, {}, Channel(PwmOutput, k), InitialPwmAt(channels, k))
  {
    var c := Channel(PwmOutput, k);
    if c in channels {
      assert Configurable(c, channels[c]);
      ConversionsAreExact(channels[c].initialFrequency, InitialPwmAt(channels, k).period);
      ConversionsAreExact(channels[c].initialDuty, InitialPwmAt(channels, k).duty);
    }
  }

  lemma InitialFrameRetains(channels: map<Channel, Parameters>)
    requires AllRepresentable(channels)
    ensures Retains(channels, {}, InitialFrame(channels))
  {
    var f := InitialFrame(channels);
    assert forall c :: c in channels ==> Representable(c, channels[c]);
    forall k | 0 <= k < 10
      ensures ShowsLevel(channels, {}, k, f.digital[k])
    {
      assert Toggles({}, Channel(DigitalOutput, k)) == {};
    }
    forall k | 0 <= k < 6
      ensures ShowsVoltage(channels, {}, k, f.analogue[k])
    {
      var c := Channel(AnalogueOutput, k);
      if c in channels {
        assert Representable(c, channels[c]);
        ConversionsAreExact(channels[c].initialVoltage, f.analogue[k]);
      }
    }
    forall k | 0 <= k < 2
      ensures RetainsWaveform(channels, {}, Channel(PwmOutput, k), f.pwm[k])
    {
      InitialWaveformRetained(channels, k);
    }
  }

  lemma {:induction false} ExecutionRetains(d: TestDefinition, t: int)
    requires AscendingIds(d.instructions) && forall i :: i in d.instructions ==> i.tick >= 0
    requires AllRepresentable(d.channels) && t >= -1 && DenseFrame(d, t).Some?
    ensures Retains(d.channels, FixedUpTo(d, t), DenseFrame(d, t).value)
    decreases t
  {
    if t == -1 {
      InitialFrameRetains(d.channels);
      assert FixedUpTo(d, t) == {};
    } else {
      ExecutionRetains(d, t - 1);
      ScheduleIsInOrder(d, t);
      SequenceStep(d.channels, FixedUpTo(d, t - 1), DenseFrame(d, t - 1).value, ScheduledAt(d, t));
      assert FixedUpTo(d, t) == FixedUpTo(d, t - 1) + Members(ScheduledAt(d, t));
    }
  }

  // ---------- The rig drives what the test asks for ----------

  /** Instructions for other peripherals concern no output. */
  lemma OnlyFixedOutputsConcern(all: set<Instruction>, fixedOutputs: set<Instruction>, concerns: Instruction -> bool)
    requires fixedOutputs <= all
    requires forall i :: i in all && concerns(i) ==> i in fixedOutputs
    ensures Untouched(all, concerns) <==> Untouched(fixedOutputs, concerns)
    ensures forall i :: Latest(all, concerns, i) <==> Latest(fixedOutputs, concerns, i)
  {
  }

  lemma LevelOfAll(d: TestDefinition, t: int, k: int, high: bool)
    requires ShowsLevel(d.channels, FixedUpTo(d, t), k, high)
    ensures ShowsLevel(d.channels, UpTo(d, t), k, high)
  {
    var c := Channel(DigitalOutput, k);
    OnlyFixedOutputsConcern(UpTo(d, t), FixedUpTo(d, t), SetsLevel(c));
    assert Toggles(UpTo(d, t), c) == Toggles(FixedUpTo(d, t), c);
    if !Untouched(FixedUpTo(d, t), SetsLevel(c)) {
      var i :| Latest(FixedUpTo(d, t), SetsLevel(c), i)
        && high == ((i.operation == SetState(High)) != (|TogglesAfter(FixedUpTo(d, t), c, i)| % 2 == 1));
      assert TogglesAfter(UpTo(d, t), c, i) == TogglesAfter(FixedUpTo(d, t), c, i);
      assert Latest(UpTo(d, t), SetsLevel(c), i);
    }
  }

  lemma VoltageOfAll(d: TestDefinition, t: int, k: int, n: int)
    requires ShowsVoltage(d.channels, FixedUpTo(d, t), k, n)
    ensures ShowsVoltage(d.channels, UpTo(d, t), k, n)
  {
    var concerns := SetsVoltage(Channel(AnalogueOutput, k));
    OnlyFixedOutputsConcern(UpTo(d, t), FixedUpTo(d, t), concerns);
    if !Untouched(FixedUpTo(d, t), concerns) {
      var i :| Latest(FixedUpTo(d, t), concerns, i) && n as real == i.operation.voltage * 1_000_000.0;
      assert Latest(UpTo(d, t), concerns, i);
    }
  }

  lemma SwitchOfAll(d: TestDefinition, t: int, c: Channel, on: bool)
    requires c.kind == PwmOutput && IsOn(d.channels, FixedUpTo(d, t), c, on)
    ensures IsOn(d.channels, UpTo(d, t), c, on)
  {
    OnlyFixedOutputsConcern(UpTo(d, t), FixedUpTo(d, t), Switches(c));
    if !Untouched(FixedUpTo(d, t), Switches(c)) {
      var i :| Latest(FixedUpTo(d, t), Switches(c), i) && i.operation == SetEnabled(on);
      assert Latest(UpTo(d, t), Switches(c), i);
    }
  }

  lemma PeriodOfAll(d: TestDefinition, t: int, c: Channel, period: int)
    requires c.kind == PwmOutput && HasPeriod(d.channels, FixedUpTo(d, t), c, period)
    ensures HasPeriod(d.channels, UpTo(d, t), c, period)
  {
    OnlyFixedOutputsConcern(UpTo(d, t), FixedUpTo(d, t), SetsFrequency(c));
    if !Untouched(FixedUpTo(d, t), SetsFrequency(c)) {
      var i :| Latest(FixedUpTo(d, t), SetsFrequency(c), i)
        && period as real * i.operation.frequency == 1_000_000_000.0;
      assert Latest(UpTo(d, t), SetsFrequency(c), i);
    }
  }

  lemma DutyOfAll(d: TestDefinition, t: int, c: Channel, permyriad: int)
    requires c.kind == PwmOutput && HasDuty(d.channels, FixedUpTo(d, t), c, permyriad)
    ensures HasDuty(d.channels, UpTo(d, t), c, permyriad)
  {
    OnlyFixedOutputsConcern(UpTo(d, t), FixedUpTo(d, t), SetsDuty(c));
    if !Untouched(FixedUpTo(d, t), SetsDuty(c)) {
      var i :| Latest(FixedUpTo(d, t), SetsDuty(c), i) && permyriad as real == i.operation.duty * 10_000.0;
      assert Latest(UpTo(d, t), SetsDuty(c), i);
    }
  }

  lemma WaveformOfAll(d: TestDefinition, t: int, k: int, s: PwmState)
    requires RetainsWaveform(d.channels, FixedUpTo(d, t), Channel(PwmOutput, k), s)
    ensures ShowsWaveform(d.channels, UpTo(d, t), k, if s.enabled then PwmValue(s.period, s.duty) else PwmValue(0, 0))
  {
    var c := Channel(PwmOutput, k);
    SwitchOfAll(d, t, c, s.enabled);
    PeriodOfAll(d, t, c, s.period);
    DutyOfAll(d, t, c, s.duty);
  }

  lemma ExecutionShows(d: TestDefinition, t: int)
    requires AscendingIds(d.instructions) && forall i :: i in d.instructions ==> i.tick >= 0
    requires AllRepresentable(d.channels) && t >= -1 && DenseFrame(d, t).Some?
    ensures Shows(d, t, Render(DenseFrame(d, t).value))
  {
    ExecutionRetains(d, t);
    var f := DenseFrame(d, t).value;
    forall k | 0 <= k < 10
      ensures ShowsLevel(d.channels, UpTo(d, t), k, f.digital[k])
    {
      LevelOfAll(d, t, k, f.digital[k]);
    }
    forall k | 0 <= k < 6
      ensures ShowsVoltage(d.channels, UpTo(d, t), k, f.analogue[k])
    {
      VoltageOfAll(d, t, k, f.analogue[k]);
    }
    forall k | 0 <= k < 2
      ensures ShowsWaveform(d.channels, UpTo(d, t), k, Render(f).pwm[k])
    {
      WaveformOfAll(d, t, k, f.pwm[k]);
    }
  }

  /**
   What the rig drives, output by output, is what the last instruction concerning it asks for. A digital output shows
   the last High or Low up to this tick, flipped once by every later Toggle; an analogue output the last voltage in
   microvolts; a PWM output nothing while off, otherwise the last period and duty cycle.
   */
  lemma RigShowsTheTest(d: TestDefinition, c: CompiledTest, t: nat)
    requires WellCompiled(d, c)
    requires ConfigurationMessage(c).Some? && SparseInstructions(c).Some?
    ensures Shows(d, t, RigOutputs(ConfigurationMessage(c).value, SparseInstructions(c).value, t))
  {
    LoweringPreservesMeaning(d, c, t);
    ExecutionShows(d, t);
  }

  lemma {:induction false} LastAtIs(ms: seq<SparseMessage>, k: nat, t: int)
    requires k < |ms| && ms[k].tick <= t && forall j :: k < j < |ms| ==> t < ms[j].tick
    ensures LastAt(ms, t) == Some(ms[k].outputs)
  {
    if k < |ms| - 1 {
      LastAtIs(ms[..|ms| - 1], k, t);
    }
  }

  /** Message `k` is the last one at tick `t`. */
  ghost predicate IsCurrent(ms: seq<SparseMessage>, k: int, t: int) {
    0 <= k < |ms| && ms[k].tick <= t && forall j :: k < j < |ms| ==> t < ms[j].tick
  }

  lemma MessageShows(d: TestDefinition, c: CompiledTest, t: nat, k: int)
    requires WellCompiled(d, c)
    requires ConfigurationMessage(c).Some? && SparseInstructions(c).Some?
    requires IsCurrent(SparseInstructions(c).value, k, t)
    ensures Shows(d, t, SparseInstructions(c).value[k].outputs)
  {
    RigShowsTheTest(d, c, t);
    LastAtIs(SparseInstructions(c).value, k, t);
  }

  lemma ConfigurationShows(d: TestDefinition, c: CompiledTest, t: nat)
    requires WellCompiled(d, c)
    requires ConfigurationMessage(c).Some? && SparseInstructions(c).Some?
    requires forall m :: m in SparseInstructions(c).value ==> t < m.tick
    ensures var first := ConfigurationMessage(c).value;
      Shows(d, t, Outputs(first.initialHigh, [0, 0, 0, 0, 0, 0], first.initialPwm))
  {
    RigShowsTheTest(d, c, t);
    NothingYet(SparseInstructions(c).value, t);
    assert ConfiguredOutputs(ConfigurationMessage(c).value).analogue == [0, 0, 0, 0, 0, 0];
  }

  /**
   The same of the messages themselves: each one holds what the test asks for at every tick until the next one, and the
   configuration message, with every analogue output at 0 V, at every tick before the first.
   */
  lemma EveryMessageShowsTheTest(d: TestDefinition, c: CompiledTest, t: nat)
    requires WellCompiled(d, c)
    requires ConfigurationMessage(c).Some? && SparseInstructions(c).Some?
    ensures var ms := SparseInstructions(c).value;
      forall k :: IsCurrent(ms, k, t) ==> Shows(d, t, ms[k].outputs)
    ensures var first := ConfigurationMessage(c).value;
      (forall m :: m in SparseInstructions(c).value ==> t < m.tick)
        ==> Shows(d, t, Outputs(first.initialHigh, [0, 0, 0, 0, 0, 0], first.initialPwm))
  {
    var ms := SparseInstructions(c).value;
    forall k | IsCurrent(ms, k, t)
      ensures Shows(d, t, ms[k].outputs)
    {
      MessageShows(d, c, t, k);
    }
    if forall m :: m in ms ==> t < m.tick {
      ConfigurationShows(d, c, t);
    }
  }

  // ---------- The configuration message, and when the adapter raises ----------

  predicate Whole(x: real) {
    x == x.Floor as real
  }

  /** A voltage the wire can carry: a whole number of microvolts in 32 bits. */
  predicate WireVoltage(v: real) {
    Whole(v * 1_000_000.0) && 0.0 <= v * 1_000_000.0 <= 4_294_967_295.0
  }

  /** A duty cycle the wire can carry: a fraction in whole permyriads. */
  predicate WireDuty(v: real) {
    Whole(v * 10_000.0) && 0.0 <= v <= 1.0
  }

  /** A frequency the wire can carry: its period is a whole number of nanoseconds in 32 bits. */
  predicate WireFrequency(f: real) {
    f > 0.0 && Whole(1_000_000_000.0 / f) && 1.0 <= 1_000_000_000.0 / f <= 4_294_967_295.0
  }

  lemma ConversionsSucceedExactlyWhen(v: real)
    ensures VoltsToMicrovolts(v).Some? <==> WireVoltage(v)
    ensures DutyToPermyriad(v).Some? <==> WireDuty(v)
    ensures FrequencyToPeriod(v).Some? <==> WireFrequency(v)
  {
  }

  predicate WireParameters(kind: Peripheral, p: Parameters) {
    match kind
    case DigitalOutput => p.DigitalOutputParameters?
    case AnalogueOutput => p.AnalogueOutputParameters? && WireVoltage(p.initialVoltage)
    case PwmOutput => p.PwmOutputParameters? && WireFrequency(p.initialFrequency) && WireDuty(p.initialDuty)
    case _ => true
  }

  predicate WireOperation(kind: Peripheral, operation: Stimulus) {
    match kind
    case DigitalOutput => operation.SetState?
    case AnalogueOutput => operation.SetVoltage? && WireVoltage(operation.voltage)
    case PwmOutput =>
      (match operation
       case SetEnabled(_) => true
       case SetWaveform(f, d) => WireFrequency(f) && WireDuty(d)
       case SetFrequency(f) => WireFrequency(f)
       case SetDutyCycle(d) => WireDuty(d)
       case _ => false)
    case _ => true
  }

  lemma ParametersAreWire(c: Channel, p: Parameters)
    requires c.Valid()
    ensures Representable(c, p) <==> WireParameters(c.kind, p)
  {
    match p
    case AnalogueOutputParameters(v) => ConversionsSucceedExactlyWhen(v);
    case PwmOutputParameters(f, d, _) =>
      ConversionsSucceedExactlyWhen(f);
      ConversionsSucceedExactlyWhen(d);
    case _ =>
  }

  lemma OperationIsWire(i: Instruction)
    requires i.channel.Valid() && IsFixedOutput(i)
    ensures Convertible(i) <==> WireOperation(i.channel.kind, i.operation)
  {
    match i.operation
    case SetWaveform(f, d) =>
      ConversionsSucceedExactlyWhen(f);
      ConversionsSucceedExactlyWhen(d);
    case SetFrequency(f) => ConversionsSucceedExactlyWhen(f);
    case SetDutyCycle(d) => ConversionsSucceedExactlyWhen(d);
    case SetVoltage(v) => ConversionsSucceedExactlyWhen(v);
    case _ =>
  }

  /**
   The adapter raises exactly when an initial value, or the operation of an instruction on a fixed output, is not a
   whole number of microvolts, permyriads or nanoseconds in the range of the wire.
   */
  lemma AdapterRaisesExactlyWhen(d: TestDefinition, c: CompiledTest)
    requires WellCompiled(d, c)
    ensures SparseInstructions(c).Some? <==>
      && (forall x :: x in d.channels ==> WireParameters(x.kind, d.channels[x]))
      && (forall i :: i in d.instructions ==> WireOperation(i.channel.kind, i.operation))
    ensures ConfigurationMessage(c).Some? <==>
      forall x :: x in d.channels && x.kind != AnalogueOutput ==> WireParameters(x.kind, d.channels[x])
  {
    LoweringSucceedsExactlyWhen(d, c);
    forall x | x in d.channels
      ensures Representable(x, d.channels[x]) <==> WireParameters(x.kind, d.channels[x])
    {
      ParametersAreWire(x, d.channels[x]);
    }
    forall i | i in d.instructions && IsFixedOutput(i)
      ensures Convertible(i) <==> WireOperation(i.channel.kind, i.operation)
    {
      OperationIsWire(i);
    }
  }

  /**
   The configuration message tells the rig the length of a tick in microseconds, the number of ticks, and what to drive
   before the first instruction.
   */
  lemma ConfigurationIsExact(d: TestDefinition, c: CompiledTest)
    requires WellCompiled(d, c) && ConfigurationMessage(c).Some?
    ensures var m := ConfigurationMessage(c).value;
      && m.tickMicroseconds == (match d.frequency case Hz100 => 10_000 case Hz1k => 1_000 case Hz10k => 100)
      && m.expectedTickCount == c.expectedTickCount
      && |m.initialHigh| == 10 && |m.initialPwm| == 2
      && (forall k :: 0 <= k < 10 ==> ShowsLevel(d.channels, {}, k, m.initialHigh[k]))
      && (forall k :: 0 <= k < 2 ==> ShowsWaveform(d.channels, {}, k, m.initialPwm[k]))
  {
    var m := ConfigurationMessage(c).value;
    forall k | 0 <= k < 10
      ensures ShowsLevel(d.channels, {}, k, m.initialHigh[k])
    {
      assert Toggles({}, Channel(DigitalOutput, k)) == {};
    }
    forall k | 0 <= k < 2
      ensures ShowsWaveform(d.channels, {}, k, m.initialPwm[k])
    {
      InitialWaveformRetained(d.channels, k);
    }
  }
}
