/**
 The protocol adapter: exact unit conversion, the fixed configuration message, and the
 expansion of timed instructions into sparse messages that each carry the full output state.
 */
module Lowering {
  import opened Basics
  import opened Definition
  import opened Compiler

  const UINT32_MAX: int := 0xFFFF_FFFF

  // ---------- Exact unit conversion; None stands for a ProtocolIntegrationError ----------

  function Exact(v: real): Option<int> {
    if v.Floor as real == v then Some(v.Floor) else None
  }

  function InRange(v: Option<int>, least: int, most: int): Option<int> {
    if v.Some? && least <= v.value <= most then v else None
  }

  function VoltsToMicrovolts(v: real): Option<int> {
    InRange(Exact(v * 1_000_000.0), 0, UINT32_MAX)
  }

  function DutyToPermyriad(v: real): Option<int> {
    InRange(Exact(v * 10_000.0), 0, 10_000)
  }

  function FrequencyToPeriod(f: real): Option<int> {
    if f <= 0.0 then None else InRange(Exact(1_000_000_000.0 / f), 1, UINT32_MAX)
  }

  /**
   Every conversion is exact: it yields an integer exactly when that integer names the same quantity and fits the wire.
   */
  lemma ConversionsAreExact(v: real, n: int)
    ensures VoltsToMicrovolts(v) == Some(n) <==> v == n as real / 1_000_000.0 && 0 <= n <= UINT32_MAX
    ensures DutyToPermyriad(v) == Some(n) <==> v == n as real / 10_000.0 && 0 <= n <= 10_000
    ensures FrequencyToPeriod(v) == Some(n) <==> v > 0.0 && v * n as real == 1_000_000_000.0 && 1 <= n <= UINT32_MAX
  {
    assert (n as real).Floor == n;
    assert v * 1_000_000.0 == n as real <==> v == n as real / 1_000_000.0;
    assert v * 10_000.0 == n as real <==> v == n as real / 10_000.0;
    if v > 0.0 {
      PeriodIsReciprocal(v, n);
    }
  }

  lemma PeriodIsReciprocal(f: real, n: int)
    requires f > 0.0
    ensures 1_000_000_000.0 / f == n as real <==> f * n as real == 1_000_000_000.0
  {
    var p := 1_000_000_000.0 / f;
    assert p * f == 1_000_000_000.0;
    if f * n as real == p * f {
      assert f * (n as real - p) == 0.0;
    }
  }

  // ---------- Output state ----------

  /** The requested waveform is retained while the output is disabled. */
  datatype PwmState = PwmState(period: int, duty: int, enabled: bool)

  datatype Frame = Frame(digital: seq<bool>, analogue: seq<int>, pwm: seq<PwmState>)

  datatype PwmValue = PwmValue(period: int, duty: int)

  /** The output values of one TestInstruction message. */
  datatype Outputs = Outputs(digital: seq<bool>, analogue: seq<int>, pwm: seq<PwmValue>)

  datatype SparseMessage = SparseMessage(tick: int, outputs: Outputs)

  /** The parts of a TestConfiguration message that fix the run length and the initial outputs. */
  datatype RigConfiguration = RigConfiguration(
    tickMicroseconds: int,
    expectedTickCount: int,
    initialHigh: seq<bool>,
    initialPwm: seq<PwmValue>)

  function RenderPwm(s: PwmState): PwmValue {
    if s.enabled then PwmValue(s.period, s.duty) else PwmValue(0, 0)
  }

  function Render(f: Frame): Outputs {
    Outputs(f.digital, f.analogue, seq(|f.pwm|, c requires 0 <= c < |f.pwm| => RenderPwm(f.pwm[c])))
  }

  predicate IsFixedOutput(i: Instruction) {
    i.channel.kind in {DigitalOutput, AnalogueOutput, PwmOutput}
  }

  function ApplyPwm(s: PwmState, operation: Stimulus): Option<PwmState> {
    match operation
    case SetEnabled(e) => Some(s.(enabled := e))
    case SetWaveform(f, d) =>
      if FrequencyToPeriod(f).Some? && DutyToPermyriad(d).Some?
      then Some(s.(period := FrequencyToPeriod(f).value, duty := DutyToPermyriad(d).value)) else None
    case SetFrequency(f) =>
      if FrequencyToPeriod(f).Some? then Some(s.(period := FrequencyToPeriod(f).value)) else None
    case SetDutyCycle(d) =>
      if DutyToPermyriad(d).Some? then Some(s.(duty := DutyToPermyriad(d).value)) else None
    case _ => None
  }

  function Apply(f: Frame, i: Instruction): Option<Frame> {
    var c := i.channel.index;
    match i.channel.kind
    case DigitalOutput =>
      if 0 <= c < |f.digital| && i.operation.SetState?
      then Some(f.(digital := f.digital[c :=
        match i.operation.action case High => true case Low => false case Toggle => !f.digital[c]]))
      else None
    case AnalogueOutput =>
      if 0 <= c < |f.analogue| && i.operation.SetVoltage? && VoltsToMicrovolts(i.operation.voltage).Some?
      then Some(f.(analogue := f.analogue[c := VoltsToMicrovolts(i.operation.voltage).value]))
      else None
    case PwmOutput =>
      if 0 <= c < |f.pwm| && ApplyPwm(f.pwm[c], i.operation).Some?
      then Some(f.(pwm := f.pwm[c := ApplyPwm(f.pwm[c], i.operation).value]))
      else None
    case _ => None
  }

  function ApplyAll(f: Frame, s: seq<Instruction>): Option<Frame>
    decreases |s|
  {
    if s == [] then Some(f)
    else match Apply(f, s[0])
      case None => None
      case Some(g) => ApplyAll(g, s[1..])
  }

  // ---------- Configured initial state ----------

  function InitialPwm(p: Parameters): Option<PwmState>
    requires p.PwmOutputParameters?
  {
    var period, duty := FrequencyToPeriod(p.initialFrequency), DutyToPermyriad(p.initialDuty);
    if period.Some? && duty.Some? then Some(PwmState(period.value, duty.value, p.initiallyEnabled)) else None
  }

  /** Whether this channel's initial output, if it has one, is representable on the wire. */
  predicate Representable(c: Channel, p: Parameters) {
    match c.kind
    case DigitalOutput => c.Valid() && p.DigitalOutputParameters?
    case AnalogueOutput => c.Valid() && p.AnalogueOutputParameters? && VoltsToMicrovolts(p.initialVoltage).Some?
    case PwmOutput => c.Valid() && p.PwmOutputParameters? && InitialPwm(p).Some?
    case _ => true
  }

  /** The configuration message carries no analogue value, so an analogue channel cannot make it fail. */
  predicate Configurable(c: Channel, p: Parameters) {
    if c.kind == AnalogueOutput then c.Valid() else Representable(c, p)
  }

  ghost predicate AllConfigurable(channels: map<Channel, Parameters>) {
    forall c :: c in channels ==> Configurable(c, channels[c])
  }

  ghost predicate AllRepresentable(channels: map<Channel, Parameters>) {
    forall c :: c in channels ==> Representable(c, channels[c])
  }

  predicate HasAnalogueOutput(channels: map<Channel, Parameters>) {
    exists c :: c in channels && c.kind == AnalogueOutput
  }

  function InitialDigitalAt(channels: map<Channel, Parameters>, k: int): bool {
    var c := Channel(DigitalOutput, k);
    c in channels && channels[c].DigitalOutputParameters? && channels[c].initiallyHigh
  }

  function InitialAnalogueAt(channels: map<Channel, Parameters>, k: int): int {
    var c := Channel(AnalogueOutput, k);
    if c in channels && channels[c].AnalogueOutputParameters? && VoltsToMicrovolts(channels[c].initialVoltage).Some?
    then VoltsToMicrovolts(channels[c].initialVoltage).value else 0
  }

  function InitialPwmAt(channels: map<Channel, Parameters>, k: int): PwmState {
    var c := Channel(PwmOutput, k);
    if c in channels && channels[c].PwmOutputParameters? && InitialPwm(channels[c]).Some?
    then InitialPwm(channels[c]).value else PwmState(0, 0, false)
  }

  /** The configured initial outputs, channel by channel; unconfigured channels are low, 0 V and disabled. */
  function InitialFrame(channels: map<Channel, Parameters>): Frame {
    Frame(
      seq(DIGITAL_OUTPUTS, k => InitialDigitalAt(channels, k)),
      seq(ANALOGUE_OUTPUTS, k => InitialAnalogueAt(channels, k)),
      seq(PWM_OUTPUTS, k => InitialPwmAt(channels, k)))
  }

  // ---------- Grouping ----------

  ghost predicate TickSorted(s: seq<Instruction>) {
    forall i, j :: 0 <= i < j < |s| ==> s[i].tick <= s[j].tick
  }

  /** The length of the leading run of instructions that share a tick. */
  function RunLength(s: seq<Instruction>): (n: nat)
    requires s != []
    ensures 1 <= n <= |s|
    ensures forall k :: 0 <= k < n ==> s[k].tick == s[0].tick
    ensures n < |s| ==> s[n].tick != s[0].tick
  {
    if |s| == 1 || s[1].tick != s[0].tick then 1 else 1 + RunLength(s[1..])
  }

  /** `groupby` collected into a dictionary: a later run with the same tick replaces an earlier one. */
  function Grouped(s: seq<Instruction>): map<int, seq<Instruction>> {
    if s == [] then map[]
    else
      var n := RunLength(s);
      map[s[0].tick := s[..n]] + Grouped(s[n..])
  }

  /** On tick-sorted input no run is ever replaced: every group is all of its tick's instructions. */
  lemma {:induction false} NoInstructionIsLostByGrouping(s: seq<Instruction>, t: int)
    requires TickSorted(s)
    ensures t in Grouped(s) <==> exists i :: i in s && i.tick == t
    ensures t in Grouped(s) ==> Grouped(s)[t] == Filter(At(t), s)
  {
    if s != [] {
      var n := RunLength(s);
      var run, rest := s[..n], s[n..];
      assert s == run + rest;
      NoInstructionIsLostByGrouping(rest, t);
      FilterConcat(At(t), run, rest);
      if t == s[0].tick {
        FilterAll(At(t), run);
        FilterNone(At(t), rest);
      } else {
        FilterNone(At(t), run);
      }
    }
  }

  function Group(grouped: map<int, seq<Instruction>>, t: int): seq<Instruction> {
    if t in grouped then grouped[t] else []
  }

  // ---------- Sorted ticks ----------

  lemma Member(s: set<int>) returns (x: int)
    requires s != {}
    ensures x in s
  {
    if forall y :: y !in s {
      assert false;
    }
    x :| x in s;
  }

  lemma {:induction false} Least(ticks: set<int>) returns (m: int)
    requires ticks != {}
    ensures IsLeast(m, ticks)
  {
    m := Member(ticks);
    var rest := ticks - {m};
    if rest == {} {
      forall y | y in ticks
        ensures m <= y
      {
        assert y !in rest;
      }
    } else {
      var least := Least(rest);
      forall y | y in ticks
        ensures least <= y || m <= y
      {
        assert y == m || y in rest;
      }
      m := if least < m then least else m;
    }
  }

  lemma LeastExists(ticks: set<int>)
    requires ticks != {}
    ensures exists m :: m in ticks && forall x :: x in ticks ==> m <= x
  {
    var m := Least(ticks);
  }

  ghost predicate StrictlyAscending(s: seq<int>) {
    forall i, j :: 0 <= i < j < |s| ==> s[i] < s[j]
  }

  function LeastTick(ticks: set<int>): (m: int)
    requires ticks != {}
    ensures IsLeast(m, ticks)
  {
    LeastExists(ticks);
    var m :| m in ticks && forall x :: x in ticks ==> m <= x;
    m
  }

  /** `sorted(set)`. */
  function SortedTicks(ticks: set<int>): (r: seq<int>)
    ensures forall t :: t in r <==> t in ticks
    ensures StrictlyAscending(r)
  {
    if ticks == {} then [] else [LeastTick(ticks)] + SortedTicks(ticks - {LeastTick(ticks)})
  }

  // ---------- Sparse messages ----------

  function Emit(ticks: seq<int>, grouped: map<int, seq<Instruction>>, f: Frame): Option<seq<SparseMessage>> {
    if ticks == [] then Some([])
    else match ApplyAll(f, Group(grouped, ticks[0]))
      case None => None
      case Some(g) =>
        match Emit(ticks[1..], grouped, g)
        case None => None
        case Some(later) => Some([SparseMessage(ticks[0], Render(g))] + later)
  }

  function FixedOutputs(t: CompiledTest): seq<Instruction> {
    Filter(IsFixedOutput, t.instructions)
  }

  /** The ticks that get a message: those with a fixed output, and zero when an analogue output is configured. */
  function MessageTicks(t: CompiledTest): set<int> {
    Grouped(FixedOutputs(t)).Keys + if HasAnalogueOutput(t.configurations) then {0} else {}
  }

  ghost function SparseInstructions(t: CompiledTest): Option<seq<SparseMessage>> {
    if AllRepresentable(t.configurations)
    then Emit(SortedTicks(MessageTicks(t)), Grouped(FixedOutputs(t)), InitialFrame(t.configurations))
    else None
  }

  ghost function ConfigurationMessage(t: CompiledTest): Option<RigConfiguration> {
    if AllConfigurable(t.configurations) && t.hertz > 0 && 1_000_000_000 / t.hertz % 1_000 == 0
    then Some(RigConfiguration(
      1_000_000_000 / t.hertz / 1_000,
      t.expectedTickCount,
      InitialFrame(t.configurations).digital,
      Render(InitialFrame(t.configurations)).pwm))
    else None
  }

  // ---------- What the rig holds ----------

  /** The outputs of the last message at or before tick `t`. */
  function LastAt(messages: seq<SparseMessage>, t: int): Option<Outputs> {
    if messages == [] then None
    else
      var last := messages[|messages| - 1];
      if last.tick <= t then Some(last.outputs) else LastAt(messages[..|messages| - 1], t)
  }

  /**
   Before the first message the rig holds the outputs of its configuration message, with every analogue output at 0 V.
   */
  function ConfiguredOutputs(c: RigConfiguration): Outputs {
    Outputs(c.initialHigh, seq(ANALOGUE_OUTPUTS, _ => 0), c.initialPwm)
  }

  function RigOutputs(c: RigConfiguration, messages: seq<SparseMessage>, t: int): Outputs {
    match LastAt(messages, t)
    case Some(o) => o
    case None => ConfiguredOutputs(c)
  }

  // ---------- Reference semantics: one tick at a time, in creation order ----------

  predicate FixedAt(t: int, i: Instruction) {
    IsFixedOutput(i) && i.tick == t
  }

  /** The instructions a user scheduled for tick `t` on fixed outputs, in the order they were created. */
  function ScheduledAt(d: TestDefinition, t: int): seq<Instruction> {
    Filter(i => FixedAt(t, i), d.instructions)
  }

  /** Execute the test naively: at every tick from zero, carry out what was scheduled for that tick. */
  function DenseFrame(d: TestDefinition, t: int): Option<Frame>
    requires t >= -1
  {
    if t == -1 then Some(InitialFrame(d.channels))
    else match DenseFrame(d, t - 1)
      case None => None
      case Some(f) => ApplyAll(f, ScheduledAt(d, t))
  }

  // ---------- Grouping agrees with the schedule ----------

  lemma {:induction false} FilterKeepsTickOrder(keep: Instruction -> bool, s: seq<Instruction>)
    requires TickSorted(s)
    ensures TickSorted(Filter(keep, s))
  {
    if s != [] {
      FilterKeepsTickOrder(keep, s[1..]);
      forall y | y in Filter(keep, s[1..])
        ensures s[0].tick <= y.tick
      {
        var k :| 0 <= k < |s[1..]| && s[1..][k] == y;
        assert s[k + 1] == y;
      }
    }
  }

  lemma FixedOutputsAreTickSorted(d: TestDefinition, c: CompiledTest)
    requires WellCompiled(d, c)
    ensures TickSorted(FixedOutputs(c))
  {
    SortIsSortedPermutation(d.instructions);
    assert forall i, j :: 0 <= i < j < |c.instructions| ==> Precedes(c.instructions[i], c.instructions[j]);
    FilterKeepsTickOrder(IsFixedOutput, c.instructions);
  }

  /** After sorting, filtering and grouping, each tick still has exactly its own instructions in creation order. */
  lemma GroupIsSchedule(d: TestDefinition, c: CompiledTest, t: int)
    requires WellCompiled(d, c)
    ensures Group(Grouped(FixedOutputs(c)), t) == ScheduledAt(d, t)
    ensures t in Grouped(FixedOutputs(c)) <==> ScheduledAt(d, t) != []
  {
    var both := (i: Instruction) => FixedAt(t, i);
    FixedOutputsAreTickSorted(d, c);
    NoInstructionIsLostByGrouping(FixedOutputs(c), t);
    FilterTwice(IsFixedOutput, At(t), both, c.instructions);
    FilterTwice(At(t), IsFixedOutput, both, c.instructions);
    FilterTwice(At(t), IsFixedOutput, both, d.instructions);
    SortKeepsEachTick(d.instructions, t);
    var scheduled := ScheduledAt(d, t);
    assert scheduled == Filter(At(t), FixedOutputs(c));
    assert forall i :: i in scheduled <==> i in FixedOutputs(c) && i.tick == t;
    assert scheduled != [] ==> scheduled[0] in scheduled;
  }

  // ---------- Emitted messages ----------

  lemma {:induction false} EmittedTicks(ticks: seq<int>, grouped: map<int, seq<Instruction>>, f: Frame)
    requires Emit(ticks, grouped, f).Some?
    ensures |Emit(ticks, grouped, f).value| == |ticks|
    ensures forall k :: 0 <= k < |ticks| ==> Emit(ticks, grouped, f).value[k].tick == ticks[k]
  {
    if ticks != [] {
      EmittedTicks(ticks[1..], grouped, ApplyAll(f, Group(grouped, ticks[0])).value);
    }
  }

  lemma MessageTickIsScheduled(d: TestDefinition, c: CompiledTest, t: int)
    requires WellCompiled(d, c)
    ensures t in SortedTicks(MessageTicks(c))
      <==> ScheduledAt(d, t) != [] || (t == 0 && HasAnalogueOutput(c.configurations))
  {
    GroupIsSchedule(d, c, t);
  }

  lemma TicksOfMessages(ticks: seq<int>, ms: seq<SparseMessage>, t: int)
    requires |ms| == |ticks| && forall k :: 0 <= k < |ticks| ==> ms[k].tick == ticks[k]
    ensures (exists k :: 0 <= k < |ms| && ms[k].tick == t) <==> t in ticks
  {
    if t in ticks {
      var k :| 0 <= k < |ticks| && ticks[k] == t;
      assert ms[k].tick == t;
    }
  }

  /** Some fixed output changes at `t`, or it is tick zero and an analogue output is configured. */
  ghost predicate NeedsMessage(d: TestDefinition, t: int) {
    || (exists i :: i in d.instructions && i.tick == t && i.channel.kind in {DigitalOutput, AnalogueOutput, PwmOutput})
    || (t == 0 && exists c :: c in d.channels && c.kind == AnalogueOutput)
  }

  lemma ScheduledNeedsMessage(d: TestDefinition, t: int)
    ensures NeedsMessage(d, t) <==> ScheduledAt(d, t) != [] || (t == 0 && HasAnalogueOutput(d.channels))
  {
    assert ScheduledAt(d, t) != [] ==> ScheduledAt(d, t)[0] in ScheduledAt(d, t);
  }

  /** Message ticks strictly increase, and are exactly those that need a message. */
  lemma MessageTicksAreExact(d: TestDefinition, c: CompiledTest)
    requires WellCompiled(d, c) && SparseInstructions(c).Some?
    ensures var ms := SparseInstructions(c).value;
      && (forall i, j :: 0 <= i < j < |ms| ==> ms[i].tick < ms[j].tick)
      && (forall t :: NeedsMessage(d, t) <==> exists k :: 0 <= k < |ms| && ms[k].tick == t)
  {
    var ticks := SortedTicks(MessageTicks(c));
    var ms := SparseInstructions(c).value;
    EmittedTicks(ticks, Grouped(FixedOutputs(c)), InitialFrame(c.configurations));
    forall t
      ensures NeedsMessage(d, t) <==> exists k :: 0 <= k < |ms| && ms[k].tick == t
    {
      ScheduledNeedsMessage(d, t);
      MessageTickIsScheduled(d, c, t);
      TicksOfMessages(ticks, ms, t);
    }
  }

  // ---------- Retention between messages ----------

  lemma {:induction false} LastAtCons(first: SparseMessage, later: seq<SparseMessage>, t: int)
    ensures LastAt([first] + later, t) ==
      if LastAt(later, t).Some? then LastAt(later, t)
      else if first.tick <= t then Some(first.outputs) else None
  {
    var all := [first] + later;
    if later != [] {
      assert all[..|all| - 1] == [first] + later[..|later| - 1];
      LastAtCons(first, later[..|later| - 1], t);
    }
  }

  lemma {:induction false} NothingYet(ms: seq<SparseMessage>, t: int)
    requires forall m :: m in ms ==> m.tick > t
    ensures LastAt(ms, t).None?
  {
    if ms != [] {
      NothingYet(ms[..|ms| - 1], t);
    }
  }

  lemma {:induction false} SomethingHeld(ms: seq<SparseMessage>, t: int)
    requires exists m :: m in ms && m.tick <= t
    ensures LastAt(ms, t).Some?
  {
    if ms[|ms| - 1].tick > t {
      SomethingHeld(ms[..|ms| - 1], t);
    }
  }

  /** While nothing is scheduled, the naive execution does not move. */
  lemma {:induction false} Idle(d: TestDefinition, from: int, t: int)
    requires -1 <= from <= t
    requires forall x :: from < x <= t ==> ScheduledAt(d, x) == []
    ensures DenseFrame(d, t) == DenseFrame(d, from)
    decreases t - from
  {
    if from < t {
      Idle(d, from, t - 1);
    }
  }

  /** Every tick from `lo` on with something scheduled is listed, and nothing earlier is. */
  ghost predicate Lists(ticks: seq<int>, d: TestDefinition, lo: int) {
    && StrictlyAscending(ticks)
    && (forall x :: x in ticks ==> lo <= x)
    && (forall x :: x >= lo && ScheduledAt(d, x) != [] ==> x in ticks)
  }

  lemma ListsTail(ticks: seq<int>, d: TestDefinition, lo: int)
    requires Lists(ticks, d, lo) && ticks != []
    ensures lo <= ticks[0] && Lists(ticks[1..], d, ticks[0] + 1)
    ensures forall x :: lo <= x < ticks[0] ==> ScheduledAt(d, x) == []
  {
    var head := ticks[0];
    assert head in ticks;
    forall x
      ensures x in ticks ==> head <= x
      ensures x in ticks && x > head ==> x in ticks[1..]
      ensures x in ticks[1..] ==> head + 1 <= x
    {
    }
  }

  lemma {:induction false} EmitMeaning(
    d: TestDefinition, c: CompiledTest, ticks: seq<int>, lo: int, f: Frame, ms: seq<SparseMessage>, t: int)
    requires WellCompiled(d, c)
    requires Lists(ticks, d, lo) && 0 <= lo
    requires DenseFrame(d, lo - 1) == Some(f)
    requires Emit(ticks, Grouped(FixedOutputs(c)), f) == Some(ms)
    requires t >= lo - 1
    ensures DenseFrame(d, t).Some?
    ensures Render(DenseFrame(d, t).value) == (match LastAt(ms, t) case Some(o) => o case None => Render(f))
    decreases |ticks|
  {
    if ticks == [] {
      Idle(d, lo - 1, t);
    } else {
      ListsTail(ticks, d, lo);
      if t < ticks[0] {
        Idle(d, lo - 1, t);
        EmittedTicks(ticks, Grouped(FixedOutputs(c)), f);
        NothingYet(ms, t);
      } else {
        var head := ticks[0];
        OneMessage(d, lo, f, head);
        GroupIsSchedule(d, c, head);
        var g := ApplyAll(f, ScheduledAt(d, head)).value;
        var later := Emit(ticks[1..], Grouped(FixedOutputs(c)), g).value;
        EmitMeaning(d, c, ticks[1..], head + 1, g, later, t);
        LastAtCons(SparseMessage(head, Render(g)), later, t);
      }
    }
  }

  /** Carrying out what is scheduled at `head` moves the naive execution from before the gap to `head`. */
  lemma OneMessage(d: TestDefinition, lo: int, f: Frame, head: int)
    requires 0 <= lo <= head
    requires forall x :: lo <= x < head ==> ScheduledAt(d, x) == []
    requires DenseFrame(d, lo - 1) == Some(f)
    ensures DenseFrame(d, head) == ApplyAll(f, ScheduledAt(d, head))
  {
    Idle(d, lo - 1, head - 1);
  }

  lemma ConfigurationHoldsInitialOutputs(c: CompiledTest)
    requires ConfigurationMessage(c).Some? && !HasAnalogueOutput(c.configurations)
    ensures ConfiguredOutputs(ConfigurationMessage(c).value) == Render(InitialFrame(c.configurations))
  {
    var f := InitialFrame(c.configurations);
    forall k | 0 <= k < ANALOGUE_OUTPUTS
      ensures f.analogue[k] == 0
    {
      assert Channel(AnalogueOutput, k) !in c.configurations;
    }
    assert f.analogue == seq(ANALOGUE_OUTPUTS, _ => 0);
  }

  lemma MessageTicksAreListed(d: TestDefinition, c: CompiledTest)
    requires WellCompiled(d, c)
    ensures Lists(SortedTicks(MessageTicks(c)), d, 0)
  {
    forall t
      ensures t in SortedTicks(MessageTicks(c))
        <==> ScheduledAt(d, t) != [] || (t == 0 && HasAnalogueOutput(c.configurations))
      ensures ScheduledAt(d, t) != [] ==> t >= 0
    {
      MessageTickIsScheduled(d, c, t);
      if ScheduledAt(d, t) != [] {
        assert ScheduledAt(d, t)[0] in ScheduledAt(d, t);
      }
    }
  }

  lemma AnalogueOutputsHaveAFirstMessage(d: TestDefinition, c: CompiledTest, t: nat)
    requires WellCompiled(d, c) && SparseInstructions(c).Some? && HasAnalogueOutput(c.configurations)
    ensures LastAt(SparseInstructions(c).value, t).Some?
  {
    var ms := SparseInstructions(c).value;
    EmittedTicks(SortedTicks(MessageTicks(c)), Grouped(FixedOutputs(c)), InitialFrame(c.configurations));
    MessageTickIsScheduled(d, c, 0);
    TicksOfMessages(SortedTicks(MessageTicks(c)), ms, 0);
    var k :| 0 <= k < |ms| && ms[k].tick == 0;
    assert ms[k] in ms;
    SomethingHeld(ms, t);
  }

  /**
   Lowering preserves meaning. At every tick the rig, holding its configuration and then the last
   sparse message it was sent, drives exactly the outputs that naive tick-by-tick execution of the
   user's own instruction list would drive.
   */
  lemma LoweringPreservesMeaning(d: TestDefinition, c: CompiledTest, t: nat)
    requires WellCompiled(d, c)
    requires ConfigurationMessage(c).Some? && SparseInstructions(c).Some?
    ensures DenseFrame(d, t).Some?
    ensures RigOutputs(ConfigurationMessage(c).value, SparseInstructions(c).value, t) == Render(DenseFrame(d, t).value)
  {
    MessageTicksAreListed(d, c);
    EmitMeaning(d, c, SortedTicks(MessageTicks(c)), 0, InitialFrame(c.configurations), SparseInstructions(c).value, t);
    if HasAnalogueOutput(c.configurations) {
      AnalogueOutputsHaveAFirstMessage(d, c, t);
    } else {
      ConfigurationHoldsInitialOutputs(c);
    }
  }

  // ---------- When lowering succeeds ----------

  ghost predicate Shaped(f: Frame) {
    |f.digital| == DIGITAL_OUTPUTS && |f.analogue| == ANALOGUE_OUTPUTS && |f.pwm| == PWM_OUTPUTS
  }

  predicate ConvertiblePwm(operation: Stimulus) {
    match operation
    case SetEnabled(_) => true
    case SetWaveform(f, d) => FrequencyToPeriod(f).Some? && DutyToPermyriad(d).Some?
    case SetFrequency(f) => FrequencyToPeriod(f).Some?
    case SetDutyCycle(d) => DutyToPermyriad(d).Some?
    case _ => false
  }

  /** An operation its channel understands, with every value exact and in the wire's range. */
  predicate Convertible(i: Instruction) {
    && i.channel.Valid()
    && match i.channel.kind
       case DigitalOutput => i.operation.SetState?
       case AnalogueOutput => i.operation.SetVoltage? && VoltsToMicrovolts(i.operation.voltage).Some?
       case PwmOutput => ConvertiblePwm(i.operation)
       case _ => false
  }

  lemma {:induction false} ApplyAllSucceedsExactlyWhen(f: Frame, s: seq<Instruction>)
    requires Shaped(f)
    ensures ApplyAll(f, s).Some? <==> forall i :: i in s ==> Convertible(i)
    ensures ApplyAll(f, s).Some? ==> Shaped(ApplyAll(f, s).value)
    decreases |s|
  {
    if s != [] {
      assert s[0] in s;
      assert Apply(f, s[0]).Some? <==> Convertible(s[0]);
      if Apply(f, s[0]).Some? {
        ApplyAllSucceedsExactlyWhen(Apply(f, s[0]).value, s[1..]);
        assert s == [s[0]] + s[1..];
      }
    }
  }

  lemma {:induction false} EmitSucceedsExactlyWhen(ticks: seq<int>, grouped: map<int, seq<Instruction>>, f: Frame)
    requires Shaped(f)
    ensures Emit(ticks, grouped, f).Some? <==>
      forall k, i :: 0 <= k < |ticks| && i in Group(grouped, ticks[k]) ==> Convertible(i)
    decreases |ticks|
  {
    if ticks != [] {
      ApplyAllSucceedsExactlyWhen(f, Group(grouped, ticks[0]));
      var g := ApplyAll(f, Group(grouped, ticks[0]));
      if g.Some? {
        EmitSucceedsExactlyWhen(ticks[1..], grouped, g.value);
        assert forall k :: 0 < k < |ticks| ==> ticks[k] == ticks[1..][k - 1];
      }
    }
  }

  /**
   The adapter raises exactly when some configured initial value or some fixed-output instruction is not exactly
   representable.
   */
  lemma LoweringSucceedsExactlyWhen(d: TestDefinition, c: CompiledTest)
    requires WellCompiled(d, c)
    ensures SparseInstructions(c).Some? <==>
      AllRepresentable(c.configurations) && forall i :: i in d.instructions && IsFixedOutput(i) ==> Convertible(i)
  {
    var ticks, grouped := SortedTicks(MessageTicks(c)), Grouped(FixedOutputs(c));
    EmitSucceedsExactlyWhen(ticks, grouped, InitialFrame(c.configurations));
    forall t
      ensures Group(grouped, t) == ScheduledAt(d, t)
      ensures ScheduledAt(d, t) != [] ==> t in ticks
    {
      GroupIsSchedule(d, c, t);
    }
    if forall k, i :: 0 <= k < |ticks| && i in Group(grouped, ticks[k]) ==> Convertible(i) {
      forall i | i in d.instructions && IsFixedOutput(i)
        ensures Convertible(i)
      {
        assert i in ScheduledAt(d, i.tick);
        var k :| 0 <= k < |ticks| && ticks[k] == i.tick;
        assert i in Group(grouped, ticks[k]);
      }
    }
  }

  // ---------- The adapter's own loops ----------

  /** `_apply_instruction`: updates the lists in place; they are abandoned when it raises. */
  method ApplyInstruction(i: Instruction, digital: array<bool>, analogue: array<int>, pwm: array<PwmState>)
    returns (ok: bool)
    modifies digital, analogue, pwm
    ensures ok == Apply(old(Frame(digital[..], analogue[..], pwm[..])), i).Some?
    ensures ok ==>
      Frame(digital[..], analogue[..], pwm[..]) == Apply(old(Frame(digital[..], analogue[..], pwm[..])), i).value
    ensures ok && i.channel.kind != DigitalOutput ==> digital[..] == old(digital[..])
    ensures ok && i.channel.kind != AnalogueOutput ==> analogue[..] == old(analogue[..])
    ensures ok && i.channel.kind != PwmOutput ==> pwm[..] == old(pwm[..])
    ensures ok && i.operation == SetState(High) ==> digital[..] == old(digital[..])[i.channel.index := true]
    ensures ok && i.operation == SetState(Low) ==> digital[..] == old(digital[..])[i.channel.index := false]
    ensures ok && i.operation == SetState(Toggle) ==>
      digital[..] == old(digital[..])[i.channel.index := !old(digital[i.channel.index])]
    ensures ok && i.operation.SetVoltage? ==>
      && analogue[i.channel.index] as real == i.operation.voltage * 1_000_000.0
      && analogue[..] == old(analogue[..])[i.channel.index := analogue[i.channel.index]]
    ensures ok && i.channel.kind == PwmOutput ==>
      var k := i.channel.index;
      && pwm[..] == old(pwm[..])[k := pwm[k]]
      && pwm[k].enabled == (if i.operation.SetEnabled? then i.operation.enabled else old(pwm[k].enabled))
      && (if i.operation.SetFrequency? || i.operation.SetWaveform?
          then pwm[k].period as real * i.operation.frequency == 1_000_000_000.0
          else pwm[k].period == old(pwm[k].period))
      && (if i.operation.SetDutyCycle? || i.operation.SetWaveform?
          then pwm[k].duty as real == i.operation.duty * 10_000.0 else pwm[k].duty == old(pwm[k].duty))
  {
    var c := i.channel.index;
    match i.channel.kind {
      case DigitalOutput =>
        if !(0 <= c < digital.Length) || !i.operation.SetState? {
          return false;
        }
        match i.operation.action {
          case High => digital[c] := true;
          case Low => digital[c] := false;
          case Toggle => digital[c] := !digital[c];
        }
      case AnalogueOutput =>
        if !(0 <= c < analogue.Length) || !i.operation.SetVoltage? {
          return false;
        }
        var microvolts := VoltsToMicrovolts(i.operation.voltage);
        if microvolts.None? {
          return false;
        }
        analogue[c] := microvolts.value;
      case PwmOutput =>
        if !(0 <= c < pwm.Length) {
          return false;
        }
        match i.operation {
          case SetEnabled(e) => pwm[c] := pwm[c].(enabled := e);
          case SetWaveform(f, d) =>
            var period := FrequencyToPeriod(f);
            if period.None? {
              return false;
            }
            pwm[c] := pwm[c].(period := period.value);
            var duty := DutyToPermyriad(d);
            if duty.None? {
              return false;
            }
            pwm[c] := pwm[c].(duty := duty.value);
          case SetFrequency(f) =>
            var period := FrequencyToPeriod(f);
            if period.None? {
              return false;
            }
            pwm[c] := pwm[c].(period := period.value);
          case SetDutyCycle(d) =>
            var duty := DutyToPermyriad(d);
            if duty.None? {
              return false;
            }
            pwm[c] := pwm[c].(duty := duty.value);
          case _ => return false;
        }
      case _ => return false;
    }
    ok := true;
  }

  /** The outputs once the configurations of `done` have been copied in. */
  ghost predicate InitialisedFor(
    channels: map<Channel, Parameters>, done: set<Channel>, digital: seq<bool>, analogue: seq<int>, pwm: seq<PwmState>)
  {
    && |digital| == DIGITAL_OUTPUTS && |analogue| == ANALOGUE_OUTPUTS && |pwm| == PWM_OUTPUTS
    && (forall k :: 0 <= k < DIGITAL_OUTPUTS ==>
          digital[k] == (Channel(DigitalOutput, k) in done && InitialDigitalAt(channels, k)))
    && (forall k :: 0 <= k < ANALOGUE_OUTPUTS ==>
          analogue[k] == if Channel(AnalogueOutput, k) in done then InitialAnalogueAt(channels, k) else 0)
    && (forall k :: 0 <= k < PWM_OUTPUTS ==>
          pwm[k] == if Channel(PwmOutput, k) in done then InitialPwmAt(channels, k) else PwmState(0, 0, false))
  }

  /** The configuration loop of `_build_sparse_instructions`; a dictionary's order does not matter. */
  method InitialiseOutputs(channels: map<Channel, Parameters>, digital: array<bool>, analogue: array<int>,
      pwm: array<PwmState>)
    returns (ok: bool, hasAnalogueOutput: bool)
    requires InitialisedFor(channels, {}, digital[..], analogue[..], pwm[..])
    modifies digital, analogue, pwm
    ensures ok == AllRepresentable(channels)
    ensures ok ==> Frame(digital[..], analogue[..], pwm[..]) == InitialFrame(channels)
    ensures ok ==> hasAnalogueOutput == HasAnalogueOutput(channels)
  {
    hasAnalogueOutput := false;
    var todo := channels.Keys;
    while todo != {}
      invariant todo <= channels.Keys
      invariant forall c :: c in channels.Keys - todo ==> Representable(c, channels[c])
      invariant InitialisedFor(channels, channels.Keys - todo, digital[..], analogue[..], pwm[..])
      invariant hasAnalogueOutput <==> exists c :: c in channels.Keys - todo && c.kind == AnalogueOutput
      decreases todo
    {
      var c :| c in todo;
      if !Representable(c, channels[c]) {
        return false, hasAnalogueOutput;
      }
      var p := channels[c];
      match c.kind {
        case DigitalOutput => digital[c.index] := p.initiallyHigh;
        case AnalogueOutput =>
          analogue[c.index] := VoltsToMicrovolts(p.initialVoltage).value;
          hasAnalogueOutput := true;
        case PwmOutput => pwm[c.index] := InitialPwm(p).value;
        case _ =>
      }
      todo := todo - {c};
    }
    assert channels.Keys - todo == channels.Keys;
    ok := true;
    var f := InitialFrame(channels);
    assert digital[..] == f.digital && analogue[..] == f.analogue && pwm[..] == f.pwm;
  }

  /** The inner loop: one tick's instructions, in order. */
  method ApplyGroup(group: seq<Instruction>, digital: array<bool>, analogue: array<int>, pwm: array<PwmState>)
    returns (ok: bool)
    modifies digital, analogue, pwm
    ensures ok == ApplyAll(old(Frame(digital[..], analogue[..], pwm[..])), group).Some?
    ensures ok ==>
      Frame(digital[..], analogue[..], pwm[..]) == ApplyAll(old(Frame(digital[..], analogue[..], pwm[..])), group).value
  {
    ghost var before := Frame(digital[..], analogue[..], pwm[..]);
    var j := 0;
    assert group[j..] == group;
    while j < |group|
      invariant 0 <= j <= |group|
      invariant ApplyAll(before, group) == ApplyAll(Frame(digital[..], analogue[..], pwm[..]), group[j..])
    {
      ok := ApplyInstruction(group[j], digital, analogue, pwm);
      if !ok {
        return false;
      }
      assert group[j..][1..] == group[j + 1..];
      j := j + 1;
    }
    ok := true;
  }

  ghost function Prepend(sent: seq<SparseMessage>, rest: Option<seq<SparseMessage>>): Option<seq<SparseMessage>> {
    if rest.None? then None else Some(sent + rest.value)
  }

  lemma PrependNothing(rest: Option<seq<SparseMessage>>)
    ensures Prepend([], rest) == rest
  {
    if rest.Some? {
      assert [] + rest.value == rest.value;
    }
  }

  lemma EmitStep(sent: seq<SparseMessage>, ticks: seq<int>, k: nat, grouped: map<int, seq<Instruction>>, f: Frame,
      g: Frame)
    requires k < |ticks| && ApplyAll(f, Group(grouped, ticks[k])) == Some(g)
    ensures Prepend(sent, Emit(ticks[k..], grouped, f))
      == Prepend(sent + [SparseMessage(ticks[k], Render(g))], Emit(ticks[k + 1..], grouped, g))
  {
    assert ticks[k..][1..] == ticks[k + 1..];
    var later := Emit(ticks[k + 1..], grouped, g);
    if later.Some? {
      var m := SparseMessage(ticks[k], Render(g));
      assert sent + ([m] + later.value) == (sent + [m]) + later.value;
    }
  }

  /** The emission loop: apply each tick's group to the retained state, then send the whole state. */
  method EmitMessages(
    ticks: seq<int>, grouped: map<int, seq<Instruction>>, digital: array<bool>, analogue: array<int>,
      pwm: array<PwmState>)
    returns (r: Option<seq<SparseMessage>>)
    modifies digital, analogue, pwm
    ensures r == Emit(ticks, grouped, old(Frame(digital[..], analogue[..], pwm[..])))
  {
    var messages := [];
    var k := 0;
    ghost var whole := Emit(ticks, grouped, Frame(digital[..], analogue[..], pwm[..]));
    assert ticks[k..] == ticks;
    PrependNothing(whole);
    while k < |ticks|
      invariant 0 <= k <= |ticks|
      invariant whole == Prepend(messages, Emit(ticks[k..], grouped, Frame(digital[..], analogue[..], pwm[..])))
    {
      ghost var before := Frame(digital[..], analogue[..], pwm[..]);
      var ok := ApplyGroup(Group(grouped, ticks[k]), digital, analogue, pwm);
      if !ok {
        return None;
      }
      var state := Frame(digital[..], analogue[..], pwm[..]);
      EmitStep(messages, ticks, k, grouped, before, state);
      messages := messages + [SparseMessage(ticks[k], Render(state))];
      k := k + 1;
    }
    assert ticks[k..] == [] && messages + [] == messages;
    r := Some(messages);
  }

  /** `_build_sparse_instructions`. */
  method BuildSparseInstructions(c: CompiledTest) returns (r: Option<seq<SparseMessage>>)
    ensures r == SparseInstructions(c)
  {
    var digital := new bool[DIGITAL_OUTPUTS](_ => false);
    var analogue := new int[ANALOGUE_OUTPUTS](_ => 0);
    var pwm := new PwmState[PWM_OUTPUTS](_ => PwmState(0, 0, false));
    var ok, hasAnalogueOutput := InitialiseOutputs(c.configurations, digital, analogue, pwm);
    if !ok {
      return None;
    }
    var grouped := Grouped(FixedOutputs(c));
    var ticks := SortedTicks(grouped.Keys + if hasAnalogueOutput then {0} else {});
    r := EmitMessages(ticks, grouped, digital, analogue, pwm);
  }

  /** `_build_configuration`, reduced to the run length and the initial outputs. */
  method BuildConfiguration(c: CompiledTest) returns (r: Option<RigConfiguration>)
    requires c.hertz > 0
    ensures r == ConfigurationMessage(c)
  {
    var digital := new bool[DIGITAL_OUTPUTS](_ => false);
    var pwm := new PwmValue[PWM_OUTPUTS](_ => PwmValue(0, 0));
    var todo := c.configurations.Keys;
    while todo != {}
      invariant todo <= c.configurations.Keys
      invariant forall x :: x in c.configurations.Keys - todo ==> Configurable(x, c.configurations[x])
      invariant forall k :: 0 <= k < DIGITAL_OUTPUTS ==>
        digital[k] == (Channel(DigitalOutput, k) in c.configurations.Keys - todo
          && InitialDigitalAt(c.configurations, k))
      invariant forall k :: 0 <= k < PWM_OUTPUTS ==>
        pwm[k] == if Channel(PwmOutput, k) in c.configurations.Keys - todo
                  then RenderPwm(InitialPwmAt(c.configurations, k)) else PwmValue(0, 0)
      decreases todo
    {
      var x :| x in todo;
      var p := c.configurations[x];
      if !Configurable(x, p) {
        return None;
      }
      match x.kind {
        case DigitalOutput => digital[x.index] := p.initiallyHigh;
        case PwmOutput => pwm[x.index] := RenderPwm(InitialPwm(p).value);
        case _ =>
      }
      todo := todo - {x};
    }
    assert c.configurations.Keys - todo == c.configurations.Keys;
    var period := 1_000_000_000 / c.hertz;
    if period % 1_000 != 0 {
      return None;
    }
    var initial := InitialFrame(c.configurations);
    assert digital[..] == initial.digital && pwm[..] == Render(initial).pwm;
    r := Some(RigConfiguration(period / 1_000, c.expectedTickCount, digital[..], pwm[..]));
  }
}
