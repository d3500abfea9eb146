/**
 The user-facing description of one test: channels, their static configuration,
 timed stimulus instructions and host-side assertions.
 */
module Definition {
  datatype Peripheral =
    | DigitalInput | DigitalOutput
    | PwmInput | PwmOutput
    | AnalogueInput | AnalogueOutput
    | I2C | SPI | UART

  const DIGITAL_OUTPUTS: nat := 10
  const ANALOGUE_OUTPUTS: nat := 6
  const PWM_OUTPUTS: nat := 2

  function ChannelCount(kind: Peripheral): nat {
    match kind
    case DigitalInput => 10
    case DigitalOutput => DIGITAL_OUTPUTS
    case AnalogueOutput => ANALOGUE_OUTPUTS
    case _ => 2
  }

  datatype Channel = Channel(kind: Peripheral, index: int) {
    predicate Valid() {
      0 <= index < ChannelCount(kind)
    }
  }

  datatype FrequencyMode = Hz100 | Hz1k | Hz10k

  function Hertz(mode: FrequencyMode): nat {
    match mode
    case Hz100 => 100
    case Hz1k => 1_000
    case Hz10k => 10_000
  }

  datatype StartMode = Immediate | HostCommand | ExternalTrigger

  /** Static configuration of one channel; `Plain` stands for every kind without an initial output. */
  datatype Parameters =
    | DigitalOutputParameters(initiallyHigh: bool)
    | AnalogueOutputParameters(initialVoltage: real)
    | PwmOutputParameters(initialFrequency: real, initialDuty: real, initiallyEnabled: bool)
    | Plain

  /** Whether `p` is the configuration record that a channel of this kind requires. */
  predicate Fits(kind: Peripheral, p: Parameters) {
    match kind
    case DigitalOutput => p.DigitalOutputParameters?
    case AnalogueOutput => p.AnalogueOutputParameters?
    case PwmOutput => p.PwmOutputParameters?
    case _ => p.Plain?
  }

  datatype DigitalAction = High | Low | Toggle

  /** What one instruction does; `Transfer` stands for every I2C, SPI and UART operation. */
  datatype Stimulus =
    | SetState(action: DigitalAction)
    | SetEnabled(enabled: bool)
    | SetWaveform(frequency: real, duty: real)
    | SetFrequency(frequency: real)
    | SetDutyCycle(duty: real)
    | SetVoltage(voltage: real)
    | Transfer

  datatype Instruction = Instruction(id: int, tick: int, channel: Channel, operation: Stimulus)

  /** The fifteen registered assertion operations, each with its own arguments. */
  datatype Check =
    | StateAtTick(tick: int, expected: bool)
    | RemainHigh(fromTick: int, untilTick: int)
    | RemainLow(fromTick: int, untilTick: int)
    | Transition(fromTick: int, untilTick: int, fromState: bool, toState: bool)
    | PeriodNear(tick: int, period: int, tolerance: int)
    | FrequencyNear(tick: int, frequency: real, frequencyTolerance: real)
    | DutyCycleNear(tick: int, duty: real, dutyTolerance: real)
    | WaveformNear(tick: int, frequency: real, frequencyTolerance: real, duty: real, dutyTolerance: real)
    | FrequencyRemainWithin(fromTick: int, untilTick: int, minimumHz: real, maximumHz: real)
    | DutyCycleRemainWithin(fromTick: int, untilTick: int, minimumDuty: real, maximumDuty: real)
    | Near(tick: int, target: int, tolerance: int)
    | Within(tick: int, minimum: int, maximum: int)
    | RemainWithin(fromTick: int, untilTick: int, minimum: int, maximum: int)
    | RemainAbove(fromTick: int, untilTick: int, threshold: int)
    | RemainBelow(fromTick: int, untilTick: int, threshold: int)
  {
    predicate IsPoint() {
      StateAtTick? || PeriodNear? || FrequencyNear? || DutyCycleNear? || WaveformNear? || Near? || Within?
    }

    function FirstTick(): int {
      if IsPoint() then tick else fromTick
    }

    function LastTick(): int {
      if IsPoint() then tick else untilTick
    }
  }

  datatype Assertion = Assertion(id: int, channel: Channel, check: Check)

  datatype TestDefinition = TestDefinition(
    testId: nat,
    frequency: FrequencyMode,
    startMode: StartMode,
    channels: map<Channel, Parameters>,
    instructions: seq<Instruction>,
    assertions: seq<Assertion>)
}
