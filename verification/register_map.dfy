/** The RTU's fixed Modbus register map: the base offsets of each register
    group, the channel enumerations, how a channel becomes a holding-register
    address, how a configuration word decodes to a default state, and the
    linear scale applied to analog readings. Everything here is pure. */
module RegisterMap {

  /** A Modbus holding register carries one 16-bit word. */
  type Word = x: int | 0 <= x < 0x1_0000

  datatype Option<T> = None | Some(value: T)

  // Base offsets of the register groups (modbus.py lines 11-16).
  const PulseCounterBase: nat := 300
  const AnalogBase: nat := 400
  const InputBase: nat := 500
  const OutputBase: nat := 600
  const PulseOutBase: nat := 700 - 1  // no aggregate register
  const OutConfigBase: nat := 650 - 1  // no aggregate register

  /** Digital channels; All is the aggregate register of the group. */
  datatype Gpio = All | IO1 | IO2 | IO3 | IO4

  /** Analog input channels, numbered from 0. */
  datatype AnalogIn = AI1 | AI2 | AI3 | AI4

  /** Pulse counter channels, numbered from 0. */
  datatype PulseCounter = PC1 | PC2

  /** Power-on behaviour of a digital output. */
  datatype DigOutDefaultState = Off | On | Remember

  /** The enum value of a digital channel. */
  function GpioValue(g: Gpio): (n: nat)
    ensures n <= 4
    ensures n == 0 <==> g == All
  {
    match g
    case All => 0
    case IO1 => 1
    case IO2 => 2
    case IO3 => 3
    case IO4 => 4
  }

  function AnalogValue(c: AnalogIn): (n: nat)
    ensures n <= 3
  {
    match c
    case AI1 => 0
    case AI2 => 1
    case AI3 => 2
    case AI4 => 3
  }

  function PulseValue(p: PulseCounter): (n: nat)
    ensures n <= 1
  {
    match p
    case PC1 => 0
    case PC2 => 1
  }

  function StateValue(s: DigOutDefaultState): (w: Word)
    ensures w <= 2
  {
    match s
    case Off => 0
    case On => 1
    case Remember => 2
  }

  /** Register of a digital output (the aggregate for All). */
  function OutputAddress(g: Gpio): (a: nat)
    ensures OutputBase <= a <= OutputBase + 4
    ensures a == OutputBase <==> g == All
  {
    OutputBase + GpioValue(g)
  }

  /** Register of a digital input (the aggregate for All). */
  function InputAddress(g: Gpio): (a: nat)
    ensures InputBase <= a <= InputBase + 4
    ensures a == InputBase <==> g == All
  {
    InputBase + GpioValue(g)
  }

  /** Default-state configuration register of one output channel. The
      group has no aggregate register, so only IO1..IO4 are meaningful. */
  function OutConfigAddress(g: Gpio): (a: nat)
    ensures g != All ==> OutConfigBase + 1 <= a <= OutConfigBase + 4
  {
    OutConfigBase + GpioValue(g)
  }

  function AnalogAddress(c: AnalogIn): (a: nat)
    ensures AnalogBase <= a <= AnalogBase + 3
  {
    AnalogBase + AnalogValue(c)
  }

  /** The register the pulse count is read from: the digital-input base,
      not PulseCounterBase. */
  function PulseCountAddress(p: PulseCounter): (a: nat)
    ensures InputBase <= a <= InputBase + 1
  {
    InputBase + PulseValue(p)
  }

  /** Decoding a configuration word, the way an enum lookup by value does:
      only the values of the three states decode. */
  function DecodeDefaultState(w: Word): (r: Option<DigOutDefaultState>)
    ensures r.Some? <==> w <= 2
    ensures r.Some? ==> StateValue(r.value) == w
  {
    if w == 0 then Some(Off)
    else if w == 1 then Some(On)
    else if w == 2 then Some(Remember)
    else None
  }

  // Gradient and offset of the analog scale (modbus.py lines 83-84).
  const AnalogGradient: real := 20.0 / 20480.0
  const AnalogOffset: real := 4.0

  /** Physical value of a raw analog reading. */
  function AnalogScale(raw: Word): (v: real)
    ensures AnalogOffset <= v <= AnalogOffset + 65535.0 / 1024.0
    ensures (v - AnalogOffset) * 1024.0 == raw as real
  {
    raw as real * AnalogGradient + AnalogOffset
  }

  /** Every configuration state decodes back from the word it is written as. */
  lemma DecodeStateValue(s: DigOutDefaultState)
    ensures DecodeDefaultState(StateValue(s)) == Some(s)
  {
  }

  /** Within each group distinct channels have distinct registers. */
  lemma AddressesInjective(g: Gpio, h: Gpio, c: AnalogIn, d: AnalogIn, p: PulseCounter, q: PulseCounter)
    ensures OutputAddress(g) == OutputAddress(h) ==> g == h
    ensures InputAddress(g) == InputAddress(h) ==> g == h
    ensures OutConfigAddress(g) == OutConfigAddress(h) ==> g == h
    ensures AnalogAddress(c) == AnalogAddress(d) ==> c == d
    ensures PulseCountAddress(p) == PulseCountAddress(q) ==> p == q
  {
  }

  /** The output registers 600..604, the configuration registers 650..653,
      the input registers 500..504 and the analog registers 400..403 do not
      overlap. The configuration channel g excludes All, which has no
      configuration register; h and i range over every channel, All included. */
  lemma RegisterGroupsDisjoint(g: Gpio, h: Gpio, i: Gpio, c: AnalogIn)
    requires g != All
    ensures OutConfigAddress(g) != OutputAddress(h)
    ensures OutConfigAddress(g) != InputAddress(h)
    ensures OutConfigAddress(g) != AnalogAddress(c)
    ensures OutputAddress(h) != InputAddress(i) && OutputAddress(h) != AnalogAddress(c)
    ensures InputAddress(i) != AnalogAddress(c)
  {
  }

  /** The pulse counters are read from the first two digital-input registers,
      and no address used by any operation falls in the pulse-counter group
      300..301. */
  lemma PulseCountAliasesInputs(g: Gpio, c: AnalogIn, p: PulseCounter)
    ensures PulseCountAddress(PC1) == InputAddress(All)
    ensures PulseCountAddress(PC2) == InputAddress(IO1)
    ensures PulseCountAddress(p) != PulseCounterBase + PulseValue(p)
    ensures OutputAddress(g) > PulseCounterBase + 1 && InputAddress(g) > PulseCounterBase + 1
    ensures OutConfigAddress(g) > PulseCounterBase + 1 && AnalogAddress(c) > PulseCounterBase + 1
    ensures PulseCountAddress(p) > PulseCounterBase + 1
  {
  }

  /** Calibration points of the analog scale: the bottom of the raw range
      reads 4, full scale 20480 reads 24. */
  lemma AnalogScalePoints()
    ensures AnalogScale(0) == 4.0
    ensures AnalogScale(4096) == 8.0
    ensures AnalogScale(10240) == 14.0
    ensures AnalogScale(20480) == 24.0
  {
  }

  /** The analog scale is strictly increasing, hence never maps two raw
      readings to the same value. */
  lemma AnalogScaleStrictlyIncreasing(a: Word, b: Word)
    requires a < b
    ensures AnalogScale(a) < AnalogScale(b)
  {
  }
}
