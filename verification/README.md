# rtu_test in Dafny

A model of the core of `rtu_test`, an operator-driven acceptance tool for a
Remote Terminal Unit (RTU) that speaks Modbus RTU over a serial line.

Two pieces are modelled:

- **The register map and the signal operations** (`src/rtu_test/modbus.py`).
  Fixed base offsets turn logical channels into holding-register addresses
  (address = group base + enum value). Each operation issues one Modbus
  request: function 03 "Read Holding Registers" with a count of one, or
  function 06 "Write Single Register". These are sections 6.3 and 6.6 of the
  Modbus Application Protocol Specification V1.1b3. The two per-channel
  configuration calls refuse `GPIO.ALL` before anything goes on the bus. The
  configuration read decodes the word into a `DigOutDefaultState`. The analog
  read scales the raw word linearly to `raw * 20/20480 + 4`.
- **The interactive menu** (`src/rtu_test/cli.py`). A `while True` loop over
  the menu states `main`, `start` and `quit`. It is driven by single
  keypresses (`getchar`) and yes/no confirmations (`confirm`), and it echoes
  lines to the terminal.

Files:

- `register_map.dfy`, module `RegisterMap`: the 16-bit `Word`, the base
  offsets, the enums `Gpio`, `AnalogIn`, `PulseCounter` and
  `DigOutDefaultState`, the address functions, the enum decoding and the
  analog scale. All of it is pure.
- `transport.dfy`, module `Transport`: the Modbus client as an abstract
  register store. The class `Client` holds the device's holding registers
  (`regs: map<nat, Word>`), whether the link answers at all (`online`), and
  the log of requests put on the bus (`sent`). Its two methods are
  `WriteRegister` (function 06) and `ReadHoldingRegisters` (function 03).
  Their effect is given by the pure functions `ReadReply`, `WriteReply` and
  `AfterWrite`.
- `signals.dfy`, module `Signals`: the seven operations as methods over a
  `Client`, and lemmas relating them (round trips, frames, decode cases).
- `menu.dfy`, module `Menu`: the menu loop. `Step` is one pass of the loop
  body and `RunFrom`/`Session` give the whole run. `RtuTest` is the loop
  itself as a method, proved to produce exactly the log and outcome of
  `Session`.

Modelling choices:

- **Failures.** Failures are values of `Result<T>`, with these faults:
  - `AllNotValid` is the `Exception("All not a valid option")`.
  - `NoResponse` is raised by the transport when the device does not answer.
  - `NoRegisters` is a read answered by an exception response, which has no
    register to index.
  - `NotADefaultState(w)` is the `ValueError` of the enum lookup.
- **Writes to unknown registers.** A write to a register the device does not
  have is answered by an exception response (`IllegalDataAddress`, for which
  `IsError()` holds). It is returned to the caller, not raised.
- **Enum names.** The channel names of `AnalogIn` and `PulseCounter` (`IO1`,
  `IO2`, …) become `AI1`…`AI4` and `PC1`, `PC2`. This keeps them apart from
  the `Gpio` constructors. Their values are the source's (0-based).
- **Configuration word.** `set_digi_output_config` hands the enum member
  itself, not its value, to the transport. The model writes the word 0, 1 or
  2 for `OFF`, `ON` or `REMEMBER`, the values `get_digi_output_config`
  decodes. This is an assumption about the transport's encoding; see
  "Left out".
- **Source quirk, modelled as written.** `get_pulse_count` reads from the
  digital-input base (500 + value), not from the pulse-counter base 300.
  `PC_REGISTER_OFFSET` is used by no operation.
- **Operator input.** The operator's input to the menu is a scripted finite
  sequence of keys and a sequence of answers, read from positions `k` and
  `a`. An answer is `Yes`, `No` or `Interrupt`. The terminal is a log of the
  lines passed to `click.echo`. When the script runs out, the run ends with
  `InputExhausted` after the lines echoed so far.
- **Interrupts.** On a POSIX terminal, `click.getchar` raises instead of
  returning Ctrl-C (KeyboardInterrupt) or Ctrl-D (EOFError). `click.confirm`
  turns either at its prompt into `Abort`. Click then ends the command with
  exit status 1. The model ends such a run with the outcome `Aborted`, after
  the lines echoed before the prompt. Interrupt keys are `InterruptKey`, and
  an interrupted confirmation is the answer `Interrupt`.

## Model

| member | source | states |
|---|---|---|
| `RegisterMap.GpioValue` | src/rtu_test/modbus.py:32-37 | the GPIO enum values lie in 0..4, and the value is 0 exactly for ALL |
| `RegisterMap.AnalogValue` | src/rtu_test/modbus.py:39-43 | analog channels are numbered 0..3 |
| `RegisterMap.PulseValue` | src/rtu_test/modbus.py:45-47 | pulse counters are numbered 0..1 |
| `RegisterMap.StateValue` | src/rtu_test/modbus.py:49-52 | OFF/ON/REMEMBER have the values 0..2 |
| `RegisterMap.OutputAddress` | src/rtu_test/modbus.py:55-57 | output registers are 600..604, and the aggregate 600 is the register for ALL alone |
| `RegisterMap.InputAddress` | src/rtu_test/modbus.py:87-88 | input registers are 500..504, and 500 is the register for ALL alone |
| `RegisterMap.OutConfigAddress` | src/rtu_test/modbus.py:65-66 | the configuration register of IO1..IO4 lies in 650..653 (base 649, no aggregate) |
| `RegisterMap.AnalogAddress` | src/rtu_test/modbus.py:81-82 | analog registers are 400..403 |
| `RegisterMap.PulseCountAddress` | src/rtu_test/modbus.py:91-92 | pulse counts are read from 500..501, inside the digital-input group |
| `RegisterMap.DecodeDefaultState` | src/rtu_test/modbus.py:75 | a word decodes iff it is 0, 1 or 2, and then to the state with that value |
| `RegisterMap.AnalogScale` | src/rtu_test/modbus.py:81-85 | the scaled value lies in [4, 4 + 65535/1024], and raw = (value - 4) * 1024, so the raw reading is recoverable |
| `RegisterMap.DecodeStateValue` | src/rtu_test/modbus.py:49-52 | every state decodes back from its own value (the decode is a left inverse of the encoding) |
| `RegisterMap.AddressesInjective` | src/rtu_test/modbus.py:11-16 | within each group, distinct channels have distinct registers |
| `RegisterMap.RegisterGroupsDisjoint` | src/rtu_test/modbus.py:12-16 | configuration registers of IO1..IO4 never coincide with any output, input or analog register, and the output, input and analog groups, aggregate registers of ALL included, are pairwise disjoint |
| `RegisterMap.PulseCountAliasesInputs` | src/rtu_test/modbus.py:87-93 | pulse counter 1/2 reads the same register as digital input ALL/IO1, never its own 300 + value, and no operation's address falls in 300..301 |
| `RegisterMap.AnalogScalePoints` | src/rtu_test/modbus.py:83-85 | raw 0, 4096, 10240 and 20480 read 4, 8, 14 and 24 |
| `RegisterMap.AnalogScaleStrictlyIncreasing` | src/rtu_test/modbus.py:83-85 | a larger raw reading always gives a strictly larger value |
| `Transport.AfterWrite` | src/rtu_test/modbus.py:56-57 | a write keeps the set of registers, changes no register but its target, and sets the target only when the link answers |
| `Transport.WriteAcknowledged` | src/rtu_test/modbus.py:65-68 | a write is echoed iff it took effect, reports an error iff the register is missing on a live link, and otherwise leaves every register as it was |
| `Transport.ReadAfterWrite` | src/rtu_test/modbus.py:74-79 | reading a register after writing it returns the value written, and every other register reads as before |
| `Transport.Client.constructor` | src/rtu_test/modbus.py:23-29 | a session starts with the device's registers and link state and nothing yet sent |
| `Transport.Client.WriteRegister` | src/rtu_test/modbus.py:56-57 | one function-06 request is appended to the bus; the reply and the new registers are those of the write |
| `Transport.Client.ReadHoldingRegisters` | src/rtu_test/modbus.py:79 | one function-03 request is appended to the bus; registers are unchanged and the reply is the stored word or the failure |
| `Signals.DecodeConfig` | src/rtu_test/modbus.py:74-75 | a read configuration word decodes iff it is 0..2, with the matching state; another word gives NotADefaultState; a transport failure propagates |
| `Signals.SetDigiOutput` | src/rtu_test/modbus.py:55-59 | writes the value to exactly register 600 + value of the channel with one request, changes nothing else, and returns the transport reply itself |
| `Signals.SetDigiOutputConfig` | src/rtu_test/modbus.py:61-68 | ALL fails with no request and no change; otherwise one write of the state's ordinal to 649 + value of the channel, returning only the error flag |
| `Signals.GetDigiOutputConfig` | src/rtu_test/modbus.py:71-75 | ALL fails with no request; otherwise one read of 649 + value of the channel, decoded; the registers are unchanged |
| `Signals.GetDigiOutput` | src/rtu_test/modbus.py:78-79 | one read of 600 + value of the channel, returning the stored word; nothing changes |
| `Signals.GetAnalogInput` | src/rtu_test/modbus.py:81-85 | one read of 400 + value of the channel; succeeds iff the device answers and has the register, then returns the scaled reading, within [4, 4 + 65535/1024] |
| `Signals.GetDigiInput` | src/rtu_test/modbus.py:87-89 | one read of 500 + value of the channel, returning the stored word; nothing changes |
| `Signals.GetPulseCount` | src/rtu_test/modbus.py:91-93 | one read of 500 + value of the counter: the same reply as digital input ALL (counter 1) or IO1 (counter 2) |
| `Signals.ConfigRoundTrip` | src/rtu_test/modbus.py:61-75 | on the register store, a state written to a channel's configuration register decodes back to that state |
| `Signals.ConfigDecodeCases` | src/rtu_test/modbus.py:71-75 | a configuration read fails with NotADefaultState when the stored word exceeds 2, and yields OFF/ON/REMEMBER for 0/1/2 |
| `Signals.ConfigWriteKeepsSignals` | src/rtu_test/modbus.py:61-66 | a configuration write leaves every output, input and analog reading as it was |
| `Signals.ConfigRoundTripOnDevice` | src/rtu_test/modbus.py:61-75 | set then get configuration: ALL fails in both with no bus traffic and no change; otherwise one write then one read of the channel's configuration register go on the bus, and: on a live device that has the register the write reports no error, the register holds the state's word and the read returns the state written; a silent device fails both with no change; a device without the register flags the write as an error, fails the read, and nothing changes |
| `Signals.OutputRoundTripOnDevice` | src/rtu_test/modbus.py:55-79 | set then get output on the same channel puts exactly one write then one read of that register on the bus; on a live device that has the register the write is echoed, the register holds the value and the read returns it; otherwise no register changes: a silent device fails both with no response, and a device without the register answers the write with an illegal-data-address exception and fails the read |
| `Menu.Step` | src/rtu_test/cli.py:17-62 | one pass returns iff the menu is quit; a pass that stops never counts as returning, and it aborts only on an interrupt key in main or an interrupted confirmation in start; a continuing pass consumes at least one input and never runs past the script; it enters quit only from main on key 'q'; start reads no key and main reads no answer |
| `Menu.RunFrom` | src/rtu_test/cli.py:17-62 | a run's visited states are never empty and begin with the state it starts in |
| `Menu.Session` | src/rtu_test/cli.py:13-15 | the command first echoes the banner and its loop starts in main |
| `Menu.RunMovesAllowed` | src/rtu_test/cli.py:18-60 | every move between consecutive passes is allowed: quit is entered only from main and never left, and start goes only to start or main |
| `Menu.ReturnsOnlyFromQuit` | src/rtu_test/cli.py:61-62 | the loop returns iff its last state is quit, and quit occurs nowhere else in a run; an aborted or exhausted run has not returned |
| `Menu.ReturnNeedsQuitKey` | src/rtu_test/cli.py:25-26 | a run that returns has read a 'q' key |
| `Menu.RunReadsAhead` | src/rtu_test/cli.py:31-52 | a run depends on no answer before its current position |
| `Menu.MainMenuKeys` | src/rtu_test/cli.py:18-28 | in main, 's' goes to start, 'q' to quit, Ctrl-C or Ctrl-D aborts the command, and any other key echoes "Invalid input" and stays in main, always after the three menu lines |
| `Menu.InterruptAborts` | src/rtu_test/cli.py:22-52 | an interrupt at the keypress or at any of the three confirmations ends the run as aborted, with exactly the lines echoed before that prompt |
| `Menu.AbortNeedsInterrupt` | src/rtu_test/cli.py:22-52 | a run is aborted only if the remaining script holds an interrupt key or an interrupted answer |
| `Menu.NegativeAnswerAsksAgain` | src/rtu_test/cli.py:29-35 | a "no" to "Is the RTU connected and powered?" echoes "Connect the RTU" and the run continues in start, asking again |
| `Menu.PositiveAnswerReturnsToMain` | src/rtu_test/cli.py:37-60 | a "yes" echoes the fixed sequence "Running Modbus Checks" … "All outputs remembered. Test Pass.", consumes the two power confirmations (when neither is interrupted) and continues in main |
| `Menu.PowerConfirmationsIgnored` | src/rtu_test/cli.py:49-52 | whether "Disconnect RTU power" and "Reconnect RTU power" are answered yes or no does not affect the run |
| `Menu.RtuTest` | src/rtu_test/cli.py:12-62 | the loop as written produces exactly the echo log and the outcome of Session for every script |

## Left out

- `enumerature_tty` and `connect` (src/rtu_test/modbus.py:18-29) enumerate serial ports and open a pymodbus client. That is I/O against libraries that are not part of this model. A `Client` stands for an open session, and its `online` flag stands for whether the device answers.
- The pymodbus transport itself is not modelled: framing, CRC, the 9600 baud setting, timeouts, async/await scheduling, and exception codes other than "illegal data address".
- Reads of more than one register (the `count` argument) are not modelled. Every operation reads one.
- Python integers outside 0..65535 passed to `set_digi_output` are not modelled. The value is typed as a 16-bit `Word`.
- The analog result is a Dafny `real`, not an IEEE-754 double. The two agree here: the gradient 20/20480 is 2^-10, and every 16-bit raw value scaled and offset by 4 is exactly representable.
- The pulse-output base `PULSE_OUT_REGISTER_OFFSET` (699) is declared, but no operation in the source uses it.
- There is no pulse-counter reset operation and no multi-step proceed/retry/quit test sequencer in the modelled source files, so neither is modelled.
- `src/rtu_test/performance.py` is not part of this model. It is a wall-clock benchmark of serial reads and has no logic to verify.
- In cli.py, the click decorators, `--help`/`--version`, terminal rendering and the prompt text that `click.confirm` prints are left out. So is `click.confirm`'s own retry loop: a reply other than y, yes, n, no or an empty line makes it print "Error: invalid input" and ask again. An `Answer` is the reply it finally accepts, and that error line is never logged. Only the lines passed to `click.echo` by the command are logged.
- Waiting for input the operator never gives is not modelled. A run whose script runs out ends with `InputExhausted`, where the real program would block.
- Click's own "Aborted!" message on standard error is not logged. The `Aborted` outcome stands for it and for exit status 1. The Windows end-of-input key Ctrl-Z is not modelled; the interrupt keys are those of a POSIX terminal.
- `Signals.SetDigiOutputConfig`: writing the word 0, 1 or 2 is an assumption about how the transport encodes the enum member it is given (src/rtu_test/modbus.py:49-53, 65-66). The source passes the plain `Enum` member, not `value.value`, and the real Modbus library may reject that member before anything is sent. `Signals.ConfigRoundTrip` and `Signals.ConfigRoundTripOnDevice` rest on the same assumption.
