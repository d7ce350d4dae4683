/** The signal operations of the RTU: each one turns a channel into a
    register address, issues exactly one read or one write of that register
    (or, for a per-channel configuration call given GPIO All, none at all),
    and decodes the word it reads. */
module Signals {
  import opened RegisterMap
  import opened Transport

  /** The decoding step of get_digi_output_config: a transport failure
      propagates, a word outside the three states is an error. */
  function DecodeConfig(r: Result<Word>): (s: Result<DigOutDefaultState>)
    ensures s.Ok? <==> r.Ok? && r.value <= 2
    ensures s.Ok? ==> StateValue(s.value) == r.value
    ensures r.Ok? && r.value > 2 ==> s == Err(NotADefaultState(r.value))
    ensures r.Err? ==> s == Err(r.fault)
  {
    match r
    case Err(f) => Err(f)
    case Ok(w) =>
      match DecodeDefaultState(w)
      case Some(state) => Ok(state)
      case None => Err(NotADefaultState(w))
  }

  /** The scaling step of get_analog_input. */
  function ScaleReading(r: Result<Word>): Result<real> {
    match r
    case Err(f) => Err(f)
    case Ok(w) => Ok(AnalogScale(w))
  }

  /** The reply of set_digi_output_config: only whether the write failed. */
  function ErrorFlag(r: Result<WriteResponse>): Result<bool> {
    match r
    case Err(f) => Err(f)
    case Ok(resp) => Ok(resp.IsError())
  }

  /** Drives one digital output (or all of them, as a bit mask, for All)
      and hands back the transport's reply itself. */
  method SetDigiOutput(client: Client, output: Gpio, value: Word := 1) returns (r: Result<WriteResponse>)
    modifies client
    ensures client.sent == old(client.sent) + [WriteSingle(OutputAddress(output), value)]
    ensures client.regs == AfterWrite(old(client.regs), client.online, OutputAddress(output), value)
    ensures r == WriteReply(old(client.regs), client.online, OutputAddress(output), value)
  {
    r := client.WriteRegister(OutputAddress(output), value);
  }

  /** Sets the power-on state of one output channel; refuses All before
      anything goes on the bus, and otherwise hands back only whether the
      transport reported an error. The word written is the state's ordinal. */
  method SetDigiOutputConfig(client: Client, output: Gpio, value: DigOutDefaultState := Remember)
    returns (r: Result<bool>)
    modifies client
    ensures output == All ==>
      r == Err(AllNotValid) && client.regs == old(client.regs) && client.sent == old(client.sent)
    ensures output != All ==>
      && client.sent == old(client.sent) + [WriteSingle(OutConfigAddress(output), StateValue(value))]
      && client.regs == AfterWrite(old(client.regs), client.online, OutConfigAddress(output), StateValue(value))
      && r == ErrorFlag(WriteReply(old(client.regs), client.online, OutConfigAddress(output), StateValue(value)))
  {
    if output == All {
      return Err(AllNotValid);
    }
    var result := client.WriteRegister(OutConfigAddress(output), StateValue(value));
    r := ErrorFlag(result);
  }

  /** Reads the power-on state of one output channel; refuses All before
      anything goes on the bus. */
  method GetDigiOutputConfig(client: Client, output: Gpio) returns (r: Result<DigOutDefaultState>)
    modifies client
    ensures client.regs == old(client.regs)
    ensures output == All ==> r == Err(AllNotValid) && client.sent == old(client.sent)
    ensures output != All ==>
      && client.sent == old(client.sent) + [ReadHolding(OutConfigAddress(output))]
      && r == DecodeConfig(ReadReply(client.regs, client.online, OutConfigAddress(output)))
  {
    if output == All {
      return Err(AllNotValid);
    }
    var registers := client.ReadHoldingRegisters(OutConfigAddress(output));
    r := DecodeConfig(registers);
  }

  /** Reads the state of one digital output (the bit mask for All). */
  method GetDigiOutput(client: Client, output: Gpio) returns (r: Result<Word>)
    modifies client
    ensures client.regs == old(client.regs)
    ensures client.sent == old(client.sent) + [ReadHolding(OutputAddress(output))]
    ensures r == ReadReply(client.regs, client.online, OutputAddress(output))
  {
    r := client.ReadHoldingRegisters(OutputAddress(output));
  }

  /** Reads one analog input and scales it. */
  method GetAnalogInput(client: Client, input: AnalogIn) returns (r: Result<real>)
    modifies client
    ensures client.regs == old(client.regs)
    ensures client.sent == old(client.sent) + [ReadHolding(AnalogAddress(input))]
    ensures r.Ok? <==> client.online && AnalogAddress(input) in client.regs
    ensures r.Ok? ==> r.value == AnalogScale(client.regs[AnalogAddress(input)])
    ensures r.Ok? ==> AnalogOffset <= r.value <= AnalogOffset + 65535.0 / 1024.0
  {
    var register := client.ReadHoldingRegisters(AnalogAddress(input));
    r := ScaleReading(register);
  }

  /** Reads the state of one digital input (the bit mask for All). */
  method GetDigiInput(client: Client, input: Gpio) returns (r: Result<Word>)
    modifies client
    ensures client.regs == old(client.regs)
    ensures client.sent == old(client.sent) + [ReadHolding(InputAddress(input))]
    ensures r == ReadReply(client.regs, client.online, InputAddress(input))
  {
    r := client.ReadHoldingRegisters(InputAddress(input));
  }

  /** Reads a pulse count, from the digital-input register group. */
  method GetPulseCount(client: Client, input: PulseCounter) returns (r: Result<Word>)
    modifies client
    ensures client.regs == old(client.regs)
    ensures client.sent == old(client.sent) + [ReadHolding(PulseCountAddress(input))]
    ensures r == ReadReply(client.regs, client.online, PulseCountAddress(input))
    ensures input == PC1 ==> r == ReadReply(client.regs, client.online, InputAddress(All))
    ensures input == PC2 ==> r == ReadReply(client.regs, client.online, InputAddress(IO1))
  {
    r := client.ReadHoldingRegisters(PulseCountAddress(input));
  }

  /** Configuration round trip on the register store: a state written to a
      channel's configuration register reads back as that state. */
  lemma ConfigRoundTrip(regs: map<nat, Word>, output: Gpio, state: DigOutDefaultState)
    requires output != All && OutConfigAddress(output) in regs
    ensures DecodeConfig(ReadReply(AfterWrite(regs, true, OutConfigAddress(output), StateValue(state)),
                                   true, OutConfigAddress(output))) == Ok(state)
  {
    ReadAfterWrite(regs, OutConfigAddress(output), StateValue(state), OutConfigAddress(output));
    DecodeStateValue(state);
  }

  /** A configuration read fails exactly when the stored word is not 0, 1 or 2,
      and otherwise yields Off, On or Remember for 0, 1 or 2. */
  lemma ConfigDecodeCases(regs: map<nat, Word>, output: Gpio)
    requires output != All && OutConfigAddress(output) in regs
    ensures var w := regs[OutConfigAddress(output)];
      && (w > 2 ==> DecodeConfig(ReadReply(regs, true, OutConfigAddress(output))) == Err(NotADefaultState(w)))
      && (w == 0 ==> DecodeConfig(ReadReply(regs, true, OutConfigAddress(output))) == Ok(Off))
      && (w == 1 ==> DecodeConfig(ReadReply(regs, true, OutConfigAddress(output))) == Ok(On))
      && (w == 2 ==> DecodeConfig(ReadReply(regs, true, OutConfigAddress(output))) == Ok(Remember))
  {
  }

  /** Writing a configuration register leaves every output, input and
      analog reading as it was. */
  lemma ConfigWriteKeepsSignals(regs: map<nat, Word>, online: bool, output: Gpio,
                                state: DigOutDefaultState, h: Gpio, c: AnalogIn)
    requires output != All
    ensures var after := AfterWrite(regs, online, OutConfigAddress(output), StateValue(state));
      && ReadReply(after, online, OutputAddress(h)) == ReadReply(regs, online, OutputAddress(h))
      && ReadReply(after, online, InputAddress(h)) == ReadReply(regs, online, InputAddress(h))
      && ReadReply(after, online, AnalogAddress(c)) == ReadReply(regs, online, AnalogAddress(c))
  {
    RegisterGroupsDisjoint(output, h, h, c);
  }

  /** set_digi_output_config followed by get_digi_output_config on the same
      channel: All is refused by both without any bus traffic; otherwise, on
      a device that answers and has the register, the write reports no error
      and the read returns the state written; a silent device fails both with
      no change, and a device without the register flags the write as an
      error and the read as answered by an exception, again with no change. */
  method ConfigRoundTripOnDevice(client: Client, output: Gpio, state: DigOutDefaultState)
    returns (written: Result<bool>, read: Result<DigOutDefaultState>)
    modifies client
    ensures output == All ==>
      && written == Err(AllNotValid) && read == Err(AllNotValid)
      && client.regs == old(client.regs) && client.sent == old(client.sent)
    ensures output != All ==>
      client.sent == old(client.sent) + [WriteSingle(OutConfigAddress(output), StateValue(state)),
                                         ReadHolding(OutConfigAddress(output))]
    ensures output != All && client.online && OutConfigAddress(output) in old(client.regs) ==>
      && written == Ok(false) && read == Ok(state)
      && client.regs == old(client.regs)[OutConfigAddress(output) := StateValue(state)]
    ensures output != All && !client.online ==>
      && written == Err(NoResponse) && read == Err(NoResponse)
      && client.regs == old(client.regs)
    ensures output != All && client.online && OutConfigAddress(output) !in old(client.regs) ==>
      && written == Ok(true) && read == Err(NoRegisters)
      && client.regs == old(client.regs)
  {
    written := SetDigiOutputConfig(client, output, state);
    read := GetDigiOutputConfig(client, output);
    if output != All && client.online && OutConfigAddress(output) in old(client.regs) {
      ConfigRoundTrip(old(client.regs), output, state);
    }
  }

  /** set_digi_output followed by get_digi_output on the same channel reads
      back the word written, on a device that answers and has the register;
      a silent device fails both, and a device without the register answers
      the write with an exception response and fails the read. */
  method OutputRoundTripOnDevice(client: Client, output: Gpio, value: Word)
    returns (written: Result<WriteResponse>, read: Result<Word>)
    modifies client
    ensures client.sent == old(client.sent) + [WriteSingle(OutputAddress(output), value),
                                               ReadHolding(OutputAddress(output))]
    ensures client.online && OutputAddress(output) in old(client.regs) ==>
      && written == Ok(Echo(OutputAddress(output), value)) && read == Ok(value)
      && client.regs == old(client.regs)[OutputAddress(output) := value]
    ensures !(client.online && OutputAddress(output) in old(client.regs)) ==>
      client.regs == old(client.regs) && written.Err? == !client.online
    ensures !client.online ==> written == Err(NoResponse) && read == Err(NoResponse)
    ensures client.online && OutputAddress(output) !in old(client.regs) ==>
      written == Ok(IllegalDataAddress(OutputAddress(output))) && read == Err(NoRegisters)
  {
    written := SetDigiOutput(client, output, value);
    read := GetDigiOutput(client, output);
  }
}
