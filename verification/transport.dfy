/** The register transport the signal operations talk to, as an abstract
    register store: the device's holding registers, whether the serial link
    answers at all, and the requests put on the bus. One request reads or
    writes one register, as Modbus function 03 (Read Holding Registers) and
    function 06 (Write Single Register) do. */
module Transport {
  import opened RegisterMap

  /** Why an operation failed instead of returning. */
  datatype Fault =
    | AllNotValid                  // a per-channel operation was given GPIO All
    | NoResponse                   // the device did not answer the request
    | NoRegisters                  // the read was answered by an exception response
    | NotADefaultState(word: Word) // the configuration word names no state

  datatype Result<T> = Ok(value: T) | Err(fault: Fault)

  /** A request put on the bus. */
  datatype Request = ReadHolding(address: nat) | WriteSingle(address: nat, value: Word)

  /** The reply to a Write Single Register request: the echo of the request,
      or the exception response for a register the device does not have. */
  datatype WriteResponse = Echo(address: nat, value: Word) | IllegalDataAddress(address: nat)
  {
    predicate IsError() {
      IllegalDataAddress?
    }
  }

  /** Result of reading one register. */
  function ReadReply(regs: map<nat, Word>, online: bool, address: nat): Result<Word> {
    if !online then Err(NoResponse)
    else if address in regs then Ok(regs[address])
    else Err(NoRegisters)
  }

  /** Result of writing one register. */
  function WriteReply(regs: map<nat, Word>, online: bool, address: nat, value: Word): Result<WriteResponse> {
    if !online then Err(NoResponse)
    else if address in regs then Ok(Echo(address, value))
    else Ok(IllegalDataAddress(address))
  }

  /** The registers after a write: only an answered write to an existing
      register changes anything. */
  function AfterWrite(regs: map<nat, Word>, online: bool, address: nat, value: Word): (m: map<nat, Word>)
    ensures m.Keys == regs.Keys
    ensures forall b :: b in regs && b != address ==> m[b] == regs[b]
    ensures address in regs ==> m[address] == if online then value else regs[address]
  {
    if online && address in regs then regs[address := value] else regs
  }

  /** A write is acknowledged exactly when it took effect. */
  lemma WriteAcknowledged(regs: map<nat, Word>, online: bool, address: nat, value: Word)
    ensures WriteReply(regs, online, address, value) == Ok(Echo(address, value))
        <==> online && address in regs
    ensures (WriteReply(regs, online, address, value).Ok? && WriteReply(regs, online, address, value).value.IsError())
        <==> online && address !in regs
    ensures !(online && address in regs) ==> AfterWrite(regs, online, address, value) == regs
  {
  }

  /** Reading a register returns what was last written to it, and a write
      leaves the reading of every other register as it was. */
  lemma ReadAfterWrite(regs: map<nat, Word>, address: nat, value: Word, other: nat)
    requires address in regs
    ensures ReadReply(AfterWrite(regs, true, address, value), true, address) == Ok(value)
    ensures other != address ==>
      ReadReply(AfterWrite(regs, true, address, value), true, other) == ReadReply(regs, true, other)
  {
  }

  /** The device at the other end of the serial link. */
  class Client {
    var regs: map<nat, Word>
    const online: bool
    var sent: seq<Request>

    constructor (regs: map<nat, Word>, online: bool)
      ensures this.regs == regs && this.online == online && sent == []
    {
      this.regs := regs;
      this.online := online;
      sent := [];
    }

    /** Modbus function 06: write one holding register. */
    method WriteRegister(address: nat, value: Word) returns (r: Result<WriteResponse>)
      modifies this
      ensures r == WriteReply(old(regs), online, address, value)
      ensures regs == AfterWrite(old(regs), online, address, value)
      ensures sent == old(sent) + [WriteSingle(address, value)]
    {
      sent := sent + [WriteSingle(address, value)];
      if !online {
        r := Err(NoResponse);
      } else if address in regs {
        regs := regs[address := value];
        r := Ok(Echo(address, value));
      } else {
        r := Ok(IllegalDataAddress(address));
      }
    }

    /** Modbus function 03 with a count of one: read one holding register. */
    method ReadHoldingRegisters(address: nat) returns (r: Result<Word>)
      modifies this
      ensures r == ReadReply(regs, online, address)
      ensures regs == old(regs) && sent == old(sent) + [ReadHolding(address)]
    {
      sent := sent + [ReadHolding(address)];
      if !online {
        r := Err(NoResponse);
      } else if address in regs {
        r := Ok(regs[address]);
      } else {
        r := Err(NoRegisters);
      }
    }
  }
}
