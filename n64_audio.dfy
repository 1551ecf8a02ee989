/** The audio interface (src/n64/interface/audio.rs): a DRAM address register
    at offset 0 (write-only, 24 bits kept) and a length register at offset 4
    (18 bits kept). */
module N64Audio {
  import opened Faults
  import opened Words

  const AI_DRAM_ADDR_REG: u32 := 0
  const AI_LENGTH_REG: u32 := 4

  class Audio {
    var dramAddress: bv32
    var length: bv32

    /** Every write masks what it stores, so the registers never hold more
        bits than the masks let through. */
    predicate Valid()
      reads this
    {
      dramAddress <= 0xFF_FFFF && length <= 0x3_FFFF
    }

    constructor Default()
      ensures dramAddress == 0 && length == 0
      ensures Valid()
    {
      dramAddress, length := 0, 0;
    }

    /** Only the length register can be read; any other offset panics. */
    function Read(addr: u32): (r: Result<bv32>)
      reads this
      ensures r.Ok? <==> addr == AI_LENGTH_REG
      ensures r.Ok? ==> r.value <= 0x3_FFFF
      ensures r.Err? ==> r.fault == UnknownRegister
    {
      if addr == AI_LENGTH_REG then Ok(ReadLengthReg()) else Err(UnknownRegister)
    }

    function ReadLengthReg(): (v: bv32)
      reads this
      ensures v <= 0x3_FFFF
      ensures Valid() ==> v == length
    {
      length & 0x3_FFFF
    }

    /** Offset 0 stores the low 24 bits as the DRAM address, offset 4 the low
        18 bits as the length; any other offset panics and changes nothing. */
    method Write(addr: u32, value: bv32) returns (out: Outcome)
      modifies this
      ensures Written(addr, value, out)
      ensures old(Valid()) ==> Valid()
      ensures addr == AI_LENGTH_REG ==> Read(AI_LENGTH_REG) == Ok(value & 0x3_FFFF)
    {
      if addr == AI_DRAM_ADDR_REG {
        WriteDramAddr(value);
        out := Pass;
      } else if addr == AI_LENGTH_REG {
        WriteLengthReg(value);
        out := Pass;
      } else {
        out := Fail(UnknownRegister);
      }
    }

    /** The outcome and the registers after a write of `value` at `addr`. */
    twostate predicate Written(addr: u32, value: bv32, out: Outcome)
      reads this
    {
      && (out.Pass? <==> addr == AI_DRAM_ADDR_REG || addr == AI_LENGTH_REG)
      && (out.Fail? ==> out.fault == UnknownRegister)
      && (addr == AI_DRAM_ADDR_REG ==> dramAddress == value & 0xFF_FFFF && length == old(length))
      && (addr == AI_LENGTH_REG ==> length == value & 0x3_FFFF && dramAddress == old(dramAddress))
      && (out.Fail? ==> dramAddress == old(dramAddress) && length == old(length))
    }

    method WriteDramAddr(value: bv32)
      modifies this`dramAddress
      ensures dramAddress == value & 0xFF_FFFF
    {
      dramAddress := value & 0xFF_FFFF;
    }

    method WriteLengthReg(value: bv32)
      modifies this`length
      ensures length == value & 0x3_FFFF
    {
      length := value & 0x3_FFFF;
    }
  }
}
