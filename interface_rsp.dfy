/** The signal processor's control registers (src/interface/rsp.rs): a status
    register written as clear/set bit pairs, two DMA flags read as 0/1. */
module InterfaceRsp {
  import opened Faults
  import opened Words

  const SP_STATUS_REG: u32 := 0x10
  const SP_DMA_FULL_REG: u32 := 0x14
  const SP_DMA_BUSY_REG: u32 := 0x18

  /** A flag after a status write whose clear and set bits are as given: the
      set bit is applied last, so it wins when both are present. */
  function SetClear(flag: bool, clearBit: bool, setBit: bool): (r: bool)
    ensures setBit ==> r
    ensures clearBit && !setBit ==> !r
    ensures !clearBit && !setBit ==> r == flag
  {
    var f := if clearBit then false else flag;
    if setBit then true else f
  }

  /** Whether the status write `value` has the bit selected by `mask` set. */
  predicate Requested(value: bv32, mask: bv32)
  {
    value & mask != 0
  }

  /** Status bits 9..24 (signal set/clear requests) are not implemented. */
  predicate SignalBitsSet(value: bv32)
  {
    (value >> 9) & 0xFFFF != 0
  }

  class Rsp {
    var halt: bool
    var broke: bool
    var intr: bool
    var singleStep: bool
    var intrOnBreak: bool
    const signal: array<bool>
    var dmaBusy: bool
    var dmaFull: bool

    /** `Rsp::new()`. */
    constructor New()
      ensures !halt && !broke && !intr && !singleStep && !intrOnBreak && !dmaBusy && !dmaFull
      ensures fresh(signal) && signal.Length == 8 && forall i :: 0 <= i < 8 ==> !signal[i]
    {
      halt, broke, intr, singleStep, intrOnBreak := false, false, false, false, false;
      signal := new bool[8](_ => false);
      dmaBusy, dmaFull := false, false;
    }

    function Read(addr: u32): (r: Result<bv32>)
      reads this
      ensures r.Ok? <==> addr == SP_STATUS_REG || addr == SP_DMA_FULL_REG || addr == SP_DMA_BUSY_REG
      ensures addr == SP_STATUS_REG ==> r == Ok(1)
      ensures addr == SP_DMA_FULL_REG ==> r == Ok(if dmaFull then 1 else 0)
      ensures addr == SP_DMA_BUSY_REG ==> r == Ok(if dmaBusy then 1 else 0)
      ensures r.Err? ==> r.fault == UnknownRegister
    {
      if addr == SP_STATUS_REG then Ok(ReadStatusReg())
      else if addr == SP_DMA_BUSY_REG then Ok(ReadDmaBusyReg())
      else if addr == SP_DMA_FULL_REG then Ok(ReadDmaFullReg())
      else Err(UnknownRegister)
    }

    function ReadDmaFullReg(): (r: bv32)
      reads this
      ensures r <= 1 && (r == 1 <==> dmaFull)
    {
      if dmaFull then 1 else 0
    }

    function ReadDmaBusyReg(): (r: bv32)
      reads this
      ensures r <= 1 && (r == 1 <==> dmaBusy)
    {
      if dmaBusy then 1 else 0
    }

    function ReadStatusReg(): bv32
    {
      1
    }

    /** Only the status register is writable. */
    method Write(addr: u32, value: bv32) returns (out: Outcome)
      modifies this`halt, this`broke, this`intr, this`singleStep, this`intrOnBreak
      ensures Written(addr, value, out)
    {
      if addr == SP_STATUS_REG {
        out := WriteStatusReg(value);
      } else {
        out := Fail(UnknownRegister);
      }
    }

    /** The outcome and the flags after a write of `value` at `addr`: any
        offset but the status register panics and changes nothing, and the
        DMA flags never change. */
    twostate predicate Written(addr: u32, value: bv32, out: Outcome)
      reads this
    {
      && (addr != SP_STATUS_REG ==> out == Fail(UnknownRegister) && unchanged(this))
      && (addr == SP_STATUS_REG ==> StatusWritten(value, out))
      && dmaBusy == old(dmaBusy) && dmaFull == old(dmaFull)
    }

    /** The state and outcome of a status write of `value`. */
    twostate predicate StatusWritten(value: bv32, out: Outcome)
      reads this
    {
      && halt == SetClear(old(halt), Requested(value, 0x1), Requested(value, 0x2))
      && broke == SetClear(old(broke), Requested(value, 0x4), false)
      && intr == SetClear(old(intr), Requested(value, 0x8), Requested(value, 0x10))
      && singleStep == SetClear(old(singleStep), Requested(value, 0x20), Requested(value, 0x40))
      && intrOnBreak == SetClear(old(intrOnBreak), Requested(value, 0x80), Requested(value, 0x100))
      && (out == if SignalBitsSet(value) then Fail(SignalNotImplemented) else Pass)
    }

    method WriteHaltBrokeIntr(value: bv32)
      modifies this`halt, this`broke, this`intr
      ensures halt == SetClear(old(halt), Requested(value, 0x1), Requested(value, 0x2))
      ensures broke == SetClear(old(broke), Requested(value, 0x4), false)
      ensures intr == SetClear(old(intr), Requested(value, 0x8), Requested(value, 0x10))
    {
      halt := ClearThenSet(halt, Requested(value, 0x1), Requested(value, 0x2));
      broke := ClearThenSet(broke, Requested(value, 0x4), false);
      intr := ClearThenSet(intr, Requested(value, 0x8), Requested(value, 0x10));
    }

    method WriteSingleStepIntrOnBreak(value: bv32)
      modifies this`singleStep, this`intrOnBreak
      ensures singleStep == SetClear(old(singleStep), Requested(value, 0x20), Requested(value, 0x40))
      ensures intrOnBreak == SetClear(old(intrOnBreak), Requested(value, 0x80), Requested(value, 0x100))
    {
      singleStep := ClearThenSet(singleStep, Requested(value, 0x20), Requested(value, 0x40));
      intrOnBreak := ClearThenSet(intrOnBreak, Requested(value, 0x80), Requested(value, 0x100));
    }

    /** Clear and set each flag in bit order; then panic if a signal bit is set. */
    method WriteStatusReg(value: bv32) returns (out: Outcome)
      modifies this`halt, this`broke, this`intr, this`singleStep, this`intrOnBreak
      ensures StatusWritten(value, out)
    {
      WriteHaltBrokeIntr(value);
      WriteSingleStepIntrOnBreak(value);
      if SignalBitsSet(value) {
        return Fail(SignalNotImplemented);
      }
      out := Pass;
    }
  }

  /** One clear/set pair of a status write, as two consecutive `if`s. */
  method ClearThenSet(flag: bool, clearBit: bool, setBit: bool) returns (r: bool)
    ensures r == SetClear(flag, clearBit, setBit)
  {
    r := flag;
    if clearBit {
      r := false;
    }
    if setBit {
      r := true;
    }
  }

  /** Bits 25..31 are ignored: only bits 9..24 make a status write panic. */
  lemma HighBitsIgnored(value: bv32)
    ensures SignalBitsSet(value) <==> SignalBitsSet(value & 0x01FF_FFFF)
    ensures SignalBitsSet(value) <==> value & 0x01FF_FE00 != 0
  {
  }
}
