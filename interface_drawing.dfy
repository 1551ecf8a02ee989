/** The display processor command registers (src/interface/drawing.rs): a status
    register that reads as zero, a 24-bit clock counter, and no writable register. */
module InterfaceDrawing {
  import opened Faults
  import opened Words

  const DPC_STATUS_REG: u32 := 0x0C
  const DPC_CLOCK_REG: u32 := 0x10

  /** No write ever succeeds, so the block never changes: it is a value. */
  datatype Drawing = Drawing(clock: bv32)

  /** `Drawing::default()`. */
  function Default(): (d: Drawing)
    ensures d.clock == 0
  {
    Drawing(0)
  }

  function Read(d: Drawing, addr: u32): (r: Result<bv32>)
    ensures r.Ok? <==> addr == DPC_STATUS_REG || addr == DPC_CLOCK_REG
    ensures addr == DPC_STATUS_REG ==> r == Ok(0)
    ensures addr == DPC_CLOCK_REG ==> r.Ok? && r.value < 0x100_0000 && r.value == d.clock & 0xFF_FFFF
    ensures r.Err? ==> r.fault == UnknownRegister
  {
    if addr == DPC_STATUS_REG then Ok(ReadStatusReg(d))
    else if addr == DPC_CLOCK_REG then Ok(d.clock & 0xFF_FFFF)
    else Err(UnknownRegister)
  }

  function ReadStatusReg(d: Drawing): bv32
  {
    0
  }

  /** Every write goes to `write_status_reg`, which panics. */
  function Write(d: Drawing, addr: u32, value: bv32): (r: Result<Drawing>)
    ensures r == Err(ReadOnlyWrite)
  {
    WriteStatusReg(d, addr, value)
  }

  function WriteStatusReg(d: Drawing, addr: u32, value: bv32): Result<Drawing>
  {
    Err(ReadOnlyWrite)
  }

  /** Since no write succeeds, the clock a fresh block shows stays zero. */
  lemma ClockStaysZero(addr: u32, value: bv32)
    ensures Write(Default(), addr, value).Err?
    ensures Read(Default(), DPC_CLOCK_REG) == Ok(0)
  {
  }
}
