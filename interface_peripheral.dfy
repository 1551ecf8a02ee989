/** The Peripheral Interface registers (src/interface/peripheral.rs): a status
    register assembled from three busy/error flags, and no writable register. */
module InterfacePeripheral {
  import opened Faults
  import opened Words

  const PI_STATUS_REG: u32 := 0x10

  /** No write ever succeeds, so the block never changes: it is a value. */
  datatype Peripheral = Peripheral(dmaBusy: bool, ioBusy: bool, error: bool)

  /** `Peripheral::new()`. */
  function New(): (p: Peripheral)
    ensures !p.dmaBusy && !p.ioBusy && !p.error
  {
    Peripheral(false, false, false)
  }

  function Read(p: Peripheral, addr: u32): (r: Result<bv32>)
    ensures r.Ok? <==> addr == PI_STATUS_REG
    ensures r.Err? ==> r.fault == UnknownRegister
  {
    if addr == PI_STATUS_REG then Ok(ReadStatusReg(p)) else Err(UnknownRegister)
  }

  /** The status word, built up one flag at a time: bit 0 DMA busy, bit 1 I/O
      busy, bit 2 error, nothing else. */
  function ReadStatusReg(p: Peripheral): (temp: bv32)
    ensures temp < 8
    ensures (temp & 1 != 0) == p.dmaBusy
    ensures (temp & 2 != 0) == p.ioBusy
    ensures (temp & 4 != 0) == p.error
  {
    var temp: bv32 := 0;
    var temp := if p.dmaBusy then temp | (1 << 0) else temp;
    var temp := if p.ioBusy then temp | (1 << 1) else temp;
    var temp := if p.error then temp | (1 << 2) else temp;
    temp
  }

  /** Every write panics. */
  function Write(p: Peripheral, addr: u32, value: bv32): (r: Result<Peripheral>)
    ensures r == Err(ReadOnlyWrite)
  {
    Err(ReadOnlyWrite)
  }

  /** A fresh block reports a zero status. */
  lemma NewStatusIsZero()
    ensures Read(New(), PI_STATUS_REG) == Ok(0)
  {
  }
}
