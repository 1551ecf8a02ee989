/** The Serial Interface register block (src/interface/serial.rs): one status
    register whose bit 12 every write toggles. */
module InterfaceSerial {
  import opened Faults
  import opened Words

  const SI_STATUS_REG: u32 := 0x18

  class Serial {
    var status: bv32

    /** `Serial::default()`. */
    constructor Default()
      ensures status == 0
    {
      status := 0;
    }

    /** Only the status register can be read; it shows bits 0..3 and 12. */
    function Read(addr: u32): (r: Result<bv32>)
      reads this
      ensures r.Ok? <==> addr == SI_STATUS_REG
      ensures r.Ok? ==> r.value & !0x100F == 0 && r.value & 0x100F == status & 0x100F
      ensures r.Err? ==> r.fault == UnknownRegister
    {
      if addr == SI_STATUS_REG then Ok(status & 0x100F) else Err(UnknownRegister)
    }

    /** A write to the status register flips bit 12 whatever the value written. */
    method Write(addr: u32, value: bv32) returns (out: Outcome)
      modifies this
      ensures Written(addr, value, out)
    {
      if addr == SI_STATUS_REG {
        status := status ^ 0x1000;
        out := Pass;
      } else {
        out := Fail(UnknownRegister);
      }
    }

    /** The outcome and the status after a write at `addr`. */
    twostate predicate Written(addr: u32, value: bv32, out: Outcome)
      reads this
    {
      && (out.Pass? <==> addr == SI_STATUS_REG)
      && (out.Fail? ==> out.fault == UnknownRegister && status == old(status))
      && (out.Pass? ==> status == Toggled(old(status)))
    }
  }

  /** The status after one accepted write. */
  function Toggled(status: bv32): (r: bv32)
    ensures r & 0x1000 != status & 0x1000
    ensures r & !0x1000 == status & !0x1000
  {
    status ^ 0x1000
  }

  /** Two accepted writes restore the status. */
  lemma ToggleTwice(status: bv32)
    ensures Toggled(Toggled(status)) == status
  {
  }
}
