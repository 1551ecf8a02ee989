/** The physical memory map of src/n64/memory_map.rs: eleven windows of the
    32-bit physical address space, each naming a device and the offset into
    it. Addresses outside every window panic. */
module N64MemoryMap {
  import opened Faults
  import opened Words

  const RDRAM_MEM_START: u32 := 0x0000_0000
  const RDRAM_MEM_SIZE: u32 := 0x03F0_0000
  const RDRAM_MEM_END: u32 := RDRAM_MEM_START + RDRAM_MEM_SIZE - 1

  const RDRAM_REG_START: u32 := 0x03F0_0000
  const RDRAM_REG_SIZE: u32 := 0x0010_0000
  const RDRAM_REG_END: u32 := RDRAM_REG_START + RDRAM_REG_SIZE - 1

  const SP_REG_BASE: u32 := 0x0400_0000
  const SP_REG_END: u32 := 0x040F_FFFF
  const DPC_REG_BASE: u32 := 0x0410_0000
  const DPC_REG_END: u32 := 0x041F_FFFF
  const VI_REG_BASE: u32 := 0x0440_0000
  const VI_REG_END: u32 := 0x044F_FFFF
  const AI_REG_BASE: u32 := 0x0450_0000
  const AI_REG_END: u32 := 0x045F_FFFF
  const PI_REG_BASE: u32 := 0x0460_0000
  const PI_REG_END: u32 := 0x046F_FFFF
  const SI_REG_BASE: u32 := 0x0480_0000
  const SI_REG_END: u32 := 0x048F_FFFF
  const CARTDOM1_ADDR1_START: u32 := 0x0600_0000
  const CARTDOM1_ADDR1_END: u32 := 0x07FF_FFFF
  const CARTDOM1_ADDR2_START: u32 := 0x1000_0000
  const CARTDOM1_ADDR2_END: u32 := 0x1F39_FFFF
  const PIF_START: u32 := 0x1FC0_0000
  const PIF_END: u32 := 0x1FC0_07FF

  /** A device and the offset into its window. */
  datatype Addr =
    | Rdram(rel: u32)
    | RdramReg(rel: u32)
    | Pif(rel: u32)
    | Rsp(rel: u32)
    | Peripheral(rel: u32)
    | Video(rel: u32)
    | Audio(rel: u32)
    | Serial(rel: u32)
    | CartDom11(rel: u32)
    | CartDom12(rel: u32)
    | Dpc(rel: u32)

  /** First physical address of the window of `a`'s device. */
  function Base(a: Addr): u32 {
    match a
    case Rdram(_) => RDRAM_MEM_START
    case RdramReg(_) => RDRAM_REG_START
    case Pif(_) => PIF_START
    case Rsp(_) => SP_REG_BASE
    case Peripheral(_) => PI_REG_BASE
    case Video(_) => VI_REG_BASE
    case Audio(_) => AI_REG_BASE
    case Serial(_) => SI_REG_BASE
    case CartDom11(_) => CARTDOM1_ADDR1_START
    case CartDom12(_) => CARTDOM1_ADDR2_START
    case Dpc(_) => DPC_REG_BASE
  }

  /** Last physical address of that window. */
  function Last(a: Addr): u32 {
    match a
    case Rdram(_) => RDRAM_MEM_END
    case RdramReg(_) => RDRAM_REG_END
    case Pif(_) => PIF_END
    case Rsp(_) => SP_REG_END
    case Peripheral(_) => PI_REG_END
    case Video(_) => VI_REG_END
    case Audio(_) => AI_REG_END
    case Serial(_) => SI_REG_END
    case CartDom11(_) => CARTDOM1_ADDR1_END
    case CartDom12(_) => CARTDOM1_ADDR2_END
    case Dpc(_) => DPC_REG_END
  }

  /** `a` names an offset that lies inside its device's window. */
  predicate InWindow(a: Addr) {
    a.rel <= Last(a) - Base(a)
  }

  /** `map_addr`: the window containing `addr` and the offset from its start. */
  function MapAddr(addr: u32): (r: Result<Addr>)
    ensures r.Ok? ==> InWindow(r.value) && Base(r.value) + r.value.rel == addr
    ensures r.Err? ==> r.fault == UnrecognisedPhysicalAddress
  {
    if RDRAM_MEM_START <= addr <= RDRAM_MEM_END then Ok(Rdram(addr - RDRAM_MEM_START))
    else if RDRAM_REG_START <= addr <= RDRAM_REG_END then Ok(RdramReg(addr - RDRAM_REG_START))
    else if SP_REG_BASE <= addr <= SP_REG_END then Ok(Rsp(addr - SP_REG_BASE))
    else if PI_REG_BASE <= addr <= PI_REG_END then Ok(Peripheral(addr - PI_REG_BASE))
    else if VI_REG_BASE <= addr <= VI_REG_END then Ok(Video(addr - VI_REG_BASE))
    else if AI_REG_BASE <= addr <= AI_REG_END then Ok(Audio(addr - AI_REG_BASE))
    else if SI_REG_BASE <= addr <= SI_REG_END then Ok(Serial(addr - SI_REG_BASE))
    else if DPC_REG_BASE <= addr <= DPC_REG_END then Ok(Dpc(addr - DPC_REG_BASE))
    else if CARTDOM1_ADDR1_START <= addr <= CARTDOM1_ADDR1_END then Ok(CartDom11(addr - CARTDOM1_ADDR1_START))
    else if CARTDOM1_ADDR2_START <= addr <= CARTDOM1_ADDR2_END then Ok(CartDom12(addr - CARTDOM1_ADDR2_START))
    else if PIF_START <= addr <= PIF_END then Ok(Pif(addr - PIF_START))
    else Err(UnrecognisedPhysicalAddress)
  }

  /** The windows do not overlap: every offset inside a window maps back to
      that same device and offset, whatever order the windows are tried in. */
  lemma MapAddrRoundTrip(a: Addr)
    requires InWindow(a)
    ensures MapAddr(Base(a) + a.rel) == Ok(a)
  {
  }

  /** The unmapped gaps: between the serial interface and cartridge domain 1
      (address 1), between the two cartridge domain 1 windows, and between
      cartridge domain 1 (address 2) and the PIF, plus everything above the
      PIF. */
  lemma Unmapped(addr: u32)
    requires
      || 0x0420_0000 <= addr <= 0x043F_FFFF
      || 0x0470_0000 <= addr <= 0x047F_FFFF
      || 0x0490_0000 <= addr <= 0x05FF_FFFF
      || 0x0800_0000 <= addr <= 0x0FFF_FFFF
      || 0x1F3A_0000 <= addr <= 0x1FBF_FFFF
      || 0x1FC0_0800 <= addr
    ensures MapAddr(addr) == Err(UnrecognisedPhysicalAddress)
  {
  }

  /** The address space below 0x2000_0000 is mapped exactly outside those
      gaps. */
  lemma Mapped(addr: u32)
    requires MapAddr(addr).Err?
    ensures addr > PIF_END || 0x0420_0000 <= addr <= 0x043F_FFFF || 0x0470_0000 <= addr <= 0x047F_FFFF
         || 0x0490_0000 <= addr <= 0x05FF_FFFF || 0x0800_0000 <= addr <= 0x0FFF_FFFF
         || 0x1F3A_0000 <= addr <= 0x1FBF_FFFF
  {
  }
}
