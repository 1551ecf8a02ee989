/** The earlier physical memory map (src/memory_map.rs): the same device
    windows as the later map, without the two RDRAM windows. */
module LegacyMemoryMap {
  import opened Faults
  import opened Words
  import N64MemoryMap

  const CARTDOM1_ADDR1_START: u32 := 0x0600_0000
  const CARTDOM1_ADDR1_END: u32 := 0x07FF_FFFF
  const CARTDOM1_ADDR2_START: u32 := 0x1000_0000
  const CARTDOM1_ADDR2_END: u32 := 0x1F39_FFFF
  const PIF_START: u32 := 0x1FC0_0000
  const PIF_END: u32 := 0x1FC0_07FF
  const SP_REG_BASE: u32 := 0x0400_0000
  const SP_REG_END: u32 := 0x040F_FFFF
  const DPC_REG_BASE: u32 := 0x0410_0000
  const DPC_REG_END: u32 := 0x041F_FFFF
  const VI_REG_BASE: u32 := 0x0440_0000
  const VI_REG_END: u32 := 0x044F_FFFF
  const AI_REG_BASE: u32 := 0x0450_0000
  const AI_REG_END: u32 := 0x045F_FFFF
  const PI_REG_BASE: u32 := 0x0460_0000
  const PI_REG_END: u32 := 0x046F_FFFF
  const SI_REG_BASE: u32 := 0x0480_0000
  const SI_REG_END: u32 := 0x048F_FFFF

  datatype Addr =
    | Pif(rel: u32)
    | Rsp(rel: u32)
    | Peripheral(rel: u32)
    | Video(rel: u32)
    | Audio(rel: u32)
    | Serial(rel: u32)
    | CartDom11(rel: u32)
    | CartDom12(rel: u32)
    | Dpc(rel: u32)

  /** `map_addr`, trying the cartridge and PIF windows first. */
  function MapAddr(addr: u32): (r: Result<Addr>)
    ensures r.Err? ==> r.fault == UnrecognisedPhysicalAddress
  {
    if CARTDOM1_ADDR1_START <= addr <= CARTDOM1_ADDR1_END then Ok(CartDom11(addr - CARTDOM1_ADDR1_START))
    else if CARTDOM1_ADDR2_START <= addr <= CARTDOM1_ADDR2_END then Ok(CartDom12(addr - CARTDOM1_ADDR2_START))
    else if PIF_START <= addr <= PIF_END then Ok(Pif(addr - PIF_START))
    else if SP_REG_BASE <= addr <= SP_REG_END then Ok(Rsp(addr - SP_REG_BASE))
    else if PI_REG_BASE <= addr <= PI_REG_END then Ok(Peripheral(addr - PI_REG_BASE))
    else if VI_REG_BASE <= addr <= VI_REG_END then Ok(Video(addr - VI_REG_BASE))
    else if AI_REG_BASE <= addr <= AI_REG_END then Ok(Audio(addr - AI_REG_BASE))
    else if SI_REG_BASE <= addr <= SI_REG_END then Ok(Serial(addr - SI_REG_BASE))
    else if DPC_REG_BASE <= addr <= DPC_REG_END then Ok(Dpc(addr - DPC_REG_BASE))
    else Err(UnrecognisedPhysicalAddress)
  }

  /** The same device window in the later map. */
  function Later(a: Addr): N64MemoryMap.Addr {
    match a
    case Pif(r) => N64MemoryMap.Pif(r)
    case Rsp(r) => N64MemoryMap.Rsp(r)
    case Peripheral(r) => N64MemoryMap.Peripheral(r)
    case Video(r) => N64MemoryMap.Video(r)
    case Audio(r) => N64MemoryMap.Audio(r)
    case Serial(r) => N64MemoryMap.Serial(r)
    case CartDom11(r) => N64MemoryMap.CartDom11(r)
    case CartDom12(r) => N64MemoryMap.CartDom12(r)
    case Dpc(r) => N64MemoryMap.Dpc(r)
  }

  /** The two maps agree wherever the earlier one maps an address, although
      they try the windows in a different order; the earlier one panics on
      RDRAM and its registers, which the later one maps. */
  lemma AgreesWithLaterMap(addr: u32)
    ensures MapAddr(addr).Ok? ==> N64MemoryMap.MapAddr(addr) == Ok(Later(MapAddr(addr).value))
    ensures MapAddr(addr).Err? <==>
      N64MemoryMap.MapAddr(addr).Err? || N64MemoryMap.MapAddr(addr).value.Rdram? ||
      N64MemoryMap.MapAddr(addr).value.RdramReg?
  {
  }
}
