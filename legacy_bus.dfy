/** The first bus (src/bus.rs): it knows only the PIF boot ROM, and RAM that
    nothing reads yet. */
module LegacyBus {
  import opened Faults
  import opened Words
  import BigEndian
  import LegacyMemoryMap

  const PIF_ROM_SIZE: nat := 2048
  const RAM_SIZE: nat := 4 * 1024 * 1024
  const PIF_ROM_BASE: u32 := 0x1FC0_0000
  const PIF_ROM_LIMIT: u32 := 0x1FC0_07C0

  datatype Bus = Bus(pifrom: seq<bv8>, ram: seq<bv16>)

  /** `Bus::new`: the ROM image as given and 4 Mi zero RAM entries. */
  function New(pifrom: seq<bv8>): (b: Bus)
    ensures b.pifrom == pifrom && |b.ram| == RAM_SIZE
    ensures forall k :: 0 <= k < |b.ram| ==> b.ram[k] == 0
  {
    Bus(pifrom, seq(RAM_SIZE, _ => 0))
  }

  /** `read_word`: the four ROM bytes at `addr - 0x1FC0_0000`, most
      significant first, for the 0x7C0 bytes of PIF ROM; an index past the
      image panics, and so does every other address. */
  function ReadWord(b: Bus, addr: u32): (r: Result<bv32>)
    ensures r.Ok? <==> PIF_ROM_BASE <= addr < PIF_ROM_LIMIT && addr - PIF_ROM_BASE + 4 <= |b.pifrom|
    ensures r.Ok? ==> BigEndian.Bytes(r.value) == b.pifrom[addr - PIF_ROM_BASE..addr - PIF_ROM_BASE + 4]
    ensures !(PIF_ROM_BASE <= addr < PIF_ROM_LIMIT) ==> r == Err(UnrecognisedPhysicalAddress)
    ensures PIF_ROM_BASE <= addr < PIF_ROM_LIMIT && r.Err? ==> r.fault == OutOfBounds
  {
    if PIF_ROM_BASE <= addr < PIF_ROM_LIMIT then
      var rel := addr - PIF_ROM_BASE;
      if rel + 3 < |b.pifrom| then
        Ok(((b.pifrom[rel] as bv32) << 24) | ((b.pifrom[rel + 1] as bv32) << 16) |
           ((b.pifrom[rel + 2] as bv32) << 8) | (b.pifrom[rel + 3] as bv32))
      else
        Err(OutOfBounds)
    else
      Err(UnrecognisedPhysicalAddress)
  }

  /** Every word this bus can read lies in the PIF window of the memory map of
      the same generation, at the same offset. */
  lemma ReadsPifWindow(b: Bus, addr: u32)
    requires ReadWord(b, addr).Ok?
    ensures LegacyMemoryMap.MapAddr(addr) == Ok(LegacyMemoryMap.Pif(addr - PIF_ROM_BASE))
  {
  }
}
