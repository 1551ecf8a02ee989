/** The earlier PIF model (src/interface/pif.rs): boot ROM at offsets
    0x000..0x7BF, 64 bytes of RAM at 0x7C0..0x7FF. Its write slices RAM from
    0x7C0 instead of from the RAM-relative offset, so no write can succeed and
    the block never changes: it is a value here. */
module InterfacePif {
  import opened Faults
  import opened Words
  import BigEndian

  const PIF_ROM_START: u32 := 0x0000
  const PIF_ROM_END: u32 := 0x07BF
  const PIF_RAM_SIZE: nat := 0x40
  const PIF_RAM_START: u32 := 0x07C0
  const PIF_RAM_END: u32 := 0x07FF

  /** The RAM is a fixed 64-byte array in the source. */
  type Ram = s: seq<bv8> | |s| == PIF_RAM_SIZE witness seq(PIF_RAM_SIZE, _ => 0)

  datatype Pif = Pif(rom: seq<bv8>, ram: Ram)

  /** `Pif::new`: the ROM image as given, RAM all zero. */
  function New(pifrom: seq<bv8>): (p: Pif)
    ensures p.rom == pifrom && |p.ram| == PIF_RAM_SIZE
    ensures forall k :: 0 <= k < |p.ram| ==> p.ram[k] == 0
  {
    Pif(pifrom, seq(PIF_RAM_SIZE, _ => 0))
  }

  /** ROM offsets read the ROM, RAM offsets read RAM at `addr - 0x7C0`, both as
      big-endian words; any other offset panics. */
  function Read(p: Pif, addr: u32): (r: Result<bv32>)
    ensures addr <= PIF_ROM_END ==> r == BigEndian.ReadU32(p.rom, addr)
    ensures PIF_RAM_START <= addr <= PIF_RAM_END ==>
      r == BigEndian.ReadU32(p.ram, addr - PIF_RAM_START)
    ensures addr > PIF_RAM_END ==> r == Err(OutOfBounds)
  {
    if PIF_ROM_START <= addr <= PIF_ROM_END then
      BigEndian.ReadU32(p.rom, addr - PIF_ROM_START)
    else if PIF_RAM_START <= addr <= PIF_RAM_END then
      BigEndian.ReadU32(p.ram, addr - PIF_RAM_START)
    else
      Err(OutOfBounds)
  }

  /** ROM writes panic; RAM writes slice `ram[0x7C0..]`, past its 64 bytes, and
      panic; every other offset panics. */
  function Write(p: Pif, addr: u32, value: bv32): (r: Result<Pif>)
    ensures r.Err?
    ensures addr <= PIF_ROM_END ==> r.fault == ReadOnlyWrite
    ensures addr > PIF_ROM_END ==> r.fault == OutOfBounds
  {
    if PIF_ROM_START <= addr <= PIF_ROM_END then
      Err(ReadOnlyWrite)
    else if PIF_RAM_START <= addr <= PIF_RAM_END then
      // `ram[0x7C0..]` on a 64-byte array is out of range
      Err(OutOfBounds)
    else
      Err(OutOfBounds)
  }

  /** Since nothing can be written, a block built by `New` reads zero from every
      aligned RAM word for ever. */
  lemma RamReadsZero(pifrom: seq<bv8>, addr: u32)
    requires PIF_RAM_START <= addr <= PIF_RAM_END && addr - PIF_RAM_START <= 0x3C
    ensures Read(New(pifrom), addr) == Ok(0)
  {
    var p := New(pifrom);
    var at := addr - PIF_RAM_START;
    BigEndian.BytesOfWord(0, 0, 0, 0);
    assert p.ram[at..at + 4] == [0, 0, 0, 0];
  }
}
