/** The cartridge ROM (src/interface/cartridge.rs): word reads from the header,
    boot code and font areas, no writes, and the CRC the constructor computes
    over the boot code. */
module InterfaceCartridge {
  import opened Faults
  import opened Words
  import BigEndian
  import Crc32

  const CART_ROM_HEADER_START: u32 := 0x0
  const CART_ROM_HEADER_END: u32 := 0x3F
  const CART_RAMROM_BOOTSTRAP_START: u32 := 0x040
  const CART_RAMROM_BOOTSTRAP_END: u32 := 0xB6F
  const CART_RAMROM_FONTDATA_START: u32 := 0xB70
  const CART_RAMROM_FONTDATA_END: u32 := 0xFEF

  const CRC_START: nat := 0x40
  const CRC_END: nat := 0x1000 - 0x40
  const CRC_ALECK_END: nat := 0xC00 - 0x40

  datatype Cartridge = Cartridge(rom: seq<bv8>, crcFix: bv32)

  // ---------------------------------------------------------------------------
  // The cartridge

  /** `Cartridge::new`: computes both boot-code CRCs (and discards them), keeps
      the ROM, and sets `crc_fix` to 0. It panics when the ROM is too short for
      the 0xFC0-byte CRC that starts at 0x40. */
  method New(cartrom: seq<bv8>) returns (r: Result<Cartridge>)
    ensures r.Ok? <==> |cartrom| >= 0x1000
    ensures r.Ok? ==> r.value == Cartridge(cartrom, 0)
    ensures r.Err? ==> r.fault == OutOfBounds
  {
    if |cartrom| < CRC_START {
      return Err(OutOfBounds);
    }
    var crc := Crc32.CalcCrc(cartrom[CRC_START..], CRC_END);
    if crc.Err? {
      return Err(crc.fault);
    }
    // the shorter CRC cannot fail once the longer one has succeeded
    var crcAleck := Crc32.CalcCrc(cartrom[CRC_START..], CRC_ALECK_END);
    assert crcAleck.Ok?;
    return Ok(Cartridge(cartrom, 0));
  }

  /** The three mapped areas read the big-endian word at the same offset of the
      ROM; any other offset reads as zero. */
  function Read(c: Cartridge, addr: u32): (r: Result<bv32>)
    ensures addr > CART_RAMROM_FONTDATA_END ==> r == Ok(0)
    ensures r.Err? ==> r.fault == OutOfBounds
  {
    if CART_ROM_HEADER_START <= addr <= CART_ROM_HEADER_END then
      ReadRom(c, addr)
    else if CART_RAMROM_BOOTSTRAP_START <= addr <= CART_RAMROM_BOOTSTRAP_END then
      ReadRom(c, addr)
    else if CART_RAMROM_FONTDATA_START <= addr <= CART_RAMROM_FONTDATA_END then
      ReadRom(c, addr)
    else
      Ok(0)
  }

  /** The word read by each of the three areas' helpers. */
  function ReadRom(c: Cartridge, addr: u32): (r: Result<bv32>)
    ensures r.Err? ==> r.fault == OutOfBounds
  {
    BigEndian.ReadU32(c.rom, addr)
  }

  /** Every cartridge register write panics. */
  function Write(c: Cartridge, addr: u32, value: bv32): (r: Result<Cartridge>)
    ensures r.Err? && r.fault == ReadOnlyWrite
  {
    Err(ReadOnlyWrite)
  }

  /** On a cartridge `New` accepts, every offset up to 0xFEF reads the four ROM
      bytes there, most significant first. */
  lemma ReadsRom(c: Cartridge, addr: u32)
    requires |c.rom| >= 0x1000 && addr <= CART_RAMROM_FONTDATA_END
    ensures Read(c, addr).Ok?
    ensures BigEndian.Bytes(Read(c, addr).value) == c.rom[addr..addr + 4]
  {
  }
}
