/** The PIF (src/n64/interface/pif.rs): the boot ROM at offsets 0x000..0x7BF
    and 64 bytes of RAM at 0x7C0..0x7FF. At construction the RAM holds the
    CIC seed 0x00023F3F, big-endian, at RAM offset 0x24. */
module N64Pif {
  import opened Faults
  import opened Words
  import BigEndian

  const PIF_ROM_START: u32 := 0x0000
  const PIF_ROM_END: u32 := 0x07BF
  const PIF_RAM_SIZE: nat := 0x40
  const PIF_RAM_START: u32 := 0x07C0
  const PIF_RAM_END: u32 := PIF_RAM_START + PIF_RAM_SIZE - 1

  const TEST_SEED: bv32 := 0x0002_3F3F
  const SEED_OFFSET: nat := 0x24

  /** The RAM as `Pif::new` leaves it: zero, except the seed. */
  function SeededRam(): (ram: seq<bv8>)
    ensures |ram| == PIF_RAM_SIZE
    ensures BigEndian.ReadU32(ram, SEED_OFFSET) == Ok(TEST_SEED)
    ensures forall k :: 0 <= k < PIF_RAM_SIZE && !(SEED_OFFSET <= k < SEED_OFFSET + 4) ==> ram[k] == 0
  {
    var zero: seq<bv8> := seq(PIF_RAM_SIZE, _ => 0);
    var ram := BigEndian.WriteU32(zero, SEED_OFFSET, TEST_SEED).value;
    BigEndian.ReadAfterWrite(zero, SEED_OFFSET, TEST_SEED);
    ram
  }

  /** `fix_ram`: the four seed bytes, most significant first, at 0x24..0x27. */
  method FixRam(ram: array<bv8>)
    requires ram.Length >= SEED_OFFSET + 4
    modifies ram
    ensures ram[..] == BigEndian.WriteU32(old(ram[..]), SEED_OFFSET, TEST_SEED).value
  {
    ram[0x24] := ((TEST_SEED >> 24) & 0xFF) as bv8;
    ram[0x25] := ((TEST_SEED >> 16) & 0xFF) as bv8;
    ram[0x26] := ((TEST_SEED >> 8) & 0xFF) as bv8;
    ram[0x27] := (TEST_SEED & 0xFF) as bv8;
    assert ram[..] == old(ram[..])[..0x24] + BigEndian.Bytes(TEST_SEED) + old(ram[..])[0x28..];
  }

  class Pif {
    const rom: seq<bv8>
    const ram: array<bv8>

    /** `Pif::new`: the ROM image as given, the RAM zeroed and seeded. */
    constructor New(pifrom: seq<bv8>)
      ensures rom == pifrom && fresh(ram) && ram.Length == PIF_RAM_SIZE
      ensures ram[..] == SeededRam()
    {
      rom := pifrom;
      var r := new bv8[PIF_RAM_SIZE](_ => 0);
      assert r[..] == seq(PIF_RAM_SIZE, _ => 0);
      FixRam(r);
      ram := r;
    }

    /** ROM offsets read the ROM, RAM offsets read RAM at `addr - 0x7C0`, both
        as big-endian words; any other offset panics. */
    function Read(addr: u32): (r: Result<bv32>)
      reads ram
      ensures addr <= PIF_ROM_END ==> r == BigEndian.ReadU32(rom, addr)
      ensures PIF_RAM_START <= addr <= PIF_RAM_END ==> r == BigEndian.ReadU32(ram[..], addr - PIF_RAM_START)
      ensures addr > PIF_RAM_END ==> r == Err(OutOfBounds)
    {
      if PIF_ROM_START <= addr <= PIF_ROM_END then
        BigEndian.ReadU32(rom, addr - PIF_ROM_START)
      else if PIF_RAM_START <= addr <= PIF_RAM_END then
        BigEndian.ReadU32(ram[..], addr - PIF_RAM_START)
      else
        Err(OutOfBounds)
    }

    /** ROM writes panic; RAM writes store a big-endian word at `addr - 0x7C0`
        (panicking if it would run past the RAM); other offsets panic. */
    method Write(addr: u32, value: bv32) returns (out: Outcome)
      requires ram.Length == PIF_RAM_SIZE
      modifies ram
      ensures Written(addr, value, out)
    {
      if PIF_ROM_START <= addr <= PIF_ROM_END {
        out := Fail(ReadOnlyWrite);
      } else if PIF_RAM_START <= addr <= PIF_RAM_END {
        out := BigEndian.StoreU32(ram, addr - PIF_RAM_START, value);
      } else {
        out := Fail(OutOfBounds);
      }
    }

    /** The outcome and the RAM after a write of `value` at `addr`. */
    twostate predicate Written(addr: u32, value: bv32, out: Outcome)
      reads ram
    {
      && (out.Pass? <==> PIF_RAM_START <= addr <= PIF_RAM_END - 3)
      && (addr <= PIF_ROM_END ==> out == Fail(ReadOnlyWrite))
      && (out.Fail? ==> ram[..] == old(ram[..]))
      && (out.Pass? ==> BigEndian.WriteU32(old(ram[..]), addr - PIF_RAM_START, value) == Ok(ram[..]))
    }
  }

  /** The seed is where the boot code looks for it: a freshly built PIF reads
      0x00023F3F at offset 0x7E4. */
  lemma SeedVisible(p: Pif)
    requires p.ram[..] == SeededRam()
    ensures p.Read(PIF_RAM_START + SEED_OFFSET) == Ok(TEST_SEED)
  {
  }
}
