/** Virtual-to-physical translation (src/n64/cpu/virtual_address.rs). Only the
    unmapped, uncached segment kseg1 is translated: a 64-bit virtual address
    whose bits 31..29 are 0b101. The translation subtracts the segment's base
    0xFFFF_FFFF_A000_0000, an unsigned 64-bit subtraction that a debug build
    checks, and keeps the low 32 bits. */
module N64VirtualAddress {
  import opened Faults
  import opened Words

  const KSEG1_BASE: u64 := 0xFFFF_FFFF_A000_0000
  const KSEG1_LAST: u64 := 0xFFFF_FFFF_BFFF_FFFF
  const KSEG1_SIZE: u32 := 0x2000_0000
  const KSEG1_BITS: nat := 5  // 0b101

  /** Bits 31..29 of `v`. */
  function SegmentBits(v: u64): (r: nat)
    ensures r < 8
  {
    (v / 0x2000_0000) % 8
  }

  /** `VAddr::default()`. */
  const DEFAULT_VADDR: u64 := 0

  /** The default virtual address lies in kuseg, outside kseg1, so
      translating it panics. */
  lemma DefaultUntranslatable()
    ensures SegmentBits(DEFAULT_VADDR) == 0
    ensures ToPaddr(DEFAULT_VADDR) == Err(UnrecognisedVirtualAddress)
  {
  }

  /** `VAddr::to_paddr`. Addresses outside kseg1 panic; so do addresses with
      the kseg1 bit pattern below its base, whose subtraction underflows. */
  function ToPaddr(v: u64): (r: Result<u32>)
    ensures r.Ok? <==> KSEG1_BASE <= v <= KSEG1_LAST
    ensures r.Ok? ==> r.value < KSEG1_SIZE && r.value == v - KSEG1_BASE
    ensures r.Err? && SegmentBits(v) != KSEG1_BITS ==> r.fault == UnrecognisedVirtualAddress
    ensures r.Err? && SegmentBits(v) == KSEG1_BITS ==> r.fault == ArithmeticOverflow
  {
    if SegmentBits(v) == KSEG1_BITS then
      if v < KSEG1_BASE then Err(ArithmeticOverflow)
      else Ok((v - KSEG1_BASE) % 0x1_0000_0000)
    else
      Err(UnrecognisedVirtualAddress)
  }

  /** kseg1 is a window onto the first 512 MiB of physical memory: every
      physical address there has exactly one kseg1 alias. */
  lemma Kseg1RoundTrip(p: u32)
    requires p < KSEG1_SIZE
    ensures ToPaddr(KSEG1_BASE + p) == Ok(p)
  {
    assert SegmentBits(KSEG1_BASE + p) == KSEG1_BITS;
  }

  /** The reset vector lies in kseg1 and translates to the start of the PIF
      boot ROM. */
  lemma ResetVector()
    ensures ToPaddr(0xFFFF_FFFF_BFC0_0000) == Ok(0x1FC0_0000)
  {
    Kseg1RoundTrip(0x1FC0_0000);
  }
}
