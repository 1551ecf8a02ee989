/** The `calc_crc` helper of src/interface/cartridge.rs, and the standard
    CRC-32 it computes. */
module Crc32 {
  import opened Faults

  const CRC_POLY: bv32 := 0xEDB88320
  const CRC_INIT: bv32 := 0xFFFF_FFFF

  /** One bit of reflected CRC-32 division: shift right, and xor in the
      polynomial when the bit shifted out was set. Written without a branch;
      `Shift1Cases` gives the two cases. */
  function Shift1(c: bv32): bv32 {
    (c >> 1) ^ (CRC_POLY & (0 - (c & 1)))
  }

  lemma Shift1Cases(c: bv32)
    ensures c & 1 == 1 ==> Shift1(c) == CRC_POLY ^ (c >> 1)
    ensures c & 1 == 0 ==> Shift1(c) == c >> 1
  {
  }

  /** `i` bits of division. */
  function ShiftN(c: bv32, i: nat): bv32 {
    if i == 0 then c else Shift1(ShiftN(c, i - 1))
  }

  /** Bits per byte. A function rather than a literal, so that the verifier
      unrolls `ShiftN(c, ByteBits())` only as far as a proof asks. */
  function ByteBits(): nat { 8 }

  /** A byte's worth of division: for `c < 256`, the CRC table entry of `c`. */
  function Step8(c: bv32): bv32 {
    ShiftN(c, ByteBits())
  }

  /** Feeding one byte into the CRC register. */
  function Update(c: bv32, b: bv8): bv32 {
    Step8(c ^ (b as bv32))
  }

  /** The CRC register after feeding `data`, first byte first, from `c`. */
  function Register(c: bv32, data: seq<bv8>): bv32 {
    if |data| == 0 then c else Update(Register(c, data[..|data| - 1]), data[|data| - 1])
  }

  /** CRC-32 as zlib and PNG define it: reflected polynomial 0xEDB88320, initial
      register and final xor 0xFFFFFFFF. */
  function Crc(data: seq<bv8>): bv32 {
    Register(CRC_INIT, data) ^ CRC_INIT
  }

  /** `Step8` written out as eight nested steps. */
  function Unrolled8(c: bv32): bv32 {
    Shift1(Shift1(Shift1(Shift1(Shift1(Shift1(Shift1(Shift1(c))))))))
  }

  lemma Step8IsUnrolled(c: bv32)
    ensures Step8(c) == Unrolled8(c)
  {
    assert ShiftN(c, 1) == Shift1(c);
    assert ShiftN(c, 2) == Shift1(Shift1(c));
    assert ShiftN(c, 3) == Shift1(ShiftN(c, 2));
    assert ShiftN(c, 4) == Shift1(ShiftN(c, 3));
    assert ShiftN(c, 5) == Shift1(ShiftN(c, 4));
    assert ShiftN(c, 6) == Shift1(ShiftN(c, 5));
    assert ShiftN(c, 7) == Shift1(ShiftN(c, 6));
    assert ShiftN(c, 8) == Shift1(ShiftN(c, 7));
  }

  lemma UnrolledTableStep(x: bv32)
    ensures Unrolled8(x) == Unrolled8(x & 0xFF) ^ (x >> 8)
  {
  }

  /** Only the low byte of the register needs the table: the upper 24 bits are
      shifted down unchanged. */
  lemma TableStep(x: bv32)
    ensures Step8(x) == Step8(x & 0xFF) ^ (x >> 8)
  {
    UnrolledTableStep(x);
    Step8IsUnrolled(x);
    Step8IsUnrolled(x & 0xFF);
  }

  /** One step of the table-driven loop is one byte of bitwise division: `x`
      is the register with the next byte mixed into its low byte. */
  lemma TableUpdate(c: bv32, x: bv32)
    requires x >> 8 == c >> 8
    ensures Step8(x & 0xFF) ^ (c >> 8) == Step8(x)
  {
    TableStep(x);
  }

  lemma RegisterSnoc(c: bv32, data: seq<bv8>, b: bv8)
    ensures Register(c, data + [b]) == Update(Register(c, data), b)
  {
    assert (data + [b])[..|data|] == data;
  }

  // ---------------------------------------------------------------------------
  // The byte order `calc_crc` reads in

  /** Byte `n` of the CRC input is ROM byte `n ^ 1`: bytes are taken in swapped
      pairs. */
  function PairIndex(n: nat): (p: nat)
    ensures p / 2 == n / 2 && p % 2 != n % 2
  {
    if n % 2 == 1 then n - 1 else n + 1
  }

  /** The CRC input bytes `0..size` with each pair swapped exist in `rom`. */
  predicate PairsInBounds(rom: seq<bv8>, size: nat) {
    size + size % 2 <= |rom|
  }

  function PairSwapped(rom: seq<bv8>, size: nat): (s: seq<bv8>)
    requires PairsInBounds(rom, size)
    ensures |s| == size
  {
    seq(size, n requires 0 <= n < size => rom[PairIndex(n)])
  }

  lemma PairSwappedGrows(rom: seq<bv8>, n: nat)
    requires PairsInBounds(rom, n + 1)
    ensures PairsInBounds(rom, n)
    ensures PairSwapped(rom, n + 1) == PairSwapped(rom, n) + [rom[PairIndex(n)]]
  {
  }

  /** Each byte the loop reads keeps the bytes read so far in bounds. */
  lemma NextInBounds(rom: seq<bv8>, n: nat)
    requires PairsInBounds(rom, n) && PairIndex(n) < |rom|
    ensures PairsInBounds(rom, n + 1)
  {
  }

  /** A byte out of range before `size` means the first `size` pairs are not
      all in bounds. */
  lemma OutOfBoundsAt(rom: seq<bv8>, n: nat, size: nat)
    requires n < size && PairIndex(n) >= |rom|
    ensures !PairsInBounds(rom, size)
  {
  }

  lemma LowByteIndex(x: bv32)
    ensures (x & 0xFF) as int < 256
  {
  }

  lemma IndexRoundTrip(y: bv32)
    ensures (y as int) as bv32 == y
  {
  }

  /** One table entry of `calc_crc`: eight bits of division of `n`, one at a
      time. */
  method TableEntry(n: bv32) returns (c: bv32)
    ensures c == Step8(n)
  {
    c := n;
    for i := 0 to 8
      invariant c == ShiftN(n, i)
    {
      Shift1Cases(c);
      if c & 1 == 1 {
        c := 0xEDB88320 ^ (c >> 1);
      } else {
        c := c >> 1;
      }
    }
  }

  /** The first half of `calc_crc`: the 256-entry table. */
  method BuildTable() returns (table: array<bv32>)
    ensures fresh(table) && table.Length == 256
    ensures forall k :: 0 <= k < 256 ==> table[k] == Step8(k as bv32)
  {
    table := new bv32[256];
    for n := 0 to 256
      invariant forall k :: 0 <= k < n ==> table[k] == Step8(k as bv32)
    {
      table[n] := TableEntry(n as bv32);
    }
  }

  /** The body of the second loop of `calc_crc`: one byte through the table. */
  method Feed(table: array<bv32>, c: bv32, b: bv8) returns (next: bv32)
    requires table.Length == 256
    requires forall k :: 0 <= k < 256 ==> table[k] == Step8(k as bv32)
    ensures next == Update(c, b)
  {
    var x := c ^ b as bv32;
    assert x >> 8 == c >> 8;
    TableUpdate(c, x);
    LowByteIndex(x);
    IndexRoundTrip(x & 0xFF);
    next := table[(x & 0xFF) as int] ^ (c >> 8);
  }

  /** `calc_crc(rom, size)`: builds the table, then runs the table-driven
      register over the first `size` bytes taken in swapped pairs. The result is
      the standard CRC-32 of those bytes; the call panics exactly when a swapped
      pair reaches past the end of `rom`. */
  method CalcCrc(rom: seq<bv8>, size: nat) returns (r: Result<bv32>)
    ensures r.Ok? <==> PairsInBounds(rom, size)
    ensures r.Ok? ==> r.value == Crc(PairSwapped(rom, size))
    ensures r.Err? ==> r.fault == OutOfBounds
  {
    var table := BuildTable();
    var c: bv32 := 0 ^ 0xFFFF_FFFF;
    for n := 0 to size
      invariant forall k :: 0 <= k < 256 ==> table[k] == Step8(k as bv32)
      invariant PairsInBounds(rom, n)
      invariant c == Register(CRC_INIT, PairSwapped(rom, n))
    {
      var p := if n % 2 == 1 then n - 1 else n + 1;
      assert p == PairIndex(n);
      if p >= |rom| {
        OutOfBoundsAt(rom, n, size);
        return Err(OutOfBounds);
      }
      var b := rom[p];
      NextInBounds(rom, n);
      PairSwappedGrows(rom, n);
      RegisterSnoc(CRC_INIT, PairSwapped(rom, n), b);
      c := Feed(table, c, b);
    }
    return Ok(c ^ 0xFFFF_FFFF);
  }

  /** `Crc` is the standard CRC-32: it gives the published check value
      0xCBF43926 for the ASCII bytes "123456789". */
  lemma StandardCheckValue()
    ensures Crc([0x31, 0x32, 0x33, 0x34, 0x35, 0x36, 0x37, 0x38, 0x39]) == 0xCBF43926
  {
    var d: seq<bv8> := [0x31, 0x32, 0x33, 0x34, 0x35, 0x36, 0x37, 0x38, 0x39];
    Step8IsUnrolled(0xffffffff ^ 0x31);
    assert d[..1][..0] == d[..0];
    assert Register(CRC_INIT, d[..1]) == 0x7c231048;
    Step8IsUnrolled(0x7c231048 ^ 0x32);
    assert d[..2][..1] == d[..1];
    assert Register(CRC_INIT, d[..2]) == 0xb0acbb32;
    Step8IsUnrolled(0xb0acbb32 ^ 0x33);
    assert d[..3][..2] == d[..2];
    assert Register(CRC_INIT, d[..3]) == 0x77b79c2d;
    Step8IsUnrolled(0x77b79c2d ^ 0x34);
    assert d[..4][..3] == d[..3];
    assert Register(CRC_INIT, d[..4]) == 0x641c1f5c;
    Step8IsUnrolled(0x641c1f5c ^ 0x35);
    assert d[..5][..4] == d[..4];
    assert Register(CRC_INIT, d[..5]) == 0x340ac5e3;
    Step8IsUnrolled(0x340ac5e3 ^ 0x36);
    assert d[..6][..5] == d[..5];
    assert Register(CRC_INIT, d[..6]) == 0xf68d2c9e;
    Step8IsUnrolled(0xf68d2c9e ^ 0x37);
    assert d[..7][..6] == d[..6];
    assert Register(CRC_INIT, d[..7]) == 0xaffc9660;
    Step8IsUnrolled(0xaffc9660 ^ 0x38);
    assert d[..8][..7] == d[..7];
    assert Register(CRC_INIT, d[..8]) == 0x651f2550;
    Step8IsUnrolled(0x651f2550 ^ 0x39);
    assert d[..9][..8] == d[..8];
    assert Register(CRC_INIT, d[..9]) == 0x340bc6d9;
    assert d[..9] == d;
  }
}
