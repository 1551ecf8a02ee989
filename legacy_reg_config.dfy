/** The Config register of the first interpreter's coprocessor 0
    (src/cpu/cp0/reg_config.rs): three enumerated fields that `write`
    replaces from a 32-bit word and `power_on_reset` partly resets. */
module LegacyRegConfig {

  /** `EP`, the transmit data pattern: bits 27..24. */
  datatype Ep = D | DxxDxx | Rfu

  /** `BE`, the endianness: bit 15. */
  datatype Be = LittleEndian | BigEndian

  /** `K0`, the kseg0 coherency algorithm: bits 2..0. */
  datatype K0 = NotUsed | Used

  /** The three fields together, as a value. */
  datatype Config = Config(ep: Ep, be: Be, k0: K0)

  /** The derived `Default`: D, BigEndian and NotUsed. */
  const DEFAULT: Config := Config(D, BigEndian, NotUsed)

  /** `From<u32> for EP`. */
  function EpFrom(f: bv32): Ep
  {
    var epdata := (f >> 24) & 0xF;
    if epdata == 0 then D else if epdata == 6 then DxxDxx else Rfu
  }

  /** `From<u32> for BE`. */
  function BeFrom(f: bv32): Be
  {
    if (f >> 15) & 0x1 == 0 then LittleEndian else BigEndian
  }

  /** `From<u32> for K0`. */
  function K0From(f: bv32): K0
  {
    if f & 0x7 == 0x2 then NotUsed else Used
  }

  /** What `write` leaves in the register: every field decoded from `data`. */
  function ConfigFrom(data: bv32): (c: Config)
    ensures c.ep == D <==> data & 0x0F00_0000 == 0
    ensures c.ep == DxxDxx <==> data & 0x0F00_0000 == 0x0600_0000
    ensures c.be == BigEndian <==> data & 0x8000 != 0
    ensures c.k0 == NotUsed <==> data & 0x7 == 0x2
  {
    Config(EpFrom(data), BeFrom(data), K0From(data))
  }

  /** One word that encodes a configuration; an RFU pattern is written as 1. */
  function ConfigWord(c: Config): (w: bv32)
    ensures w & 0xF0FF_7FF8 == 0
  {
    (match c.ep case D => 0 case DxxDxx => 0x0600_0000 case Rfu => 0x0100_0000) |
    (if c.be == BigEndian then 0x8000 else 0) |
    (if c.k0 == NotUsed then 0x2 else 0)
  }

  /** Every configuration can be written: decoding its word gives it back. */
  lemma ConfigRoundTrip(c: Config)
    ensures ConfigFrom(ConfigWord(c)) == c
  {
    var w := ConfigWord(c);
    assert (w >> 24) & 0xF == (match c.ep case D => 0 case DxxDxx => 6 case Rfu => 1);
  }

  /** A word decodes to the configuration of a word that keeps only its EP,
      BE and K0 bits; the bits outside those fields are ignored. */
  lemma ConfigIgnoresOtherBits(data: bv32)
    ensures ConfigFrom(data) == ConfigFrom(data & 0x0F00_8007)
  {
  }

  class RegConfig {
    var ep: Ep
    var be: Be
    var k0: K0

    function Value(): Config
      reads this
    {
      Config(ep, be, k0)
    }

    /** The derived `Default`. */
    constructor ()
      ensures Value() == DEFAULT
    {
      ep := D;
      be := BigEndian;
      k0 := NotUsed;
    }

    /** `power_on_reset`: EP to D and BE to BigEndian; K0 is kept. */
    method PowerOnReset()
      modifies this
      ensures Value() == old(Value()).(ep := D, be := BigEndian)
    {
      ep := D;
      be := BigEndian;
    }

    /** `write`: all three fields from `data`, whatever they held before. */
    method Write(data: bv32)
      modifies this
      ensures Value() == ConfigFrom(data)
    {
      ep := EpFrom(data);
      be := BeFrom(data);
      k0 := K0From(data);
    }
  }
}
