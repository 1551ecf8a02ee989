/** RDRAM (src/n64/interface/rdram.rs): the main memory, a zero-filled byte
    array read and written as big-endian words, and ten 32-bit configuration
    registers at offsets 0x00..0x24. */
module N64Rdram {
  import opened Faults
  import opened Words
  import BigEndian
  import N64MemoryMap

  const REG_CONFIG: u32 := 0x00
  const REG_DEVICE_ID: u32 := 0x04
  const REG_DELAY: u32 := 0x08
  const REG_MODE: u32 := 0x0C
  const REG_REF_INTERVAL: u32 := 0x10
  const REG_REF_ROW: u32 := 0x14
  const REG_RAS_INTERVAL: u32 := 0x18
  const REG_MIN_INTERVAL: u32 := 0x1C
  const REG_ADDR_SELECT: u32 := 0x20
  const REG_DEVICE_MANUF: u32 := 0x24

  const REG_COUNT: nat := 10

  /** The ten registers (config, device id, delay, mode, refresh interval,
      refresh row, RAS interval, minimum interval, address select, device
      manufacturer), in offset order: register `k` sits at offset `4 * k`. */
  type RdramReg = s: seq<bv32> | |s| == REG_COUNT witness seq(REG_COUNT, _ => 0)

  /** `RdramReg::default()`: every register zero. */
  function DefaultReg(): (r: RdramReg)
    ensures forall addr: u32 :: IsRegister(addr) ==> ReadReg(r, addr) == Ok(0)
  {
    seq(REG_COUNT, _ => 0)
  }

  /** The ten offsets the register file decodes. */
  predicate IsRegister(addr: u32) {
    || addr == REG_CONFIG || addr == REG_DEVICE_ID || addr == REG_DELAY
    || addr == REG_MODE || addr == REG_REF_INTERVAL || addr == REG_REF_ROW
    || addr == REG_RAS_INTERVAL || addr == REG_MIN_INTERVAL
    || addr == REG_ADDR_SELECT || addr == REG_DEVICE_MANUF
  }

  /** The register offsets are the word-aligned offsets below 0x28, and each
      names a different register. */
  lemma RegisterOffsets(addr: u32)
    ensures IsRegister(addr) <==> addr % 4 == 0 && addr / 4 < REG_COUNT
  {
  }

  /** `read_reg`: the register at `addr`; any other offset panics. */
  function ReadReg(r: RdramReg, addr: u32): (v: Result<bv32>)
    ensures v.Ok? <==> IsRegister(addr)
    ensures v.Err? ==> v.fault == UnknownRegister
  {
    if IsRegister(addr) then Ok(r[addr / 4]) else Err(UnknownRegister)
  }

  /** `write_reg`: the registers with the one at `addr` replaced; any other
      offset panics. */
  function WriteReg(r: RdramReg, addr: u32, value: bv32): (w: Result<RdramReg>)
    ensures w.Ok? <==> IsRegister(addr)
    ensures w.Err? ==> w.fault == UnknownRegister
  {
    if IsRegister(addr) then Ok(r[addr / 4 := value]) else Err(UnknownRegister)
  }

  /** A register reads back what was last written to it... */
  lemma ReadRegAfterWrite(r: RdramReg, addr: u32, value: bv32)
    requires IsRegister(addr)
    ensures ReadReg(WriteReg(r, addr, value).value, addr) == Ok(value)
  {
  }

  /** ...and writing one register leaves every other as it was. */
  lemma ReadOtherRegAfterWrite(r: RdramReg, addr: u32, other: u32, value: bv32)
    requires IsRegister(addr) && other != addr
    ensures ReadReg(WriteReg(r, addr, value).value, other) == ReadReg(r, other)
  {
  }

  class Rdram {
    const mem: array<bv8>
    var reg: RdramReg

    /** `Rdram::new`: RDRAM_MEM_SIZE zero bytes and zeroed registers. */
    constructor New()
      ensures fresh(mem) && mem.Length == N64MemoryMap.RDRAM_MEM_SIZE
      ensures forall k :: 0 <= k < mem.Length ==> mem[k] == 0
      ensures reg == DefaultReg()
    {
      mem := new bv8[N64MemoryMap.RDRAM_MEM_SIZE](_ => 0);
      reg := DefaultReg();
    }

    /** `read_mem`: the big-endian word at byte offset `addr`. */
    function ReadMem(addr: u32): (r: Result<bv32>)
      reads mem
      ensures r.Ok? <==> addr + 4 <= mem.Length
      ensures r.Ok? ==> BigEndian.Bytes(r.value) == mem[addr..addr + 4]
    {
      BigEndian.ReadU32(mem[..], addr)
    }

    /** `write_mem`: stores `value` big-endian at byte offset `addr`, or panics
        and changes nothing when the word does not fit. */
    method WriteMem(addr: u32, value: bv32) returns (out: Outcome)
      modifies mem
      ensures MemWritten(addr, value, out)
      ensures out.Pass? ==> ReadMem(addr) == Ok(value)
    {
      out := BigEndian.StoreU32(mem, addr, value);
      if out.Pass? {
        BigEndian.ReadAfterWrite(old(mem[..]), addr, value);
      }
    }

    /** The outcome and the memory after a store of `value` at `addr`. */
    twostate predicate MemWritten(addr: u32, value: bv32, out: Outcome)
      reads mem
    {
      && (out.Pass? <==> addr + 4 <= mem.Length)
      && (out.Pass? ==> mem[..] == BigEndian.WriteU32(old(mem[..]), addr, value).value)
      && (out.Fail? ==> out.fault == OutOfBounds && mem[..] == old(mem[..]))
    }

    /** The outcome and the registers after a write of `value` at `addr`. */
    twostate predicate RegWritten(addr: u32, value: bv32, out: Outcome)
      reads this
    {
      && (out.Pass? <==> IsRegister(addr))
      && (out.Pass? ==> reg == WriteReg(old(reg), addr, value).value)
      && (out.Fail? ==> out.fault == UnknownRegister && reg == old(reg))
    }

    function ReadRegister(addr: u32): (r: Result<bv32>)
      reads this
      ensures r.Ok? <==> IsRegister(addr)
      ensures r.Err? ==> r.fault == UnknownRegister
    {
      ReadReg(reg, addr)
    }

    method WriteRegister(addr: u32, value: bv32) returns (out: Outcome)
      modifies this`reg
      ensures RegWritten(addr, value, out)
    {
      var r := WriteReg(reg, addr, value);
      if r.Err? {
        return Fail(r.fault);
      }
      reg := r.value;
      out := Pass;
    }
  }
}
