/** The system bus (src/n64/bus.rs): decodes a physical address with the
    memory map and hands the window-relative offset to the device that owns the
    window. The RSP, PI, VI, SI, cartridge and DPC blocks are the ones modelled
    in the `Interface*` modules; RDRAM, PIF and AI are the `N64*` ones. */
module N64Bus {
  import opened Faults
  import opened Words
  import opened N64MemoryMap
  import BigEndian
  import InterfaceCartridge
  import InterfaceDrawing
  import InterfacePeripheral
  import InterfaceRsp
  import InterfaceSerial
  import InterfaceVideo
  import N64Audio
  import N64Pif
  import N64Rdram
  import N64VirtualAddress

  class Bus {
    const pif: N64Pif.Pif
    const rsp: InterfaceRsp.Rsp
    var pi: InterfacePeripheral.Peripheral
    const vi: InterfaceVideo.Video
    const ai: N64Audio.Audio
    const si: InterfaceSerial.Serial
    var cd1: InterfaceCartridge.Cartridge
    var dpc: InterfaceDrawing.Drawing
    const rdram: N64Rdram.Rdram

    /** The PIF RAM has its fixed 64 bytes and is not the RDRAM buffer. */
    predicate Valid()
      reads this, pif, rdram
    {
      pif.ram.Length == N64Pif.PIF_RAM_SIZE && pif.ram != rdram.mem
    }

    /** `Bus::new` once the cartridge has been built: every device in its
        initial state. */
    constructor Init(pifrom: seq<bv8>, cart: InterfaceCartridge.Cartridge)
      ensures Valid()
      ensures fresh(pif) && fresh(pif.ram) && fresh(rsp) && fresh(vi) && fresh(ai) && fresh(si)
      ensures fresh(rdram) && fresh(rdram.mem) && fresh(rsp.signal)
      ensures pif.rom == pifrom && pif.ram[..] == N64Pif.SeededRam()
      ensures pi == InterfacePeripheral.New() && cd1 == cart && dpc == InterfaceDrawing.Default()
      ensures rdram.reg == N64Rdram.DefaultReg() && ai.Valid()
      ensures rdram.mem.Length == RDRAM_MEM_SIZE && forall k :: 0 <= k < rdram.mem.Length ==> rdram.mem[k] == 0
      ensures !rsp.halt && !rsp.broke && !rsp.intr && !rsp.singleStep && !rsp.intrOnBreak
      ensures !rsp.dmaBusy && !rsp.dmaFull
      ensures rsp.signal.Length == 8 && forall i :: 0 <= i < 8 ==> !rsp.signal[i]
      ensures vi.intrHalfLine == 0 && vi.horizontalVideoStart == 0
      ensures vi.horizontalVideoEnd == 0 && vi.currentVerticalLine == 0
      ensures ai.dramAddress == 0 && ai.length == 0 && si.status == 0
    {
      pif := new N64Pif.Pif.New(pifrom);
      rsp := new InterfaceRsp.Rsp.New();
      pi := InterfacePeripheral.New();
      vi := new InterfaceVideo.Video.Default();
      ai := new N64Audio.Audio.Default();
      si := new InterfaceSerial.Serial.Default();
      cd1 := cart;
      dpc := InterfaceDrawing.Default();
      rdram := new N64Rdram.Rdram.New();
    }

    /** `read_word`: the word the owning device reads at the window-relative
        offset; cartridge domain 1 address 1 reads as zero without consulting
        any device, and an unmapped address panics. */
    function ReadWord(addr: u32): (r: Result<bv32>)
      reads this, pif, pif.ram, rsp, vi, ai, si, rdram, rdram.mem
      ensures CARTDOM1_ADDR1_START <= addr <= CARTDOM1_ADDR1_END ==> r == Ok(0)
      ensures MapAddr(addr).Err? ==> r == Err(UnrecognisedPhysicalAddress)
    {
      var m := MapAddr(addr);
      if m.Err? then Err(m.fault)
      else
        match m.value
        case Rdram(rel) => rdram.ReadMem(rel)
        case RdramReg(rel) => rdram.ReadRegister(rel)
        case Pif(rel) => pif.Read(rel)
        case Rsp(rel) => rsp.Read(rel)
        case Peripheral(rel) => InterfacePeripheral.Read(pi, rel)
        case Video(rel) => vi.Read(rel)
        case Audio(rel) => ai.Read(rel)
        case Serial(rel) => si.Read(rel)
        case CartDom11(_) => Ok(0)
        case CartDom12(rel) => InterfaceCartridge.Read(cd1, rel)
        case Dpc(rel) => InterfaceDrawing.Read(dpc, rel)
    }

    /** `write_word`: the owning device's write at the window-relative offset.
        Only that device changes, and it changes as its own write says; a write
        the device accepts in RDRAM or PIF RAM reads back through the bus;
        cartridge domain 1 address 1 and unmapped addresses panic and change
        nothing. */
    method WriteWord(addr: u32, value: bv32) returns (out: Outcome)
      requires Valid()
      modifies this, rsp, vi, ai, si, rdram, rdram.mem, pif.ram
      ensures Valid()
      ensures !(addr <= RDRAM_MEM_END) ==> unchanged(rdram.mem)
      ensures !(RDRAM_REG_START <= addr <= RDRAM_REG_END) ==> rdram.reg == old(rdram.reg)
      ensures !(PIF_START <= addr <= PIF_END) ==> unchanged(pif.ram)
      ensures !(SP_REG_BASE <= addr <= SP_REG_END) ==> unchanged(rsp)
      ensures !(VI_REG_BASE <= addr <= VI_REG_END) ==> unchanged(vi)
      ensures !(AI_REG_BASE <= addr <= AI_REG_END) ==> unchanged(ai)
      ensures !(SI_REG_BASE <= addr <= SI_REG_END) ==> unchanged(si)
      ensures pi == old(pi) && cd1 == old(cd1) && dpc == old(dpc)
      ensures addr <= RDRAM_MEM_END && out.Pass? ==> ReadWord(addr) == Ok(value)
      ensures RDRAM_REG_START <= addr <= RDRAM_REG_END && out.Pass? ==> ReadWord(addr) == Ok(value)
      ensures PIF_START <= addr <= PIF_END && out.Pass? ==> ReadWord(addr) == Ok(value)
      ensures MapAddr(addr).Ok? ==> Dispatched(MapAddr(addr).value, value, out)
      ensures CARTDOM1_ADDR1_START <= addr <= CARTDOM1_ADDR1_END ==> out == Fail(CartDomain1Address1Write)
      ensures MapAddr(addr).Err? ==> out == Fail(UnrecognisedPhysicalAddress)
    {
      var m := MapAddr(addr);
      if m.Err? {
        return Fail(m.fault);
      }
      if m.value.Rdram? || m.value.RdramReg? || m.value.Pif? {
        out := WriteMemory(addr, m.value, value);
      } else {
        out := WriteInterface(addr, m.value, value);
      }
    }

    /** What a write of `value` at offset `a.rel` does to the device that owns
        `a`'s window: exactly what that device's own write does; cartridge
        domain 1 address 1 panics, and the PI, cartridge domain 1 address 2
        and DPC blocks reject the write as read-only. */
    twostate predicate Dispatched(a: Addr, value: bv32, out: Outcome)
      reads this, rdram, rdram.mem, pif, pif.ram, rsp, vi, ai, si
    {
      match a
      case Rdram(rel) => rdram.MemWritten(rel, value, out)
      case RdramReg(rel) => rdram.RegWritten(rel, value, out)
      case Pif(rel) => pif.Written(rel, value, out)
      case Rsp(rel) => rsp.Written(rel, value, out)
      case Video(rel) => vi.Written(rel, value, out)
      case Audio(rel) => ai.Written(rel, value, out)
      case Serial(rel) => si.Written(rel, value, out)
      case CartDom11(_) => out == Fail(CartDomain1Address1Write)
      case Peripheral(_) => out == Fail(ReadOnlyWrite)
      case CartDom12(_) => out == Fail(ReadOnlyWrite)
      case Dpc(_) => out == Fail(ReadOnlyWrite)
    }

    /** The memory arms of `write_word`: RDRAM bytes, RDRAM registers and the
        PIF. */
    method WriteMemory(addr: u32, a: Addr, value: bv32) returns (out: Outcome)
      requires Valid() && MapAddr(addr) == Ok(a) && (a.Rdram? || a.RdramReg? || a.Pif?)
      modifies rdram, rdram.mem, pif.ram
      ensures Valid()
      ensures !a.Rdram? ==> unchanged(rdram.mem)
      ensures !a.RdramReg? ==> rdram.reg == old(rdram.reg)
      ensures !a.Pif? ==> unchanged(pif.ram)
      ensures Dispatched(a, value, out)
      ensures out.Pass? ==> ReadWord(addr) == Ok(value)
    {
      ReadsMemories(this, addr);
      match a
      case Rdram(rel) =>
        out := rdram.WriteMem(rel, value);
      case RdramReg(rel) =>
        out := WriteRdramReg(addr, rel, value);
      case Pif(rel) =>
        out := WritePif(addr, rel, value);
    }

    method WriteRdramReg(addr: u32, rel: u32, value: bv32) returns (out: Outcome)
      requires RDRAM_REG_START <= addr <= RDRAM_REG_END && rel == addr - RDRAM_REG_START
      modifies rdram`reg
      ensures rdram.RegWritten(rel, value, out)
      ensures out.Pass? ==> ReadWord(addr) == Ok(value)
    {
      out := rdram.WriteRegister(rel, value);
      if out.Pass? {
        N64Rdram.ReadRegAfterWrite(old(rdram.reg), rel, value);
        ReadsMemories(this, addr);
      }
    }

    method WritePif(addr: u32, rel: u32, value: bv32) returns (out: Outcome)
      requires Valid() && PIF_START <= addr <= PIF_END && rel == addr - PIF_START
      modifies pif.ram
      ensures pif.Written(rel, value, out)
      ensures out.Pass? ==> ReadWord(addr) == Ok(value)
    {
      out := pif.Write(rel, value);
      if out.Pass? {
        BigEndian.ReadAfterWrite(old(pif.ram[..]), rel - N64Pif.PIF_RAM_START, value);
        ReadsMemories(this, addr);
      }
    }

    /** The interface arms of `write_word`; the PI, cartridge and DPC blocks
        reject every write. */
    method WriteInterface(addr: u32, a: Addr, value: bv32) returns (out: Outcome)
      requires MapAddr(addr) == Ok(a) && !(a.Rdram? || a.RdramReg? || a.Pif?)
      modifies rsp, vi, ai, si
      ensures !a.Rsp? ==> unchanged(rsp)
      ensures !a.Video? ==> unchanged(vi)
      ensures !a.Audio? ==> unchanged(ai)
      ensures !a.Serial? ==> unchanged(si)
      ensures a.CartDom11? ==> out == Fail(CartDomain1Address1Write)
      ensures a.Peripheral? || a.CartDom12? || a.Dpc? ==> out == Fail(ReadOnlyWrite)
      ensures Dispatched(a, value, out)
    {
      match a
      case Rsp(rel) =>
        out := rsp.Write(rel, value);
      case Peripheral(rel) =>
        var r := InterfacePeripheral.Write(pi, rel, value);
        out := Fail(r.fault);
      case Video(rel) =>
        out := vi.Write(rel, value);
      case Audio(rel) =>
        out := ai.Write(rel, value);
      case Serial(rel) =>
        out := si.Write(rel, value);
      case CartDom11(_) =>
        out := Fail(CartDomain1Address1Write);
      case CartDom12(rel) =>
        var r := InterfaceCartridge.Write(cd1, rel, value);
        out := Fail(r.fault);
      case Dpc(rel) =>
        var r := InterfaceDrawing.Write(dpc, rel, value);
        out := Fail(r.fault);
    }
  }

  /** A read in one of the memory windows is the owning memory's read at the
      offset from the window's start. */
  lemma ReadsMemories(b: Bus, addr: u32)
    ensures addr <= RDRAM_MEM_END ==> b.ReadWord(addr) == b.rdram.ReadMem(addr)
    ensures RDRAM_REG_START <= addr <= RDRAM_REG_END ==>
      b.ReadWord(addr) == b.rdram.ReadRegister(addr - RDRAM_REG_START)
    ensures CARTDOM1_ADDR2_START <= addr <= CARTDOM1_ADDR2_END ==>
      b.ReadWord(addr) == InterfaceCartridge.Read(b.cd1, addr - CARTDOM1_ADDR2_START)
    ensures PIF_START <= addr <= PIF_END ==> b.ReadWord(addr) == b.pif.Read(addr - PIF_START)
  {
  }

  /** A read in one of the register windows is the owning interface's read at
      the offset from the window's start. */
  lemma ReadsRegisters(b: Bus, addr: u32)
    ensures SP_REG_BASE <= addr <= SP_REG_END ==> b.ReadWord(addr) == b.rsp.Read(addr - SP_REG_BASE)
    ensures DPC_REG_BASE <= addr <= DPC_REG_END ==>
      b.ReadWord(addr) == InterfaceDrawing.Read(b.dpc, addr - DPC_REG_BASE)
    ensures VI_REG_BASE <= addr <= VI_REG_END ==> b.ReadWord(addr) == b.vi.Read(addr - VI_REG_BASE)
    ensures AI_REG_BASE <= addr <= AI_REG_END ==> b.ReadWord(addr) == b.ai.Read(addr - AI_REG_BASE)
    ensures PI_REG_BASE <= addr <= PI_REG_END ==>
      b.ReadWord(addr) == InterfacePeripheral.Read(b.pi, addr - PI_REG_BASE)
    ensures SI_REG_BASE <= addr <= SI_REG_END ==> b.ReadWord(addr) == b.si.Read(addr - SI_REG_BASE)
  {
  }

  /** The CPU's first fetch: the reset vector translates to the first PIF ROM
      word, which the bus reads from the ROM image. */
  lemma ResetFetchReadsPifRom(b: Bus)
    ensures N64VirtualAddress.ToPaddr(0xFFFF_FFFF_BFC0_0000) == Ok(PIF_START)
    ensures MapAddr(PIF_START) == Ok(Pif(0))
    ensures b.ReadWord(PIF_START) == BigEndian.ReadU32(b.pif.rom, 0)
  {
    N64VirtualAddress.ResetVector();
  }

  /** `Bus::new`: builds every device; it panics when the cartridge image is
      too short for the cartridge's boot-code CRC. */
  method New(pifrom: seq<bv8>, cartrom: seq<bv8>) returns (r: Result<Bus>)
    ensures r.Ok? <==> |cartrom| >= 0x1000
    ensures r.Err? ==> r.fault == OutOfBounds
    ensures r.Ok? ==> fresh(r.value) && r.value.Valid()
    ensures r.Ok? ==> r.value.pif.rom == pifrom && r.value.pif.ram[..] == N64Pif.SeededRam()
    ensures r.Ok? ==> r.value.cd1 == InterfaceCartridge.Cartridge(cartrom, 0)
  {
    var cart := InterfaceCartridge.New(cartrom);
    if cart.Err? {
      return Err(cart.fault);
    }
    var b := new Bus.Init(pifrom, cart.value);
    r := Ok(b);
  }
}
