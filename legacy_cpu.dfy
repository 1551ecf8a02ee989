/** The first interpreter (src/cpu/cpu.rs): a CPU that fetches one instruction
    word at the program counter, executes it directly and moves on by four
    bytes. It knows four primary opcodes, MTC0, ORI, LUI and LW, and the last
    of them always panics. The state it changes is the general purpose
    register array, the program counter and the coprocessor 0 Status
    register. */
module LegacyCpu {
  import opened Faults
  import opened Words
  import N = N64RegStatus
  import N64VirtualAddress
  import LegacyBus
  import LegacyInstruction
  import LegacyRegConfig
  import LegacyRegStatus
  import LegacyCp0
  import N64Opcode

  const NUM_GPREG: nat := 32
  const PIF_ROM_START: u64 := 0xFFFF_FFFF_BFC0_0000

  /** The primary opcodes `run_instruction` recognises. */
  const MTC0: bv8 := 0x10
  const ORI: bv8 := 0x0D
  const LUI: bv8 := 0x0F
  const LW: bv8 := 0x23

  // ---------------------------------------------------------------------------
  // Address translation and fetch

  /** `vaddr_to_paddr`: kseg1 (bits 31..29 = 0b101) maps by subtracting its
      base, an unsigned subtraction that panics below the base; everything
      else panics. */
  function VaddrToPaddr(v: u64): (r: Result<u64>)
    ensures r.Ok? <==> N64VirtualAddress.KSEG1_BASE <= v <= N64VirtualAddress.KSEG1_LAST
    ensures r.Ok? ==> r.value < N64VirtualAddress.KSEG1_SIZE
  {
    if N64VirtualAddress.SegmentBits(v) == N64VirtualAddress.KSEG1_BITS then
      if v < N64VirtualAddress.KSEG1_BASE then Err(ArithmeticOverflow)
      else Ok(v - N64VirtualAddress.KSEG1_BASE)
    else
      Err(UnrecognisedVirtualAddress)
  }

  /** The two generations translate alike: the same addresses panic, for the
      same reason, and the others map to the same physical address, which
      fits in 32 bits. */
  lemma VaddrAgreesWithNewer(v: u64)
    ensures VaddrToPaddr(v).Err? <==> N64VirtualAddress.ToPaddr(v).Err?
    ensures VaddrToPaddr(v).Err? ==> VaddrToPaddr(v).fault == N64VirtualAddress.ToPaddr(v).fault
    ensures VaddrToPaddr(v).Ok? ==> VaddrToPaddr(v).value == N64VirtualAddress.ToPaddr(v).value
  {
  }

  /** `read_instruction`, through `read_word`: the translated address,
      narrowed to 32 bits, read from the bus. */
  function Fetch(bus: LegacyBus.Bus, pc: u64): (r: Result<bv32>)
    ensures N64VirtualAddress.KSEG1_BASE <= pc <= N64VirtualAddress.KSEG1_LAST ==>
      r == LegacyBus.ReadWord(bus, pc - N64VirtualAddress.KSEG1_BASE)
    ensures N64VirtualAddress.SegmentBits(pc) != N64VirtualAddress.KSEG1_BITS ==>
      r == Err(UnrecognisedVirtualAddress)
  {
    match VaddrToPaddr(pc)
    case Err(f) => Err(f)
    case Ok(p) => LegacyBus.ReadWord(bus, p % 0x1_0000_0000)
  }

  /** After a power-on reset the first word comes from the start of the PIF
      boot ROM. */
  lemma ResetFetchesPifRom(bus: LegacyBus.Bus)
    ensures Fetch(bus, PIF_ROM_START) == LegacyBus.ReadWord(bus, LegacyBus.PIF_ROM_BASE)
  {
    N64VirtualAddress.ResetVector();
    VaddrAgreesWithNewer(PIF_ROM_START);
  }

  // ---------------------------------------------------------------------------
  // Registers and the values the instructions compute

  /** `read_gpr`: register 0 reads as zero. */
  function ReadGpr(regs: seq<bv64>, index: nat): (r: bv64)
    requires index < |regs|
    ensures index == 0 ==> r == 0
  {
    if index == 0 then 0 else regs[index]
  }

  /** The register file after `write_gpr`: a write to register 0 is
      dropped. */
  function SetGpr(regs: seq<bv64>, index: nat, value: bv64): (r: seq<bv64>)
    requires index < |regs|
    ensures |r| == |regs|
  {
    if index == 0 then regs else regs[index := value]
  }

  /** A read after a write sees the written value, except through register 0,
      and every other register is untouched. */
  lemma ReadAfterWrite(regs: seq<bv64>, i: nat, j: nat, v: bv64)
    requires i < |regs| && j < |regs|
    ensures ReadGpr(SetGpr(regs, i, v), j) == (if i == j && i != 0 then v else ReadGpr(regs, j))
  {
  }

  /** The `rs` field, bits 25..21, as a register index. */
  function Rs(i: LegacyInstruction.Instruction): (r: nat)
    ensures r < NUM_GPREG
  {
    LegacyInstruction.GetBits(i, 21, 5) as nat
  }

  /** The `rt` field, bits 20..16, as a register index. */
  function Rt(i: LegacyInstruction.Instruction): (r: nat)
    ensures r < NUM_GPREG
  {
    LegacyInstruction.GetBits(i, 16, 5) as nat
  }

  /** `imval as u64`: the immediate, zero-extended. */
  function Immediate(i: LegacyInstruction.Instruction): (x: bv64)
    ensures x < 0x1_0000
  {
    LegacyInstruction.GetImmediate(i) as bv64
  }

  /** The value ORI computes: the register with the zero-extended immediate
      `x` or-ed into its low half-word. */
  function Ori(reg: bv64, x: bv64): (r: bv64)
    requires x < 0x1_0000
    ensures r >> 16 == reg >> 16
    ensures r & 0xFFFF == (reg & 0xFFFF) | x
  {
    reg | x
  }

  /** The address LW computes from the zero-extended immediate `x`: base plus
      the sign-extended offset, wrapping at 2^64. */
  function LwAddress(base: bv64, x: bv64): bv64
    requires x < 0x1_0000
  {
    base + (if x & 0x8000 == 0 then x else x | 0xFFFF_FFFF_FFFF_0000)
  }

  // ---------------------------------------------------------------------------
  // One instruction on values

  /** What `run_instruction` reads and changes. */
  datatype Machine = Machine(gprs: seq<bv64>, pc: u64, status: N.RegStatus)

  /** `reg_pc += 4`, which panics past the top of the address space. */
  function Advance(m: Machine): (r: (Outcome, Machine))
    ensures r.0.Pass? <==> m.pc + 4 < 0x1_0000_0000_0000_0000
    ensures r.0.Pass? ==> r.1 == m.(pc := m.pc + 4)
    ensures r.0.Fail? ==> r == (Fail(ArithmeticOverflow), m)
  {
    if m.pc + 4 < 0x1_0000_0000_0000_0000 then (Pass, m.(pc := m.pc + 4))
    else (Fail(ArithmeticOverflow), m)
  }

  /** MTC0: the value of register `rt` goes to coprocessor 0 register `rd`;
      only Status, register 12, is writable. */
  function MoveToCp0(m: Machine, rd: u32, rt: nat): (r: (Outcome, Machine))
    requires rt < |m.gprs|
    ensures r.1.gprs == m.gprs
  {
    var data := LegacyCp0.StatusWord(ReadGpr(m.gprs, rt));
    if rd != LegacyCp0.STATUS_REGISTER then (Fail(UnrecognisedCp0Write), m)
    else
      var m' := m.(status := LegacyRegStatus.Written(m.status, data));
      if N.ModeFrom(data).Err? then (Fail(InvalidMode), m') else Advance(m')
  }

  /** Executing the word `w` from state `m`. */
  function Execute(m: Machine, w: bv32): (Outcome, Machine)
    requires |m.gprs| == NUM_GPREG
  {
    var i := LegacyInstruction.New(w);
    var opcode := LegacyInstruction.GetOpcode(i);
    var rs := Rs(i);
    var rt := Rt(i);
    var imm := Immediate(i);
    if opcode == MTC0 then
      MoveToCp0(m, LegacyInstruction.GetBits(i, 11, 5) as u32, rt)
    else if opcode == ORI then
      Advance(m.(gprs := SetGpr(m.gprs, rt, Ori(ReadGpr(m.gprs, rs), imm))))
    else if opcode == LUI then
      Advance(m.(gprs := SetGpr(m.gprs, rt, N64Opcode.Lui(imm))))
    else if opcode == LW then
      if LwAddress(ReadGpr(m.gprs, rs), imm) & 0x3 != 0 then (Fail(AddressError), m)
      else (Fail(LoadNotImplemented), m)
    else
      (Fail(UnrecognisedInstruction), m)
  }

  /** `run_instruction` from state `m`: fetch, then execute. */
  function Step(bus: LegacyBus.Bus, m: Machine): (Outcome, Machine)
    requires |m.gprs| == NUM_GPREG
  {
    match Fetch(bus, m.pc)
    case Err(f) => (Fail(f), m)
    case Ok(w) => Execute(m, w)
  }

  // ---------------------------------------------------------------------------
  // What one instruction does

  /** An instruction that completes moves the program counter on by exactly
      four bytes and keeps the register file's size. */
  lemma StepAdvances(bus: LegacyBus.Bus, m: Machine)
    requires |m.gprs| == NUM_GPREG
    ensures |Step(bus, m).1.gprs| == NUM_GPREG
    ensures Step(bus, m).0.Pass? ==> Step(bus, m).1.pc == m.pc + 4
  {
  }

  /** A fetch that panics, LW, an unknown opcode and MTC0 to a register other
      than Status all stop the machine without changing it. */
  lemma StepFailsUnchanged(bus: LegacyBus.Bus, m: Machine)
    requires |m.gprs| == NUM_GPREG
    ensures Fetch(bus, m.pc).Err? ==> Step(bus, m) == (Fail(Fetch(bus, m.pc).fault), m)
    ensures Fetch(bus, m.pc).Ok? ==>
      var i := LegacyInstruction.New(Fetch(bus, m.pc).value);
      var opcode := LegacyInstruction.GetOpcode(i);
      (opcode == LW ==> Step(bus, m).0.Fail? && Step(bus, m).1 == m) &&
      (opcode !in {MTC0, ORI, LUI, LW} ==> Step(bus, m) == (Fail(UnrecognisedInstruction), m)) &&
      (opcode == MTC0 && LegacyInstruction.GetBits(i, 11, 5) != 12 ==>
        Step(bus, m) == (Fail(UnrecognisedCp0Write), m))
  {
  }

  /** LW always panics: with an address error when the address is not
      word-aligned, and with the diagnostic panic otherwise. */
  lemma LoadAlwaysPanics(m: Machine, w: bv32)
    requires |m.gprs| == NUM_GPREG
    requires LegacyInstruction.GetOpcode(LegacyInstruction.New(w)) == LW
    ensures var i := LegacyInstruction.New(w);
      var addr := LwAddress(ReadGpr(m.gprs, Rs(i)),
                            Immediate(i));
      Execute(m, w) == (Fail(if addr & 0x3 != 0 then AddressError else LoadNotImplemented), m)
  {
  }

  /** ORI and LUI write register rt, which then reads back as the computed
      value unless rt is register 0, and no other register changes. */
  lemma ImmediateWritesTarget(m: Machine, w: bv32, k: nat)
    requires |m.gprs| == NUM_GPREG && k < NUM_GPREG
    requires LegacyInstruction.GetOpcode(LegacyInstruction.New(w)) in {ORI, LUI}
    requires m.pc + 4 < 0x1_0000_0000_0000_0000
    ensures var i := LegacyInstruction.New(w);
      var rs := Rs(i);
      var rt := Rt(i);
      var imm := Immediate(i);
      var v := if LegacyInstruction.GetOpcode(i) == ORI then Ori(ReadGpr(m.gprs, rs), imm) else N64Opcode.Lui(imm);
      var r := Execute(m, w);
      r.0 == Pass && r.1.pc == m.pc + 4 && r.1.status == m.status && r.1.gprs == SetGpr(m.gprs, rt, v) &&
      ReadGpr(SetGpr(m.gprs, rt, v), k) == (if k == rt && k != 0 then v else ReadGpr(m.gprs, k))
  {
    var i := LegacyInstruction.New(w);
    var rs := Rs(i);
    var rt := Rt(i);
    var imm := Immediate(i);
    var v := if LegacyInstruction.GetOpcode(i) == ORI then Ori(ReadGpr(m.gprs, rs), imm) else N64Opcode.Lui(imm);
    ReadAfterWrite(m.gprs, rt, k, v);
  }

  /** MTC0 to Status writes the low word of register rt into it and leaves the
      registers alone; it completes unless KSU in that word is 0b11. */
  lemma MoveToStatus(m: Machine, w: bv32)
    requires |m.gprs| == NUM_GPREG
    requires LegacyInstruction.GetOpcode(LegacyInstruction.New(w)) == MTC0
    requires LegacyInstruction.GetBits(LegacyInstruction.New(w), 11, 5) == 12
    ensures var rt := Rt(LegacyInstruction.New(w));
      var data := LegacyCp0.StatusWord(ReadGpr(m.gprs, rt));
      var r := Execute(m, w);
      r.1.status == LegacyRegStatus.Written(m.status, data) && r.1.gprs == m.gprs &&
      (r.0.Pass? <==> N.ModeFrom(data).Ok? && m.pc + 4 < 0x1_0000_0000_0000_0000)
  {
  }

  // ---------------------------------------------------------------------------
  // The CPU object

  class Cpu {
    const gprs: array<bv64>
    var pc: u64
    const cp0: LegacyCp0.Cp0
    const bus: LegacyBus.Bus

    predicate Valid()
    {
      gprs.Length == NUM_GPREG && cp0.Valid()
    }

    function State(): Machine
      reads this, gprs, cp0.regStatus, cp0.regStatus.coprocUsability, cp0.regStatus.diagStatus
      reads cp0.regStatus.interruptMask, cp0.regStatus.interruptMask.external
      reads cp0.regStatus.interruptMask.software
    {
      Machine(gprs[..], pc, cp0.Status())
    }

    /** `Cpu::new`: every register zero, the program counter zero, a default
        coprocessor 0. */
    constructor New(b: LegacyBus.Bus)
      ensures Valid() && bus == b
      ensures State() == Machine(seq(NUM_GPREG, _ => 0), 0, N.Default())
      ensures cp0.Config() == LegacyRegConfig.DEFAULT
    {
      gprs := new bv64[NUM_GPREG](_ => 0);
      pc := 0;
      cp0 := new LegacyCp0.Cp0();
      bus := b;
      new;
      assert gprs[..] == seq(NUM_GPREG, _ => 0);
    }

    /** `power_on_reset`: resets coprocessor 0's Config register and points
        the program counter at the PIF boot ROM. The registers and Status
        are outside the frame. */
    method PowerOnReset()
      modifies this, cp0.regConfig
      ensures pc == PIF_ROM_START
      ensures cp0.Config() == old(cp0.Config()).(ep := LegacyRegConfig.D, be := LegacyRegConfig.BigEndian)
    {
      cp0.PowerOnReset();
      pc := PIF_ROM_START;
    }

    /** `write_gpr`. */
    method WriteGpr(index: nat, value: bv64)
      requires Valid() && index < NUM_GPREG
      modifies gprs
      ensures gprs[..] == SetGpr(old(gprs[..]), index, value)
    {
      if index != 0 {
        gprs[index] := value;
      }
    }

    /** `run_instruction`. A panic leaves whatever was written before it:
        an MTC0 that fails on KSU has already written part of Status, and an
        instruction whose program counter step overflows has already written
        its register. */
    method RunInstruction() returns (out: Outcome)
      requires Valid()
      modifies this, gprs, cp0.regStatus, cp0.regStatus.coprocUsability, cp0.regStatus.diagStatus
      modifies cp0.regStatus.interruptMask, cp0.regStatus.interruptMask.external
      modifies cp0.regStatus.interruptMask.software
      ensures (out, State()) == Step(bus, old(State()))
    {
      var fetched := Fetch(bus, pc);
      if fetched.Err? {
        return Fail(fetched.fault);
      }
      out := ExecuteWord(fetched.value);
    }

    /** The body of `run_instruction` once the word is fetched. */
    method ExecuteWord(w: bv32) returns (out: Outcome)
      requires Valid()
      modifies this, gprs, cp0.regStatus, cp0.regStatus.coprocUsability, cp0.regStatus.diagStatus
      modifies cp0.regStatus.interruptMask, cp0.regStatus.interruptMask.external
      modifies cp0.regStatus.interruptMask.software
      ensures (out, State()) == Execute(old(State()), w)
    {
      ghost var m := State();
      var instruction := LegacyInstruction.New(w);
      var opcode := LegacyInstruction.GetOpcode(instruction);
      var rs := Rs(instruction);
      var rt := Rt(instruction);
      var imval := Immediate(instruction);
      if opcode == MTC0 {
        var rd := LegacyInstruction.GetBits(instruction, 11, 5) as u32;
        out := MoveToCoprocessor(rd, rt);
      } else if opcode == ORI || opcode == LUI {
        var value := if opcode == ORI then Ori(ReadGpr(gprs[..], rs), imval) else N64Opcode.Lui(imval);
        assert Execute(m, w) == Advance(m.(gprs := SetGpr(m.gprs, rt, value)));
        WriteGpr(rt, value);
        out := AdvancePc();
      } else if opcode == LW {
        var base := ReadGpr(gprs[..], rs);
        var vaddr := LwAddress(base, imval);
        if vaddr & 0x3 != 0 {
          return Fail(AddressError);
        }
        return Fail(LoadNotImplemented);
      } else {
        return Fail(UnrecognisedInstruction);
      }
    }

    /** MTC0 with its register fields decoded. */
    method MoveToCoprocessor(rd: u32, rt: nat) returns (out: Outcome)
      requires Valid() && rt < NUM_GPREG
      modifies this, cp0.regStatus, cp0.regStatus.coprocUsability, cp0.regStatus.diagStatus
      modifies cp0.regStatus.interruptMask, cp0.regStatus.interruptMask.external
      modifies cp0.regStatus.interruptMask.software
      ensures (out, State()) == MoveToCp0(old(State()), rd, rt)
    {
      var data := ReadGpr(gprs[..], rt);
      out := cp0.WriteReg(rd, data);
      if out.Fail? {
        return;
      }
      out := AdvancePc();
    }

    /** `reg_pc += 4`. */
    method AdvancePc() returns (out: Outcome)
      modifies this
      ensures (out, State()) == Advance(old(State()))
    {
      if pc + 4 >= 0x1_0000_0000_0000_0000 {
        return Fail(ArithmeticOverflow);
      }
      pc := pc + 4;
      out := Pass;
    }
  }
}
