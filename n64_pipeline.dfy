/** One in-flight instruction of the newer core (src/n64/cpu/pipeline.rs):
    a ten-phase stage automaton (IF, RF, EX, DC, WB, two phases each) that
    fetches in IF phase 2, decodes in RF phase 2, executes in EX phase 1 and
    commits to the register file in WB phase 1.

    The behaviour of a cycle is the function `Cycle` on values; the class
    `Pipeline` updates its fields in place and is proved to follow it. */
module N64Pipeline {
  import opened Faults
  import opened Words
  import N64Opcode
  import N64Registers
  import N64Instruction
  import N64VirtualAddress
  import N64Bus

  // ---------------------------------------------------------------------------
  // Stages

  datatype Stage =
    | IF(phase: nat)
    | RF(phase: nat)
    | EX(phase: nat)
    | DC(phase: nat)
    | WB(phase: nat)
    | COMPLETE(phase: nat)

  /** The stages a pipeline can be in: phase 1 or 2 of the five stages, or
      COMPLETE(0). */
  predicate Canonical(s: Stage)
  {
    if s.COMPLETE? then s.phase == 0 else s.phase == 1 || s.phase == 2
  }

  /** How many phases a canonical stage is past IF phase 1. */
  function Position(s: Stage): nat
    requires Canonical(s)
  {
    match s
    case IF(p) => p - 1
    case RF(p) => 2 + p - 1
    case EX(p) => 4 + p - 1
    case DC(p) => 6 + p - 1
    case WB(p) => 8 + p - 1
    case COMPLETE(_) => 10
  }

  /** `next_stage`: phase 1 goes to phase 2, phase 2 to the next stage's
      phase 1, WB phase 2 to COMPLETE(0), which stays where it is. */
  function NextStage(s: Stage): (r: Stage)
    ensures Canonical(s) ==> Canonical(r)
    ensures Canonical(s) ==> Position(r) == if Position(s) < 10 then Position(s) + 1 else 10
    ensures r.COMPLETE? <==> s == WB(2) || s.COMPLETE?
  {
    match s
    case IF(p) => if p == 2 then RF(1) else IF(p + 1)
    case RF(p) => if p == 2 then EX(1) else RF(p + 1)
    case EX(p) => if p == 2 then DC(1) else EX(p + 1)
    case DC(p) => if p == 2 then WB(1) else DC(p + 1)
    case WB(p) => if p == 2 then COMPLETE(0) else WB(p + 1)
    case COMPLETE(_) => COMPLETE(0)
  }

  /** The stage after `n` steps. */
  function StageAfter(s: Stage, n: nat): Stage
    decreases n
  {
    if n == 0 then s else StageAfter(NextStage(s), n - 1)
  }

  /** Each step moves a canonical stage one phase on, until COMPLETE(0). */
  lemma {:induction false} StageAfterPosition(s: Stage, n: nat)
    requires Canonical(s)
    ensures Canonical(StageAfter(s, n))
    ensures Position(StageAfter(s, n)) == if Position(s) + n < 10 then Position(s) + n else 10
    decreases n
  {
    if n > 0 {
      StageAfterPosition(NextStage(s), n - 1);
    }
  }

  /** Of the canonical stages, only COMPLETE(0) is ten phases on. */
  lemma CompleteAtTen(s: Stage)
    requires Canonical(s)
    ensures s == COMPLETE(0) <==> Position(s) == 10
  {
  }

  /** A new pipeline is complete after exactly ten steps, and stays so. */
  lemma CompletesAfterTen(n: nat)
    ensures StageAfter(IF(1), n) == COMPLETE(0) <==> n >= 10
  {
    StageAfterPosition(IF(1), n);
    CompleteAtTen(StageAfter(IF(1), n));
  }

  // ---------------------------------------------------------------------------
  // Pipeline contents as values

  /** The registers an instruction names together with the value it will
      write to its target, once executed. */
  datatype Hazard = Hazard(used: N64Registers.RegistersUsed, target: Option<bv64>)

  /** The fields of a pipeline. */
  datatype Snapshot = Snapshot(
    stage: Stage,
    stalled: bool,
    instruction: Option<bv32>,
    opcode: Option<N64Opcode.Opcode>,
    special: Option<N64Opcode.OpcodeSpecial>,
    regimm: Option<N64Opcode.OpcodeRegimm>,
    result: Option<bv64>,
    regUsed: Option<Hazard>)

  /** `Pipeline::new`: IF phase 1, not stalled, every slot empty. */
  function Fresh(): Snapshot
  {
    Snapshot(IF(1), false, None, None, None, None, None, None)
  }

  /** The CPU state a cycle reads and writes: the program counter and the
      general-purpose registers. */
  datatype Machine = Machine(pipe: Snapshot, pc: u64, gprs: seq<bv64>)

  /** `u64::wrapping_add`. */
  function WrappingAdd(a: u64, b: u64): (r: u64)
    ensures a + b < 0x1_0000_0000_0000_0000 ==> r == a + b
    ensures a + b >= 0x1_0000_0000_0000_0000 ==> r == a + b - 0x1_0000_0000_0000_0000
  {
    (a + b) % 0x1_0000_0000_0000_0000
  }

  /** The word the fetch stage reads at virtual address `pc`: translated to
      a physical address, then read from the bus. Only kseg1 is fetched from,
      as the bus word at the offset of `pc` from the segment's base; any other
      segment panics, and so does a kseg1 bit pattern below the base. */
  function Fetch(bus: N64Bus.Bus, pc: u64): (r: Result<bv32>)
    reads bus, bus.pif, bus.pif.ram, bus.rsp, bus.vi, bus.ai, bus.si, bus.rdram, bus.rdram.mem
    ensures N64VirtualAddress.KSEG1_BASE <= pc <= N64VirtualAddress.KSEG1_LAST ==>
      r == bus.ReadWord(pc - N64VirtualAddress.KSEG1_BASE)
    ensures N64VirtualAddress.SegmentBits(pc) != N64VirtualAddress.KSEG1_BITS ==>
      r == Err(UnrecognisedVirtualAddress)
    ensures N64VirtualAddress.SegmentBits(pc) == N64VirtualAddress.KSEG1_BITS && pc < N64VirtualAddress.KSEG1_BASE ==>
      r == Err(ArithmeticOverflow)
  {
    match N64VirtualAddress.ToPaddr(pc)
    case Err(f) => Err(f)
    case Ok(p) => bus.ReadWord(p)
  }

  /** RF phase 2: with an instruction fetched, the registers it names and
      its opcode, the SPECIAL or REGIMM sub-opcode going to its own slot. */
  function Decoding(s: Snapshot): (r: Result<Snapshot>)
  {
    match s.instruction
    case None => Ok(s)
    case Some(w) =>
      var used := N64Instruction.GetRequiredRegisters(w);
      if used.Err? then Err(used.fault)
      else
        match N64Instruction.Decode(w)
        case Err(f) => Err(f)
        case Ok(d) =>
          Ok(s.(regUsed := Some(Hazard(used.value, None)),
                opcode := Some(N64Instruction.PrimaryOf(d)),
                special := (match d case Special(sp) => Some(sp) case _ => s.special),
                regimm := (match d case Regimm(ri) => Some(ri) case _ => s.regimm)))
  }

  /** EX phase 1: with an instruction and an opcode, the registers recorded
      at decode must be there; SPECIAL and REGIMM need their sub-opcode, and
      any other opcode runs its execute phases, whose result becomes the
      value to write back. */
  function Executing(s: Snapshot): (r: Result<Snapshot>)
  {
    match s.instruction
    case None => Ok(s)
    case Some(w) =>
      match s.opcode
      case None => Ok(s)
      case Some(op) =>
        match s.regUsed
        case None => Err(UnwrapNone)
        case Some(h) =>
          if op == N64Opcode.SPECIAL then
            if s.special.None? then Err(UnwrapNone) else Ok(s)
          else if op == N64Opcode.REGIMM then
            if s.regimm.None? then Err(UnwrapNone) else Ok(s)
          else
            var imm := N64Instruction.Immediate(w);
            var p1 := N64Opcode.ExPhase1(op, h.used, imm);
            if p1.Fail? then Err(p1.fault)
            else
              match N64Opcode.ExPhase2(op, h.used, imm)
              case Err(f) => Err(f)
              case Ok(v) => Ok(s.(regUsed := Some(Hazard(h.used, v.rt))))
  }

  /** WB phase 1: the register file after writing the target value, if
      there is one, to the target register. */
  function Commit(s: Snapshot, gprs: seq<bv64>): (r: Result<seq<bv64>>)
  {
    match s.regUsed
    case None => Ok(gprs)
    case Some(h) =>
      match h.used.rt
      case None => Err(UnwrapNone)
      case Some(rt) =>
        match h.target
        case None => Ok(gprs)
        case Some(v) => N64Registers.WriteGpr(gprs, rt, v)
  }

  /** The work of the current phase, before the stage advances. Phases other
      than 1 and 2 of IF do nothing; of the other stages they are
      unreachable. */
  function Work(m: Machine, fetched: Result<bv32>): Result<Machine>
  {
    match m.pipe.stage
    case IF(p) =>
      if p != 2 then Ok(m)
      else
        (match fetched
         case Err(f) => Err(f)
         case Ok(w) =>
           Ok(m.(pipe := m.pipe.(instruction := Some(w)),
                 pc := WrappingAdd(m.pc, N64Instruction.INSTRUCTION_SIZE))))
    case RF(p) =>
      if p == 1 then Ok(m)
      else if p == 2 then
        (match Decoding(m.pipe)
         case Err(f) => Err(f)
         case Ok(s) => Ok(m.(pipe := s)))
      else Err(Unreachable)
    case EX(p) =>
      if p == 1 then
        (match Executing(m.pipe)
         case Err(f) => Err(f)
         case Ok(s) => Ok(m.(pipe := s)))
      else if p == 2 then Ok(m)
      else Err(Unreachable)
    case DC(p) =>
      if p == 1 || p == 2 then Ok(m) else Err(Unreachable)
    case WB(p) =>
      if p == 1 then
        (match Commit(m.pipe, m.gprs)
         case Err(f) => Err(f)
         case Ok(g) => Ok(m.(gprs := g)))
      else if p == 2 then Ok(m)
      else Err(Unreachable)
    case COMPLETE(_) => Ok(m)
  }

  /** `run_cycle`: a stalled pipeline does nothing; otherwise the phase's
      work, then the next stage. `fetched` is what the bus gives for the
      program counter. */
  function Cycle(m: Machine, fetched: Result<bv32>): Result<Machine>
  {
    if m.pipe.stalled then Ok(m)
    else
      match Work(m, fetched)
      case Err(f) => Err(f)
      case Ok(n) => Ok(n.(pipe := n.pipe.(stage := NextStage(m.pipe.stage))))
  }

  /** `run_cycle` once per fetched word, stopping at the first panic. */
  function Run(m: Machine, fetched: seq<Result<bv32>>): Result<Machine>
    decreases |fetched|
  {
    if |fetched| == 0 then Ok(m)
    else
      match Cycle(m, fetched[0])
      case Err(f) => Err(f)
      case Ok(n) => Run(n, fetched[1..])
  }

  // ---------------------------------------------------------------------------
  // Properties of a cycle

  /** A stalled pipeline neither works nor advances. */
  lemma StalledDoesNothing(m: Machine, fetched: Result<bv32>)
    requires m.pipe.stalled
    ensures Cycle(m, fetched) == Ok(m)
  {
  }

  /** A cycle that does not panic moves the stage on by one and leaves the
      stall flag and the result slot alone. */
  lemma CycleAdvancesStage(m: Machine, fetched: Result<bv32>)
    requires !m.pipe.stalled && Cycle(m, fetched).Ok?
    ensures Cycle(m, fetched).value.pipe.stage == NextStage(m.pipe.stage)
    ensures !Cycle(m, fetched).value.pipe.stalled
    ensures Cycle(m, fetched).value.pipe.result == m.pipe.result
  {
  }

  /** Only IF phase 2 fetches and moves the program counter, by one
      instruction, wrapping around at 2^64. */
  lemma PcOnlyInFetch(m: Machine, fetched: Result<bv32>)
    requires Cycle(m, fetched).Ok?
    ensures !m.pipe.stalled && m.pipe.stage == IF(2) ==>
      Cycle(m, fetched).value.pc == WrappingAdd(m.pc, N64Instruction.INSTRUCTION_SIZE) &&
      fetched.Ok? && Cycle(m, fetched).value.pipe.instruction == Some(fetched.value)
    ensures m.pipe.stalled || m.pipe.stage != IF(2) ==>
      Cycle(m, fetched).value.pc == m.pc &&
      Cycle(m, fetched).value.pipe.instruction == m.pipe.instruction
  {
  }

  /** Only WB phase 1 writes the register file. */
  lemma GprsOnlyInWriteback(m: Machine, fetched: Result<bv32>)
    requires Cycle(m, fetched).Ok?
    requires m.pipe.stalled || m.pipe.stage != WB(1)
    ensures Cycle(m, fetched).value.gprs == m.gprs
  {
  }

  /** WB phase 1 writes the target value to the target register and to no
      other; without a target value it writes nothing. */
  lemma WritebackWritesTarget(m: Machine, fetched: Result<bv32>, used: N64Registers.RegistersUsed, target: Option<bv64>, j: nat)
    requires !m.pipe.stalled && m.pipe.stage == WB(1)
    requires m.pipe.regUsed == Some(Hazard(used, target))
    requires used.rt.Some? && used.rt.value < |m.gprs|
    ensures Cycle(m, fetched).Ok?
    ensures target.None? ==> Cycle(m, fetched).value.gprs == m.gprs
    ensures target.Some? ==> Cycle(m, fetched).value.gprs[used.rt.value] == target.value
    ensures j != used.rt.value ==>
      N64Registers.ReadGpr(Cycle(m, fetched).value.gprs, j) == N64Registers.ReadGpr(m.gprs, j)
  {
  }

  /** RF phase 2 gets past `get_required_registers` only for LUI, so it
      records LUI with its target and source registers and leaves both
      sub-opcode slots as they were. */
  lemma DecodingOnlyLui(s: Snapshot, w: bv32)
    requires s.instruction == Some(w)
    ensures Decoding(s).Ok? <==> N64Instruction.Decode(w) == Ok(N64Instruction.Primary(N64Opcode.LUI))
    ensures Decoding(s).Ok? ==> Decoding(s).value == s.(
      opcode := Some(N64Opcode.LUI),
      regUsed := Some(Hazard(N64Registers.IType(N64Instruction.TargetImmediate(w), N64Instruction.Source(w)), None)))
  {
  }

  /** EX phase 1 of a decoded LUI computes the sign-extended, shifted
      immediate as the value to write back; an opcode without an execute
      phase panics. */
  lemma ExecutingLui(s: Snapshot, w: bv32, h: Hazard)
    requires s.instruction == Some(w) && s.regUsed == Some(h) && s.opcode.Some?
    ensures s.opcode == Some(N64Opcode.LUI) ==>
      Executing(s) == Ok(s.(regUsed := Some(Hazard(h.used, Some(N64Opcode.LuiValue(N64Instruction.Immediate(w)))))))
    ensures s.opcode.value !in {N64Opcode.LUI, N64Opcode.SPECIAL, N64Opcode.REGIMM} ==>
      Executing(s) == Err(UnknownExecution)
  {
    if s.opcode == Some(N64Opcode.LUI) {
      N64Registers.TargetRoundTrip(N64Opcode.LuiValue(N64Instruction.Immediate(w)));
    }
  }

  /** The stage after a run that did not panic is the stage `n` steps on. */
  lemma {:induction false} RunStages(m: Machine, fetched: seq<Result<bv32>>)
    requires !m.pipe.stalled && Run(m, fetched).Ok?
    ensures Run(m, fetched).value.pipe.stage == StageAfter(m.pipe.stage, |fetched|)
    ensures !Run(m, fetched).value.pipe.stalled
    decreases |fetched|
  {
    if |fetched| > 0 {
      CycleAdvancesStage(m, fetched[0]);
      RunStages(Cycle(m, fetched[0]).value, fetched[1..]);
    }
  }

  /** A new pipeline that does not panic is complete after exactly ten
      cycles, and stays complete. */
  lemma FreshCompletesAfterTen(pc: u64, gprs: seq<bv64>, fetched: seq<Result<bv32>>)
    requires Run(Machine(Fresh(), pc, gprs), fetched).Ok?
    ensures Run(Machine(Fresh(), pc, gprs), fetched).value.pipe.stage == COMPLETE(0) <==> |fetched| >= 10
  {
    RunStages(Machine(Fresh(), pc, gprs), fetched);
    CompletesAfterTen(|fetched|);
  }

  /** The phases without work only advance the stage. */
  lemma IdlePhase(m: Machine, fetched: Result<bv32>)
    requires !m.pipe.stalled
    requires m.pipe.stage in {IF(1), RF(1), EX(2), DC(1), DC(2), WB(2)}
    ensures Cycle(m, fetched) == Ok(m.(pipe := m.pipe.(stage := NextStage(m.pipe.stage))))
  {
  }

  /** A run is its first cycle followed by the rest of the run. */
  lemma RunFirst(m: Machine, n: Machine, fetched: seq<Result<bv32>>)
    requires |fetched| > 0 && Cycle(m, fetched[0]) == Ok(n)
    ensures Run(m, fetched) == Run(n, fetched[1..])
  {
  }

  /** The pipeline holding the LUI word `w` once RF phase 2 has decoded it,
      and once EX phase 1 has computed its value. */
  function LuiDecoded(w: bv32): Snapshot
  {
    Fresh().(instruction := Some(w), opcode := Some(N64Opcode.LUI),
             regUsed := Some(Hazard(N64Registers.IType(N64Instruction.TargetImmediate(w), N64Instruction.Source(w)), None)))
  }

  function LuiExecuted(w: bv32): Snapshot
  {
    LuiDecoded(w).(regUsed := Some(Hazard(
      N64Registers.IType(N64Instruction.TargetImmediate(w), N64Instruction.Source(w)),
      Some(N64Opcode.LuiValue(N64Instruction.Immediate(w))))))
  }

  /** IF and RF of a LUI word: fetched, the program counter one instruction
      on, decoded, and in EX phase 1. */
  lemma LuiFetchDecode(pc: u64, gprs: seq<bv64>, w: bv32, fetched: seq<Result<bv32>>)
    requires |fetched| >= 4 && fetched[1] == Ok(w)
    requires N64Instruction.Decode(w) == Ok(N64Instruction.Primary(N64Opcode.LUI))
    ensures Run(Machine(Fresh(), pc, gprs), fetched) ==
      Run(Machine(LuiDecoded(w).(stage := EX(1)), WrappingAdd(pc, N64Instruction.INSTRUCTION_SIZE), gprs), fetched[4..])
  {
    var pc' := WrappingAdd(pc, N64Instruction.INSTRUCTION_SIZE);
    var fetchedWord := Fresh().(instruction := Some(w));
    DecodingOnlyLui(fetchedWord, w);
    var m0 := Machine(Fresh(), pc, gprs);
    var m1 := Machine(Fresh().(stage := IF(2)), pc, gprs);
    var m2 := Machine(fetchedWord.(stage := RF(1)), pc', gprs);
    var m3 := Machine(fetchedWord.(stage := RF(2)), pc', gprs);
    IdlePhase(m0, fetched[0]);
    RunFirst(m0, m1, fetched);
    RunFirst(m1, m2, fetched[1..]);
    IdlePhase(m2, fetched[2]);
    RunFirst(m2, m3, fetched[2..]);
    RunFirst(m3, Machine(LuiDecoded(w).(stage := EX(1)), pc', gprs), fetched[3..]);
  }

  /** EX and DC of a decoded LUI: the value computed, and in WB phase 1. */
  lemma LuiExecute(pc: u64, gprs: seq<bv64>, w: bv32, fetched: seq<Result<bv32>>)
    requires |fetched| >= 4
    ensures Run(Machine(LuiDecoded(w).(stage := EX(1)), pc, gprs), fetched) ==
      Run(Machine(LuiExecuted(w).(stage := WB(1)), pc, gprs), fetched[4..])
  {
    var h := Hazard(N64Registers.IType(N64Instruction.TargetImmediate(w), N64Instruction.Source(w)), None);
    ExecutingLui(LuiDecoded(w).(stage := EX(1)), w, h);
    var m4 := Machine(LuiDecoded(w).(stage := EX(1)), pc, gprs);
    var m5 := Machine(LuiExecuted(w).(stage := EX(2)), pc, gprs);
    var m6 := Machine(LuiExecuted(w).(stage := DC(1)), pc, gprs);
    var m7 := Machine(LuiExecuted(w).(stage := DC(2)), pc, gprs);
    RunFirst(m4, m5, fetched);
    IdlePhase(m5, fetched[1]);
    RunFirst(m5, m6, fetched[1..]);
    IdlePhase(m6, fetched[2]);
    RunFirst(m6, m7, fetched[2..]);
    IdlePhase(m7, fetched[3]);
    RunFirst(m7, Machine(LuiExecuted(w).(stage := WB(1)), pc, gprs), fetched[3..]);
  }

  /** WB of an executed LUI: the value in the target register, and done. */
  lemma LuiWriteback(pc: u64, gprs: seq<bv64>, w: bv32, fetched: seq<Result<bv32>>)
    requires |fetched| == 2
    requires N64Instruction.TargetImmediate(w) < |gprs|
    ensures Run(Machine(LuiExecuted(w).(stage := WB(1)), pc, gprs), fetched) ==
      Ok(Machine(LuiExecuted(w).(stage := COMPLETE(0)), pc,
                 gprs[N64Instruction.TargetImmediate(w) := N64Opcode.LuiValue(N64Instruction.Immediate(w))]))
  {
    var g := gprs[N64Instruction.TargetImmediate(w) := N64Opcode.LuiValue(N64Instruction.Immediate(w))];
    var m8 := Machine(LuiExecuted(w).(stage := WB(1)), pc, gprs);
    var m9 := Machine(LuiExecuted(w).(stage := WB(2)), pc, g);
    RunFirst(m8, m9, fetched);
    IdlePhase(m9, fetched[1]);
    RunFirst(m9, Machine(LuiExecuted(w).(stage := COMPLETE(0)), pc, g), fetched[1..]);
  }

  /** A LUI word fetched by a new pipeline runs to completion in ten cycles,
      advancing the program counter by one instruction and writing the
      shifted, sign-extended immediate to its target register only. */
  lemma LuiRetires(pc: u64, gprs: seq<bv64>, w: bv32, fetched: seq<Result<bv32>>)
    requires |fetched| == 10 && fetched[1] == Ok(w)
    requires N64Instruction.Decode(w) == Ok(N64Instruction.Primary(N64Opcode.LUI))
    requires N64Instruction.TargetImmediate(w) < |gprs|
    ensures Run(Machine(Fresh(), pc, gprs), fetched).Ok?
    ensures Run(Machine(Fresh(), pc, gprs), fetched).value.pipe.stage == COMPLETE(0)
    ensures Run(Machine(Fresh(), pc, gprs), fetched).value.pc == WrappingAdd(pc, N64Instruction.INSTRUCTION_SIZE)
    ensures Run(Machine(Fresh(), pc, gprs), fetched).value.gprs ==
      gprs[N64Instruction.TargetImmediate(w) := N64Opcode.LuiValue(N64Instruction.Immediate(w))]
  {
    var pc' := WrappingAdd(pc, N64Instruction.INSTRUCTION_SIZE);
    LuiFetchDecode(pc, gprs, w, fetched);
    LuiExecute(pc', gprs, w, fetched[4..]);
    assert fetched[4..][4..] == fetched[8..];
    LuiWriteback(pc', gprs, w, fetched[8..]);
  }

  /** The phase's work never moves the stage: only the end of a cycle
      does. */
  lemma WorkKeepsStage(m: Machine, fetched: Result<bv32>)
    ensures Work(m, fetched).Ok? ==> Work(m, fetched).value.pipe.stage == m.pipe.stage
  {
  }

  /** An unstalled cycle is the phase's work followed by the stage step. */
  lemma CycleIsWork(m: Machine, fetched: Result<bv32>)
    requires !m.pipe.stalled
    ensures Work(m, fetched).Err? ==> Cycle(m, fetched) == Err(Work(m, fetched).fault)
    ensures Work(m, fetched).Ok? ==>
      Cycle(m, fetched) == Ok(Work(m, fetched).value.(pipe := Work(m, fetched).value.pipe.(stage := NextStage(m.pipe.stage))))
  {
  }

  // ---------------------------------------------------------------------------
  // The pipeline object

  class Pipeline {
    var stage: Stage
    var stalled: bool
    var instruction: Option<bv32>
    var opcode: Option<N64Opcode.Opcode>
    var opcodeSpecial: Option<N64Opcode.OpcodeSpecial>
    var opcodeRegimm: Option<N64Opcode.OpcodeRegimm>
    var result: Option<bv64>
    var regUsed: Option<Hazard>

    /** The fields as one value. */
    function Slots(): Snapshot
      reads this
    {
      Snapshot(stage, stalled, instruction, opcode, opcodeSpecial, opcodeRegimm, result, regUsed)
    }

    /** `Pipeline::new`. */
    constructor New()
      ensures Slots() == Fresh()
    {
      stage := IF(1);
      stalled := false;
      instruction := None;
      opcode := None;
      opcodeSpecial := None;
      opcodeRegimm := None;
      result := None;
      regUsed := None;
    }

    /** `is_complete`. */
    predicate IsComplete()
      reads this
    {
      stage == COMPLETE(0)
    }

    /** IF phase 2: the word at the program counter, and the program counter
        one instruction on. */
    method FetchPhase(reg: N64Registers.Registers, bus: N64Bus.Bus) returns (out: Outcome)
      modifies this`instruction, reg`pc
      ensures var f := old(Fetch(bus, reg.pc));
        (out.Pass? <==> f.Ok?) &&
        (f.Ok? ==> instruction == Some(f.value) && reg.pc == WrappingAdd(old(reg.pc), N64Instruction.INSTRUCTION_SIZE)) &&
        (f.Err? ==> out.fault == f.fault && instruction == old(instruction) && reg.pc == old(reg.pc))
    {
      var paddr := N64VirtualAddress.ToPaddr(reg.pc);
      if paddr.Err? {
        return Fail(paddr.fault);
      }
      var word := bus.ReadWord(paddr.value);
      if word.Err? {
        return Fail(word.fault);
      }
      instruction := Some(word.value);
      reg.pc := WrappingAdd(reg.pc, N64Instruction.INSTRUCTION_SIZE);
      out := Pass;
    }

    /** RF phase 2. */
    method DecodePhase() returns (out: Outcome)
      modifies this
      ensures var r := Decoding(old(Slots()));
        (out.Pass? <==> r.Ok?) &&
        (r.Ok? ==> Slots() == r.value) &&
        (r.Err? ==> out.fault == r.fault && Slots() == old(Slots()))
    {
      match instruction {
        case None =>
          return Pass;
        case Some(w) =>
          var used := N64Instruction.GetRequiredRegisters(w);
          if used.Err? {
            return Fail(used.fault);
          }
          regUsed := Some(Hazard(used.value, None));
          var d := N64Instruction.Decode(w).value;
          opcode := Some(N64Instruction.PrimaryOf(d));
          opcodeSpecial := match d case Special(sp) => Some(sp) case _ => opcodeSpecial;
          opcodeRegimm := match d case Regimm(ri) => Some(ri) case _ => opcodeRegimm;
          out := Pass;
      }
    }

    /** EX phase 1. */
    method ExecutePhase() returns (out: Outcome)
      modifies this
      ensures var r := Executing(old(Slots()));
        (out.Pass? <==> r.Ok?) &&
        (r.Ok? ==> Slots() == r.value) &&
        (r.Err? ==> out.fault == r.fault && Slots() == old(Slots()))
    {
      if instruction.None? || opcode.None? {
        return Pass;
      }
      var w := instruction.value;
      var op := opcode.value;
      if regUsed.None? {
        return Fail(UnwrapNone);
      }
      var h := regUsed.value;
      if op == N64Opcode.SPECIAL {
        out := if opcodeSpecial.None? then Fail(UnwrapNone) else Pass;
      } else if op == N64Opcode.REGIMM {
        out := if opcodeRegimm.None? then Fail(UnwrapNone) else Pass;
      } else {
        var imm := N64Instruction.Immediate(w);
        out := N64Opcode.ExPhase1(op, h.used, imm);
        if out.Pass? {
          var values := N64Opcode.ExPhase2(op, h.used, imm).value;
          regUsed := Some(Hazard(h.used, values.rt));
        }
      }
    }

    /** WB phase 1. */
    method WritebackPhase(reg: N64Registers.Registers) returns (out: Outcome)
      modifies reg.gprs
      ensures var r := Commit(Slots(), old(reg.gprs[..]));
        (out.Pass? <==> r.Ok?) &&
        (r.Ok? ==> reg.gprs[..] == r.value) &&
        (r.Err? ==> out.fault == r.fault && reg.gprs[..] == old(reg.gprs[..]))
    {
      match regUsed {
        case None =>
          return Pass;
        case Some(h) =>
          match h.used.rt {
            case None =>
              return Fail(UnwrapNone);
            case Some(rt) =>
              match h.target {
                case None =>
                  return Pass;
                case Some(v) =>
                  out := reg.SetGprVal(rt, v);
              }
          }
      }
    }

    /** The work of the current phase, before the stage advances. */
    method WorkPhase(reg: N64Registers.Registers, bus: N64Bus.Bus) returns (out: Outcome)
      modifies this, reg`pc, reg.gprs
      ensures var c := old(Work(Machine(Slots(), reg.pc, reg.gprs[..]), Fetch(bus, reg.pc)));
        (out.Pass? <==> c.Ok?) &&
        (c.Ok? ==> Machine(Slots(), reg.pc, reg.gprs[..]) == c.value) &&
        (c.Err? ==> out.fault == c.fault)
    {
      match stage {
        case IF(p) =>
          if p == 2 {
            out := FetchPhase(reg, bus);
          } else {
            out := Pass;
          }
        case RF(p) =>
          if p == 1 {
            out := Pass;
          } else if p == 2 {
            out := DecodePhase();
          } else {
            out := Fail(Unreachable);
          }
        case EX(p) =>
          if p == 1 {
            out := ExecutePhase();
          } else {
            out := if p == 2 then Pass else Fail(Unreachable);
          }
        case DC(p) =>
          out := if p == 1 || p == 2 then Pass else Fail(Unreachable);
        case WB(p) =>
          if p == 1 {
            out := WritebackPhase(reg);
          } else {
            out := if p == 2 then Pass else Fail(Unreachable);
          }
        case COMPLETE(_) =>
          out := Pass;
      }
    }

    /** `run_cycle`. The registers used by the pipeline ahead, `prevReg`,
        are not read: nothing is forwarded. */
    method RunCycle(reg: N64Registers.Registers, bus: N64Bus.Bus, prevReg: Option<Hazard>) returns (out: Outcome)
      modifies this, reg`pc, reg.gprs
      ensures var c := old(Cycle(Machine(Slots(), reg.pc, reg.gprs[..]), Fetch(bus, reg.pc)));
        (out.Pass? <==> c.Ok?) &&
        (c.Ok? ==> Machine(Slots(), reg.pc, reg.gprs[..]) == c.value) &&
        (c.Err? ==> out.fault == c.fault)
    {
      if stalled {
        return Pass;
      }
      ghost var before := Machine(Slots(), reg.pc, reg.gprs[..]);
      ghost var fetched := Fetch(bus, reg.pc);
      out := WorkPhase(reg, bus);
      CycleIsWork(before, fetched);
      WorkKeepsStage(before, fetched);
      if out.Pass? {
        stage := NextStage(stage);
      }
    }
  }
}
