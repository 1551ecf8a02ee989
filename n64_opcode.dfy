/** The opcode tables of the newer core (src/n64/cpu/opcode.rs): the primary
    opcodes, the SPECIAL function codes and the REGIMM codes, each with its
    numeric value, and the execute phases, of which only LUI does anything. */
module N64Opcode {
  import opened Faults
  import N64Registers

  datatype Type = IType | RType | JType

  datatype Opcode =
    | SPECIAL | REGIMM | MTC0 | ADDI | ADDIU | ANDI | ORI | LUI
    | BEQ | BEQL | BNE | BNEL | LW | SW

  /** The value each primary opcode stands for (bits 31..26 of the word). */
  function Value(op: Opcode): bv16
  {
    match op
    case SPECIAL => 0x00
    case REGIMM => 0x01
    case MTC0 => 0x10
    case ADDI => 0x08
    case ADDIU => 0x09
    case ANDI => 0x0C
    case ORI => 0x0D
    case LUI => 0x0F
    case BEQ => 0x04
    case BEQL => 0x14
    case BNE => 0x05
    case BNEL => 0x15
    case LW => 0x23
    case SW => 0x2B
  }

  /** `Opcode::from_u16`: the opcode whose value is `v`, if any. */
  function FromU16(v: bv16): (r: Option<Opcode>)
    ensures r.Some? ==> Value(r.value) == v && v < 64
  {
    if v == 0x00 then Some(SPECIAL)
    else if v == 0x01 then Some(REGIMM)
    else if v == 0x10 then Some(MTC0)
    else if v == 0x08 then Some(ADDI)
    else if v == 0x09 then Some(ADDIU)
    else if v == 0x0C then Some(ANDI)
    else if v == 0x0D then Some(ORI)
    else if v == 0x0F then Some(LUI)
    else if v == 0x04 then Some(BEQ)
    else if v == 0x14 then Some(BEQL)
    else if v == 0x05 then Some(BNE)
    else if v == 0x15 then Some(BNEL)
    else if v == 0x23 then Some(LW)
    else if v == 0x2B then Some(SW)
    else None
  }

  /** Every opcode is found again from its value, and every value is a 6-bit
      field, so no two opcodes share a value. */
  lemma FromU16RoundTrip(op: Opcode)
    ensures FromU16(Value(op)) == Some(op)
    ensures Value(op) < 64
  {
  }

  lemma ValuesDistinct(a: Opcode, b: Opcode)
    requires Value(a) == Value(b)
    ensures a == b
  {
    FromU16RoundTrip(a);
    FromU16RoundTrip(b);
  }

  datatype OpcodeSpecial =
    | SLL | SRL | SLLV | SRLV | JR | MFHI | MFLO | MULTU
    | ADDU | SUBU | AND | OR | XOR | SLTU

  /** The value of each SPECIAL function code (bits 5..0 of the word). */
  function SpecialValue(op: OpcodeSpecial): bv16
  {
    match op
    case SLL => 0x00
    case SRL => 0x02
    case SLLV => 0x04
    case SRLV => 0x06
    case JR => 0x08
    case MFHI => 0x10
    case MFLO => 0x12
    case MULTU => 0x19
    case ADDU => 0x21
    case SUBU => 0x23
    case AND => 0x24
    case OR => 0x25
    case XOR => 0x26
    case SLTU => 0x2B
  }

  /** `OpcodeSpecial::from_u16`. */
  function SpecialFromU16(v: bv16): (r: Option<OpcodeSpecial>)
    ensures r.Some? ==> SpecialValue(r.value) == v
  {
    if v == 0x00 then Some(SLL)
    else if v == 0x02 then Some(SRL)
    else if v == 0x04 then Some(SLLV)
    else if v == 0x06 then Some(SRLV)
    else if v == 0x08 then Some(JR)
    else if v == 0x10 then Some(MFHI)
    else if v == 0x12 then Some(MFLO)
    else if v == 0x19 then Some(MULTU)
    else if v == 0x21 then Some(ADDU)
    else if v == 0x23 then Some(SUBU)
    else if v == 0x24 then Some(AND)
    else if v == 0x25 then Some(OR)
    else if v == 0x26 then Some(XOR)
    else if v == 0x2B then Some(SLTU)
    else None
  }

  lemma SpecialRoundTrip(op: OpcodeSpecial)
    ensures SpecialFromU16(SpecialValue(op)) == Some(op)
    ensures SpecialValue(op) < 64
  {
  }

  datatype OpcodeRegimm = BGEZAL

  /** The value of each REGIMM code (bits 20..16 of the word). */
  function RegimmValue(op: OpcodeRegimm): bv16
  {
    0x11
  }

  /** `OpcodeRegimm::from_u16`. */
  function RegimmFromU16(v: bv16): (r: Option<OpcodeRegimm>)
    ensures r.Some? <==> v == 0x11
    ensures r.Some? ==> RegimmValue(r.value) == v
  {
    if v == 0x11 then Some(BGEZAL) else None
  }

  /** A 32-bit word held in the low half of a `u64`, reinterpreted as `i32`
      and widened back to `u64`: the upper word copies bit 31. */
  function SignExtend32(w: bv64): bv64
  {
    if w & 0x8000_0000 == 0 then w else w | 0xFFFF_FFFF_0000_0000
  }

  /** The value LUI loads for the zero-extended immediate `x`:
      `(((x as u32) << 16) as i32) as u64`. */
  function Lui(x: bv64): bv64
  {
    SignExtend32(x << 16)
  }

  /** LUI of a 16-bit immediate. */
  function LuiValue(imm: bv16): bv64
  {
    Lui(imm as bv64)
  }

  lemma ShiftedImmediate(x: bv64)
    requires x < 0x1_0000
    ensures (x << 16) & 0xFFFF_FFFF == x << 16
    ensures ((x << 16) | 0xFFFF_FFFF_0000_0000) & 0xFFFF_FFFF == x << 16
    ensures (x << 16) >> 32 == 0
    ensures ((x << 16) | 0xFFFF_FFFF_0000_0000) >> 32 == 0xFFFF_FFFF
    ensures ((x << 16) & 0x8000_0000 == 0) == (x < 0x8000)
  {
  }

  /** What LUI loads: the immediate shifted into bits 31..16 with zeros below,
      and the upper 32 bits all copies of the immediate's bit 15. */
  lemma {:induction false} LuiFields(x: bv64)
    requires x < 0x1_0000
    ensures Lui(x) & 0xFFFF_FFFF == x << 16
    ensures x < 0x8000 ==> Lui(x) >> 32 == 0
    ensures x >= 0x8000 ==> Lui(x) >> 32 == 0xFFFF_FFFF
  {
    ShiftedImmediate(x);
    if x < 0x8000 {
      assert Lui(x) == x << 16;
    } else {
      assert Lui(x) == (x << 16) | 0xFFFF_FFFF_0000_0000;
    }
  }

  lemma LuiExamples()
    ensures LuiValue(0x1234) == 0x0000_0000_1234_0000
    ensures LuiValue(0xBEEF) == 0xFFFF_FFFF_BEEF_0000
  {
  }

  /** `Opcode::ex_phase1`: only LUI is known; it only traces. */
  function ExPhase1(op: Opcode, values: N64Registers.RegistersUsed, imm: bv16): (r: Outcome)
    ensures r.Pass? <==> op == LUI
    ensures r.Fail? ==> r.fault == UnknownExecution
  {
    if op == LUI then Pass else Fail(UnknownExecution)
  }

  /** `Opcode::ex_phase2`: LUI yields its loaded value as the target; any
      other opcode panics. */
  function ExPhase2(op: Opcode, values: N64Registers.RegistersUsed, imm: bv16): (r: Result<N64Registers.RegisterValues>)
    ensures r.Ok? <==> op == LUI
    ensures r.Ok? ==> N64Registers.GetTargetValue(r.value) == Ok(LuiValue(imm))
    ensures r.Err? ==> r.fault == UnknownExecution
  {
    if op == LUI then Ok(N64Registers.Target(LuiValue(imm))) else Err(UnknownExecution)
  }

  /** `get_type`, taking the already decoded opcode: only LUI has a type. */
  function GetType(op: Opcode): (r: Result<Type>)
    ensures r.Ok? <==> op == LUI
    ensures r.Ok? ==> r.value == IType
    ensures r.Err? ==> r.fault == UnknownInstructionType
  {
    if op == LUI then Ok(IType) else Err(UnknownInstructionType)
  }
}
