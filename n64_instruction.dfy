/** Instruction words of the newer core (src/n64/cpu/instruction.rs): bit
    fields, the opcode lookup that flattens the SPECIAL, REGIMM and COPROC
    escapes into one key space, and the registers an instruction names. */
module N64Instruction {
  import opened Faults
  import opened Words
  import N64Opcode
  import N64Registers

  const INSTRUCTION_SIZE: u64 := 4

  /** `num_bits` bits of the word starting at bit `from`. */
  function GetBits(w: bv32, from: bv32, n: bv32): (r: bv32)
    requires from < 32 && n < 32
    ensures r < 1 << n
  {
    (w >> from) & ((1 << n) - 1)
  }

  function PrimaryField(w: bv32): bv32 { GetBits(w, 26, 6) }
  function SourceField(w: bv32): bv32 { GetBits(w, 21, 5) }
  function TargetField(w: bv32): bv32 { GetBits(w, 16, 5) }
  function DestinationField(w: bv32): bv32 { GetBits(w, 11, 5) }
  function ImmediateField(w: bv32): bv32 { GetBits(w, 0, 16) }
  function FunctField(w: bv32): bv32 { GetBits(w, 0, 6) }

  /** The fields an I-type instruction is made of put the word back together,
      and the destination and function fields lie inside the immediate. */
  lemma FieldsReassemble(w: bv32)
    ensures (PrimaryField(w) << 26) | (SourceField(w) << 21) | (TargetField(w) << 16) | ImmediateField(w) == w
    ensures DestinationField(w) == ImmediateField(w) >> 11
    ensures FunctField(w) == ImmediateField(w) & 0x3F
  {
  }

  /** A register field read as an index. */
  function RegisterIndex(f: bv32): (i: nat)
    requires f < 32
    ensures i < 32
  {
    f as int
  }

  /** `immediate`: bits 15..0. */
  function Immediate(w: bv32): bv16
  {
    ImmediateField(w) as bv16
  }

  /** `source`: bits 25..21. */
  function Source(w: bv32): (i: nat)
    ensures i < 32
  {
    RegisterIndex(SourceField(w))
  }

  /** `destination`: bits 15..11. */
  function Destination(w: bv32): (i: nat)
    ensures i < 32
  {
    RegisterIndex(DestinationField(w))
  }

  /** `target_immediate`: bits 20..16. */
  function TargetImmediate(w: bv32): (i: nat)
    ensures i < 32
  {
    RegisterIndex(TargetField(w))
  }

  /** `target_register` is the same field. */
  function TargetRegister(w: bv32): (i: nat)
    ensures i == TargetImmediate(w)
  {
    TargetImmediate(w)
  }

  // ---------------------------------------------------------------------------
  // Opcode keys

  /** The key of the primary opcode. */
  function PrimaryKey(w: bv32): bv16
  {
    PrimaryField(w) as bv16
  }

  /** The keys the escapes are looked up under: the sub-field with high bits
      set, so that each escape gets its own range. */
  function SpecialKey(w: bv32): bv16
  {
    (FunctField(w) as bv16) | 0xC0
  }

  function RegimmKey(w: bv32): bv16
  {
    (TargetField(w) as bv16) | 0x1E0
  }

  function CoprocKey(w: bv32): bv16
  {
    (SourceField(w) as bv16) | 0x3E0
  }

  lemma NarrowField(f: bv32, n: bv16)
    requires f < n as bv32 <= 64
    ensures (f as bv16) < n
  {
  }

  /** Setting the high bits maps a field of 6, 5 and 5 bits into
      0xC0..0xFF, 0x1E0..0x1FF and 0x3E0..0x3FF, and keeps the field in the
      low bits, so no key is lost and the ranges do not meet. */
  lemma EscapeKeys(f: bv16)
    ensures f < 64 ==> 0xC0 <= f | 0xC0 <= 0xFF && (f | 0xC0) & 0x3F == f
    ensures f < 32 ==> 0x1E0 <= f | 0x1E0 <= 0x1FF && (f | 0x1E0) & 0x1F == f
    ensures f < 32 ==> 0x3E0 <= f | 0x3E0 <= 0x3FF && (f | 0x3E0) & 0x1F == f
  {
  }

  /** The primary key is below 64 and each escape key lies in its own range
      above it; two words with the same escape key have the same sub-field. */
  lemma KeyRanges(w: bv32, v: bv32)
    ensures PrimaryKey(w) < 64
    ensures 0xC0 <= SpecialKey(w) <= 0xFF
    ensures 0x1E0 <= RegimmKey(w) <= 0x1FF
    ensures 0x3E0 <= CoprocKey(w) <= 0x3FF
    ensures SpecialKey(w) == SpecialKey(v) ==> FunctField(w) as bv16 == FunctField(v) as bv16
    ensures RegimmKey(w) == RegimmKey(v) ==> TargetField(w) as bv16 == TargetField(v) as bv16
    ensures CoprocKey(w) == CoprocKey(v) ==> SourceField(w) as bv16 == SourceField(v) as bv16
  {
    NarrowField(PrimaryField(w), 64);
    NarrowField(FunctField(w), 64);
    NarrowField(TargetField(w), 32);
    NarrowField(SourceField(w), 32);
    NarrowField(FunctField(v), 64);
    NarrowField(TargetField(v), 32);
    NarrowField(SourceField(v), 32);
    EscapeKeys(FunctField(w) as bv16);
    EscapeKeys(TargetField(w) as bv16);
    EscapeKeys(SourceField(w) as bv16);
    EscapeKeys(FunctField(v) as bv16);
    EscapeKeys(TargetField(v) as bv16);
    EscapeKeys(SourceField(v) as bv16);
  }

  // ---------------------------------------------------------------------------
  // Opcode lookup

  /** `Instruction::opcode` as written: the primary key, and for SPECIAL and
      REGIMM the escape key, are all looked up in the table of primary
      opcodes. That table has no entry at or above 64, so every SPECIAL and
      REGIMM instruction panics. (The COPROC arm names an opcode the table does
      not have, so it is not modelled.) */
  function OpcodeAsWritten(w: bv32): (r: Result<N64Opcode.Opcode>)
    ensures r.Ok? <==> N64Opcode.FromU16(PrimaryKey(w)).Some? && PrimaryKey(w) > 1
    ensures r.Ok? ==> N64Opcode.Value(r.value) == PrimaryKey(w)
    ensures r.Err? ==> r.fault == UnrecognisedOpcode
  {
    KeyRanges(w, w);
    var op := N64Opcode.FromU16(PrimaryKey(w));
    if op.None? then Err(UnrecognisedOpcode)
    else if op.value == N64Opcode.SPECIAL then
      match N64Opcode.FromU16(SpecialKey(w))
      case None => Err(UnrecognisedOpcode)
      case Some(sp) => Ok(sp)
    else if op.value == N64Opcode.REGIMM then
      match N64Opcode.FromU16(RegimmKey(w))
      case None => Err(UnrecognisedOpcode)
      case Some(ri) => Ok(ri)
    else
      Ok(op.value)
  }

  /** Every SPECIAL and REGIMM word is rejected by the lookup as written. */
  lemma AsWrittenRejectsEscapes(w: bv32)
    requires PrimaryField(w) == 0 || PrimaryField(w) == 1
    ensures OpcodeAsWritten(w) == Err(UnrecognisedOpcode)
  {
    KeyRanges(w, w);
    NarrowField(PrimaryField(w), 2);
    assert N64Opcode.FromU16(SpecialKey(w)).None?;
    assert N64Opcode.FromU16(RegimmKey(w)).None?;
  }

  /** The concrete case: `addu r0, r0, r0` (0x00000021). */
  lemma AdduRejectedAsWritten()
    ensures OpcodeAsWritten(0x0000_0021) == Err(UnrecognisedOpcode)
    ensures Decode(0x0000_0021) == Ok(Special(N64Opcode.ADDU))
  {
    AsWrittenRejectsEscapes(0x0000_0021);
  }

  /** What a word decodes to: a primary opcode, or an escape together with
      the opcode found in that escape's own table. */
  datatype Decoded =
    | Primary(op: N64Opcode.Opcode)
    | Special(sp: N64Opcode.OpcodeSpecial)
    | Regimm(ri: N64Opcode.OpcodeRegimm)

  /** The primary opcode of a decoded instruction. */
  function PrimaryOf(d: Decoded): N64Opcode.Opcode
  {
    match d
    case Primary(op) => op
    case Special(_) => N64Opcode.SPECIAL
    case Regimm(_) => N64Opcode.REGIMM
  }

  /** The two-level lookup the flattened keys stand for: the primary field in
      the primary table, then the function field in the SPECIAL table or the
      target field in the REGIMM table. Unknown values still panic. */
  function Decode(w: bv32): (r: Result<Decoded>)
    ensures r.Ok? && r.value.Primary? ==>
      r.value.op != N64Opcode.SPECIAL && r.value.op != N64Opcode.REGIMM && N64Opcode.Value(r.value.op) == PrimaryKey(w)
    ensures r.Ok? && r.value.Special? ==>
      PrimaryKey(w) == 0 && N64Opcode.SpecialValue(r.value.sp) == FunctField(w) as bv16
    ensures r.Ok? && r.value.Regimm? ==>
      PrimaryKey(w) == 1 && N64Opcode.RegimmValue(r.value.ri) == TargetField(w) as bv16
    ensures r.Err? ==> r.fault == UnrecognisedOpcode
  {
    var op := N64Opcode.FromU16(PrimaryKey(w));
    if op.None? then Err(UnrecognisedOpcode)
    else if op.value == N64Opcode.SPECIAL then
      var sp := N64Opcode.SpecialFromU16(FunctField(w) as bv16);
      if sp.None? then Err(UnrecognisedOpcode) else Ok(Special(sp.value))
    else if op.value == N64Opcode.REGIMM then
      var ri := N64Opcode.RegimmFromU16(TargetField(w) as bv16);
      if ri.None? then Err(UnrecognisedOpcode) else Ok(Regimm(ri.value))
    else
      Ok(Primary(op.value))
  }

  /** Conversely, every listed opcode is decoded from a word carrying its
      value in the right field. */
  lemma DecodesPrimary(w: bv32, op: N64Opcode.Opcode)
    requires op != N64Opcode.SPECIAL && op != N64Opcode.REGIMM && N64Opcode.Value(op) == PrimaryKey(w)
    ensures Decode(w) == Ok(Primary(op))
  {
    N64Opcode.FromU16RoundTrip(op);
  }

  lemma DecodesSpecial(w: bv32, sp: N64Opcode.OpcodeSpecial)
    requires PrimaryKey(w) == 0 && N64Opcode.SpecialValue(sp) == FunctField(w) as bv16
    ensures Decode(w) == Ok(Special(sp))
  {
    N64Opcode.SpecialRoundTrip(sp);
  }

  lemma DecodesRegimm(w: bv32)
    requires PrimaryKey(w) == 1 && TargetField(w) as bv16 == N64Opcode.RegimmValue(N64Opcode.BGEZAL)
    ensures Decode(w) == Ok(Regimm(N64Opcode.BGEZAL))
  {
  }

  /** Where the lookup as written succeeds, the two-level lookup agrees, and
      on non-escape words they agree on failure too. */
  lemma DecodeAgreesAsWritten(w: bv32)
    ensures OpcodeAsWritten(w).Ok? ==> Decode(w) == Ok(Primary(OpcodeAsWritten(w).value))
    ensures Decode(w).Ok? && Decode(w).value.Primary? ==> OpcodeAsWritten(w) == Ok(Decode(w).value.op)
  {
    if PrimaryField(w) == 0 || PrimaryField(w) == 1 {
      AsWrittenRejectsEscapes(w);
      N64Opcode.FromU16RoundTrip(N64Opcode.SPECIAL);
      N64Opcode.FromU16RoundTrip(N64Opcode.REGIMM);
      NarrowField(PrimaryField(w), 2);
    } else {
      NarrowField(PrimaryField(w), 64);
      KeyRanges(w, w);
      N64Opcode.FromU16RoundTrip(N64Opcode.SPECIAL);
      N64Opcode.FromU16RoundTrip(N64Opcode.REGIMM);
    }
  }

  // ---------------------------------------------------------------------------
  // Registers used

  /** The registers an instruction of type `t` names: I-type the target and
      source fields, R-type those and the destination field, J-type none. */
  function RegistersOfType(w: bv32, t: N64Opcode.Type): (u: N64Registers.RegistersUsed)
    ensures u.rt.Some? <==> t != N64Opcode.JType
    ensures u.rs.Some? <==> t != N64Opcode.JType
    ensures u.rd.Some? <==> t == N64Opcode.RType
    ensures u.rt.Some? ==> u.rt.value == TargetField(w) as int
    ensures u.rs.Some? ==> u.rs.value == SourceField(w) as int
    ensures u.rd.Some? ==> u.rd.value == DestinationField(w) as int
  {
    match t
    case IType => N64Registers.IType(TargetImmediate(w), Source(w))
    case RType => N64Registers.RType(TargetImmediate(w), Source(w), Destination(w))
    case JType => N64Registers.JType()
  }

  /** `get_required_registers`: the type comes from the decoded opcode, and
      only LUI has one, so only LUI gets past this point. */
  function GetRequiredRegisters(w: bv32): (r: Result<N64Registers.RegistersUsed>)
    ensures r.Ok? <==> Decode(w) == Ok(Primary(N64Opcode.LUI))
    ensures r.Ok? ==> r.value == N64Registers.IType(TargetImmediate(w), Source(w))
    ensures r.Err? ==> r.fault == UnrecognisedOpcode || r.fault == UnknownInstructionType
  {
    var d := Decode(w);
    if d.Err? then Err(d.fault)
    else
      var t := N64Opcode.GetType(PrimaryOf(d.value));
      if t.Err? then Err(t.fault)
      else Ok(RegistersOfType(w, t.value))
  }

  /** `get_type` reads the opcode through the lookup as written, the model
      through the corrected decoding; either way exactly the LUI words get
      through, and every other word panics. */
  lemma RequiredRegistersAsWritten(w: bv32)
    ensures GetRequiredRegisters(w).Ok? <==> OpcodeAsWritten(w) == Ok(N64Opcode.LUI)
  {
    DecodeAgreesAsWritten(w);
  }
}
