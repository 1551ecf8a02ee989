/** Instruction words of the first interpreter (src/cpu/instruction.rs): a
    wrapper around the 32-bit word with shift-and-mask accessors. */
module LegacyInstruction {
  import N64Instruction

  datatype Instruction = Instruction(inst: bv32)

  /** `Instruction::new`: the word is kept unchanged. */
  function New(data: bv32): (i: Instruction)
    ensures i.inst == data
  {
    Instruction(data)
  }

  /** `get_bits`: `num_bits` bits starting at bit `from`, the same mask as the
      newer core's, so the result is below 2^num_bits. */
  function GetBits(i: Instruction, from: bv32, n: bv32): (r: bv32)
    requires from < 32 && n < 32
    ensures r < 1 << n
  {
    N64Instruction.GetBits(i.inst, from, n)
  }

  /** `get_opcode`: bits 31..26, narrowed to a byte. */
  function GetOpcode(i: Instruction): (r: bv8)
    ensures r < 64
    ensures r as bv32 == i.inst >> 26
  {
    GetBits(i, 26, 6) as bv8
  }

  /** `get_immediate`: bits 15..0, narrowed to 16 bits. */
  function GetImmediate(i: Instruction): (r: bv16)
    ensures r as bv32 == i.inst & 0xFFFF
  {
    GetBits(i, 0, 16) as bv16
  }

  /** The opcode, the two register fields and the immediate put the word back
      together. */
  lemma Reassemble(i: Instruction)
    ensures (GetOpcode(i) as bv32 << 26) | (GetBits(i, 16, 10) << 16) | GetImmediate(i) as bv32 == i.inst
  {
  }
}
