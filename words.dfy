/** Rust's `u32` and `u64` as ranges of integers. Addresses, offsets and the
    program counter are these: the emulator only compares, adds and subtracts
    them. Register and memory contents, which it masks and shifts, are
    bit-vectors. */
module Words {
  type u32 = x: int | 0 <= x < 0x1_0000_0000
  type u64 = x: int | 0 <= x < 0x1_0000_0000_0000_0000
}
