/** Every `panic!`, `unreachable!`, failed `unwrap` and out-of-range slice of the
    emulator is a fatal stop. The model makes each one an explicit error value so
    that "this input panics" can be stated and proved. */
module Faults {

  /** Why a run stopped. One constructor per kind of panic site in the source. */
  datatype Fault =
    | UnrecognisedOpcode          // `Opcode::from_u16` found no discriminant
    | UnknownExecution            // `ex_phase1`/`ex_phase2` of an opcode other than LUI
    | UnknownInstructionType      // `get_type` of an opcode other than LUI
    | UnknownTargetValue          // `get_target_value` with no rt value
    | UnwrapNone                  // `Option::unwrap` on `None`
    | UnrecognisedVirtualAddress  // virtual address outside kseg1
    | ArithmeticOverflow          // a checked (debug build) integer overflow
    | UnrecognisedPhysicalAddress // physical address in no window
    | UnknownRegister             // device register offset with no register
    | ReadOnlyWrite               // write to ROM or to a read-only device
    | CartDomain1Address1Write    // write to cartridge domain 1 address 1
    | OutOfBounds                 // slice or array index past the end
    | InvalidMode                 // KSU field 0b11
    | Unreachable                 // `unreachable!()`
    | SignalNotImplemented        // RSP status write touching bits 9..24
    | AddressError                // misaligned load address
    | LoadNotImplemented          // the unconditional diagnostic panic of LW
    | UnrecognisedInstruction     // legacy interpreter: unknown primary opcode
    | UnrecognisedCp0Write        // CP0 register other than Status

  /** The value of an operation that may panic. */
  datatype Result<+T> = Ok(value: T) | Err(fault: Fault)

  /** The outcome of a state-changing operation that may panic. */
  datatype Outcome = Pass | Fail(fault: Fault)

  datatype Option<+T> = None | Some(value: T)
}
