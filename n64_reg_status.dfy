/** The Status register, coprocessor 0 register 12, as the newer core decodes
    it (src/n64/cpu/cp0/reg_status.rs): a 32-bit word is split into flags and
    enumerations by `From` conversions that build a fresh value. Two quirks
    of the source are kept: ERL and EXL both read bit 2, set meaning Normal,
    and a set BEV bit reaches `unreachable!`. */
module N64RegStatus {
  import opened Faults

  datatype Mode = User | Supervisor | Kernel

  /** `TLBExceptionVectorLocation`. */
  datatype VectorLocation = Normal | Bootstrap

  datatype ErrorLevel = Normal | Error

  datatype ExceptionLevel = Normal | Exception

  /** The diagnostic status field (bits 24..16). */
  datatype DiagnosticStatus = DiagnosticStatus(
    instructionTraceSupport: bool,    // ITS
    vectorLocation: VectorLocation,   // BEV
    tlbShutdown: bool,                // TS
    softResetOrNmi: bool,             // SR
    conditionBit: bool)               // CH

  /** The interrupt mask field (bits 15..8). */
  datatype InterruptMask = InterruptMask(
    timer: bool,             // IM(7)
    external: seq<bool>,     // IM(6:2)
    software: seq<bool>)     // IM(1:0)

  datatype RegStatus = RegStatus(
    coprocUsability: seq<bool>,   // CU
    lowPower: bool,               // RP
    fpregsExtend: bool,           // FR
    reverseEndian: bool,          // RE
    diagStatus: DiagnosticStatus, // DS
    interruptMask: InterruptMask, // IM
    kernel64: bool,               // KX
    supervisor64: bool,           // SX
    user64: bool,                 // UX
    mode: Mode,                   // KSU
    errorLevel: ErrorLevel,       // ERL
    exceptionLevel: ExceptionLevel, // EXL
    interruptEnabled: bool)       // IE

  /** Bit `i` of a word. */
  predicate Bit(w: bv32, i: nat)
    requires i < 32
  {
    (w >> i) & 1 == 1
  }

  // ---------------------------------------------------------------------------
  // The `From` conversions

  /** `From<u32> for Mode`: the KSU field, bits 4..3; 0x3 panics. */
  function ModeFrom(f: bv32): (r: Result<Mode>)
    ensures r == Ok(Kernel) <==> !Bit(f, 4) && !Bit(f, 3)
    ensures r == Ok(Supervisor) <==> !Bit(f, 4) && Bit(f, 3)
    ensures r == Ok(User) <==> Bit(f, 4) && !Bit(f, 3)
    ensures r == Err(InvalidMode) <==> Bit(f, 4) && Bit(f, 3)
  {
    var ksu := (f >> 3) & 0x3;
    if ksu == 0x0 then Ok(Kernel)
    else if ksu == 0x1 then Ok(Supervisor)
    else if ksu == 0x2 then Ok(User)
    else Err(InvalidMode)
  }

  /** `From<u16> for TLBExceptionVectorLocation`: the masked bit 6 is compared
      with 0 and with 1, but it is either 0 or 0x40, so a set bit falls
      through to `unreachable!` and Bootstrap is never produced. */
  function VectorLocationFrom(f: bv16): (r: Result<VectorLocation>)
    ensures r.Ok? <==> f & 0x40 == 0
    ensures r.Ok? ==> r.value == VectorLocation.Normal
    ensures r.Err? ==> r.fault == Unreachable
  {
    var masked := f & 0x40;
    if masked == 0 then Ok(VectorLocation.Normal)
    else if masked == 1 then Ok(Bootstrap)
    else Err(Unreachable)
  }

  /** `From<u32> for ErrorLevel`: bit 2, set meaning Normal. */
  function ErrorLevelFrom(f: bv32): (r: ErrorLevel)
    ensures r == ErrorLevel.Normal <==> Bit(f, 2)
  {
    if (f >> 2) & 0x1 != 0 then ErrorLevel.Normal else Error
  }

  /** `From<u32> for ExceptionLevel`: also bit 2, set meaning Normal. */
  function ExceptionLevelFrom(f: bv32): (r: ExceptionLevel)
    ensures r == ExceptionLevel.Normal <==> Bit(f, 2)
  {
    if (f >> 2) & 0x1 != 0 then ExceptionLevel.Normal else Exception
  }

  /** `From<u8> for InterruptMask`: IM(7) is the timer, IM(6:2) the five
      external interrupts and IM(1:0) the two software interrupts. */
  function InterruptMaskFrom(d: bv8): (r: InterruptMask)
    ensures |r.external| == 5 && |r.software| == 2
  {
    InterruptMask(
      d & 0x80 != 0,
      [d & 0x4 != 0, d & 0x8 != 0, d & 0x10 != 0,
       d & 0x20 != 0, d & 0x40 != 0],
      [d & 0x1 != 0, d & 0x2 != 0])
  }

  /** `From<u16> for DiagnosticStatus`: ITS, TS, SR and CH test constants, not
      the field, so they are always set; only BEV depends on the field. */
  function DiagnosticStatusFrom(f: bv16): (r: Result<DiagnosticStatus>)
    ensures r.Ok? <==> VectorLocationFrom(f).Ok?
    ensures r.Ok? ==> r.value == DiagnosticStatus(true, VectorLocation.Normal, true, true, true)
    ensures r.Err? ==> r.fault == Unreachable
  {
    match VectorLocationFrom(f)
    case Err(e) => Err(e)
    case Ok(bev) =>
      Ok(DiagnosticStatus(0x80 != 0, bev, 0x20 != 0, 0x10 != 0, 0x4 != 0))
  }

  /** The interrupt mask byte, bits 15..8. */
  function MaskByte(data: bv32): bv8
  {
    ((data >> 8) & 0xff) as bv8
  }

  /** IM(i) of the mask byte is bit 8+i of the word. */
  lemma MaskByteBits(data: bv32)
    ensures var d := MaskByte(data);
      (d & 0x80 != 0 <==> Bit(data, 15)) && (d & 0x40 != 0 <==> Bit(data, 14)) &&
      (d & 0x20 != 0 <==> Bit(data, 13)) && (d & 0x10 != 0 <==> Bit(data, 12)) &&
      (d & 0x08 != 0 <==> Bit(data, 11)) && (d & 0x04 != 0 <==> Bit(data, 10)) &&
      (d & 0x02 != 0 <==> Bit(data, 9)) && (d & 0x01 != 0 <==> Bit(data, 8))
  {
  }

  /** The interrupt mask decoded from a Status word: the timer is bit 15,
      external[i] is bit 10+i and software[i] is bit 8+i. */
  lemma MaskOfWord(data: bv32)
    ensures var m := InterruptMaskFrom(MaskByte(data));
      |m.external| == 5 && |m.software| == 2 && (m.timer <==> Bit(data, 15)) &&
      (m.external[0] <==> Bit(data, 10)) && (m.external[1] <==> Bit(data, 11)) &&
      (m.external[2] <==> Bit(data, 12)) && (m.external[3] <==> Bit(data, 13)) &&
      (m.external[4] <==> Bit(data, 14)) &&
      (m.software[0] <==> Bit(data, 8)) && (m.software[1] <==> Bit(data, 9))
  {
    MaskByteBits(data);
  }

  /** The coprocessor usability flags CU(3:0), from the top nibble. */
  function CoprocFlags(data: bv32): seq<bool>
  {
    var coproc := data >> 28;
    [coproc & 0x1 != 0, coproc & 0x2 != 0, coproc & 0x4 != 0, coproc & 0x8 != 0]
  }

  /** `From<u32> for RegStatus`. The fields are built in declaration order, so
      the diagnostic status, and with it a set BEV bit, panics before an
      invalid KSU field is looked at. */
  function StatusFrom(data: bv32): (r: Result<RegStatus>)
  {
    var diag := ((data >> 16) & 0x1FF) as bv16;
    match DiagnosticStatusFrom(diag)
    case Err(e) => Err(e)
    case Ok(ds) =>
      match ModeFrom(data)
      case Err(e) => Err(e)
      case Ok(mode) =>
        Ok(RegStatus(
          CoprocFlags(data),
          (data >> 27) & 0x1 != 0,
          (data >> 26) & 0x1 != 0,
          (data >> 25) & 0x1 != 0,
          ds,
          InterruptMaskFrom(MaskByte(data)),
          (data >> 7) & 0x1 != 0,
          (data >> 6) & 0x1 != 0,
          (data >> 5) & 0x1 != 0,
          mode,
          ErrorLevelFrom(data),
          ExceptionLevelFrom(data),
          data & 0x1 != 0))
  }

  /** `Default for RegStatus`: every flag clear, Kernel mode, Normal levels and
      vector location. */
  function Default(): (r: RegStatus)
    ensures r.mode == Kernel && r.errorLevel == ErrorLevel.Normal && r.exceptionLevel == ExceptionLevel.Normal
    ensures r.diagStatus.vectorLocation == VectorLocation.Normal
    ensures !r.diagStatus.instructionTraceSupport && !r.diagStatus.tlbShutdown
    ensures !r.diagStatus.softResetOrNmi && !r.diagStatus.conditionBit
    ensures !r.interruptMask.timer
    ensures |r.interruptMask.external| == 5 && forall i :: 0 <= i < 5 ==> !r.interruptMask.external[i]
    ensures |r.interruptMask.software| == 2 && forall i :: 0 <= i < 2 ==> !r.interruptMask.software[i]
    ensures |r.coprocUsability| == 4 && forall i :: 0 <= i < 4 ==> !r.coprocUsability[i]
    ensures !r.lowPower && !r.fpregsExtend && !r.reverseEndian && !r.interruptEnabled
    ensures !r.kernel64 && !r.supervisor64 && !r.user64
  {
    RegStatus([false, false, false, false], false, false, false,
              DiagnosticStatus(false, VectorLocation.Normal, false, false, false),
              InterruptMask(false, [false, false, false, false, false], [false, false]),
              false, false, false, Kernel, ErrorLevel.Normal, ExceptionLevel.Normal, false)
  }

  // ---------------------------------------------------------------------------
  // What a decoded Status word holds

  /** A Status word panics exactly when BEV (bit 22) is set or KSU is 0x3,
      and the BEV panic comes first. */
  lemma StatusPanics(data: bv32)
    ensures StatusFrom(data).Err? <==> Bit(data, 22) || (Bit(data, 4) && Bit(data, 3))
    ensures Bit(data, 22) ==> StatusFrom(data) == Err(Unreachable)
    ensures !Bit(data, 22) && Bit(data, 4) && Bit(data, 3) ==> StatusFrom(data) == Err(InvalidMode)
  {
    var diag := ((data >> 16) & 0x1FF) as bv16;
    assert diag & 0x40 == 0 <==> !Bit(data, 22);
  }

  /** CU[i] is bit 28+i. */
  lemma CoprocFlagBits(data: bv32)
    ensures var cu := CoprocFlags(data);
      |cu| == 4 && (cu[0] <==> Bit(data, 28)) && (cu[1] <==> Bit(data, 29)) &&
      (cu[2] <==> Bit(data, 30)) && (cu[3] <==> Bit(data, 31))
  {
    var coproc := data >> 28;
    assert coproc & 0x1 != 0 <==> Bit(data, 28);
    assert coproc & 0x2 != 0 <==> Bit(data, 29);
    assert coproc & 0x4 != 0 <==> Bit(data, 30);
    assert coproc & 0x8 != 0 <==> Bit(data, 31);
  }

  /** Bit positions of the flags: CU as `CoprocFlags`, RP 27, FR 26, RE 25,
      KX 7, SX 6, UX 5 and IE 0. */
  lemma StatusFlags(data: bv32)
    requires StatusFrom(data).Ok?
    ensures var s := StatusFrom(data).value;
      s.coprocUsability == CoprocFlags(data) &&
      (s.lowPower <==> Bit(data, 27)) && (s.fpregsExtend <==> Bit(data, 26)) &&
      (s.reverseEndian <==> Bit(data, 25)) &&
      (s.kernel64 <==> Bit(data, 7)) && (s.supervisor64 <==> Bit(data, 6)) &&
      (s.user64 <==> Bit(data, 5)) && (s.interruptEnabled <==> Bit(data, 0))
  {
  }

  /** The interrupt mask is bits 15..8, as `MaskOfWord` places them. */
  lemma StatusInterruptMask(data: bv32)
    requires StatusFrom(data).Ok?
    ensures StatusFrom(data).value.interruptMask == InterruptMaskFrom(MaskByte(data))
  {
  }

  /** KSU is bits 4..3, and ERL and EXL both follow bit 2, set meaning Normal;
      the diagnostic flags are set whatever the word. */
  lemma StatusLevels(data: bv32)
    requires StatusFrom(data).Ok?
    ensures var s := StatusFrom(data).value;
      Ok(s.mode) == ModeFrom(data) &&
      (s.errorLevel == ErrorLevel.Normal <==> Bit(data, 2)) &&
      (s.exceptionLevel == ExceptionLevel.Normal <==> Bit(data, 2)) &&
      s.diagStatus == DiagnosticStatus(true, VectorLocation.Normal, true, true, true)
  {
  }

  /** Bootstrap is never decoded: every word either panics or leaves the
      exception vectors at their normal location. */
  lemma NeverBootstrap(data: bv32)
    ensures StatusFrom(data).Ok? ==> StatusFrom(data).value.diagStatus.vectorLocation == VectorLocation.Normal
    ensures StatusFrom(0x0040_0000) == Err(Unreachable)
  {
    StatusPanics(0x0040_0000);
  }
}
