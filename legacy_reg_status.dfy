/** The Status register of the first interpreter's coprocessor 0
    (src/cpu/cp0/reg_status.rs). Unlike the newer core, which builds a fresh
    value, `write` assigns the fields of a long-lived object one at a time,
    the array elements among them. Its value view is the newer core's
    `RegStatus` datatype: the two generations share the field layout and the
    Mode, ErrorLevel and ExceptionLevel decoders, and differ in the vector
    location, which this one decodes correctly. A KSU field of 0b11 panics
    half way through, after the fields before it have been written. */
module LegacyRegStatus {
  import opened Faults
  import N = N64RegStatus

  /** `From<u16> for ExceptionVectorLocation`: bit 6 of the diagnostic field,
      set meaning Bootstrap. */
  function VectorLocationFrom(f: bv16): N.VectorLocation
  {
    if f & 0x40 == 0 then N.VectorLocation.Normal else N.Bootstrap
  }

  /** What `DiagnosticStatus::write` stores: ITS, TS, SR and CH test nonzero
      constants and are always set; BEV comes from the field. */
  function DiagnosticOf(f: bv16): (r: N.DiagnosticStatus)
    ensures r.instructionTraceSupport && r.tlbShutdown && r.softResetOrNmi && r.conditionBit
    ensures r.vectorLocation == N.Bootstrap <==> f & 0x40 != 0
  {
    N.DiagnosticStatus(0x80 != 0, VectorLocationFrom(f), 0x20 != 0, 0x10 != 0, 0x4 != 0)
  }

  /** Where the newer core decodes a diagnostic field it agrees with this
      one; where it panics, this one answers Bootstrap. */
  lemma DiagnosticAgrees(f: bv16)
    ensures N.DiagnosticStatusFrom(f).Ok? ==> N.DiagnosticStatusFrom(f).value == DiagnosticOf(f)
    ensures N.DiagnosticStatusFrom(f).Err? ==> DiagnosticOf(f).vectorLocation == N.Bootstrap
  {
  }

  /** The fields `write` assigns before it decodes KSU: CU, RP, FR, RE, DS, IM,
      KX, SX and UX; the others keep their values from `s`. */
  function BeforeMode(s: N.RegStatus, data: bv32): N.RegStatus
  {
    s.(coprocUsability := N.CoprocFlags(data),
       lowPower := (data >> 27) & 0x1 != 0,
       fpregsExtend := (data >> 26) & 0x1 != 0,
       reverseEndian := (data >> 25) & 0x1 != 0,
       diagStatus := DiagnosticOf(((data >> 16) & 0x1FF) as bv16),
       interruptMask := N.InterruptMaskFrom(N.MaskByte(data)),
       kernel64 := (data >> 7) & 0x1 != 0,
       supervisor64 := (data >> 6) & 0x1 != 0,
       user64 := (data >> 5) & 0x1 != 0)
  }

  /** The register after `write(data)` from state `s`: every field decoded
      from `data`, or, when KSU is 0b11, only the fields before it. */
  function Written(s: N.RegStatus, data: bv32): N.RegStatus
  {
    var t := BeforeMode(s, data);
    match N.ModeFrom(data)
    case Err(_) => t
    case Ok(m) =>
      t.(mode := m,
         errorLevel := N.ErrorLevelFrom(data),
         exceptionLevel := N.ExceptionLevelFrom(data),
         interruptEnabled := data & 0x1 != 0)
  }

  /** Where `write` assigns them, the flags sit at RP = bit 27, FR 26, RE 25,
      KX 7, SX 6 and UX 5, and the diagnostic status follows BEV, bit 22,
      even when the write goes on to panic. */
  lemma BeforeModeBits(s: N.RegStatus, data: bv32)
    ensures var t := BeforeMode(s, data);
      t.coprocUsability == N.CoprocFlags(data) &&
      (t.lowPower <==> N.Bit(data, 27)) && (t.fpregsExtend <==> N.Bit(data, 26)) &&
      (t.reverseEndian <==> N.Bit(data, 25)) &&
      (t.kernel64 <==> N.Bit(data, 7)) && (t.supervisor64 <==> N.Bit(data, 6)) &&
      (t.user64 <==> N.Bit(data, 5)) &&
      (t.diagStatus.vectorLocation == N.Bootstrap <==> N.Bit(data, 22))
  {
    assert ((data >> 16) & 0x1FF) as bv16 & 0x40 != 0 <==> N.Bit(data, 22);
  }

  /** A write panics exactly when KSU is 0b11, and otherwise sets KSU from
      bits 4..3, ERL and EXL from bit 2 (set meaning Normal) and IE from
      bit 0. */
  lemma WrittenLevels(s: N.RegStatus, data: bv32)
    ensures var t := Written(s, data);
      (N.ModeFrom(data).Err? <==> N.Bit(data, 4) && N.Bit(data, 3)) &&
      (N.ModeFrom(data).Ok? ==>
        Ok(t.mode) == N.ModeFrom(data) &&
        (t.errorLevel == N.ErrorLevel.Normal <==> N.Bit(data, 2)) &&
        (t.exceptionLevel == N.ExceptionLevel.Normal <==> N.Bit(data, 2)) &&
        (t.interruptEnabled <==> N.Bit(data, 0)))
  {
  }

  /** A complete write depends on `data` alone, so writing the same word
      twice is the same as writing it once; so is a write that panics,
      since it assigns the same fields from the same word. */
  lemma WriteIdempotent(s: N.RegStatus, data: bv32)
    ensures Written(Written(s, data), data) == Written(s, data)
    ensures N.ModeFrom(data).Ok? ==> forall u :: Written(u, data) == Written(s, data)
  {
    var t := BeforeMode(s, data);
    assert BeforeMode(t, data) == t;
    if N.ModeFrom(data).Ok? {
      forall u
        ensures Written(u, data) == Written(s, data)
      {
        assert BeforeMode(u, data).(mode := s.mode, errorLevel := s.errorLevel,
          exceptionLevel := s.exceptionLevel, interruptEnabled := s.interruptEnabled) == t;
      }
    }
  }

  /** Where both generations decode a word, they decode it alike; they differ
      only in the vector location of a set BEV bit, where the newer core
      panics. */
  lemma AgreesWithNewer(s: N.RegStatus, data: bv32)
    ensures N.StatusFrom(data).Ok? ==> Written(s, data) == N.StatusFrom(data).value
    ensures N.Bit(data, 22) && N.ModeFrom(data).Ok? ==>
      N.StatusFrom(data) == Err(Unreachable) && Written(s, data).diagStatus.vectorLocation == N.Bootstrap
  {
    N.StatusPanics(data);
    BeforeModeBits(s, data);
    var diag := ((data >> 16) & 0x1FF) as bv16;
    DiagnosticAgrees(diag);
  }

  class DiagnosticStatus {
    var instructionTraceSupport: bool
    var vectorLocation: N.VectorLocation
    var tlbShutdown: bool
    var softResetOrNmi: bool
    var conditionBit: bool

    function Value(): N.DiagnosticStatus
      reads this
    {
      N.DiagnosticStatus(instructionTraceSupport, vectorLocation, tlbShutdown, softResetOrNmi, conditionBit)
    }

    /** The derived `Default`: every flag clear, Normal vector location. */
    constructor ()
      ensures Value() == N.DiagnosticStatus(false, N.VectorLocation.Normal, false, false, false)
    {
      instructionTraceSupport := false;
      vectorLocation := N.VectorLocation.Normal;
      tlbShutdown := false;
      softResetOrNmi := false;
      conditionBit := false;
    }

    /** `DiagnosticStatus::write`. */
    method Write(data: bv16)
      modifies this
      ensures Value() == DiagnosticOf(data)
    {
      instructionTraceSupport := 0x80 != 0;
      vectorLocation := VectorLocationFrom(data);
      tlbShutdown := 0x20 != 0;
      softResetOrNmi := 0x10 != 0;
      conditionBit := 0x4 != 0;
    }
  }

  class InterruptMask {
    var timer: bool
    const external: array<bool>
    const software: array<bool>

    predicate Valid()
    {
      external.Length == 5 && software.Length == 2
    }

    function Value(): N.InterruptMask
      reads this, external, software
    {
      N.InterruptMask(timer, external[..], software[..])
    }

    /** The derived `Default`: every interrupt masked off. */
    constructor ()
      ensures Valid() && fresh(external) && fresh(software)
      ensures Value() == N.InterruptMask(false, [false, false, false, false, false], [false, false])
    {
      timer := false;
      external := new bool[5](_ => false);
      software := new bool[2](_ => false);
    }

    /** `InterruptMask::write`: the timer bit, then the external interrupts
        from the top down, then the software interrupts. */
    method Write(data: bv8)
      requires Valid()
      modifies this, external, software
      ensures Value() == N.InterruptMaskFrom(data)
    {
      timer := data & 0x80 != 0;
      WriteExternal(data);
      software[1] := data & 0x02 != 0;
      software[0] := data & 0x01 != 0;
      assert software[..] == N.InterruptMaskFrom(data).software;
    }

    /** IM(6:2), from the top down. */
    method WriteExternal(data: bv8)
      requires Valid()
      modifies external
      ensures external[..] == N.InterruptMaskFrom(data).external
    {
      external[4] := data & 0x40 != 0;
      external[3] := data & 0x20 != 0;
      external[2] := data & 0x10 != 0;
      external[1] := data & 0x08 != 0;
      external[0] := data & 0x04 != 0;
      assert external[..] == [external[0], external[1], external[2], external[3], external[4]];
    }
  }

  class RegStatus {
    const coprocUsability: array<bool>
    var lowPower: bool
    var fpregsExtend: bool
    var reverseEndian: bool
    const diagStatus: DiagnosticStatus
    const interruptMask: InterruptMask
    var kernel64: bool
    var supervisor64: bool
    var user64: bool
    var mode: N.Mode
    var errorLevel: N.ErrorLevel
    var exceptionLevel: N.ExceptionLevel
    var interruptEnabled: bool

    /** Four usability flags and a well-formed mask, in arrays of their own. */
    predicate Valid()
    {
      coprocUsability.Length == 4 && interruptMask.Valid() &&
      coprocUsability != interruptMask.external && coprocUsability != interruptMask.software
    }

    function Value(): N.RegStatus
      reads this, coprocUsability, diagStatus, interruptMask, interruptMask.external, interruptMask.software
    {
      N.RegStatus(coprocUsability[..], lowPower, fpregsExtend, reverseEndian,
                  diagStatus.Value(), interruptMask.Value(),
                  kernel64, supervisor64, user64, mode, errorLevel, exceptionLevel, interruptEnabled)
    }

    /** The derived `Default`, the same value as the newer core's. */
    constructor ()
      ensures Valid() && Value() == N.Default()
      ensures fresh(coprocUsability) && fresh(diagStatus) && fresh(interruptMask)
      ensures fresh(interruptMask.external) && fresh(interruptMask.software)
    {
      coprocUsability := new bool[4](_ => false);
      lowPower := false;
      fpregsExtend := false;
      reverseEndian := false;
      diagStatus := new DiagnosticStatus();
      interruptMask := new InterruptMask();
      kernel64 := false;
      supervisor64 := false;
      user64 := false;
      mode := N.Kernel;
      errorLevel := N.ErrorLevel.Normal;
      exceptionLevel := N.ExceptionLevel.Normal;
      interruptEnabled := false;
      new;
      assert coprocUsability[..] == [false, false, false, false];
    }

    /** `RegStatus::write`: the fields in declaration order. A KSU field of
        0b11 stops it with InvalidMode after UX, leaving KSU, ERL, EXL and IE
        as they were. */
    method Write(data: bv32) returns (out: Outcome)
      requires Valid()
      modifies this, coprocUsability, diagStatus, interruptMask, interruptMask.external, interruptMask.software
      ensures Value() == Written(old(Value()), data)
      ensures out == (if N.ModeFrom(data).Ok? then Pass else Fail(InvalidMode))
    {
      WriteBeforeMode(data);
      var m := N.ModeFrom(data);
      if m.Err? {
        return Fail(m.fault);
      }
      mode := m.value;
      errorLevel := N.ErrorLevelFrom(data);
      exceptionLevel := N.ExceptionLevelFrom(data);
      interruptEnabled := data & 0x1 != 0;
      out := Pass;
    }

    /** The part of `write` before KSU is decoded. */
    method WriteBeforeMode(data: bv32)
      requires Valid()
      modifies this, coprocUsability, diagStatus, interruptMask, interruptMask.external, interruptMask.software
      ensures Value() == BeforeMode(old(Value()), data)
    {
      WriteCoprocUsability(data);
      WriteEndianFlags(data);
      var diag := ((data >> 16) & 0x1FF) as bv16;
      WriteDiagnosticStatus(diag);
      WriteInterruptMask(N.MaskByte(data));
      WriteWidthFlags(data);
    }

    /** CU, from the top down. */
    method WriteCoprocUsability(data: bv32)
      requires Valid()
      modifies coprocUsability
      ensures Value() == old(Value()).(coprocUsability := N.CoprocFlags(data))
    {
      var coproc := data >> 28;
      coprocUsability[3] := coproc & 0x8 != 0;
      coprocUsability[2] := coproc & 0x4 != 0;
      coprocUsability[1] := coproc & 0x2 != 0;
      coprocUsability[0] := coproc & 0x1 != 0;
      assert coprocUsability[..] == N.CoprocFlags(data);
    }

    /** RP, FR and RE. */
    method WriteEndianFlags(data: bv32)
      modifies this
      ensures Value() == old(Value()).(lowPower := (data >> 27) & 0x1 != 0,
        fpregsExtend := (data >> 26) & 0x1 != 0, reverseEndian := (data >> 25) & 0x1 != 0)
    {
      lowPower := (data >> 27) & 0x1 != 0;
      fpregsExtend := (data >> 26) & 0x1 != 0;
      reverseEndian := (data >> 25) & 0x1 != 0;
    }

    /** DS, through `DiagnosticStatus::write`. */
    method WriteDiagnosticStatus(diag: bv16)
      modifies diagStatus
      ensures Value() == old(Value()).(diagStatus := DiagnosticOf(diag))
    {
      diagStatus.Write(diag);
    }

    /** IM, through `InterruptMask::write`. */
    method WriteInterruptMask(mask: bv8)
      requires Valid()
      modifies interruptMask, interruptMask.external, interruptMask.software
      ensures Value() == old(Value()).(interruptMask := N.InterruptMaskFrom(mask))
    {
      interruptMask.Write(mask);
    }

    /** KX, SX and UX. */
    method WriteWidthFlags(data: bv32)
      modifies this
      ensures Value() == old(Value()).(kernel64 := (data >> 7) & 0x1 != 0,
        supervisor64 := (data >> 6) & 0x1 != 0, user64 := (data >> 5) & 0x1 != 0)
    {
      kernel64 := (data >> 7) & 0x1 != 0;
      supervisor64 := (data >> 6) & 0x1 != 0;
      user64 := (data >> 5) & 0x1 != 0;
    }
  }
}
