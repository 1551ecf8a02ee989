/** The register file and the per-instruction register records
    (src/n64/cpu/registers.rs). */
module N64Registers {
  import opened Faults
  import opened Words

  const NUM_GPREG: nat := 32

  /** The register numbers an instruction names. */
  datatype RegistersUsed = RegistersUsed(rt: Option<nat>, rs: Option<nat>, rd: Option<nat>)

  function IType(rt: nat, rs: nat): RegistersUsed
  {
    RegistersUsed(Some(rt), Some(rs), None)
  }

  function RType(rt: nat, rs: nat, rd: nat): RegistersUsed
  {
    RegistersUsed(Some(rt), Some(rs), Some(rd))
  }

  function JType(): RegistersUsed
  {
    RegistersUsed(None, None, None)
  }

  /** The three shapes name two, three and no registers, in the order
      target, source, destination. */
  lemma UsedShapes(rt: nat, rs: nat, rd: nat)
    ensures IType(rt, rs) != RType(rt, rs, rd) && IType(rt, rs) != JType() && RType(rt, rs, rd) != JType()
    ensures IType(rt, rs).rt == RType(rt, rs, rd).rt == Some(rt)
    ensures IType(rt, rs).rs == RType(rt, rs, rd).rs == Some(rs)
    ensures IType(rt, rs).rd.None? && RType(rt, rs, rd).rd == Some(rd)
    ensures JType().rt.None? && JType().rs.None? && JType().rd.None?
  {
  }

  /** Register contents fetched for an instruction. */
  datatype RegisterValues = RegisterValues(rt: Option<bv64>, rs: Option<bv64>, rd: Option<bv64>)

  /** The general-purpose register `i` of a register file, or a panic for an
      index past the 32 registers. */
  function ReadGpr(gprs: seq<bv64>, i: nat): (r: Result<bv64>)
    ensures r.Ok? <==> i < |gprs|
    ensures r.Ok? ==> r.value == gprs[i]
    ensures r.Err? ==> r.fault == OutOfBounds
  {
    if i < |gprs| then Ok(gprs[i]) else Err(OutOfBounds)
  }

  /** The register file after storing `value` in register `i`; register 0 is
      an ordinary register here. */
  function WriteGpr(gprs: seq<bv64>, i: nat, value: bv64): (r: Result<seq<bv64>>)
    ensures r.Ok? <==> i < |gprs|
    ensures r.Ok? ==> |r.value| == |gprs|
    ensures r.Err? ==> r.fault == OutOfBounds
  {
    if i < |gprs| then Ok(gprs[i := value]) else Err(OutOfBounds)
  }

  /** A write is seen by the next read of the same register, zero included,
      and by no other register. */
  lemma ReadAfterWriteGpr(gprs: seq<bv64>, i: nat, j: nat, value: bv64)
    requires i < |gprs|
    ensures ReadGpr(WriteGpr(gprs, i, value).value, i) == Ok(value)
    ensures j != i ==> ReadGpr(WriteGpr(gprs, i, value).value, j) == ReadGpr(gprs, j)
  {
  }

  /** `RegisterValues::new`: the contents of the target and source registers;
      the destination slot is filled from the source register, not from `rd`. */
  function NewValues(used: RegistersUsed, gprs: seq<bv64>): (r: Result<RegisterValues>)
    ensures r.Ok? <==> (used.rt.Some? ==> used.rt.value < |gprs|) && (used.rs.Some? ==> used.rs.value < |gprs|)
    ensures r.Ok? ==> r.value.rt.Some? == used.rt.Some? && r.value.rs.Some? == used.rs.Some?
    ensures r.Ok? && used.rt.Some? ==> r.value.rt == Some(gprs[used.rt.value])
    ensures r.Ok? && used.rs.Some? ==> r.value.rs == Some(gprs[used.rs.value])
    ensures r.Ok? ==> r.value.rd == r.value.rs
    ensures r.Err? ==> r.fault == OutOfBounds
  {
    var rt := if used.rt.Some? then ReadGpr(gprs, used.rt.value) else Ok(0);
    var rs := if used.rs.Some? then ReadGpr(gprs, used.rs.value) else Ok(0);
    if rt.Err? then Err(rt.fault)
    else if rs.Err? then Err(rs.fault)
    else
      var rtv := if used.rt.Some? then Some(rt.value) else None;
      var rsv := if used.rs.Some? then Some(rs.value) else None;
      Ok(RegisterValues(rtv, rsv, rsv))
  }

  /** `RegisterValues::target`: a record carrying only a result. */
  function Target(value: bv64): RegisterValues
  {
    RegisterValues(Some(value), None, None)
  }

  /** `get_target_value`: the result, or a panic when there is none. */
  function GetTargetValue(v: RegisterValues): (r: Result<bv64>)
    ensures r.Ok? <==> v.rt.Some?
    ensures r.Ok? ==> r.value == v.rt.value
    ensures r.Err? ==> r.fault == UnknownTargetValue
  {
    if v.rt.Some? then Ok(v.rt.value) else Err(UnknownTargetValue)
  }

  /** A result stored with `Target` is the one `GetTargetValue` gives back,
      and the record carries nothing else. */
  lemma TargetRoundTrip(value: bv64)
    ensures GetTargetValue(Target(value)) == Ok(value)
    ensures Target(value).rs.None? && Target(value).rd.None?
  {
  }

  /** The CPU registers. The floating-point registers are not modelled. */
  class Registers {
    const gprs: array<bv64>
    var pc: u64
    var hi: bv64
    var lo: bv64
    var llbit: bool
    var fcr0: bv32
    var fcr31: bv32

    /** `Registers::default()`: everything zero. */
    constructor Default()
      ensures fresh(gprs) && gprs.Length == NUM_GPREG
      ensures forall i :: 0 <= i < NUM_GPREG ==> ReadGpr(gprs[..], i) == Ok(0)
      ensures pc == 0 && hi == 0 && lo == 0 && !llbit && fcr0 == 0 && fcr31 == 0
    {
      gprs := new bv64[NUM_GPREG](_ => 0);
      pc, hi, lo, llbit, fcr0, fcr31 := 0, 0, 0, false, 0, 0;
    }

    /** `get_gpr_val`. */
    function GetGprVal(i: nat): (r: Result<bv64>)
      reads gprs
      ensures r == ReadGpr(gprs[..], i)
    {
      if i < gprs.Length then Ok(gprs[i]) else Err(OutOfBounds)
    }

    /** `set_gpr_val`: stores into the register array in place. */
    method SetGprVal(i: nat, value: bv64) returns (out: Outcome)
      modifies gprs
      ensures out.Pass? <==> i < gprs.Length
      ensures out.Pass? ==> gprs[..] == WriteGpr(old(gprs[..]), i, value).value
      ensures out.Fail? ==> out.fault == OutOfBounds && gprs[..] == old(gprs[..])
    {
      if i >= gprs.Length {
        return Fail(OutOfBounds);
      }
      gprs[i] := value;
      out := Pass;
    }
  }
}
