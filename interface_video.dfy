/** The Video Interface registers (src/interface/video.rs): the interrupt
    half-line, the horizontal video start/end pair and the current vertical line,
    each a 10-bit field. */
module InterfaceVideo {
  import opened Faults
  import opened Words

  const VI_V_CURRENT_REG: u32 := 0x10
  const VI_INTR_REG: u32 := 0x0C
  const VI_H_START_REG: u32 := 0x24

  /** The offsets that have a register. */
  predicate IsRegister(addr: u32)
  {
    addr == VI_INTR_REG || addr == VI_H_START_REG || addr == VI_V_CURRENT_REG
  }

  class Video {
    var intrHalfLine: bv32
    var horizontalVideoStart: bv16
    var horizontalVideoEnd: bv16
    var currentVerticalLine: bv16

    /** `Video::default()`. */
    constructor Default()
      ensures intrHalfLine == 0 && horizontalVideoStart == 0
      ensures horizontalVideoEnd == 0 && currentVerticalLine == 0
    {
      intrHalfLine, horizontalVideoStart, horizontalVideoEnd, currentVerticalLine := 0, 0, 0, 0;
    }

    function Read(addr: u32): (r: Result<bv32>)
      reads this
      ensures r.Ok? <==> IsRegister(addr)
      ensures addr == VI_INTR_REG ==> r == Ok(intrHalfLine)
      ensures addr == VI_H_START_REG ==> r == Ok(HVideoWord(horizontalVideoStart, horizontalVideoEnd))
      ensures addr == VI_V_CURRENT_REG ==> r.Ok? && r.value <= 0x3FF
      ensures r.Err? ==> r.fault == UnknownRegister
    {
      if addr == VI_INTR_REG then Ok(ReadHalfline())
      else if addr == VI_H_START_REG then Ok(ReadHVideo())
      else if addr == VI_V_CURRENT_REG then Ok(ReadCurrentVerticalLine() as bv32)
      else Err(UnknownRegister)
    }

    function ReadHalfline(): bv32
      reads this
    {
      intrHalfLine
    }

    function ReadHVideo(): (r: bv32)
      reads this
      ensures r >> 16 == horizontalVideoStart as bv32 && r & 0xFFFF == horizontalVideoEnd as bv32
    {
      HVideoWord(horizontalVideoStart, horizontalVideoEnd)
    }

    function ReadCurrentVerticalLine(): (r: bv16)
      reads this
      ensures r <= 0x3FF && r == currentVerticalLine & 0x3FF
    {
      currentVerticalLine & 0x3FF
    }

    /** Each accepted write sets only its own field(s), masked to 10 bits. */
    method Write(addr: u32, value: bv32) returns (out: Outcome)
      modifies this
      ensures Written(addr, value, out)
    {
      if addr == VI_INTR_REG {
        WriteHalfline(value);
      } else if addr == VI_H_START_REG {
        WriteHVideo(value);
      } else if addr == VI_V_CURRENT_REG {
        WriteCurrentVerticalLine(value);
      } else {
        return Fail(UnknownRegister);
      }
      out := Pass;
    }

    /** The outcome and the registers after a write of `value` at `addr`. */
    twostate predicate Written(addr: u32, value: bv32, out: Outcome)
      reads this
    {
      && (out.Pass? <==> IsRegister(addr))
      && (out.Fail? ==> out.fault == UnknownRegister && unchanged(this))
      && (addr == VI_INTR_REG ==> intrHalfLine == value & 0x3FF)
      && (addr != VI_INTR_REG ==> intrHalfLine == old(intrHalfLine))
      && (addr == VI_H_START_REG ==>
           horizontalVideoStart as bv32 == (value >> 16) & 0x3FF && horizontalVideoEnd as bv32 == value & 0x3FF)
      && (addr != VI_H_START_REG ==>
           horizontalVideoStart == old(horizontalVideoStart) && horizontalVideoEnd == old(horizontalVideoEnd))
      && (addr == VI_V_CURRENT_REG ==> currentVerticalLine as bv32 == value & 0x3FF)
      && (addr != VI_V_CURRENT_REG ==> currentVerticalLine == old(currentVerticalLine))
    }

    method WriteHalfline(value: bv32)
      modifies this`intrHalfLine
      ensures intrHalfLine == value & 0x3FF
    {
      intrHalfLine := value & 0x3FF;
    }

    method WriteHVideo(value: bv32)
      modifies this`horizontalVideoStart, this`horizontalVideoEnd
      ensures horizontalVideoStart as bv32 == (value >> 16) & 0x3FF
      ensures horizontalVideoEnd as bv32 == value & 0x3FF
    {
      horizontalVideoStart := ((value >> 16) & 0x3FF) as bv16;
      horizontalVideoEnd := (value & 0x3FF) as bv16;
    }

    method WriteCurrentVerticalLine(value: bv32)
      modifies this`currentVerticalLine
      ensures currentVerticalLine as bv32 == value & 0x3FF
    {
      currentVerticalLine := (value & 0x3FF) as bv16;
    }
  }

  /** The horizontal start/end register: start in the high half, end in the low. */
  function HVideoWord(start: bv16, end: bv16): (w: bv32)
    ensures w >> 16 == start as bv32 && w & 0xFFFF == end as bv32
  {
    var hi, lo := start as bv32, end as bv32;
    assert hi <= 0xFFFF && lo <= 0xFFFF;
    (hi << 16) | lo
  }

  /** Reading back the horizontal start/end register after writing `v` gives the
      two 10-bit fields of `v` and nothing else. */
  lemma HVideoRoundTrip(v: bv32, start: bv16, end: bv16)
    requires start as bv32 == (v >> 16) & 0x3FF && end as bv32 == v & 0x3FF
    ensures HVideoWord(start, end) == v & 0x03FF_03FF
  {
  }
}
