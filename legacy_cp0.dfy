/** Coprocessor 0 of the first interpreter (src/cpu/cp0/cp0.rs): a Config and
    a Status register. Only Status, register 12, can be written; a write to
    any other register panics. */
module LegacyCp0 {
  import opened Faults
  import opened Words
  import N = N64RegStatus
  import LegacyRegConfig
  import LegacyRegStatus

  const STATUS_REGISTER: u32 := 12

  /** What `write_status_reg` passes on: the low 32 bits of the 64-bit
      value. */
  function StatusWord(data: bv64): (w: bv32)
    ensures w as bv64 == data & 0xFFFF_FFFF
  {
    (data & 0xFFFF_FFFF) as bv32
  }

  class Cp0 {
    const regConfig: LegacyRegConfig.RegConfig
    const regStatus: LegacyRegStatus.RegStatus

    predicate Valid()
    {
      regStatus.Valid()
    }

    function Config(): LegacyRegConfig.Config
      reads regConfig
    {
      regConfig.Value()
    }

    function Status(): N.RegStatus
      reads regStatus, regStatus.coprocUsability, regStatus.diagStatus, regStatus.interruptMask
      reads regStatus.interruptMask.external, regStatus.interruptMask.software
    {
      regStatus.Value()
    }

    /** The derived `Default`. */
    constructor ()
      ensures Valid() && Config() == LegacyRegConfig.DEFAULT && Status() == N.Default()
      ensures fresh(regConfig) && fresh(regStatus) && fresh(regStatus.coprocUsability)
      ensures fresh(regStatus.diagStatus) && fresh(regStatus.interruptMask)
      ensures fresh(regStatus.interruptMask.external) && fresh(regStatus.interruptMask.software)
    {
      regConfig := new LegacyRegConfig.RegConfig();
      regStatus := new LegacyRegStatus.RegStatus();
    }

    /** `power_on_reset`: resets the Config register only; Status is outside
        the frame. */
    method PowerOnReset()
      modifies regConfig
      ensures Config() == old(Config()).(ep := LegacyRegConfig.D, be := LegacyRegConfig.BigEndian)
    {
      regConfig.PowerOnReset();
    }

    /** `write_reg`: register 12 is Status and takes the low 32 bits of
        `data`; any other index panics and changes nothing. Config is outside
        the frame either way. */
    method WriteReg(index: u32, data: bv64) returns (out: Outcome)
      requires Valid()
      modifies regStatus, regStatus.coprocUsability, regStatus.diagStatus, regStatus.interruptMask
      modifies regStatus.interruptMask.external, regStatus.interruptMask.software
      ensures index == STATUS_REGISTER ==>
        Status() == LegacyRegStatus.Written(old(Status()), StatusWord(data)) &&
        out == (if N.ModeFrom(StatusWord(data)).Ok? then Pass else Fail(InvalidMode))
      ensures index != STATUS_REGISTER ==> out == Fail(UnrecognisedCp0Write) && Status() == old(Status())
    {
      if index == STATUS_REGISTER {
        out := WriteStatusReg(data);
      } else {
        out := Fail(UnrecognisedCp0Write);
      }
    }

    /** `write_status_reg`. */
    method WriteStatusReg(data: bv64) returns (out: Outcome)
      requires Valid()
      modifies regStatus, regStatus.coprocUsability, regStatus.diagStatus, regStatus.interruptMask
      modifies regStatus.interruptMask.external, regStatus.interruptMask.software
      ensures Status() == LegacyRegStatus.Written(old(Status()), StatusWord(data))
      ensures out == (if N.ModeFrom(StatusWord(data)).Ok? then Pass else Fail(InvalidMode))
    {
      out := regStatus.Write(StatusWord(data));
    }
  }
}
