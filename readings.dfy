/** Reading the coordinator's snapshot the way the climate and binary-sensor
    entities do: a space's map (empty without data) and a register times its
    catalogue scale. */
module Readings {
  import opened Wrappers
  import opened Registers
  import opened Poller

  /** A register times its table's scale (1 when the table gives none), or
      none when the address is missing. */
  function ScaledRegister(registers: map<int, int>, config: Option<Descriptor>, id: int): (v: Option<real>)
    ensures v.Some? <==> id in registers
    ensures v.Some? ==> v.value == registers[id] as real * ScaleOf(config)
  {
    match Get(registers, id)
    case None => None
    case Some(value) => Some(value as real * ScaleOf(config))
  }

  /** `(value or 0)` of an optional reading. */
  function OrZero(v: Option<real>): real
  {
    v.GetOr(0.0)
  }

  /** A space's map of the snapshot, `data.get(space, {})`, empty when
      there is no snapshot. */
  function InputsOf(data: Option<Snapshot>): map<int, int>
  {
    if data.Some? then data.value.inputRegisters else map[]
  }

  function HoldingOf(data: Option<Snapshot>): map<int, int>
  {
    if data.Some? then data.value.holdingRegisters else map[]
  }

  function ScaledInput(data: Option<Snapshot>, id: int): Option<real>
  {
    ScaledRegister(InputsOf(data), InputRegister(id), id)
  }

  function ScaledHolding(data: Option<Snapshot>, id: int): Option<real>
  {
    ScaledRegister(HoldingOf(data), HoldingRegister(id), id)
  }

  function CoilsOf(data: Option<Snapshot>): map<int, bool>
  {
    if data.Some? then data.value.coilRegisters else map[]
  }
}
