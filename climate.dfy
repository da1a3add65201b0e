/** The climate entities: two heating zones that differ only in their
    register addresses, and the domestic-hot-water tank.  Readings are
    functions of the coordinator's snapshot; a `set_*` call becomes the
    holding-register write it asks for, or none. */
module Climate {
  import opened Wrappers
  import opened Registers
  import opened Words
  import opened Poller
  import opened Readings

  datatype HvacMode = Off | Heat | Cool | Auto | HeatCool | Dry | FanOnly

  datatype HvacAction = ActionOff | Heating | Cooling | Idle

  /** The register addresses a heating zone uses: the heating and cooling
      set points (holding) and the room temperature (input). */
  datatype Zone = Zone(heatRegister: int, coolRegister: int, roomRegister: int)

  const Zone1: Zone := Zone(2, 12, 11)
  const Zone2: Zone := Zone(7, 17, 12)

  /** The DHW set-point registers: comfort, economy and boost. */
  const DhwComfort: int := 28
  const DhwEconomy: int := 29
  const DhwBoost: int := 31

  /** The DHW priority register, written 0 or 1 to switch the tank off or on. */
  const DhwPriority: int := 26

  /** The limits the three climate entities take from the catalogue. */
  lemma ClimateLimits()
    ensures MinMaxStep(Zone1.heatRegister) == (23.0, 60.0, 0.5)
    ensures MinMaxStep(Zone2.heatRegister) == (23.0, 60.0, 0.5)
    ensures MinMaxStep(DhwComfort) == (40.0, 60.0, 0.5)
    ensures ScaleOf(HoldingRegister(Zone1.heatRegister)) == 0.1 && ScaleOf(HoldingRegister(Zone2.heatRegister)) == 0.1
  {
  }

  // ---------------------------------------------------------------------
  // Heating zones

  /** The zone is cooling exactly when operating mode (input 10, absent read
      as 1) is 2; otherwise, and without data, it is heating. */
  predicate ZoneCooling(data: Option<Snapshot>)
  {
    data.Some? && GetOr(data.value.inputRegisters, 10, 1) == 2
  }

  /** The set-point register for the zone's current mode. */
  function ZoneSetpointRegister(zone: Zone, data: Option<Snapshot>): (r: int)
    ensures ZoneCooling(data) ==> r == zone.coolRegister
    ensures !ZoneCooling(data) ==> r == zone.heatRegister
  {
    if ZoneCooling(data) then zone.coolRegister else zone.heatRegister
  }

  /** Room temperature when positive, else return-water temperature when
      positive, else 21. */
  function ZoneCurrentTemperature(zone: Zone, data: Option<Snapshot>): (t: Option<real>)
    ensures t.Some? <==> data.Some?
    ensures t.Some? ==>
      var room := ScaledInput(data, zone.roomRegister);
      var ret := ScaledInput(data, 0);
      && (room.Some? && room.value > 0.0 ==> t.value == room.value)
      && (!(room.Some? && room.value > 0.0) && ret.Some? && ret.value > 0.0 ==> t.value == ret.value)
      && (!(room.Some? && room.value > 0.0) && !(ret.Some? && ret.value > 0.0) ==> t.value == 21.0)
  {
    if data.None? then None
    else
      var room := ScaledInput(data, zone.roomRegister);
      var ret := ScaledInput(data, 0);
      if room.Some? && room.value > 0.0 then room
      else if ret.Some? && ret.value > 0.0 then ret
      else Some(21.0)
  }

  /** The current mode's set point when positive, else the zone's minimum. */
  function ZoneTargetTemperature(zone: Zone, data: Option<Snapshot>): (t: Option<real>)
    ensures t.Some? <==> data.Some?
    ensures t.Some? ==>
      var target := ScaledHolding(data, ZoneSetpointRegister(zone, data));
      t.value == if target.Some? && target.value > 0.0 then target.value else MinMaxStep(zone.heatRegister).0
  {
    if data.None? then None
    else
      var target := ScaledHolding(data, ZoneSetpointRegister(zone, data));
      if target.Some? && target.value > 0.0 then target else Some(MinMaxStep(zone.heatRegister).0)
  }

  /** Off when the operating mode (absent read as 0) is 0 or the compressor
      is idle (scaled power below 100 and frequency 0); otherwise heat for 1,
      cool for 2 and off for anything else. */
  function ZoneHvacMode(data: Option<Snapshot>): (m: HvacMode)
    ensures m in {Off, Heat, Cool}
    ensures data.None? ==> m == Off
    ensures data.Some? ==>
      var mode := GetOr(data.value.inputRegisters, 10, 0);
      var idle := OrZero(ScaledInput(data, 3)) < 100.0 && OrZero(ScaledInput(data, 1)) == 0.0;
      && (m == Heat <==> mode == 1 && !idle)
      && (m == Cool <==> mode == 2 && !idle)
  {
    if data.None? then Off
    else
      var mode := GetOr(data.value.inputRegisters, 10, 0);
      var power := ScaledInput(data, 3);
      var frequency := ScaledInput(data, 1);
      if mode == 0 || (OrZero(power) < 100.0 && OrZero(frequency) == 0.0) then Off
      else if mode == 1 then Heat
      else if mode == 2 then Cool
      else Off
  }

  /** Running (frequency above 0 or scaled power above 200) shows heating or,
      in mode 2, cooling; otherwise idle; off without data. */
  function ZoneHvacAction(data: Option<Snapshot>): (a: HvacAction)
    ensures data.None? <==> a == ActionOff
    ensures data.Some? ==>
      var running := OrZero(ScaledInput(data, 1)) > 0.0 || OrZero(ScaledInput(data, 3)) > 200.0;
      && (a == Idle <==> !running)
      && (a == Cooling <==> running && ZoneCooling(data))
      && (a == Heating <==> running && !ZoneCooling(data))
  {
    if data.None? then ActionOff
    else
      var frequency := ScaledInput(data, 1);
      var power := ScaledInput(data, 3);
      var mode := GetOr(data.value.inputRegisters, 10, 1);
      if OrZero(frequency) > 0.0 || OrZero(power) > 200.0 then
        if mode == 2 then Cooling else Heating
      else Idle
  }

  /** A new set point becomes the raw value `int(t / scale)` of the heating
      register's scale, written to the current mode's set-point register;
      there is no bounds check.  No temperature, no write. */
  function ZoneSetTemperature(zone: Zone, data: Option<Snapshot>, temperature: Option<real>): (w: Option<WriteRequest>)
    requires ScaleOf(HoldingRegister(zone.heatRegister)) != 0.0
    ensures w.Some? <==> temperature.Some?
    ensures w.Some? ==> w.value.register == ZoneSetpointRegister(zone, data)
    ensures w.Some? ==> w.value.value == Trunc(temperature.value / ScaleOf(HoldingRegister(zone.heatRegister)))
  {
    match temperature
    case None => None
    case Some(t) =>
      var scale := ScaleOf(HoldingRegister(zone.heatRegister));
      Some(WriteRequest(ZoneSetpointRegister(zone, data), Trunc(t / scale)))
  }

  /** The value each supported mode stands for; the zone entities log it and
      write nothing, and a mode outside this table is rejected. */
  function ZoneModeValue(mode: HvacMode): (v: Option<int>)
    ensures v.Some? <==> mode in {Heat, Cool, Off, Auto}
  {
    match mode
    case Heat => Some(1)
    case Cool => Some(2)
    case Off => Some(0)
    case Auto => Some(4)
    case _ => None
  }

  /** The zone mode values are those of the climate-mode table, and each is
      an operating mode. */
  lemma ZoneModeValuesAgree()
    ensures ZoneModeValue(Off) == Some(ClimateModes["off"]) && ZoneModeValue(Heat) == Some(ClimateModes["heat"])
    ensures ZoneModeValue(Cool) == Some(ClimateModes["cool"]) && ZoneModeValue(Auto) == Some(ClimateModes["auto"])
    ensures forall m :: ZoneModeValue(m).Some? ==> ZoneModeValue(m).value in OperatingModes
  {
  }

  /** The raw tenths of a set point from 0.1 below 3276.8 fit the signed
      range and read back at most 0.1 below it. */
  lemma TenthsSetting(t: real)
    requires 0.1 <= t < 3276.8
    ensures var n := Trunc(t / 0.1);
      1 <= n <= 32767 && t - 0.1 < n as real * 0.1 <= t
  {
    var n := Trunc(t / 0.1);
    assert n as real <= t / 0.1 < n as real + 1.0;
  }

  /** Once the requested write lands and is polled back (as a signed 16-bit
      word), a zone shows as its target the written raw value times 0.1: a
      set point from 0.1 up to the largest the signed range holds reads back
      at most 0.1 below what was asked for and never above it. */
  lemma ZoneSetpointRoundTrip(zone: Zone, snap: Snapshot, t: real)
    requires zone == Zone1 || zone == Zone2
    requires 0.1 <= t < 3276.8
    ensures var data := Some(snap);
      var w := ZoneSetTemperature(zone, data, Some(t)).value;
      var after := Some(snap.(holdingRegisters := snap.holdingRegisters[w.register := Signed16(w.value)]));
      var shown := ZoneTargetTemperature(zone, after).value;
      t - 0.1 < shown <= t
  {
    var data := Some(snap);
    var scale := ScaleOf(HoldingRegister(zone.heatRegister));
    assert scale == 0.1;
    var w := ZoneSetTemperature(zone, data, Some(t)).value;
    var n := Trunc(t / 0.1);
    TenthsSetting(t);
    assert Signed16(n) == n;
    var after := Some(snap.(holdingRegisters := snap.holdingRegisters[w.register := Signed16(w.value)]));
    assert ZoneCooling(after) == ZoneCooling(data);
    assert ZoneSetpointRegister(zone, after) == w.register;
    assert ScaleOf(HoldingRegister(w.register)) == 0.1;
    assert ScaledHolding(after, w.register) == Some(n as real * 0.1);
  }

  // ---------------------------------------------------------------------
  // Domestic hot water

  /** The set-point register of the DHW mode (input 13, absent read as 1):
      comfort for 1, economy for 2, boost for 3, comfort otherwise. */
  function DhwSetpointRegister(data: Option<Snapshot>): (r: int)
    ensures r in {DhwComfort, DhwEconomy, DhwBoost}
    ensures var mode := GetOr(InputsOf(data), 13, 1);
      && (r == DhwEconomy <==> mode == 2)
      && (r == DhwBoost <==> mode == 3)
  {
    var mode := GetOr(InputsOf(data), 13, 1);
    if mode == 1 then DhwComfort
    else if mode == 2 then DhwEconomy
    else if mode == 3 then DhwBoost
    else DhwComfort
  }

  /** The tank temperature (input 16) when positive, else 50. */
  function DhwCurrentTemperature(data: Option<Snapshot>): (t: Option<real>)
    ensures t.Some? <==> data.Some?
    ensures t.Some? ==> t.value > 0.0
    ensures t.Some? ==> var tank := ScaledInput(data, 16);
      t.value == if tank.Some? && tank.value > 0.0 then tank.value else 50.0
  {
    if data.None? then None
    else
      var tank := ScaledInput(data, 16);
      if tank.Some? && tank.value > 0.0 then tank else Some(50.0)
  }

  /** The current DHW mode's set point when positive, else the minimum of
      register 28. */
  function DhwTargetTemperature(data: Option<Snapshot>): (t: Option<real>)
    ensures t.Some? <==> data.Some?
    ensures t.Some? ==> t.value > 0.0
    ensures t.Some? ==> var target := ScaledHolding(data, DhwSetpointRegister(data));
      t.value == if target.Some? && target.value > 0.0 then target.value else MinMaxStep(DhwComfort).0
  {
    if data.None? then None
    else
      var target := ScaledHolding(data, DhwSetpointRegister(data));
      if target.Some? && target.value > 0.0 then target else Some(MinMaxStep(DhwComfort).0)
  }

  /** The tank heats when DHW priority (holding 26) and DHW mode (input 13)
      are both positive, absent values reading as 0. */
  function DhwHvacMode(data: Option<Snapshot>): (m: HvacMode)
    ensures m == Heat <==> data.Some? && GetOr(data.value.holdingRegisters, DhwPriority, 0) > 0 && GetOr(data.value.inputRegisters, 13, 0) > 0
    ensures m != Heat ==> m == Off
  {
    if data.None? then Off
    else if GetOr(data.value.holdingRegisters, DhwPriority, 0) > 0 && GetOr(data.value.inputRegisters, 13, 0) > 0 then Heat
    else Off
  }

  /** Heating when more than a degree below target with scaled power above
      200, idle at or above target, off otherwise. */
  function DhwHvacAction(data: Option<Snapshot>): (a: HvacAction)
    ensures a != Cooling
    ensures data.None? ==> a == ActionOff
    ensures data.Some? ==>
      var current := DhwCurrentTemperature(data).value;
      var target := DhwTargetTemperature(data).value;
      && (a == Heating <==> current < target - 1.0 && OrZero(ScaledInput(data, 3)) > 200.0)
      && (a == Idle <==> current >= target)
  {
    if data.None? then ActionOff
    else
      var current := DhwCurrentTemperature(data).GetOr(0.0);
      var target := DhwTargetTemperature(data).GetOr(0.0);
      var power := ScaledInput(data, 3);
      if current < target - 1.0 && OrZero(power) > 200.0 then Heating
      else if current >= target then Idle
      else ActionOff
  }

  /** A DHW set point inside register 28's limits becomes `int(t * 10)`
      written to the current DHW mode's register; outside them, or with no
      temperature, nothing is written. */
  function DhwSetTemperature(data: Option<Snapshot>, temperature: Option<real>): (w: Option<WriteRequest>)
    ensures var (lo, hi, _) := MinMaxStep(DhwComfort);
      w.Some? <==> temperature.Some? && lo <= temperature.value <= hi
    ensures w.Some? ==> w.value == WriteRequest(DhwSetpointRegister(data), Trunc(temperature.value * 10.0))
  {
    match temperature
    case None => None
    case Some(t) =>
      var (lo, hi, _) := MinMaxStep(DhwComfort);
      if !(lo <= t <= hi) then None
      else Some(WriteRequest(DhwSetpointRegister(data), Trunc(t * 10.0)))
  }

  /** An accepted DHW set point is between 40 and 60 and its raw value between
      400 and 600. */
  lemma DhwSetTemperatureRange(data: Option<Snapshot>, t: real)
    ensures DhwSetTemperature(data, Some(t)).Some? <==> 40.0 <= t <= 60.0
    ensures DhwSetTemperature(data, Some(t)).Some? ==>
      var w := DhwSetTemperature(data, Some(t)).value;
      w.register in {DhwComfort, DhwEconomy, DhwBoost} && 400 <= w.value <= 600
  {
    ClimateLimits();
    if 40.0 <= t <= 60.0 {
      var n := Trunc(t * 10.0);
      assert n as real <= t * 10.0 < n as real + 1.0;
    }
  }

  /** Turning the tank off writes 0 and on writes 1 to the DHW priority
      register; any other mode writes nothing. */
  function DhwSetHvacMode(mode: HvacMode): (w: Option<WriteRequest>)
    ensures w.Some? <==> mode == Off || mode == Heat
    ensures w.Some? ==> w.value.register == DhwPriority
    ensures w.Some? ==> (w.value.value == 1 <==> mode == Heat) && (w.value.value == 0 <==> mode == Off)
  {
    match mode
    case Off => Some(WriteRequest(DhwPriority, 0))
    case Heat => Some(WriteRequest(DhwPriority, 1))
    case _ => None
  }

  /** Once the write lands with input 13 positive, the tank reports the mode
      it was set to. */
  lemma DhwModeRoundTrip(snap: Snapshot, mode: HvacMode)
    requires mode == Off || mode == Heat
    requires GetOr(snap.inputRegisters, 13, 0) > 0
    ensures var w := DhwSetHvacMode(mode).value;
      DhwHvacMode(Some(snap.(holdingRegisters := snap.holdingRegisters[w.register := w.value]))) == mode
  {
  }
}
