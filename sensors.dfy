/** The sensor entities: every catalogue input and holding register shown
    scaled, and the calculated power, energy, delta-T, COP, efficiency,
    weather-compensation and cost sensors.  Each value is a function of the
    coordinator's last snapshot (`None` when there is none yet). */
module Sensors {
  import opened Wrappers
  import opened Registers
  import opened RegisterFacts
  import opened Words
  import opened Text
  import opened Poller

  /** The raw value the register sensors treat as "no reading". */
  const NoReading: int := 65336

  /** Specific heat of water used by the COP sensor, kJ per kg and kelvin. */
  const SpecificHeat: real := 4.186

  /** Electricity price the cost sensors assume, per kWh. */
  const UnitRate: real := 0.30

  // ---------------------------------------------------------------------
  // Register sensors

  predicate IsSigned(config: Option<Descriptor>)
  {
    config.Some? && config.value.signed.GetOr(false)
  }

  /** The displayed value of a raw word: reinterpreted as signed only when the
      descriptor says so, then scaled and offset. */
  function ScaledReading(config: Option<Descriptor>, raw: int): real
  {
    var value := if IsSigned(config) && raw > 32767 then raw - 65536 else raw;
    value as real * ScaleOf(config) + OffsetOf(config)
  }

  /** A register sensor's value from one space's map: absent when the address
      was not polled or holds the sentinel. */
  function Reading(values: map<int, int>, config: Option<Descriptor>, id: int): (v: Option<real>)
    ensures v.Some? <==> id in values && values[id] != NoReading
    ensures v.Some? ==> v.value == ScaledReading(config, values[id])
  {
    match Get(values, id)
    case None => None
    case Some(raw) => if raw == NoReading then None else Some(ScaledReading(config, raw))
  }

  function InputNativeValue(data: Option<Snapshot>, id: int): (v: Option<real>)
    ensures data.None? ==> v.None?
    ensures data.Some? ==> v == Reading(data.value.inputRegisters, InputRegister(id), id)
  {
    match data
    case None => None
    case Some(snap) => Reading(snap.inputRegisters, InputRegister(id), id)
  }

  function HoldingNativeValue(data: Option<Snapshot>, id: int): (v: Option<real>)
    ensures data.None? ==> v.None?
    ensures data.Some? ==> v == Reading(data.value.holdingRegisters, HoldingRegister(id), id)
  {
    match data
    case None => None
    case Some(snap) => Reading(snap.holdingRegisters, HoldingRegister(id), id)
  }

  /** No catalogue entry asks for signed reinterpretation, so a catalogue
      register's reading is its raw word times its scale, even above 32767. */
  lemma CatalogueReadingsUnsigned(id: int, raw: int)
    ensures InputRegister(id).Some? ==> ScaledReading(InputRegister(id), raw) == raw as real * InputRegister(id).value.scale.value
    ensures HoldingRegister(id).Some? ==> ScaledReading(HoldingRegister(id), raw) == raw as real * HoldingRegister(id).value.scale.value
  {
    InputScalesAndOffsets();
    HoldingScales();
    HoldingOffsets();
  }

  /** The sentinel 65336 lies outside the signed 16-bit range the poll stores,
      so on fetched data a register sensor has a value exactly when its
      address was polled. */
  lemma SentinelNeverPolled(link: Link, flowRateLpm: real, now: real, id: int)
    requires FetchResult(link, flowRateLpm, now).Ok?
    ensures var data := Some(FetchResult(link, flowRateLpm, now).value);
      && (InputNativeValue(data, id).Some? <==> id in data.value.inputRegisters)
      && (HoldingNativeValue(data, id).Some? <==> id in data.value.holdingRegisters)
  {
    FetchOutcome(link, flowRateLpm, now);
  }

  // ---------------------------------------------------------------------
  // Entity ids

  /** The entity-id form of a name: lower case, with spaces, hyphens and
      slashes turned into underscores and parentheses dropped. */
  function CleanName(name: string): (c: string)
  {
    Replace(Replace(Replace(Replace(Replace(Lower(name), ' ', "_"), '-', "_"), '(', ""), ')', ""), '/', "_")
  }

  predicate Forbidden(d: char)
  {
    d == ' ' || d == '-' || d == '(' || d == ')' || d == '/'
  }

  /** A cleaned name holds no space, hyphen, parenthesis, slash or upper-case
      ASCII letter, and is no longer than the name. */
  lemma CleanNameChars(name: string, d: char)
    ensures Forbidden(d) ==> d !in CleanName(name)
    ensures 'A' <= d <= 'Z' ==> d !in CleanName(name)
    ensures |CleanName(name)| <= |name|
  {
    var s0 := Lower(name);
    var s1 := Replace(s0, ' ', "_");
    var s2 := Replace(s1, '-', "_");
    var s3 := Replace(s2, '(', "");
    var s4 := Replace(s3, ')', "");
    ReplaceMembers(s0, ' ', "_", d);
    ReplaceMembers(s1, '-', "_", d);
    ReplaceMembers(s2, '(', "", d);
    ReplaceMembers(s3, ')', "", d);
    ReplaceMembers(s4, '/', "_", d);
    ReplaceLength(s0, ' ', "_");
    ReplaceLength(s1, '-', "_");
    ReplaceLength(s2, '(', "");
    ReplaceLength(s3, ')', "");
    ReplaceLength(s4, '/', "_");
    if 'A' <= d <= 'Z' {
      assert d !in s0;
    }
  }

  /** A register sensor's name: its catalogue name, else "<Kind> Register <id>". */
  function RegisterName(name: Option<string>, kind: string, id: int): (n: string)
    ensures name.Some? ==> n == name.value
    ensures name.None? ==> n == kind + " Register " + IntToString(id)
  {
    name.GetOr(kind + " Register " + IntToString(id))
  }

  function EntityId(name: string): string
  {
    "sensor.ashp_" + CleanName(name)
  }

  function InputEntityId(id: int): string
  {
    EntityId(RegisterName(InputName(id), "Input", id))
  }

  function HoldingEntityId(id: int): string
  {
    EntityId(RegisterName(HoldingName(id), "Holding", id))
  }

  /** Every register sensor's entity id is the prefix followed by a suffix free
      of the characters an entity id may not hold. */
  lemma EntityIdShape(id: int, d: char)
    ensures InputEntityId(id)[..12] == "sensor.ashp_" && HoldingEntityId(id)[..12] == "sensor.ashp_"
    ensures Forbidden(d) ==> d !in InputEntityId(id)[12..] && d !in HoldingEntityId(id)[12..]
  {
    var i := RegisterName(InputName(id), "Input", id);
    var h := RegisterName(HoldingName(id), "Holding", id);
    CleanNameChars(i, d);
    CleanNameChars(h, d);
    assert InputEntityId(id)[12..] == CleanName(i);
    assert HoldingEntityId(id)[12..] == CleanName(h);
  }

  // ---------------------------------------------------------------------
  // Calculated sensors

  /** Electrical power in watts: register 3 is in units of 100 W; a missing
      or negative reading shows 0. */
  function PowerValue(data: Option<Snapshot>): (v: Option<real>)
    ensures v.Some? <==> data.Some?
    ensures v.Some? ==> v.value >= 0.0
    ensures v.Some? ==> var inputs := data.value.inputRegisters;
      v.value == if 3 in inputs && inputs[3] >= 0 then (inputs[3] * 100) as real else 0.0
  {
    match data
    case None => None
    case Some(snap) =>
      var power := Get(snap.inputRegisters, 3);
      if power.Some? && power.value >= 0 then Some((power.value * 100) as real) else Some(0.0)
  }

  /** Daily energy in kWh from register 10 read as Wh; 0 when missing or not
      positive. */
  function EnergyValue(data: Option<Snapshot>): (v: Option<real>)
    ensures v.Some? <==> data.Some?
    ensures v.Some? ==> v.value >= 0.0
    ensures v.Some? ==> var inputs := data.value.inputRegisters;
      v.value * 1000.0 == if 10 in inputs && inputs[10] > 0 then inputs[10] as real else 0.0
  {
    match data
    case None => None
    case Some(snap) =>
      var energy := Get(snap.inputRegisters, 10);
      if energy.Some? then
        if energy.value > 0 then Some(energy.value as real / 1000.0) else Some(0.0)
      else Some(0.0)
  }

  /** Flow minus return temperature, raw words 9 and 0; none unless both were
      read. */
  function DeltaTValue(data: Option<Snapshot>): (v: Option<real>)
    ensures v.Some? <==> data.Some? && 9 in data.value.inputRegisters && 0 in data.value.inputRegisters
    ensures v.Some? ==> v.value == (data.value.inputRegisters[9] - data.value.inputRegisters[0]) as real
  {
    match data
    case None => None
    case Some(snap) =>
      var flowTemp := Get(snap.inputRegisters, 9);
      var returnTemp := Get(snap.inputRegisters, 0);
      if flowTemp.Some? && returnTemp.Some? then Some((flowTemp.value - returnTemp.value) as real) else None
  }

  /** The COP sensor's guard: temperatures and power read, power positive and
      the flow warmer than the return. */
  predicate CopDefined(data: Option<Snapshot>)
  {
    data.Some? &&
    var inputs := data.value.inputRegisters;
    9 in inputs && 0 in inputs && 3 in inputs && inputs[3] > 0 && inputs[9] - inputs[0] > 0
  }

  /** Thermal output (kW) over electrical input (kW); defined exactly under
      the guard, when the electrical input is positive, so the division is
      never by zero. */
  function CopValue(data: Option<Snapshot>, flowRateLpm: real): (v: Option<real>)
    ensures v.Some? <==> CopDefined(data)
    ensures v.Some? ==>
      var inputs := data.value.inputRegisters;
      v.value * ((inputs[3] * 100) as real / 1000.0) == flowRateLpm * SpecificHeat * (inputs[9] - inputs[0]) as real / 60.0
  {
    match data
    case None => None
    case Some(snap) =>
      var inputs := snap.inputRegisters;
      var flowTemp := Get(inputs, 9);
      var returnTemp := Get(inputs, 0);
      var powerRaw := Get(inputs, 3);
      if flowTemp.Some? && returnTemp.Some? && powerRaw.Some? && powerRaw.value > 0 then
        var powerW := powerRaw.value * 100;
        var deltaT := flowTemp.value - returnTemp.value;
        if deltaT > 0 then
          var thermalKw := flowRateLpm * SpecificHeat * deltaT as real / 60.0;
          var electricalKw := powerW as real / 1000.0;
          if electricalKw > 0.0 then
            var cop := thermalKw / electricalKw;
            assert cop * electricalKw == thermalKw;
            Some(cop)
          else None
        else None
      else None
  }

  /** The COP sensor and the coordinator's derived COP use different
      constants (4.186 / 60 per litre per minute against 1.16 per litre per
      hour), so where both are defined they differ by the fixed ratio
      4186 : 4176. */
  lemma CopSensorVersusDerived(data: Option<Snapshot>, flowRateLpm: real)
    requires CopDefined(data) && CanDerive(data.value.inputRegisters, flowRateLpm)
    ensures CopValue(data, flowRateLpm).value * 4176.0 == CalculateDerivedValues(data.value.inputRegisters, flowRateLpm)["cop"] * 4186.0
  {
    var inputs := data.value.inputRegisters;
    var sensor := CopValue(data, flowRateLpm).value;
    var derived := CalculateDerivedValues(inputs, flowRateLpm)["cop"];
    var p := (inputs[3] * 100) as real;
    var d := (inputs[9] - inputs[0]) as real;
    assert sensor * (p / 1000.0) == flowRateLpm * SpecificHeat * d / 60.0;
    assert derived * p == flowRateLpm * 60.0 * WattsPerLitreHourKelvin * d;
    assert p > 0.0;
    ProductCancel(sensor * 4176.0, derived * 4186.0, p);
  }

  lemma ProductCancel(a: real, b: real, p: real)
    requires p > 0.0 && a * p == b * p
    ensures a == b
  {
  }

  /** Where both exist, the delta-T sensor shows the coordinator's derived
      delta-T. */
  lemma DeltaTAgrees(data: Option<Snapshot>, flowRateLpm: real)
    requires data.Some? && CanDerive(data.value.inputRegisters, flowRateLpm)
    ensures DeltaTValue(data) == Some(CalculateDerivedValues(data.value.inputRegisters, flowRateLpm)["delta_t"])
  {
  }

  /** An efficiency figure from the compressor frequency (register 1): 85 per
      cent at 100 Hz, capped at 95; none when the compressor is stopped or the
      frequency missing. */
  function EfficiencyValue(data: Option<Snapshot>): (v: Option<real>)
    ensures v.Some? <==> data.Some? && GetOr(data.value.inputRegisters, 1, 0) > 0
    ensures v.Some? ==> 0.0 < v.value <= 95.0
    ensures v.Some? ==> var f := data.value.inputRegisters[1] as real;
      (f * 0.85 <= 95.0 ==> v.value == f * 0.85) && (f * 0.85 > 95.0 ==> v.value == 95.0)
  {
    match data
    case None => None
    case Some(snap) =>
      var frequency := GetOr(snap.inputRegisters, 1, 0);
      if frequency > 0 then
        var efficiency := frequency as real / 100.0 * 85.0;
        Some(if efficiency <= 95.0 then efficiency else 95.0)
      else None
  }

  /** The weather-compensation sensor shows holding register 50 in tenths of
      a degree. */
  function WeatherCompValue(data: Option<Snapshot>): (v: Option<real>)
    ensures v.Some? <==> data.Some? && 50 in data.value.holdingRegisters
    ensures v.Some? ==> v.value * 10.0 == data.value.holdingRegisters[50] as real
  {
    match data
    case None => None
    case Some(snap) =>
      match Get(snap.holdingRegisters, 50)
      case None => None
      case Some(compTemp) => Some(compTemp as real * 0.1)
  }

  /** Cost of a day at the current power, priced per kWh; 0 when the power
      word is missing or not positive. */
  function DailyCostValue(data: Option<Snapshot>): (v: Option<real>)
    ensures v.Some? <==> data.Some?
    ensures v.Some? && GetOr(data.value.inputRegisters, 3, 0) <= 0 ==> v.value == 0.0
    ensures v.Some? ==> v.value >= 0.0
  {
    match data
    case None => None
    case Some(snap) =>
      var powerRaw := GetOr(snap.inputRegisters, 3, 0);
      if powerRaw > 0 then
        var powerW := powerRaw * 100;
        var dailyKwh := powerW as real / 1000.0 * 24.0;
        Some(dailyKwh * UnitRate)
      else Some(0.0)
  }

  /** Cost of thirty such days. */
  function MonthlyCostValue(data: Option<Snapshot>): (v: Option<real>)
    ensures v.Some? <==> data.Some?
    ensures v.Some? && GetOr(data.value.inputRegisters, 3, 0) <= 0 ==> v.value == 0.0
    ensures v.Some? ==> v.value >= 0.0
  {
    match data
    case None => None
    case Some(snap) =>
      var powerRaw := GetOr(snap.inputRegisters, 3, 0);
      if powerRaw > 0 then
        var powerW := powerRaw * 100;
        var monthlyKwh := powerW as real / 1000.0 * 24.0 * 30.0;
        Some(monthlyKwh * UnitRate)
      else Some(0.0)
  }

  /** The monthly projection is thirty times the daily estimate, and the daily
      estimate is the power sensor's watts over a day at the unit rate. */
  lemma CostsAgree(data: Option<Snapshot>)
    requires data.Some?
    ensures MonthlyCostValue(data).value == 30.0 * DailyCostValue(data).value
    ensures GetOr(data.value.inputRegisters, 3, 0) > 0 ==>
      DailyCostValue(data).value == PowerValue(data).value / 1000.0 * 24.0 * UnitRate
  {
  }
}
