/** The binary sensors: compressor, defrost, alarm, heating, DHW, backup
    heater, frost protection, weather compensation per zone and
    communication.  Each is off while the coordinator has no snapshot. */
module BinarySensors {
  import opened Wrappers
  import opened Registers
  import opened RegisterFacts
  import opened Text
  import opened Poller
  import opened Readings

  /** Seconds after the last successful fetch during which communication is
      reported as working. */
  const CommunicationWindow: real := 120.0

  /** The input address the alarm sensor reads. */
  const AlarmRegister: int := 20

  /** Compressor frequency above 0 or scaled power above 200, missing values
      read as 0. */
  predicate CompressorRunning(data: Option<Snapshot>)
  {
    data.Some? && (OrZero(ScaledInput(data, 1)) > 0.0 || OrZero(ScaledInput(data, 3)) > 200.0)
  }

  /** Input 2 read and at most 5 with the compressor frequency exactly 0 (a
      missing frequency is not 0). */
  predicate DefrostActive(data: Option<Snapshot>)
  {
    data.Some? && ScaledInput(data, 2).Some? && ScaledInput(data, 2).value <= 5.0 && ScaledInput(data, 1) == Some(0.0)
  }

  /** A positive alarm code at input 20. */
  predicate AlarmActive(data: Option<Snapshot>)
  {
    data.Some? && OrZero(ScaledInput(data, AlarmRegister)) > 0.0
  }

  /** The alarm code as the sensor's attributes show it. */
  function AlarmCode(data: Option<Snapshot>): (code: Option<int>)
    ensures code.Some? <==> AlarmRegister in InputsOf(data)
    ensures code.Some? ==> code.value == InputsOf(data)[AlarmRegister]
  {
    Get(InputsOf(data), AlarmRegister)
  }

  /** Address 20 is not in the input catalogue, so the poll never stores it:
      on fetched data the alarm is never on and its code is missing. */
  lemma AlarmNeverPolled(link: Link, flowRateLpm: real, now: real)
    requires FetchResult(link, flowRateLpm, now).Ok?
    ensures var data := Some(FetchResult(link, flowRateLpm, now).value);
      !AlarmActive(data) && AlarmCode(data).None?
  {
    assert FetchResult(link, flowRateLpm, now).value.inputRegisters == InputValues(link.readInput);
    InputValuesInRange(link.readInput);
    InputGap();
  }

  const AlarmTexts: map<int, string> := map[
    0 := "No Alarm",
    1 := "High Pressure",
    2 := "Low Pressure",
    3 := "Compressor Overload",
    4 := "Fan Motor Error",
    5 := "Water Flow Error",
    6 := "Temperature Sensor Error",
    7 := "Communication Error"]

  /** "No Data" without a code, the fixed text of codes 0 to 7, and
      "Unknown Alarm (<code>)" for any other. */
  function AlarmDescription(code: Option<int>): (s: string)
  {
    match code
    case None => "No Data"
    case Some(c) => if c in AlarmTexts then AlarmTexts[c] else "Unknown Alarm (" + IntToString(c) + ")"
  }

  /** The description tells the cases apart: no code, a known code, or an
      unknown one; different unknown codes are described differently. */
  lemma AlarmDescriptionCases(code: Option<int>, other: int)
    ensures code.None? <==> AlarmDescription(code) == "No Data"
    ensures code.Some? && 0 <= code.value <= 7 ==> AlarmDescription(code) == AlarmTexts[code.value]
    ensures code.Some? && !(0 <= code.value <= 7) ==> AlarmDescription(code)[..15] == "Unknown Alarm ("
    ensures code.Some? && !(0 <= code.value <= 7) && !(0 <= other <= 7) && AlarmDescription(code) == AlarmDescription(Some(other)) ==> code.value == other
  {
    if code.Some? && !(0 <= code.value <= 7) {
      var d := AlarmDescription(code);
      assert |d| > 15;
      assert d[..15] == "Unknown Alarm (";
      if !(0 <= other <= 7) && d == AlarmDescription(Some(other)) {
        var e := AlarmDescription(Some(other));
        assert d[15..|d| - 1] == IntToString(code.value);
        assert e[15..|e| - 1] == IntToString(other);
        IntToStringInjective(code.value, other);
      }
    }
  }

  /** Heating is reported when the DHW mode (input 13) is exactly 0 and input 1
      exceeds the return temperature by more than a degree. */
  predicate HeatingActive(data: Option<Snapshot>)
  {
    data.Some? && ScaledInput(data, 13) == Some(0.0) && OrZero(ScaledInput(data, 1)) > OrZero(ScaledInput(data, 0)) + 1.0
  }

  /** The tank is being heated when the DHW mode is positive. */
  predicate DhwActive(data: Option<Snapshot>)
  {
    data.Some? && OrZero(ScaledInput(data, 13)) > 0.0
  }

  /** Backup heating: input 2 read and below -5 with input 5 above 5000. */
  predicate BackupHeaterActive(data: Option<Snapshot>)
  {
    data.Some? && ScaledInput(data, 2).Some? && ScaledInput(data, 2).value < -5.0 && OrZero(ScaledInput(data, 5)) > 5000.0
  }

  /** The frost rule over chosen outdoor and flow temperature registers: the
      outdoor reading below 0 or the flow reading below 5. */
  predicate FrostRule(data: Option<Snapshot>, outdoorRegister: int, flowRegister: int)
  {
    data.Some? &&
    ((ScaledInput(data, outdoorRegister).Some? && ScaledInput(data, outdoorRegister).value < 0.0) ||
     (ScaledInput(data, flowRegister).Some? && ScaledInput(data, flowRegister).value < 5.0))
  }

  /** Frost protection as the sensor computes it: "outdoor" from input 2
      (discharge temperature) and "flow" from input 1 (compressor frequency). */
  predicate FrostProtectionAsWritten(data: Option<Snapshot>)
  {
    FrostRule(data, 2, 1)
  }

  /** Frost protection over the outdoor air (input 6) and outgoing water
      (input 9) temperatures the catalogue names. */
  predicate FrostProtectionActive(data: Option<Snapshot>)
  {
    FrostRule(data, 6, 9)
  }

  /** A warm day with the compressor stopped: outdoor 15, water 40, frequency
      0, discharge 30. */
  function StoppedCompressorSnapshot(): Snapshot
  {
    Snapshot(map[1 := 0, 2 := 30, 6 := 15, 9 := 40], map[], map[], 0.0, map[])
  }

  /** As written, frost protection reports on whenever the compressor stands
      still, whatever the temperatures. */
  lemma FrostProtectionAsWrittenOnWhenStopped()
    ensures FrostProtectionAsWritten(Some(StoppedCompressorSnapshot()))
    ensures !FrostProtectionActive(Some(StoppedCompressorSnapshot()))
  {
    var data := Some(StoppedCompressorSnapshot());
    assert ScaledInput(data, 1) == Some(0.0);
    assert ScaledInput(data, 6) == Some(15.0);
    assert ScaledInput(data, 9) == Some(40.0);
  }

  /** With the catalogue's registers, frost protection is on exactly when the
      outdoor air is below 0 or the outgoing water below 5 degrees, and never
      on a snapshot that reads neither. */
  lemma FrostProtectionMeaning(data: Option<Snapshot>)
    requires data.Some?
    ensures FrostProtectionActive(data) <==>
      (6 in data.value.inputRegisters && data.value.inputRegisters[6] < 0) ||
      (9 in data.value.inputRegisters && data.value.inputRegisters[9] < 5)
  {
    assert ScaleOf(InputRegister(6)) == 1.0 && ScaleOf(InputRegister(9)) == 1.0;
  }

  /** Zone 1 and zone 2 weather compensation follow coils 2 and 3 (a missing
      coil reads as off). */
  predicate WeatherCompZone1Active(data: Option<Snapshot>)
  {
    data.Some? && 2 in CoilsOf(data) && CoilsOf(data)[2]
  }

  predicate WeatherCompZone2Active(data: Option<Snapshot>)
  {
    data.Some? && 3 in CoilsOf(data) && CoilsOf(data)[3]
  }

  /** Communication works when the last successful fetch started less than 120
      seconds before `now`. */
  predicate CommunicationOk(data: Option<Snapshot>, now: real)
  {
    data.Some? && now - data.value.lastUpdate < CommunicationWindow
  }

  /** On a snapshot, in device words (scales 1 for inputs 0, 1, 2, 5 and 13,
      100 for input 3; missing words read as 0): the compressor runs when
      input 1 is positive or input 3 exceeds 2, defrost needs input 2 at most 5
      and input 1 read as 0, and the backup heater input 2 below -5 and input
      5 above 5000. */
  lemma RunningSensorsOnWords(data: Option<Snapshot>)
    requires data.Some?
    ensures var inputs := data.value.inputRegisters;
      CompressorRunning(data) <==> GetOr(inputs, 1, 0) > 0 || GetOr(inputs, 3, 0) > 2
    ensures var inputs := data.value.inputRegisters;
      DefrostActive(data) <==> 2 in inputs && inputs[2] <= 5 && 1 in inputs && inputs[1] == 0
    ensures var inputs := data.value.inputRegisters;
      BackupHeaterActive(data) <==> 2 in inputs && inputs[2] < -5 && GetOr(inputs, 5, 0) > 5000
  {
    assert ScaleOf(InputRegister(1)) == 1.0 && ScaleOf(InputRegister(2)) == 1.0;
    assert ScaleOf(InputRegister(3)) == 100.0 && ScaleOf(InputRegister(5)) == 1.0;
  }

  /** On a snapshot, in device words: heating needs input 13 read as 0 and
      input 1 more than 1 above input 0, and DHW is active when input 13 is
      positive. */
  lemma ModeSensorsOnWords(data: Option<Snapshot>)
    requires data.Some?
    ensures var inputs := data.value.inputRegisters;
      HeatingActive(data) <==> 13 in inputs && inputs[13] == 0 && GetOr(inputs, 1, 0) > GetOr(inputs, 0, 0) + 1
    ensures var inputs := data.value.inputRegisters;
      DhwActive(data) <==> GetOr(inputs, 13, 0) > 0
  {
    assert ScaleOf(InputRegister(0)) == 1.0 && ScaleOf(InputRegister(1)) == 1.0 && ScaleOf(InputRegister(13)) == 1.0;
  }

  /** Without a snapshot every binary sensor is off. */
  lemma AllOffWithoutData(now: real)
    ensures !CompressorRunning(None) && !DefrostActive(None) && !AlarmActive(None) && !HeatingActive(None)
    ensures !DhwActive(None) && !BackupHeaterActive(None) && !FrostProtectionActive(None) && !FrostProtectionAsWritten(None)
    ensures !WeatherCompZone1Active(None) && !WeatherCompZone2Active(None) && !CommunicationOk(None, now)
  {
  }

  /** Right after a fetch communication is reported working, and it stops
      being reported 120 seconds later. */
  lemma CommunicationAfterFetch(link: Link, flowRateLpm: real, now: real, later: real)
    requires FetchResult(link, flowRateLpm, now).Ok? && later >= now
    ensures var data := Some(FetchResult(link, flowRateLpm, now).value);
      CommunicationOk(data, later) <==> later < now + CommunicationWindow
  {
    FetchOutcome(link, flowRateLpm, now);
  }
}
