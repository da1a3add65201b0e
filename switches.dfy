/** The switches bound at setup.  Each one names a holding register, the
    values written to turn it on and off, and the rule that decides from the
    register's value whether it is shown as on. */
module Switches {
  import opened Wrappers
  import opened Registers
  import opened RegisterFacts
  import opened Poller
  import opened Readings

  /** How a register value reads as on: any positive value, or exactly 1. */
  datatype OnRule = Positive | EqualsOne

  datatype Switch = Switch(
    name: string,
    register: int,
    onValue: Option<int>,
    offValue: Option<int>,
    rule: OnRule,
    /** The value assumed when the snapshot lacks the register. */
    absentValue: int,
    /** What the switch shows before any snapshot exists. */
    onWithoutData: bool)

  /** A switch writing 1 for on and 0 for off. */
  function Toggle(name: string, register: int, rule: OnRule, absentValue: int, onWithoutData: bool): (s: Switch)
    ensures s.onValue == Some(1) && s.offValue == Some(0)
    ensures s.register == register && s.rule == rule && s.absentValue == absentValue
  {
    Switch(name, register, Some(1), Some(0), rule, absentValue, onWithoutData)
  }

  const DhwPriority: Switch := Toggle("ASHP DHW Priority", 26, Positive, 0, false)
  const DhwHeatPumpOnly: Switch := Toggle("ASHP DHW Heat Pump Only Mode", 27, EqualsOne, 1, false)
  /** The backup heater switch created at setup is the later definition of
      its class, which targets register 84; the earlier one, on register 71,
      is never instantiated. */
  const BackupHeater: Switch := Toggle("ASHP Backup Heater Enable", 84, Positive, 0, false)
  const FrostProtection: Switch := Toggle("ASHP Frost Protection", 81, Positive, 0, false)
  const EhsFunction: Switch := Toggle("ASHP EHS Function", 84, Positive, 0, false)
  const Terminal2021: Switch := Toggle("ASHP Terminal 20-21 Remote Contact", 91, Positive, 0, false)
  const Terminal2425: Switch := Toggle("ASHP Terminal 24-25 Mode Control", 92, Positive, 0, false)
  const Terminal47Alarm: Switch := Toggle("ASHP Terminal 47 Alarm Output", 93, Positive, 0, false)
  const Terminal48Pump1: Switch := Toggle("ASHP Terminal 48 Pump1 Zone1", 94, EqualsOne, 0, false)
  const Terminal49Pump2: Switch := Toggle("ASHP Terminal 49 Pump2 Zone2", 95, EqualsOne, 0, false)
  /** The 3-way valve reads as on until a snapshot or a value says otherwise. */
  const ThreeWayValve: Switch := Toggle("ASHP DHW 3-Way Valve", 96, EqualsOne, 1, true)

  /** The switches in the order setup creates them. */
  const BoundSwitches: seq<Switch> := [
    DhwPriority, DhwHeatPumpOnly, BackupHeater, FrostProtection, EhsFunction,
    Terminal2021, Terminal2425, Terminal47Alarm, Terminal48Pump1, Terminal49Pump2,
    ThreeWayValve]

  /** Whether a register value reads as on under a rule. */
  predicate RuleHolds(rule: OnRule, mode: int)
  {
    match rule
    case Positive => mode > 0
    case EqualsOne => mode == 1
  }

  /** The value a switch reads: the holding register, or its absent value. */
  function SwitchMode(s: Switch, data: Option<Snapshot>): (mode: int)
    ensures s.register in HoldingOf(data) ==> mode == HoldingOf(data)[s.register]
    ensures s.register !in HoldingOf(data) ==> mode == s.absentValue
  {
    GetOr(HoldingOf(data), s.register, s.absentValue)
  }

  /** A switch is on when its rule holds for its value; before any snapshot
      it shows its no-data state. */
  predicate IsOn(s: Switch, data: Option<Snapshot>)
  {
    if data.None? then s.onWithoutData else RuleHolds(s.rule, SwitchMode(s, data))
  }

  /** Turning on writes the on value to the switch's register; a switch
      without one writes nothing. */
  function TurnOn(s: Switch): (w: Option<WriteRequest>)
    ensures w.Some? <==> s.onValue.Some?
    ensures w.Some? ==> w.value == WriteRequest(s.register, s.onValue.value)
  {
    match s.onValue
    case None => None
    case Some(v) => Some(WriteRequest(s.register, v))
  }

  function TurnOff(s: Switch): (w: Option<WriteRequest>)
    ensures w.Some? <==> s.offValue.Some?
    ensures w.Some? ==> w.value == WriteRequest(s.register, s.offValue.value)
  {
    match s.offValue
    case None => None
    case Some(v) => Some(WriteRequest(s.register, v))
  }

  /** The snapshot the device would report once a write has been applied. */
  function Applied(snap: Snapshot, w: WriteRequest): (after: Snapshot)
    ensures after.holdingRegisters == snap.holdingRegisters[w.register := w.value]
    ensures after.inputRegisters == snap.inputRegisters && after.coilRegisters == snap.coilRegisters
  {
    snap.(holdingRegisters := snap.holdingRegisters[w.register := w.value])
  }

  /** Every bound switch can be turned on and off, and once the write has
      been applied and read back the switch shows the state it was turned
      to. */
  lemma SwitchRoundTrip(s: Switch, snap: Snapshot)
    requires s in BoundSwitches
    ensures TurnOn(s).Some? && IsOn(s, Some(Applied(snap, TurnOn(s).value)))
    ensures TurnOff(s).Some? && !IsOn(s, Some(Applied(snap, TurnOff(s).value)))
  {
    assert s.onValue == Some(1) && s.offValue == Some(0);
    assert SwitchMode(s, Some(Applied(snap, TurnOn(s).value))) == 1;
    assert SwitchMode(s, Some(Applied(snap, TurnOff(s).value))) == 0;
  }

  /** The registers the bound switches control, in setup order: the backup
      heater and the EHS function both drive register 84 and no switch drives
      register 71.  Every one of them is a polled holding register. */
  lemma SwitchRegisters()
    ensures forall i :: 0 <= i < |BoundSwitches| ==> BoundSwitches[i].register == [26, 27, 84, 81, 84, 91, 92, 93, 94, 95, 96][i]
    ensures BackupHeater.register == EhsFunction.register == 84
    ensures forall s :: s in BoundSwitches ==> s.register != 71 && HoldingRegister(s.register).Some?
  {
    assert forall r :: 81 <= r <= 96 ==> HoldingRegister(r).Some?;
    assert HoldingRegister(26).Some? && HoldingRegister(27).Some?;
  }

  /** Without a snapshot only the 3-way valve shows as on; with one, a
      register the snapshot lacks reads as its switch's default: on for the
      heat-pump-only mode and the 3-way valve, off for every other switch. */
  lemma SwitchDefaults(s: Switch, snap: Snapshot)
    requires s in BoundSwitches
    ensures IsOn(s, None) <==> s == ThreeWayValve
    ensures s.register !in snap.holdingRegisters ==>
      (IsOn(s, Some(snap)) <==> s == DhwHeatPumpOnly || s == ThreeWayValve)
  {
  }

  // ---------------------------------------------------------------------
  // Mode descriptions shown as attributes

  /** The text for a known register value, "Unknown" for any other. */
  function Describe(texts: map<int, string>, mode: int): (d: string)
    ensures mode in texts ==> d == texts[mode]
    ensures mode !in texts ==> d == "Unknown"
  {
    if mode in texts then texts[mode] else "Unknown"
  }

  const DhwPriorityTexts: map<int, string> := map[
    0 := "DHW is unavailable",
    1 := "DHW priority over space heating",
    2 := "Space heating priority over DHW"]

  const DhwConfigurationTexts: map<int, string> := map[
    0 := "Heat pump + Heater",
    1 := "Heat pump only",
    2 := "Heater only"]

  const EhsTexts: map<int, string> := map[
    0 := "Disabled",
    1 := "Replacement mode",
    2 := "Supplementary mode"]

  /** The description attached to a switch that has one, from the same value
      `IsOn` reads. */
  function ModeDescription(s: Switch, data: Option<Snapshot>): (d: Option<string>)
    requires data.Some?
    ensures d.Some? <==> s == DhwPriority || s == DhwHeatPumpOnly || s == EhsFunction
  {
    if s == DhwPriority then Some(Describe(DhwPriorityTexts, SwitchMode(s, data)))
    else if s == DhwHeatPumpOnly then Some(Describe(DhwConfigurationTexts, SwitchMode(s, data)))
    else if s == EhsFunction then Some(Describe(EhsTexts, SwitchMode(s, data)))
    else None
  }

  /** Each description table covers the values 0 to 2, so the description is
      "Unknown" exactly for the values outside that range. */
  lemma DescriptionsKnownRange(s: Switch, data: Option<Snapshot>)
    requires data.Some? && ModeDescription(s, data).Some?
    ensures ModeDescription(s, data) == Some("Unknown") <==> !(0 <= SwitchMode(s, data) <= 2)
  {
    var m := SwitchMode(s, data);
    if 0 <= m <= 2 {
      assert m in DhwPriorityTexts && m in DhwConfigurationTexts && m in EhsTexts;
      assert DhwPriorityTexts[m] != "Unknown" && DhwConfigurationTexts[m] != "Unknown" && EhsTexts[m] != "Unknown";
    }
  }

  /** The description agrees with the switch state: DHW priority is on
      exactly when "DHW is unavailable" is not shown for a known value, and the
      heat-pump-only switch is on exactly when "Heat pump only" is shown. */
  lemma DescriptionsAgreeWithState(data: Option<Snapshot>)
    requires data.Some?
    ensures 0 <= SwitchMode(DhwPriority, data) <= 2 ==>
      (IsOn(DhwPriority, data) <==> ModeDescription(DhwPriority, data) != Some("DHW is unavailable"))
    ensures IsOn(DhwHeatPumpOnly, data) <==> ModeDescription(DhwHeatPumpOnly, data) == Some("Heat pump only")
  {
    var m := SwitchMode(DhwHeatPumpOnly, data);
    if m != 1 && m in DhwConfigurationTexts {
      assert m == 0 || m == 2;
    }
    var p := SwitchMode(DhwPriority, data);
    if 0 <= p <= 2 {
      assert p == 0 || p == 1 || p == 2;
    }
  }
}
