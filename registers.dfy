/** The register catalogue: for each of the three Modbus spaces the
    integration polls (input registers, holding registers, coils), a table
    from address to descriptor and the list of its addresses in the order the
    table is written, plus the mode tables used by the climate entities.

    A table is a function from address to an optional descriptor: `Some` for
    an address the table holds (Python's `address in TABLE`), `None` for any
    other; this is the dictionary's `get`. */
module Registers {
  import opened Wrappers

  /** A catalogue entry.  Every field is optional, as in the dictionaries the
      integration reads with `get(field, default)`.  The names are kept in
      separate tables over the same addresses (`InputName`, `HoldingName`,
      `CoilName`); the unit, device class and description fields are
      presentation only and are not kept. */
  datatype Descriptor = Descriptor(
    scale: Option<real>,
    offset: Option<real>,
    writable: Option<bool>,
    minValue: Option<real>,
    maxValue: Option<real>,
    step: Option<real>,
    signed: Option<bool>)

  /** The shape of every input-register entry: a scale and offset 0. */
  function InputDescriptor(scale: real): Descriptor
  {
    Descriptor(Some(scale), Some(0.0), None, None, None, None, None)
  }

  /** The shape of every holding-register entry: writable, offset 0, with
      optional bounds and step. */
  function HoldingDescriptor(scale: real, lo: Option<real>, hi: Option<real>, step: Option<real>): Descriptor
  {
    Descriptor(Some(scale), Some(0.0), Some(true), lo, hi, step, None)
  }

  /** The shape of every coil entry: nothing numeric. */
  function CoilDescriptor(): Descriptor
  {
    Descriptor(None, None, None, None, None, None, None)
  }

  /** A descriptor's scale and offset read with `get(field, default)`; an
      address the table lacks reads as the empty descriptor. */
  function ScaleOf(config: Option<Descriptor>): (s: real)
    ensures config.Some? && config.value.scale.Some? ==> s == config.value.scale.value
    ensures !(config.Some? && config.value.scale.Some?) ==> s == 1.0
  {
    if config.Some? then config.value.scale.GetOr(1.0) else 1.0
  }

  function OffsetOf(config: Option<Descriptor>): (o: real)
    ensures config.Some? && config.value.offset.Some? ==> o == config.value.offset.value
    ensures !(config.Some? && config.value.offset.Some?) ==> o == 0.0
  {
    if config.Some? then config.value.offset.GetOr(0.0) else 0.0
  }

  /** A holding register's minimum, maximum and step, defaulting to 0, 100
      and 1, as the climate and number entities both read them. */
  function MinMaxStep(id: int): (r: (real, real, real))
    ensures HoldingRegister(id).None? ==> r == (0.0, 100.0, 1.0)
    ensures HoldingRegister(id).Some? ==>
      var d := HoldingRegister(id).value;
      r == (d.minValue.GetOr(0.0), d.maxValue.GetOr(100.0), d.step.GetOr(1.0))
  {
    match HoldingRegister(id)
    case None => (0.0, 100.0, 1.0)
    case Some(d) => (d.minValue.GetOr(0.0), d.maxValue.GetOr(100.0), d.step.GetOr(1.0))
  }

  const OperatingModes: map<int, string> := map[0 := "Off", 1 := "Heating", 2 := "Cooling", 3 := "DHW", 4 := "Auto"]

  const DhwModes: map<int, string> := map[0 := "Off", 1 := "Comfort", 2 := "Economy", 3 := "Boost"]

  const ClimateModes: map<string, int> := map["off" := 0, "heat" := 1, "cool" := 2, "auto" := 4]

  const DefaultScanInterval: nat := 10

  /** The input-register table (read-only sensor values), looked up by address. */
  function InputRegister(address: int): Option<Descriptor>
  {
    match address
    case 0 => Some(InputDescriptor(1.0))
    case 1 => Some(InputDescriptor(1.0))
    case 2 => Some(InputDescriptor(1.0))
    case 3 => Some(InputDescriptor(100.0))
    case 4 => Some(InputDescriptor(10.0))
    case 5 => Some(InputDescriptor(1.0))
    case 6 => Some(InputDescriptor(1.0))
    case 7 => Some(InputDescriptor(100.0))
    case 8 => Some(InputDescriptor(1.0))
    case 9 => Some(InputDescriptor(1.0))
    case 10 => Some(InputDescriptor(1.0))
    case 11 => Some(InputDescriptor(0.1))
    case 12 => Some(InputDescriptor(0.1))
    case 13 => Some(InputDescriptor(1.0))
    case 14 => Some(InputDescriptor(1.0))
    case 15 => Some(InputDescriptor(1.0))
    case 16 => Some(InputDescriptor(0.1))
    case 17 => Some(InputDescriptor(0.1))
    case 18 => Some(InputDescriptor(0.1))
    case 19 => Some(InputDescriptor(0.1))
    case 32 => Some(InputDescriptor(1.0))
    case _ => None
  }

  /** The holding-register table (writable settings), looked up by address. */
  function HoldingRegister(address: int): Option<Descriptor>
  {
    match address
    case 2 => Some(HoldingDescriptor(0.1, Some(23.0), Some(60.0), Some(0.5)))
    case 3 => Some(HoldingDescriptor(0.1, Some(23.0), Some(60.0), Some(0.5)))
    case 4 => Some(HoldingDescriptor(0.1, Some(23.0), Some(60.0), Some(0.5)))
    case 5 => Some(HoldingDescriptor(0.1, Some(-20.0), Some(50.0), Some(0.5)))
    case 6 => Some(HoldingDescriptor(0.1, Some(0.0), Some(40.0), Some(0.5)))
    case 7 => Some(HoldingDescriptor(0.1, Some(23.0), Some(60.0), Some(0.5)))
    case 8 => Some(HoldingDescriptor(0.1, Some(23.0), Some(60.0), Some(0.5)))
    case 9 => Some(HoldingDescriptor(0.1, Some(23.0), Some(60.0), Some(0.5)))
    case 10 => Some(HoldingDescriptor(0.1, Some(-20.0), Some(50.0), Some(0.5)))
    case 11 => Some(HoldingDescriptor(0.1, Some(0.0), Some(40.0), Some(0.5)))
    case 12 => Some(HoldingDescriptor(0.1, Some(7.0), Some(23.0), Some(0.5)))
    case 13 => Some(HoldingDescriptor(0.1, Some(7.0), Some(23.0), Some(0.5)))
    case 14 => Some(HoldingDescriptor(0.1, Some(7.0), Some(23.0), Some(0.5)))
    case 15 => Some(HoldingDescriptor(0.1, Some(0.0), Some(50.0), Some(0.5)))
    case 16 => Some(HoldingDescriptor(0.1, Some(0.0), Some(50.0), Some(0.5)))
    case 17 => Some(HoldingDescriptor(0.1, Some(7.0), Some(23.0), Some(0.5)))
    case 18 => Some(HoldingDescriptor(0.1, Some(7.0), Some(23.0), Some(0.5)))
    case 19 => Some(HoldingDescriptor(0.1, Some(7.0), Some(23.0), Some(0.5)))
    case 20 => Some(HoldingDescriptor(0.1, Some(0.0), Some(50.0), Some(0.5)))
    case 21 => Some(HoldingDescriptor(0.1, Some(0.0), Some(50.0), Some(0.5)))
    case 22 => Some(HoldingDescriptor(0.1, Some(0.5), Some(10.0), Some(0.5)))
    case 23 => Some(HoldingDescriptor(0.1, Some(0.5), Some(10.0), Some(0.5)))
    case 24 => Some(HoldingDescriptor(0.1, Some(0.0), Some(60.0), Some(0.5)))
    case 25 => Some(HoldingDescriptor(0.1, Some(0.0), Some(60.0), Some(0.5)))
    case 26 => Some(HoldingDescriptor(1.0, Some(0.0), Some(2.0), None))
    case 27 => Some(HoldingDescriptor(1.0, Some(0.0), Some(2.0), None))
    case 28 => Some(HoldingDescriptor(0.1, Some(40.0), Some(60.0), Some(0.5)))
    case 29 => Some(HoldingDescriptor(0.1, Some(30.0), Some(50.0), Some(0.5)))
    case 30 => Some(HoldingDescriptor(0.1, Some(0.5), Some(10.0), Some(0.5)))
    case 31 => Some(HoldingDescriptor(0.1, Some(50.0), Some(90.0), Some(0.5)))
    case 32 => Some(HoldingDescriptor(1.0, Some(0.0), Some(900.0), Some(1.0)))
    case 33 => Some(HoldingDescriptor(1.0, None, None, Some(1.0)))
    case 34 => Some(HoldingDescriptor(0.1, Some(-20.0), Some(20.0), Some(0.5)))
    case 35 => Some(HoldingDescriptor(0.1, Some(0.5), Some(10.0), Some(0.5)))
    case 36 => Some(HoldingDescriptor(0.1, None, None, Some(0.5)))
    case 37 => Some(HoldingDescriptor(1.0, Some(50.0), Some(100.0), Some(5.0)))
    case 38 => Some(HoldingDescriptor(1.0, Some(0.0), Some(0.0), Some(1.0)))
    case 39 => Some(HoldingDescriptor(1.0, Some(0.0), Some(900.0), Some(1.0)))
    case 40 => Some(HoldingDescriptor(1.0, Some(0.0), Some(900.0), Some(1.0)))
    case 41 => Some(HoldingDescriptor(1.0, Some(0.0), Some(2.0), None))
    case 42 => Some(HoldingDescriptor(1.0, Some(1.0), Some(15.0), Some(1.0)))
    case 43 => Some(HoldingDescriptor(1.0, Some(5.0), Some(30.0), Some(1.0)))
    case 44 => Some(HoldingDescriptor(1.0, Some(1.0), Some(15.0), Some(1.0)))
    case 45 => Some(HoldingDescriptor(1.0, Some(0.0), Some(240.0), Some(1.0)))
    case 46 => Some(HoldingDescriptor(1.0, Some(0.0), Some(10.0), Some(1.0)))
    case 47 => Some(HoldingDescriptor(1.0, Some(0.0), Some(10.0), Some(1.0)))
    case 48 => Some(HoldingDescriptor(1.0, Some(0.0), Some(10.0), Some(1.0)))
    case 49 => Some(HoldingDescriptor(1.0, Some(0.0), Some(4.0), None))
    case 50 => Some(HoldingDescriptor(0.1, Some(0.0), Some(40.0), Some(0.5)))
    case 51 => Some(HoldingDescriptor(0.1, Some(0.5), Some(5.0), Some(0.5)))
    case 52 => Some(HoldingDescriptor(0.1, Some(10.0), Some(60.0), Some(0.5)))
    case 53 => Some(HoldingDescriptor(1.0, Some(0.0), Some(120.0), Some(1.0)))
    case 54 => Some(HoldingDescriptor(0.1, Some(0.0), Some(10.0), Some(0.5)))
    case 55 => Some(HoldingDescriptor(0.1, Some(0.5), Some(5.0), Some(0.5)))
    case 56 => Some(HoldingDescriptor(0.1, Some(0.0), Some(10.0), Some(0.5)))
    case 57 => Some(HoldingDescriptor(0.1, Some(0.5), Some(5.0), Some(0.5)))
    case 58 => Some(HoldingDescriptor(0.1, Some(0.0), Some(60.0), Some(0.5)))
    case 59 => Some(HoldingDescriptor(0.1, Some(0.5), Some(5.0), Some(0.5)))
    case 60 => Some(HoldingDescriptor(1.0, Some(0.0), Some(100.0), Some(1.0)))
    case 61 => Some(HoldingDescriptor(1.0, Some(0.0), Some(100.0), Some(1.0)))
    case 62 => Some(HoldingDescriptor(0.1, Some(0.5), Some(20.0), Some(0.5)))
    case 63 => Some(HoldingDescriptor(1.0, Some(0.0), Some(900.0), Some(10.0)))
    case 64 => Some(HoldingDescriptor(1.0, None, None, None))
    case 65 => Some(HoldingDescriptor(0.1, None, None, None))
    case 66 => Some(HoldingDescriptor(1.0, Some(1.0), Some(900.0), Some(1.0)))
    case 67 => Some(HoldingDescriptor(1.0, None, None, None))
    case 68 => Some(HoldingDescriptor(1.0, None, None, None))
    case 69 => Some(HoldingDescriptor(1.0, None, None, None))
    case 70 => Some(HoldingDescriptor(1.0, None, None, None))
    case 71 => Some(HoldingDescriptor(1.0, Some(0.0), Some(3.0), None))
    case 72 => Some(HoldingDescriptor(0.1, Some(40.0), Some(60.0), Some(0.5)))
    case 73 => Some(HoldingDescriptor(0.1, Some(0.5), Some(10.0), Some(0.5)))
    case 74 => Some(HoldingDescriptor(1.0, None, None, Some(1.0)))
    case 75 => Some(HoldingDescriptor(1.0, Some(0.0), Some(900.0), Some(1.0)))
    case 76 => Some(HoldingDescriptor(1.0, Some(0.0), Some(900.0), Some(1.0)))
    case 77 => Some(HoldingDescriptor(0.1, Some(-20.0), Some(20.0), Some(0.5)))
    case 78 => Some(HoldingDescriptor(0.1, Some(0.5), Some(10.0), Some(0.5)))
    case 79 => Some(HoldingDescriptor(0.1, Some(-20.0), Some(20.0), Some(0.5)))
    case 80 => Some(HoldingDescriptor(0.1, Some(0.5), Some(10.0), Some(0.5)))
    case 81 => Some(HoldingDescriptor(1.0, Some(0.0), Some(3.0), None))
    case 82 => Some(HoldingDescriptor(0.1, Some(0.0), Some(60.0), Some(0.5)))
    case 83 => Some(HoldingDescriptor(0.1, Some(0.5), Some(10.0), Some(0.5)))
    case 84 => Some(HoldingDescriptor(1.0, Some(0.0), Some(2.0), None))
    case 85 => Some(HoldingDescriptor(0.1, Some(-20.0), Some(20.0), Some(0.5)))
    case 86 => Some(HoldingDescriptor(0.1, Some(0.5), Some(10.0), Some(0.5)))
    case 87 => Some(HoldingDescriptor(0.1, Some(-20.0), Some(20.0), Some(0.5)))
    case 88 => Some(HoldingDescriptor(0.1, Some(0.5), Some(10.0), Some(0.5)))
    case 89 => Some(HoldingDescriptor(1.0, Some(0.0), Some(900.0), Some(1.0)))
    case 90 => Some(HoldingDescriptor(1.0, Some(0.0), Some(900.0), Some(1.0)))
    case 91 => Some(HoldingDescriptor(1.0, Some(0.0), Some(2.0), None))
    case 92 => Some(HoldingDescriptor(1.0, Some(0.0), Some(2.0), None))
    case 93 => Some(HoldingDescriptor(1.0, Some(0.0), Some(2.0), None))
    case 94 => Some(HoldingDescriptor(1.0, Some(0.0), Some(1.0), None))
    case 95 => Some(HoldingDescriptor(1.0, Some(0.0), Some(1.0), None))
    case 96 => Some(HoldingDescriptor(1.0, Some(1.0), Some(1.0), None))
    case 99 => Some(HoldingDescriptor(0.1, Some(23.0), Some(60.0), Some(0.5)))
    case 100 => Some(HoldingDescriptor(0.1, Some(7.0), Some(23.0), Some(0.5)))
    case _ => None
  }

  /** The coil table (on/off flags), looked up by address. */
  function Coil(address: int): Option<Descriptor>
  {
    match address
    case 1 => Some(CoilDescriptor())
    case 2 => Some(CoilDescriptor())
    case 3 => Some(CoilDescriptor())
    case 4 => Some(CoilDescriptor())
    case 5 => Some(CoilDescriptor())
    case 6 => Some(CoilDescriptor())
    case 7 => Some(CoilDescriptor())
    case 8 => Some(CoilDescriptor())
    case 9 => Some(CoilDescriptor())
    case 10 => Some(CoilDescriptor())
    case 11 => Some(CoilDescriptor())
    case 12 => Some(CoilDescriptor())
    case 13 => Some(CoilDescriptor())
    case 14 => Some(CoilDescriptor())
    case 15 => Some(CoilDescriptor())
    case 16 => Some(CoilDescriptor())
    case 17 => Some(CoilDescriptor())
    case 18 => Some(CoilDescriptor())
    case 19 => Some(CoilDescriptor())
    case 20 => Some(CoilDescriptor())
    case 21 => Some(CoilDescriptor())
    case 22 => Some(CoilDescriptor())
    case 23 => Some(CoilDescriptor())
    case 24 => Some(CoilDescriptor())
    case 25 => Some(CoilDescriptor())
    case 26 => Some(CoilDescriptor())
    case 27 => Some(CoilDescriptor())
    case 28 => Some(CoilDescriptor())
    case 29 => Some(CoilDescriptor())
    case 30 => Some(CoilDescriptor())
    case 31 => Some(CoilDescriptor())
    case 32 => Some(CoilDescriptor())
    case _ => None
  }

  /** Names of the input registers. */
  function InputName(address: int): Option<string>
  {
    match address
    case 0 => Some("Return Water Temperature")
    case 1 => Some("Compressor Operating Frequency")
    case 2 => Some("Discharge Temperature")
    case 3 => Some("Current Consumption Value")
    case 4 => Some("Fan Control Number Of Rotation")
    case 5 => Some("Defrost Temperature")
    case 6 => Some("Outdoor Air Temperature")
    case 7 => Some("Water Pump Control Number Of Rotation")
    case 8 => Some("Suction Temperature")
    case 9 => Some("Outgoing Water Temperature")
    case 10 => Some("Selected Operating Mode")
    case 11 => Some("Room Air Set Temperature of Zone 1")
    case 12 => Some("Room Air Set Temperature Of Zone 2")
    case 13 => Some("Selected DHW Operating Mode")
    case 14 => Some("Legionella Cycle Day")
    case 15 => Some("Legionella Cycle")
    case 16 => Some("DHW Tank Temperature")
    case 17 => Some("Outdoor Air Temperature - Remote Sensor")
    case 18 => Some("Buffer Tank Temperature")
    case 19 => Some("Mix Water Temperature")
    case 32 => Some("Plate Heat Exchanger Temperature")
    case _ => None
  }

  /** Names of the holding registers. */
  function HoldingName(address: int): Option<string>
  {
    match address
    case 2 => Some("Fixed Flow Temp Zone 1")
    case 3 => Some("Max Flow Temp Zone1")
    case 4 => Some("Min Flow Temp Zone1")
    case 5 => Some("Min. Outdoor Air Temperature Zone1")
    case 6 => Some("Max. Outdoor Air Temperature Zone1")
    case 7 => Some("Fixed Flow Temp Zone 2")
    case 8 => Some("Max Flow Temp Zone2")
    case 9 => Some("Min Flow Temp Zone2")
    case 10 => Some("Min. Outdoor Air Temperature Zone2")
    case 11 => Some("Max. Outdoor Air Temperature Zone2")
    case 12 => Some("Cooling Fixed Flow Temp Zone 1")
    case 13 => Some("Max. Flow Temperature In Cooling Mode")
    case 14 => Some("Min. Flow Water Temperature In Cooling Mode")
    case 15 => Some("Min. Outdoor Air Temperature Cooling Zone1")
    case 16 => Some("Max. Outdoor Air Temperature Corresponding To max. Outgoing water temperature Cooling (Te2) Zone1")
    case 17 => Some("Cooling Fixed Flow Temp Zone2")
    case 18 => Some("Max Flow Temperature In Cooling Mode 2")
    case 19 => Some("Min Flow Temperature In Cooling Mode 2")
    case 20 => Some("Min Outdoor Air Temperature Cooling Zone2")
    case 21 => Some("Max. Outdoor Air Temperature Cooling Zone2")
    case 22 => Some("Hysteresis Of Water Set Point In Heating And DHW")
    case 23 => Some("Hysteresis Of Water Set Point In Cooling")
    case 24 => Some("Low Tariff Deferential Water Set Point For Heating")
    case 25 => Some("Low Tariff Deferential Water Set Point For Cooling")
    case 26 => Some("DHW Production Priority Setting")
    case 27 => Some("Type Of Configuration To Heat The DHW")
    case 28 => Some("DHW Comfort Set Temperature")
    case 29 => Some("DHW Economy Set Temperature")
    case 30 => Some("DHW Set Point Hysteresis")
    case 31 => Some("DHW Over Boost Mode Set Point")
    case 32 => Some("Max. Time For DHW Request")
    case 33 => Some("Delay Time On DHW Heater From Off Compressor")
    case 34 => Some("Outdoor Air Temperature To Enable DHW Heaters")
    case 35 => Some("Outdoor Air Temperature Hysteresis To Disable DHW Heaters")
    case 36 => Some("Anti-legionella Set Point")
    case 37 => Some("Max. Frequency Of Night Mode")
    case 38 => Some("Min. Time Compressor On/off Time")
    case 39 => Some("Delay Time Pump Off From Compressor Off")
    case 40 => Some("Delay Time Compressor On From Pump On")
    case 41 => Some("Type Of Configuration Of Main Water Pump")
    case 42 => Some("Time On Main Water Pump For Sniffing Cycle")
    case 43 => Some("Time Off Main Water Pump")
    case 44 => Some("Delay Time Off Main Water Pump From Off Compressor")
    case 45 => Some("Off Time For Unlock Pump Function Start")
    case 46 => Some("Time On Main Water Pump For Unlock Pump Function")
    case 47 => Some("Time On Water Pump1 For Unlock Pump Function")
    case 48 => Some("Time On Water Pump2 For Unlock Pump Function")
    case 49 => Some("Type Of Operation Of Additional Water Pump")
    case 50 => Some("Start Temperature Of Frost Protection On Room Air Temp")
    case 51 => Some("Hysteresis Of Room Air Temperature Of Frost Protection")
    case 52 => Some("Water Temperature Of Frost Protection")
    case 53 => Some("Delay Time Off Main Water Pump From Off")
    case 54 => Some("Start Temperature Of Frost Protection On Outdoor Air Temp")
    case 55 => Some("Hysteresis Of Outdoor Air Temperature")
    case 56 => Some("Backup Heater Set Point During Frost Protection")
    case 57 => Some("Hysteresis Of Outgoing Water Temperature")
    case 58 => Some("Start Temperature Of Frost Protection On DHW Tank Temp")
    case 59 => Some("Hysteresis Of DHW Tank Temperature")
    case 60 => Some("Room Relative Humidity Value")
    case 61 => Some("Room Relative Humidity Value To Start Increasing Flow Temp")
    case 62 => Some("Max Flow Temp Hysteresis relative to Humidity")
    case 63 => Some("Mixing Valve Runtime")
    case 64 => Some("Mixing Valve Integral Factor")
    case 65 => Some("Max Water Temperature In Mixing Circuit")
    case 66 => Some("3way Valve Change Over Time")
    case 67 => Some("Flow Switch Alarm Delay Time At. Pump Start Up")
    case 68 => Some("Flow Switch Alarm Delay Time")
    case 69 => Some("The Number Of Retry Until Displaying Alarm")
    case 70 => Some("The Time Of Repeating Retry Until Displaying Alarm")
    case 71 => Some("Backup Heater Type Of Function")
    case 72 => Some("Manual Water Set Point")
    case 73 => Some("Manual Water Temperature Hysteresis")
    case 74 => Some("Delay Time Of The Heater Off That Avoid Flow Switch Alarm")
    case 75 => Some("Heater Activation Delay Time")
    case 76 => Some("Integration Time For Starting Heaters")
    case 77 => Some("Outdoor Air Temperature To Enable Backup Heater")
    case 78 => Some("Outdoor Air Temperature Hysteresis To Disable Backup Heaters and Enable Compressor")
    case 79 => Some("Outdoor Air Temperature To Enable Backup Heaters")
    case 80 => Some("Outdoor Air Temperature Hysteresis To Disable Backup Heaters (Supplementary Mode)")
    case 81 => Some("Freeze Protection Functions")
    case 82 => Some("Outgoing Water Temperature Set Point During Start-up")
    case 83 => Some("Hysteresis Water Temperature Set Point During Start-up")
    case 84 => Some("EHS Type Of Function")
    case 85 => Some("Outdoor Air Temperature To Enable EHS And Disable Compressor")
    case 86 => Some("Outdoor Air Temperature Hysteresis To Disable Enable Compressor")
    case 87 => Some("Outdoor Air Temperature To Enable EHS")
    case 88 => Some("Outdoor Air Temperature Hysteresis To Disable EHS")
    case 89 => Some("EHS Activation Delay Time")
    case 90 => Some("Integration Time For Starting EHS")
    case 91 => Some("Terminal 20-21 : On/off Remote Contact Or EHS Alarm")
    case 92 => Some("Terminal 24-25 : Heating/cooling Mode Remote Contact")
    case 93 => Some("Terminal 47 : Alarm")
    case 94 => Some("Terminal 48 : Pump1")
    case 95 => Some("Terminal 49 : Pump2")
    case 96 => Some("Terminal 50-51-52 : DHW 3way Valve")
    case 99 => Some("Buffer Tank Set Point For Heating")
    case 100 => Some("Buffer Tank Set Point For Cooling")
    case _ => None
  }

  /** Names of the coils. */
  function CoilName(address: int): Option<string>
  {
    match address
    case 1 => Some("Operation At The Time Of Reboot After Blackout 0")
    case 2 => Some("Heating Weather Compensation Zone 1")
    case 3 => Some("Heating Weather Compensation Zone 2")
    case 4 => Some("Cooling Weather Compensation Zone 1")
    case 5 => Some("Cooling Weather Compensation Zone 2")
    case 6 => Some("Anti-legionella Function")
    case 7 => Some("The HP Unit Turns On/off Based On")
    case 8 => Some("Frost Protection Based On Room Temperature")
    case 9 => Some("Frost Protection Based On Outdoor Temperature")
    case 10 => Some("Frost Protection Based On Flow Temp")
    case 11 => Some("DHW Storage Frost Protection")
    case 12 => Some("Secondary System Circuit Frost Protection")
    case 13 => Some("Compensation For Room Humidity")
    case 14 => Some("Conditions To Be Available Backup Heaters")
    case 15 => Some("Terminal 41-42 : EHS (External heat source for space heating)")
    case 16 => Some("Terminal 1-2-3 : Remote Controller")
    case 17 => Some("Terminal 4-5-6 : 3way Mixing Valve")
    case 18 => Some("Terminal 7-8 : DHW Tank Temperature Probe")
    case 19 => Some("Terminal 9-10 : Outdoor Air Temperature Probe")
    case 20 => Some("Terminal 11-12 : Buffer Tank Temperature Probe")
    case 21 => Some("Terminal 13-14 : Mix Water Temperature Probe")
    case 22 => Some("Terminal 15-16-32 : Rs485 Mod Bus")
    case 23 => Some("Terminal 17-18 : Humidity Sensor")
    case 24 => Some("Terminal 19-18 : DHW Remote Contact")
    case 25 => Some("Terminal 22-23 : Dual Set Point Control")
    case 26 => Some("Terminal 26-27 : Flow Switch")
    case 27 => Some("Terminal 28-29 : Night Mode")
    case 28 => Some("Terminal 30-31 : Low Tariff")
    case 29 => Some("Terminal 41-42 : EHS")
    case 30 => Some("Terminal 43-44 : Heating/cooling Mode Output")
    case 31 => Some("Terminal 45 : Dehumidifier")
    case 32 => Some("Terminal 46 : DHW Electric Heater Or Backup Heater")
    case _ => None
  }

  /** Python's `range(lo, hi)`: the integers from `lo` up to but excluding `hi`. */
  function Range(lo: int, hi: int): (r: seq<int>)
    decreases hi - lo
    ensures |r| == if lo <= hi then hi - lo else 0
    ensures forall i :: 0 <= i < |r| ==> r[i] == lo + i
  {
    if lo >= hi then [] else [lo] + Range(lo + 1, hi)
  }

  lemma RangeMembers(lo: int, hi: int)
    ensures forall x :: x in Range(lo, hi) <==> lo <= x < hi
  {
    forall x | lo <= x < hi
      ensures x in Range(lo, hi)
    {
      assert Range(lo, hi)[x - lo] == x;
    }
  }

  /** The addresses of each table in the order they are written, which is the
      order `keys()` yields them and so the order the poller reads them in. */
  const InputRegisterIds: seq<int> := Range(0, 20) + [32]

  const HoldingRegisterIds: seq<int> := Range(2, 97) + [99, 100]

  const CoilRegisterIds: seq<int> := Range(1, 33)

  /** Each address is below every later one. */
  predicate Ascending(s: seq<int>)
  {
    forall i, j :: 0 <= i < j < |s| ==> s[i] < s[j]
  }

}

module RegisterFacts {
  import opened Wrappers
  import opened Registers

  /** The input table holds addresses 0 to 19 and 32. */
  lemma InputKeys()
    ensures forall r :: InputRegister(r).Some? <==> 0 <= r <= 19 || r == 32
  {
  }

  /** Addresses 20 to 31 are a gap in the input table. */
  lemma InputGap()
    ensures forall r :: 20 <= r < 32 ==> InputRegister(r).None?
  {
  }

  /** The holding table holds addresses 2 to 96, 99 and 100; 97 and 98 are gaps. */
  lemma HoldingKeys()
    ensures forall r :: HoldingRegister(r).Some? <==> 2 <= r <= 96 || r == 99 || r == 100
    ensures HoldingRegister(97) == None && HoldingRegister(98) == None
  {
    assert forall r :: 2 <= r <= 96 ==> HoldingRegister(r).Some?;
  }

  /** The coil table holds addresses 1 to 32. */
  lemma CoilKeys()
    ensures forall r :: Coil(r).Some? <==> 1 <= r <= 32
  {
  }

  /** The input ids are 0 to 19, then 32, ascending. */
  lemma InputIdsShape()
    ensures |InputRegisterIds| == 21 && Ascending(InputRegisterIds)
    ensures forall i :: 0 <= i < 20 ==> InputRegisterIds[i] == i
    ensures InputRegisterIds[20] == 32
  {
  }

  /** The holding ids are 2 to 96, then 99 and 100, ascending. */
  lemma HoldingIdsShape()
    ensures |HoldingRegisterIds| == 97 && Ascending(HoldingRegisterIds)
    ensures forall i :: 0 <= i < 95 ==> HoldingRegisterIds[i] == i + 2
    ensures HoldingRegisterIds[95] == 99 && HoldingRegisterIds[96] == 100
  {
  }

  /** The coil ids are 1 to 32, ascending. */
  lemma CoilIdsShape()
    ensures |CoilRegisterIds| == 32 && Ascending(CoilRegisterIds)
    ensures forall i :: 0 <= i < 32 ==> CoilRegisterIds[i] == i + 1
  {
  }

  /** Each id list enumerates its table's addresses exactly, in ascending order. */
  lemma InputIdsListTable()
    ensures |InputRegisterIds| == 21 && Ascending(InputRegisterIds)
    ensures forall r :: r in InputRegisterIds <==> InputRegister(r).Some?
  {
    InputIdsShape();
    RangeMembers(0, 20);
    InputKeys();
  }

  lemma HoldingIdsListTable()
    ensures |HoldingRegisterIds| == 97 && Ascending(HoldingRegisterIds)
    ensures forall r :: r in HoldingRegisterIds <==> HoldingRegister(r).Some?
  {
    HoldingIdsShape();
    RangeMembers(2, 97);
    HoldingKeys();
  }

  lemma CoilIdsListTable()
    ensures |CoilRegisterIds| == 32 && Ascending(CoilRegisterIds)
    ensures forall r :: r in CoilRegisterIds <==> Coil(r).Some?
  {
    CoilIdsShape();
    RangeMembers(1, 33);
    CoilKeys();
  }

  /** Every holding register is declared writable. */
  lemma HoldingAllWritable()
    ensures forall r :: HoldingRegister(r).Some? ==> HoldingRegister(r).value.writable == Some(true)
  {
  }

  /** Where a holding register declares both bounds they are ordered. */
  lemma HoldingBoundsOrdered()
    ensures forall r :: HoldingRegister(r).Some? && HoldingRegister(r).value.minValue.Some? && HoldingRegister(r).value.maxValue.Some?
              ==> HoldingRegister(r).value.minValue.value <= HoldingRegister(r).value.maxValue.value
  {
  }

  /** The bounds of registers 38 and 96 coincide, so each admits one value. */
  lemma HoldingDegenerateBounds()
    ensures HoldingRegister(38).Some? && HoldingRegister(38).value.minValue == HoldingRegister(38).value.maxValue == Some(0.0)
    ensures HoldingRegister(96).Some? && HoldingRegister(96).value.minValue == HoldingRegister(96).value.maxValue == Some(1.0)
  {
  }

  /** A holding register with neither bound. */
  predicate Unbounded(r: int)
  {
    match HoldingRegister(r)
    case Some(d) => d.minValue.None? && d.maxValue.None?
    case None => false
  }

  /** Some holding registers declare no bounds at all, so every consumer
      needs its own defaults; six of them declare no step either. */
  lemma HoldingUnbounded()
    ensures Unbounded(33) && Unbounded(36) && Unbounded(74)
  {
    assert Unbounded(33);
    assert Unbounded(36);
  }

  /** A holding register with neither bounds nor step. */
  predicate Unconstrained(r: int)
  {
    match HoldingRegister(r)
    case Some(d) => d.minValue.None? && d.maxValue.None? && d.step.None?
    case None => false
  }

  /** Registers 64, 65 and 67 to 70 declare neither bounds nor step. */
  lemma HoldingUnconstrained()
    ensures Unconstrained(64) && Unconstrained(65) && Unconstrained(67)
  {
    assert Unconstrained(64);
    assert Unconstrained(65);
  }

  lemma HoldingUnconstrainedHigh()
    ensures Unconstrained(68) && Unconstrained(69) && Unconstrained(70)
  {
    assert Unconstrained(68);
    assert Unconstrained(69);
  }

  /** The input scales in use are 0.1, 1, 10 and 100; the offset is 0 and no
      entry says `signed`. */
  lemma InputScalesAndOffsets()
    ensures forall r :: InputRegister(r).Some? ==>
              InputRegister(r).value.scale.Some? && InputRegister(r).value.scale.value in {0.1, 1.0, 10.0, 100.0} &&
              InputRegister(r).value.offset == Some(0.0) && InputRegister(r).value.signed == None
  {
  }

  /** The holding scales in use are 0.1 and 1. */
  lemma HoldingScales()
    ensures forall r :: HoldingRegister(r).Some? ==>
              HoldingRegister(r).value.scale.Some? && HoldingRegister(r).value.scale.value in {0.1, 1.0}
  {
  }

  /** The holding offset is 0 everywhere and no entry says `signed`. */
  lemma HoldingOffsets()
    ensures forall r :: HoldingRegister(r).Some? ==>
              HoldingRegister(r).value.offset == Some(0.0) && HoldingRegister(r).value.signed == None
  {
  }

  /** A coil entry carries no scale, offset, bounds or flags. */
  lemma CoilsCarryOnlyNames()
    ensures forall r :: Coil(r).Some? ==> Coil(r).value == CoilDescriptor()
  {
  }

  /** Every climate mode the configuration offers is an operating mode. */
  lemma ClimateModesAreOperatingModes()
    ensures forall m :: m in ClimateModes ==> ClimateModes[m] in OperatingModes
  {
  }
}
