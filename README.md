# Grant Aerona3 heat-pump integration — a verified model

This project models the Home Assistant integration for the Grant Aerona3 (R290) air-source heat pump. It covers:

- the register catalogue of the three Modbus spaces (input registers, holding registers, coils);
- the coordinator:
  - it polls each space in blocks of up to 20 catalogue ids;
  - it reads every word as signed 16-bit and keeps only catalogue addresses;
  - it drops a failed block without failing the poll;
  - it derives COP, heat output and delta-T;
  - it writes one holding register, then requests a refresh;
- the values and decisions of the sensor, climate, binary-sensor, switch and number entities, each as a function of the coordinator's snapshot;
- the weather-compensation heating curve and its boost state machine;
- the stand-alone register discovery scanner.

The Modbus transport is a value of type `Poller.Link`. It gives, per space, the outcome of every block read (delivered words or a failure), a connect outcome and a write outcome, and whether the refresh request that follows an accepted write raises. Operations that talk to the device also return the trace of transport operations they perform (`Poller.Op`). That trace is how "close on every path" and "refresh only after an accepted write" are stated. The current time is passed in as a parameter.

Modules, by source file:

| module | source file |
|---|---|
| `Registers`, `RegisterFacts` | `const.py` |
| `Poller` (with the class `Coordinator`) | `coordinator.py` |
| `Sensors` | `sensor.py` |
| `Climate` | `climate.py` |
| `BinarySensors` | `binary_sensor.py` |
| `Switches` | `switch.py` |
| `Numbers` (with the class `FlowRateNumber`) | `number.py` |
| `WeatherCompensation` (with the class `Controller`) | `weather_compensation.py` |
| `Scanner` (with the class `RegisterScanner`) | `R290_modbus.py` |

Shared helper modules:

- `Wrappers`: Option, Result and dictionary lookups.
- `Words`: 16-bit words, and Python's `int()` of a float.
- `Text`: `lower`, `replace` and `str` of an integer.
- `Reals`: small facts about real products.
- `Readings`: the snapshot accessors shared by the entity platforms.

Where the code and its documentation disagree, the model follows the code:

- The DHW target falls back to the minimum of register 28.
- Frost protection reads inputs 2 and 1; see Findings.
- The coordinator's derivation uses the raw words of inputs 9, 0 and 3 unscaled.

## Model

| member | source | states |
|---|---|---|
| RegisterFacts.InputKeys | custom_components/grant_aerona3/const.py:93-284 | The input table has an entry exactly at addresses 0–19 and 32. |
| RegisterFacts.InputGap | custom_components/grant_aerona3/const.py:266-275 | Addresses 20 to 31 have no input entry. |
| RegisterFacts.HoldingKeys | custom_components/grant_aerona3/const.py:287-1415 | The holding table has an entry exactly at 2–96, 99 and 100; 97 and 98 are gaps. |
| RegisterFacts.CoilKeys | custom_components/grant_aerona3/const.py:1418-1579 | The coil table has an entry exactly at 1–32. |
| RegisterFacts.InputIdsListTable | custom_components/grant_aerona3/const.py:93-284 | The key order of the input table lists each key exactly once, ascending (21 ids). |
| RegisterFacts.HoldingIdsListTable | custom_components/grant_aerona3/const.py:287-1415 | The key order of the holding table lists each key exactly once, ascending (97 ids). |
| RegisterFacts.CoilIdsListTable | custom_components/grant_aerona3/const.py:1418-1579 | The key order of the coil table lists each key exactly once, ascending (32 ids). |
| RegisterFacts.InputIdsShape | custom_components/grant_aerona3/const.py:93-284 | The input ids are 0, 1, …, 19 followed by 32. |
| RegisterFacts.HoldingIdsShape | custom_components/grant_aerona3/const.py:287-1415 | The holding ids are 2, …, 96 followed by 99 and 100. |
| RegisterFacts.CoilIdsShape | custom_components/grant_aerona3/const.py:1418-1579 | The coil ids are 1, …, 32. |
| RegisterFacts.HoldingAllWritable | custom_components/grant_aerona3/const.py:287-1415 | Every holding entry declares `writable` True. |
| RegisterFacts.HoldingBoundsOrdered | custom_components/grant_aerona3/const.py:287-1415 | Wherever a holding entry declares both bounds, min ≤ max. |
| RegisterFacts.HoldingDegenerateBounds | custom_components/grant_aerona3/const.py:714-725 | Register 38 has min = max = 0 and register 96 has min = max = 1. |
| RegisterFacts.HoldingUnbounded | custom_components/grant_aerona3/const.py:658-701 | Registers 33, 36 and 74 declare neither bound. |
| RegisterFacts.HoldingUnconstrained | custom_components/grant_aerona3/const.py:1024-1089 | Registers 64, 65 and 67 declare neither bounds nor step. |
| RegisterFacts.HoldingUnconstrainedHigh | custom_components/grant_aerona3/const.py:1024-1089 | Registers 68, 69 and 70 declare neither bounds nor step. |
| RegisterFacts.InputScalesAndOffsets | custom_components/grant_aerona3/const.py:93-284 | Every input scale is 0.1, 1, 10 or 100; every offset is 0; no entry has `signed`. |
| RegisterFacts.HoldingScales | custom_components/grant_aerona3/const.py:287-1415 | Every holding scale is 0.1 or 1. |
| RegisterFacts.HoldingOffsets | custom_components/grant_aerona3/const.py:287-1415 | Every holding offset is 0, and no holding entry has `signed`. |
| RegisterFacts.CoilsCarryOnlyNames | custom_components/grant_aerona3/const.py:1418-1579 | Coil entries carry no scale, offset, bounds or flags. |
| RegisterFacts.ClimateModesAreOperatingModes | custom_components/grant_aerona3/const.py:21-54 | Every value of the climate-mode table is a key of the operating-mode table. |
| Registers.ScaleOf | custom_components/grant_aerona3/climate.py:32-38 | The scale used for a register is its entry's scale, and 1 where there is no entry or no scale. |
| Registers.Range | custom_components/grant_aerona3/coordinator.py:117 | Python's `range(lo, hi)`: hi − lo consecutive integers from lo. |
| Words.Signed16 | custom_components/grant_aerona3/coordinator.py:119-123 | A word is read as the unique signed 16-bit value congruent to it modulo 65536; words ≤ 32767 are kept as they are. |
| Words.SignedRoundTrip | custom_components/grant_aerona3/coordinator.py:119-123 | Re-encoding the signed reading gives back the word. |
| Words.Signed16Injective | custom_components/grant_aerona3/coordinator.py:119-123 | Distinct words give distinct signed readings. |
| Words.Trunc | custom_components/grant_aerona3/number.py:114 | Python's `int()` of a float truncates toward zero. |
| Poller.Min | custom_components/grant_aerona3/coordinator.py:109 | `min(chunk)` is a member of the chunk and below every member. |
| Poller.Max | custom_components/grant_aerona3/coordinator.py:110 | `max(chunk)` is a member of the chunk and above every member. |
| Poller.Chunk | custom_components/grant_aerona3/coordinator.py:105-106 | A chunk is a non-empty slice of at most 20 ids. |
| Poller.BlockSpan | custom_components/grant_aerona3/coordinator.py:109-111 | A chunk's block starts at one of its ids and ends at one, has count ≥ 1, and covers every id of the chunk (the block runs from the chunk's min to its max). |
| Poller.Requests | custom_components/grant_aerona3/coordinator.py:105-111 | After k chunks there are k requests, the j-th being the block of the chunk starting at position 20·j. |
| Poller.ChunkStep | custom_components/grant_aerona3/coordinator.py:105-127 | Reading chunk k appends its request and merges its block's values over those already collected. |
| Poller.StoreBlock | custom_components/grant_aerona3/coordinator.py:117-123 | The inner loop stores, over the existing values, the decoded word of every catalogue address whose index lies within the delivered block. |
| Poller.ReadChunk | custom_components/grant_aerona3/coordinator.py:106-127 | One chunk's read moves the collected values to `Polled` of one more chunk and issues exactly that chunk's request. |
| Poller.ReadSpace | custom_components/grant_aerona3/coordinator.py:101-128 | The chunk loop returns exactly `Polled` over all chunks and issues exactly the requests of all chunks, in order. |
| Poller.PolledKeys | custom_components/grant_aerona3/coordinator.py:118 | Only catalogue addresses are ever stored; gap addresses inside a block never appear. |
| Poller.PolledValues | custom_components/grant_aerona3/coordinator.py:119-123 | Whatever holds of every decoded word holds of every stored value. |
| Poller.PolledMembers | custom_components/grant_aerona3/coordinator.py:112-127 | For ascending ids, the id at position p is stored exactly when its own chunk's block was delivered long enough to reach it, with that block's word. A failed block omits exactly its own ids. |
| Poller.AscendingBlock | custom_components/grant_aerona3/coordinator.py:109-111 | For ascending ids, a chunk's block runs from its first id to its last. |
| Poller.AscendingBlockMembers | custom_components/grant_aerona3/coordinator.py:117 | For ascending ids, an id lies inside the block of chunk k exactly when it belongs to that chunk. |
| Poller.BlockMember | custom_components/grant_aerona3/coordinator.py:116-124 | A catalogue address is in a block's values exactly when the block was delivered and its index is short of the delivered length. The value is then the decoded word at that index. |
| Poller.MergeMember | custom_components/grant_aerona3/coordinator.py:123 | An address held by only one block's values is in the merged map exactly when that block holds it, with that block's value. |
| Poller.InputRequests | custom_components/grant_aerona3/coordinator.py:101-111 | Input registers are read as two blocks: (0, 20) and (32, 1). |
| Poller.HoldingRequests | custom_components/grant_aerona3/coordinator.py:130-140 | Holding registers are read as five blocks: (2,20), (22,20), (42,20), (62,20) and (82,19). The last block spans the gap at 97–98. |
| Poller.CoilRequests | custom_components/grant_aerona3/coordinator.py:159-169 | Coils are read as two blocks: (1, 20) and (21, 12). |
| Poller.InputValuesInRange | custom_components/grant_aerona3/coordinator.py:117-123 | Every polled input value is at a catalogue address and lies in [−32768, 32767]. |
| Poller.HoldingValuesInRange | custom_components/grant_aerona3/coordinator.py:146-152 | Every polled holding value is at a catalogue address and lies in [−32768, 32767]; 97 and 98 are never stored. |
| Poller.CoilValuesKeys | custom_components/grant_aerona3/coordinator.py:175-177 | Every polled coil is at a catalogue address. |
| Poller.InputBlocksIndependent | custom_components/grant_aerona3/coordinator.py:112-127 | Inputs 0–19 depend only on the first block and input 32 only on the second. A failure of one block leaves the other's values intact. |
| Poller.CalculateDerivedValues | custom_components/grant_aerona3/coordinator.py:184-206 | `cop`, `heat_output_w` and `delta_t` are all present or all absent. They are present exactly when inputs 9 and 0 are read, input 3 × 100 > 0 and flow × 60 > 0. They are then in9 − in0, lph × 1.16 × delta and heat / power. |
| Poller.DerivedSigns | custom_components/grant_aerona3/coordinator.py:192-203 | When derived, COP, heat output and delta-T all have the sign of delta-T. |
| Poller.ReadOps | custom_components/grant_aerona3/coordinator.py:113-115 | One read operation is issued per block request, in order. |
| Poller.FetchOutcome | custom_components/grant_aerona3/coordinator.py:71-99 | A fetch succeeds exactly when the connection is made. A refused connection and a raising connect give distinct update failures. A success carries the three polled maps, the derived values and the start time. |
| Poller.FetchOpsShape | custom_components/grant_aerona3/coordinator.py:78-98 | A connected fetch is: connect, the nine block reads in input, holding, coil order, then close. An unconnected fetch is connect, then close. Close is always last. |
| Poller.UpdateTimeout | custom_components/grant_aerona3/coordinator.py:63-69 | A fetch that overruns 30 s fails as timed out whatever the device did. A refresh succeeds exactly when it is in time and connected. |
| Poller.Configured | custom_components/grant_aerona3/coordinator.py:38-49 | A setting is the options' value if set, else the entry data's, else the default. |
| Poller.WriteProtocol | custom_components/grant_aerona3/coordinator.py:208-230 | A write issues connect, then the write only when connected, a refresh request exactly when the device accepted the write, and close last. It reports success exactly when that refresh request was made and did not raise. |
| Poller.Coordinator.constructor | custom_components/grant_aerona3/coordinator.py:33-61 | Flow rate and scan interval are configured with defaults 10 L/min and 10 s; there is no snapshot yet. |
| Poller.Coordinator.ReadInputRegisters | custom_components/grant_aerona3/coordinator.py:101-128 | Returns exactly `InputValues` of the device and issues the blocks (0,20) and (32,1). |
| Poller.Coordinator.ReadHoldingRegisters | custom_components/grant_aerona3/coordinator.py:130-157 | Returns exactly `HoldingValues` of the device and issues the five holding blocks. |
| Poller.Coordinator.ReadCoilRegisters | custom_components/grant_aerona3/coordinator.py:159-182 | Returns exactly `CoilValues` of the device and issues the two coil blocks. |
| Poller.Coordinator.FetchData | custom_components/grant_aerona3/coordinator.py:71-99 | Returns `FetchResult`, and its operations are `FetchOps`. |
| Poller.Coordinator.UpdateData | custom_components/grant_aerona3/coordinator.py:63-69 | Returns `UpdateResult` under the 30-second limit. |
| Poller.Coordinator.Refresh | custom_components/grant_aerona3/coordinator.py:63-69 | A successful refresh replaces the snapshot; a failed one keeps the old snapshot. `lastUpdateSuccess` records which happened, and the configuration is unchanged. |
| Poller.Coordinator.WriteRegister | custom_components/grant_aerona3/coordinator.py:208-230 | Returns `WriteSucceeds` and performs `WriteOps`. |
| Sensors.Reading | custom_components/grant_aerona3/sensor.py:115-131 | A register sensor has a value exactly when the address was read and is not 65336. The value is then raw × scale + offset, after the signed adjustment. |
| Sensors.InputNativeValue | custom_components/grant_aerona3/sensor.py:115-131 | No snapshot gives no value; otherwise the input reading of the register. |
| Sensors.HoldingNativeValue | custom_components/grant_aerona3/sensor.py:198-214 | No snapshot gives no value; otherwise the holding reading of the register. |
| Sensors.CatalogueReadingsUnsigned | custom_components/grant_aerona3/sensor.py:124-126 | No catalogue entry is signed, so every catalogue reading is raw × scale. |
| Sensors.SentinelNeverPolled | custom_components/grant_aerona3/sensor.py:121 | A polled snapshot never holds 65336, so the sentinel check never fires. A read address always shows a value. |
| Sensors.CleanNameChars | custom_components/grant_aerona3/sensor.py:107-108 | A cleaned name has no space, '-', '(', ')', '/' or upper-case ASCII letter, and is no longer than the name. |
| Sensors.RegisterName | custom_components/grant_aerona3/sensor.py:107 | A sensor's name is the entry's name, else "Input Register <id>" or "Holding Register <id>". |
| Sensors.EntityIdShape | custom_components/grant_aerona3/sensor.py:107-112 | Every register sensor's entity id is "sensor.ashp_" followed by a suffix free of those characters. |
| Sensors.PowerValue | custom_components/grant_aerona3/sensor.py:273-285 | Power is in3 × 100 when present and ≥ 0, else 0. It is never negative. |
| Sensors.EnergyValue | custom_components/grant_aerona3/sensor.py:320-335 | Energy is in10 / 1000 when positive, else 0. It is never negative. |
| Sensors.DeltaTValue | custom_components/grant_aerona3/sensor.py:363-376 | Delta-T is in9 − in0 exactly when both are read. |
| Sensors.CopValue | custom_components/grant_aerona3/sensor.py:407-442 | COP is defined exactly when in9, in0 and in3 are read, in3 > 0 and delta > 0. It then equals (flow × 4.186 × delta / 60) / (in3 × 100 / 1000); the divisor is never zero. |
| Sensors.CopSensorVersusDerived | custom_components/grant_aerona3/sensor.py:427-441 | The COP sensor and the coordinator's derived COP differ by the constant factor 4186 / 4176. |
| Sensors.DeltaTAgrees | custom_components/grant_aerona3/sensor.py:363-376 | Where the coordinator derives, the delta-T sensor shows the derived delta-T. |
| Sensors.EfficiencyValue | custom_components/grant_aerona3/sensor.py:479-494 | Efficiency is defined exactly when in1 > 0. It is then min(in1 / 100 × 85, 95), in (0, 95]. |
| Sensors.WeatherCompValue | custom_components/grant_aerona3/sensor.py:515-528 | The value is holding 50 in tenths, defined exactly when holding 50 is read. |
| Sensors.DailyCostValue | custom_components/grant_aerona3/sensor.py:548-565 | The cost is 0 when in3 ≤ 0, else in3 × 100 / 1000 × 24 × 0.30. It is never negative. |
| Sensors.MonthlyCostValue | custom_components/grant_aerona3/sensor.py:593-609 | The cost is 0 when in3 ≤ 0, else the daily cost over 30 days. It is never negative. |
| Sensors.CostsAgree | custom_components/grant_aerona3/sensor.py:557-609 | The monthly projection is exactly 30 times the daily estimate. |
| Registers.MinMaxStep | custom_components/grant_aerona3/climate.py:40-46 | A register's min, max and step, defaulting to 0, 100 and 1; the number entities read the same triple (number.py:78-80). |
| Climate.ClimateLimits | custom_components/grant_aerona3/climate.py:91-110 | The zone limits are 23–60 in steps of 0.5 with scale 0.1. The DHW limits are 40–60. |
| Climate.ZoneSetpointRegister | custom_components/grant_aerona3/climate.py:125-150 | The cooling set point is used exactly when mode (input 10, absent read as 1) is 2; otherwise the heating set point. |
| Climate.ZoneCurrentTemperature | custom_components/grant_aerona3/climate.py:112-123 | The room temperature when positive, else the return water temperature. The value is defined exactly when there is a snapshot. |
| Climate.ZoneTargetTemperature | custom_components/grant_aerona3/climate.py:125-138 | The current mode's set point when positive, else the zone's minimum. |
| Climate.ZoneHvacMode | custom_components/grant_aerona3/climate.py:153-168 | Off when mode is 0, or when power < 100 and frequency is 0. Otherwise Heat for 1 and Cool for 2, and Off for anything else. |
| Climate.ZoneHvacAction | custom_components/grant_aerona3/climate.py:170-183 | Heating or cooling (cooling exactly for mode 2) when frequency > 0 or power > 200; idle otherwise; off without data. |
| Climate.ZoneSetTemperature | custom_components/grant_aerona3/climate.py:185-197 | A given temperature becomes a write of int(t / scale) to the current mode's set point, with no bounds check. No temperature means no write. |
| Climate.ZoneModeValue | custom_components/grant_aerona3/climate.py:199-218 | Heat, Cool, Off and Auto map to 1, 2, 0 and 4; other modes are rejected. |
| Climate.ZoneModeValuesAgree | custom_components/grant_aerona3/climate.py:206-211 | The zone mode values are those of the climate-mode table, and each is an operating mode. |
| Climate.ZoneSetpointRoundTrip | custom_components/grant_aerona3/climate.py:125-197 | Once the write lands and is polled back as a signed 16-bit word, a zone 1 or zone 2 set point 0.1 ≤ t < 3276.8 (raw ≤ 32767) reads back as its target at most 0.1 below t and never above it. |
| Climate.DhwSetpointRegister | custom_components/grant_aerona3/climate.py:434-451 | DHW mode 1, 2 or 3 (input 13, absent read as 1) selects register 28, 29 or 31; any other mode selects 28. |
| Climate.DhwCurrentTemperature | custom_components/grant_aerona3/climate.py:424-432 | The tank temperature (input 16) when positive, else 50. |
| Climate.DhwTargetTemperature | custom_components/grant_aerona3/climate.py:434-451 | The current mode's set point when positive, else register 28's minimum; always positive. |
| Climate.DhwHvacMode | custom_components/grant_aerona3/climate.py:453-464 | Heat exactly when holding 26 > 0 and input 13 > 0; otherwise Off. |
| Climate.DhwHvacAction | custom_components/grant_aerona3/climate.py:466-478 | Heating when more than a degree below target with power above 200; otherwise Idle at or above target and Off below it; Off without data. Never cooling. |
| Climate.DhwSetTemperature | custom_components/grant_aerona3/climate.py:480-505 | Temperatures outside register 28's bounds are rejected without a write. Others become int(t × 10) written to the current mode's set point. |
| Climate.DhwSetTemperatureRange | custom_components/grant_aerona3/climate.py:480-505 | A set point is accepted exactly for 40 ≤ t ≤ 60, and its raw value then lies in 400..600. |
| Climate.DhwSetHvacMode | custom_components/grant_aerona3/climate.py:507-522 | Off writes 0 and Heat writes 1 to register 26; any other mode writes nothing. |
| Climate.DhwModeRoundTrip | custom_components/grant_aerona3/climate.py:453-522 | Once the mode write lands with input 13 positive, the tank reports the mode that was set. |
| BinarySensors.AlarmCode | custom_components/grant_aerona3/binary_sensor.py:133-138 | The alarm code attribute is input 20 when read, else none. |
| BinarySensors.AlarmNeverPolled | custom_components/grant_aerona3/binary_sensor.py:126-130 | Input 20 is not a catalogue address, so after any fetch the alarm is off and shows no code. |
| BinarySensors.AlarmDescriptionCases | custom_components/grant_aerona3/binary_sensor.py:140-153 | "No Data" is shown exactly without a code, and the fixed text for codes 0–7. Any other code shows "Unknown Alarm (code)", which tells distinct codes apart. |
| BinarySensors.RunningSensorsOnWords | custom_components/grant_aerona3/binary_sensor.py:78-204 | On device words: compressor ⇔ in1 > 0 or in3 > 2. Defrost ⇔ in2 read and ≤ 5 with in1 read as 0. Backup heater ⇔ in2 read and < −5 with in5 > 5000. |
| BinarySensors.ModeSensorsOnWords | custom_components/grant_aerona3/binary_sensor.py:165-187 | Heating ⇔ in13 read as 0 and in1 > in0 + 1; DHW ⇔ in13 > 0. |
| BinarySensors.FrostProtectionAsWrittenOnWhenStopped | custom_components/grant_aerona3/binary_sensor.py:216-221 | As written, frost protection is on for a warm snapshot with the compressor stopped, where the corrected rule is off. |
| BinarySensors.FrostProtectionMeaning | custom_components/grant_aerona3/binary_sensor.py:216-221 | Corrected: on exactly when outdoor air (input 6) is below 0 or outgoing water (input 9) is below 5. |
| BinarySensors.AllOffWithoutData | custom_components/grant_aerona3/binary_sensor.py:78-270 | Without a snapshot every binary sensor is off. |
| BinarySensors.CommunicationAfterFetch | custom_components/grant_aerona3/binary_sensor.py:265-270 | Right after a fetch communication is on; it is on exactly while less than 120 s have passed. |
| Switches.Toggle | custom_components/grant_aerona3/switch.py:115-117 | A bound switch writes 1 for on and 0 for off to its register. |
| Switches.SwitchMode | custom_components/grant_aerona3/switch.py:125-126 | A switch reads its holding register, or its default when the register is absent. |
| Switches.TurnOn | custom_components/grant_aerona3/switch.py:73-83 | Turning on writes the on value to the switch's register, and nothing when there is no on value. |
| Switches.TurnOff | custom_components/grant_aerona3/switch.py:85-95 | Turning off writes the off value to the switch's register, and nothing when there is no off value. |
| Switches.Applied | custom_components/grant_aerona3/switch.py:73-95 | An applied write changes that one holding register and nothing else. |
| Switches.SwitchRoundTrip | custom_components/grant_aerona3/switch.py:73-555 | Every bound switch shows on after its on-write is read back, and off after its off-write. |
| Switches.SwitchRegisters | custom_components/grant_aerona3/switch.py:31-43 | The bound registers are 26, 27, 84, 81, 84 and 91–96. The backup heater switch uses the later class on 84, and no switch drives 71. All are polled holding registers. |
| Switches.SwitchDefaults | custom_components/grant_aerona3/switch.py:119-555 | Without data only the 3-way valve is on. An absent register reads on only for heat-pump-only and the 3-way valve. |
| Switches.Describe | custom_components/grant_aerona3/switch.py:139-148 | A known value shows its text and any other value "Unknown". |
| Switches.ModeDescription | custom_components/grant_aerona3/switch.py:131-201 | Exactly DHW priority, heat-pump-only and EHS carry a description; the later frost and backup classes have none. |
| Switches.DescriptionsKnownRange | custom_components/grant_aerona3/switch.py:139-146 | "Unknown" is shown exactly for values outside 0..2. |
| Switches.DescriptionsAgreeWithState | custom_components/grant_aerona3/switch.py:119-201 | The descriptions agree with the on state of DHW priority and heat-pump-only. |
| Numbers.WritableIds | custom_components/grant_aerona3/number.py:31-36 | A number entity is created for exactly the writable ids of the list, in order. |
| Numbers.NumberEntities | custom_components/grant_aerona3/number.py:31-41 | Setup creates one number per holding entry plus the flow-rate number, 98 in all. |
| Numbers.NumberBoundsSane | custom_components/grant_aerona3/number.py:78-80 | Each number's min ≤ max and its step is positive, with defaults 0, 100 and 1. Registers 38 and 96 admit one value. |
| Numbers.NumberValue | custom_components/grant_aerona3/number.py:101-109 | A number's value is raw × scale, exactly when the register is read. |
| Numbers.RawSetting | custom_components/grant_aerona3/number.py:113-114 | The written raw value is int(value / scale), truncated toward zero. Its scaled value lies within one scale step below (or, for negatives, above) the request. |
| Numbers.SettingRoundTrip | custom_components/grant_aerona3/number.py:101-114 | A non-negative value whose raw setting is at most 32767, once written and polled back as a signed 16-bit word, is shown at most one scale step below what was asked, never above. |
| Numbers.SettingWrapsAbove | custom_components/grant_aerona3/number.py:101-114 | A raw setting from 32768 to 65535 polls back as a negative word, so the number then shows a value below zero. |
| Numbers.SetHoldingValueAsWritten | custom_components/grant_aerona3/number.py:111-119 | As written, setting always raises before any transport operation. |
| Numbers.SetHoldingValue | custom_components/grant_aerona3/number.py:111-119 | Corrected: the coordinator's write with the truncated raw value, and a further refresh only after success. |
| Numbers.SetHoldingReachesDevice | custom_components/grant_aerona3/number.py:111-119 | The corrected set writes exactly the entity's register and raw value, and does so exactly when connected. |
| Numbers.AvailabilityKey | custom_components/grant_aerona3/number.py:162 | The availability key is "holding_" followed by the formatted id. |
| Numbers.NumbersNeverAvailable | custom_components/grant_aerona3/number.py:159-167 | No snapshot key has that form, so no holding number is ever available. |
| Numbers.CorrectedAvailabilityMeaning | custom_components/grant_aerona3/number.py:159-167 | Corrected: a number is available exactly when the last update succeeded and its register was read, and then the test as written still says unavailable. |
| Numbers.InitialFlowRateOnGrid | custom_components/grant_aerona3/number.py:185-201 | The initial flow rate 30 lies within 10–50, on the 0.5 grid. |
| Numbers.FlowRateMatters | custom_components/grant_aerona3/coordinator.py:190-199 | With a non-zero delta-T, different flow rates give different heat outputs. |
| Numbers.FlowRateNumber.constructor | custom_components/grant_aerona3/number.py:173-201 | The entity starts at 30 L/min. |
| Numbers.FlowRateNumber.SetNativeValueAsWritten | custom_components/grant_aerona3/number.py:208-214 | As written, the entity and the coordinator's `flow_rate` take the value. `flow_rate_lpm`, which the derivation reads, is unchanged. |
| Numbers.FlowRateNumber.SetNativeValue | custom_components/grant_aerona3/number.py:208-214 | Corrected: the value also becomes the coordinator's flow rate for derivation. Nothing else changes. |
| WeatherCompensation.Clamp | custom_components/grant_aerona3/weather_compensation.py:32 | A proper range clamps into [min, max] and leaves values inside it alone. |
| WeatherCompensation.FlowAtBounds | custom_components/grant_aerona3/weather_compensation.py:31-36 | The curve gives max flow at or below the coldest point and min flow at or above the warmest. It always gives max flow for an empty range. |
| WeatherCompensation.FlowOnLine | custom_components/grant_aerona3/weather_compensation.py:37-41 | Within a proper range the output is max − ratio × (max − min). |
| WeatherCompensation.FlowLinear | custom_components/grant_aerona3/weather_compensation.py:37-41 | Any two points in range lie on one straight line. |
| WeatherCompensation.FlowWithinBounds | custom_components/grant_aerona3/weather_compensation.py:31-41 | With min flow ≤ max flow, every output lies in [min flow, max flow]. |
| WeatherCompensation.FlowNonIncreasing | custom_components/grant_aerona3/weather_compensation.py:31-41 | With min flow ≤ max flow, a warmer day never asks for a hotter flow. |
| WeatherCompensation.CurvePointOutdoor | custom_components/grant_aerona3/weather_compensation.py:46-48 | The first point is the coldest outdoor temperature and the last is the warmest. |
| WeatherCompensation.GetCurvePoints | custom_components/grant_aerona3/weather_compensation.py:43-51 | n pairs of evenly spaced outdoor temperatures with their curve flows. |
| WeatherCompensation.CurvePointsAscending | custom_components/grant_aerona3/weather_compensation.py:43-51 | With a proper range, the points' outdoor temperatures ascend. |
| WeatherCompensation.CurvePointsDescending | custom_components/grant_aerona3/weather_compensation.py:43-51 | With a proper range and ordered flows, the points' flows never rise. |
| WeatherCompensation.InitialState | custom_components/grant_aerona3/weather_compensation.py:54-68 | The controller starts enabled per the option, with no curves, no boost and nothing recorded. |
| WeatherCompensation.PrimaryConfig | custom_components/grant_aerona3/weather_compensation.py:74-81 | The primary curve defaults to −5..18 outdoor and 25..45 flow. |
| WeatherCompensation.BoostConfig | custom_components/grant_aerona3/weather_compensation.py:83-91 | The boost curve defaults to −10..10 outdoor and 35..55 flow. |
| WeatherCompensation.SetupBuildsCurves | custom_components/grant_aerona3/weather_compensation.py:70-94 | Setup while disabled changes nothing. Enabled, it builds the primary curve, and a boost curve exactly when dual compensation is on. |
| WeatherCompensation.DefaultCurvesOrdered | custom_components/grant_aerona3/weather_compensation.py:74-91 | The default curves have proper ranges and ordered flows. |
| WeatherCompensation.OutdoorTemperature | custom_components/grant_aerona3/weather_compensation.py:118-124 | The outdoor temperature is input 6 (scale 1), exactly when read. |
| WeatherCompensation.TargetFlow | custom_components/grant_aerona3/weather_compensation.py:126-129 | The boost curve is used exactly while boosting with one configured; otherwise the primary curve. |
| WeatherCompensation.Recorded | custom_components/grant_aerona3/weather_compensation.py:97-107 | A tick records only with an outdoor temperature and a curve. It then counts one calculation and stamps the time. |
| WeatherCompensation.Unboosted | custom_components/grant_aerona3/weather_compensation.py:150-152 | Deactivation resets to no boost, the primary curve and no end time. |
| WeatherCompensation.ActivateBoostEffect | custom_components/grant_aerona3/weather_compensation.py:131-145 | Activation without a boost curve is refused and changes nothing. With one, it is accepted and boosts on the secondary curve until now + duration. |
| WeatherCompensation.ActivateNegativeDuration | custom_components/grant_aerona3/weather_compensation.py:131-145 | A negative duration ends the boost in the tick activation runs. |
| WeatherCompensation.DeactivateIdempotent | custom_components/grant_aerona3/weather_compensation.py:147-158 | Deactivation is a no-op when not boosting and idempotent, leaving the primary curve and no end time. |
| WeatherCompensation.TickWithoutOutdoor | custom_components/grant_aerona3/weather_compensation.py:97-102 | A tick without an outdoor temperature changes nothing. |
| WeatherCompensation.TickRecords | custom_components/grant_aerona3/weather_compensation.py:97-110 | A tick records temperature and target and counts one calculation. An expired boost is ended, with a second calculation on the primary curve. |
| WeatherCompensation.RemainingMinutesBounds | custom_components/grant_aerona3/weather_compensation.py:175-179 | Remaining minutes exist exactly while boosting, are never negative, and are the whole minutes left. |
| WeatherCompensation.Controller.constructor | custom_components/grant_aerona3/weather_compensation.py:54-68 | The controller's fields are the initial state. |
| WeatherCompensation.Controller.Setup | custom_components/grant_aerona3/weather_compensation.py:70-94 | Setup moves the fields as `SetupState` says. |
| WeatherCompensation.Controller.Tick | custom_components/grant_aerona3/weather_compensation.py:97-116 | A tick moves the fields as `TickState` says. |
| WeatherCompensation.Controller.ActivateBoost | custom_components/grant_aerona3/weather_compensation.py:131-145 | Activation returns and moves the fields as `ActivateState` says. |
| WeatherCompensation.Controller.DeactivateBoost | custom_components/grant_aerona3/weather_compensation.py:147-158 | Deactivation moves the fields as `DeactivateState` says. |
| Scanner.TryFloatConversion | custom_components/R290_modbus.py:146-156 | The interpretations are value/10, value/100 and value/10 as a pressure. The percentage is value/100 exactly when value ≤ 10000. |
| Scanner.Entry | custom_components/R290_modbus.py:61-66 | An entry records the word, its signed reading and its interpretations. |
| Scanner.BatchCount | custom_components/R290_modbus.py:54 | The count is min(batch, end − addr + 1): a full batch, or what is left. |
| Scanner.BatchStarts | custom_components/R290_modbus.py:51 | The batch starts are start, start + batch, … up to end. |
| Scanner.BatchesPartition | custom_components/R290_modbus.py:51-55 | The batches cover [start, end], each address exactly once. |
| Scanner.RecordWordsMeaning | custom_components/R290_modbus.py:58-66 | Recording a batch adds exactly its non-zero words, at batch address + index, and keeps every other entry. |
| Scanner.RecordBatch | custom_components/R290_modbus.py:57-72 | A failed batch records nothing. |
| Scanner.ScannedRecordsNonZero | custom_components/R290_modbus.py:51-72 | A scan records only non-zero words, and only at addresses from the scan's range. |
| Scanner.FirstBatch | custom_components/R290_modbus.py:51-66 | With an exact device, the first batch records an address of its own exactly when the device's word there is non-zero. |
| Scanner.ScannedMeaning | custom_components/R290_modbus.py:51-72 | With an exact device, an address in range is recorded exactly when its batch was delivered with a non-zero word there. A failing batch leaves the others. |
| Scanner.RecordBits | custom_components/R290_modbus.py:108-113 | Every true bit is recorded as True at start + i, and nothing else changes. |
| Scanner.CoilScanMeaning | custom_components/R290_modbus.py:100-115 | A coil scan records True exactly at the set bits of the delivered read, and nothing when it fails. |
| Scanner.RecordDelivered | custom_components/R290_modbus.py:58-66 | The word loop returns exactly `RecordWords`. |
| Scanner.ScanRegisters | custom_components/R290_modbus.py:47-72 | The batch loop returns exactly `Scanned`. |
| Scanner.RecordSetBits | custom_components/R290_modbus.py:108-113 | The bit loop returns exactly `RecordBits`. |
| Scanner.RegisterScanner.constructor | custom_components/R290_modbus.py:15-31 | The scanner starts with empty results. |
| Scanner.RegisterScanner.ScanHoldingRegisters | custom_components/R290_modbus.py:47-72 | The holding results become `Scanned` of the old ones; the other results are unchanged. |
| Scanner.RegisterScanner.ScanInputRegisters | custom_components/R290_modbus.py:74-98 | The input results become `Scanned` of the old ones; the other results are unchanged. |
| Scanner.RegisterScanner.ScanCoils | custom_components/R290_modbus.py:100-115 | The coil results become `CoilsScanned` of the old ones; the other results are unchanged. |

## Left out

In each area below, what the integration does that the model does not, one line per item with the reason.

Transport, time and runtime:

- pymodbus I/O is abstracted into a `Link`: connecting, the read and write calls, `isError` and the exception types. Within one poll, a block read is a function of its request; retries and changing device state are not modelled.
- Concurrency is not modelled: asyncio scheduling, `async_add_executor_job` and the coordinator's refresh coalescing. A refresh request is a trace operation.
- A timed-out fetch: the fetch's duration is a parameter, and the operations of a cancelled fetch are not modelled.
- Clock reads (`datetime.now()`, the event loop time) are parameters, in seconds.
- `async_track_time_interval` is not modelled: the 60-second tick is a method call.

Arithmetic:

- Floating point: values are Dafny reals, and Python's `round(…, n)` is left out of every sensor, the derived values and the heating curve. The rounding is presentation of a value the model states exactly.
- `Text.Lower` lower-cases ASCII letters only; the catalogue names are ASCII.

Home Assistant wiring and presentation:

- Presentation attributes are not modelled: icons, device info, unique ids, units, device classes and the extra attributes that only display values.
- The attributes of the holding numbers (number.py:122-157) are not modelled. They read the same keys that never exist.
- The entity bounds HA enforces on numbers and climate entities are not modelled: the model writes whatever a caller passes, as the entities do.
- Logging and the event bus (`hass.bus.async_fire`) are not modelled.
- `get_status` of the controller is a presentation dictionary. Its parts are modelled: `RemainingMinutes`, `IsEnabled` and `GetCurvePoints`.

Entities:

- Zone 2 climate duplicates zone 1 and is the same model, parameterised by its registers 7, 17 and 12 (`Climate.Zone2`).
- The switch classes setup never instantiates are not modelled (switch.py:564-868), nor the earlier backup heater and frost protection definitions that later ones shadow. Their registers appear only to show that register 71 is never driven.
- The zone `set_hvac_mode` only logs the mode value, so the model gives only that value (`Climate.ZoneModeValue`). Turn on and turn off are that same call with Heat and Off.
- Names of individual registers are kept (`Registers.InputName`, `HoldingName`, `CoilName`), but no lemma enumerates them. Only the name of the entity id form is proved about.

Configuration:

- The flow rate has several different defaults in the repository: 10 in the coordinator (coordinator.py), 28.0 in the COP sensor's `getattr` (sensor.py), 30 in the flow-rate number (number.py), 34 in the options form (`DEFAULT_FLOW_RATE_LPM`, options_flow.py:10, used at options_flow.py:36) and 30.0 in the configuration flow's options form (config_flow.py:159). The model takes the coordinator's value, because `getattr` always finds the attribute; the option forms are not part of this model.
- `scan_interval` is stored, but scheduling by it is not modelled.

Scanner:

- `scan_discrete_inputs`, `monitor_changes`, `save_results`, `connect`, `disconnect` and `main` are I/O or wall-clock loops, and hex formatting is presentation.
- Bit padding by pymodbus is not modelled: a coil read is the list of bits the device returns.
- Scanner.ScanRegisters: requires a positive batch size. Python's `range` raises on a step of 0 and scans nothing forward for a negative one, and neither case is modelled.

Curve points:

- WeatherCompensation.GetCurvePoints: requires n ≠ 1. One point divides by zero in Python, and that error path is not modelled.

## Findings

| source | as written | input that shows it | evidently intended | confidence | as-written member | corrected member |
|---|---|---|---|---|---|---|
| custom_components/grant_aerona3/binary_sensor.py:216-221 | Frost protection compares input 2 (discharge temperature) with 0 and input 1 (compressor frequency) with 5. | Inputs 1 = 0, 2 = 30, 6 = 15, 9 = 40: a warm day with the compressor stopped reads as frost protection on. | Compare outdoor air (input 6) with 0 and outgoing water (input 9) with 5. | medium, not executed | BinarySensors.FrostProtectionAsWrittenOnWhenStopped | BinarySensors.FrostProtectionMeaning |
| custom_components/grant_aerona3/number.py:111-119 | Setting a holding number calls `async_write_holding_register`, which the coordinator does not define, so every set raises and nothing is written. | Any value for any holding number. | Call the coordinator's `async_write_register` (coordinator.py:208). | high, not executed | Numbers.SetHoldingValueAsWritten | Numbers.SetHoldingReachesDevice |
| custom_components/grant_aerona3/number.py:208-214 | Setting the flow rate stores it in `coordinator.flow_rate`, but derivation reads `flow_rate_lpm`, so it has no effect on COP or heat output. | A flow rate of 20 with inputs 9 = 40, 0 = 35, 3 = 10: heat output stays at that of 10 L/min. | Store it in `flow_rate_lpm`. | high, not executed | Numbers.FlowRateNumber.SetNativeValueAsWritten | Numbers.FlowRateNumber.SetNativeValue |
| custom_components/grant_aerona3/number.py:159-167 | A holding number is available only when the key `holding_<id>` is in the coordinator's data, whose only keys are `input_registers`, `holding_registers`, `coil_registers`, `last_update` and `calculated`. | Any snapshot and any holding number: it is always unavailable. | Test the register id in the holding registers, as the sensors do. | high, not executed | Numbers.NumbersNeverAvailable | Numbers.CorrectedAvailabilityMeaning |
