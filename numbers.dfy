/** The number entities: one per writable holding register, showing the
    scaled register value and writing a truncated raw value back, plus a
    flow-rate setting kept by the entity itself. */
module Numbers {
  import opened Wrappers
  import opened Registers
  import opened RegisterFacts
  import opened Words
  import opened Reals
  import opened Text
  import opened Poller
  import opened Readings

  // ---------------------------------------------------------------------
  // Holding-register numbers

  /** A holding register gets a number entity when its descriptor says
      `writable`; a missing flag means not writable. */
  predicate Writable(r: int)
  {
    match HoldingRegister(r)
    case None => false
    case Some(d) => d.writable.GetOr(false)
  }

  /** The registers of `ids` that get a number entity, in order. */
  function WritableIds(ids: seq<int>): (w: seq<int>)
    ensures forall x :: x in w <==> x in ids && Writable(x)
    ensures |w| <= |ids|
  {
    if ids == [] then []
    else (if Writable(ids[0]) then [ids[0]] else []) + WritableIds(ids[1..])
  }

  /** A list made only of writable registers is kept whole. */
  lemma {:induction false} WritableIdsKeepAll(ids: seq<int>)
    requires forall x :: x in ids ==> Writable(x)
    ensures WritableIds(ids) == ids
  {
    if ids != [] {
      assert ids[0] in ids;
      assert forall x :: x in ids[1..] ==> x in ids;
      WritableIdsKeepAll(ids[1..]);
      assert ids == [ids[0]] + ids[1..];
    }
  }

  /** Setup creates one number per writable holding register and one flow-rate
      number; every holding register is writable, so that is one number per
      catalogue entry, 98 in all. */
  lemma NumberEntities()
    ensures WritableIds(HoldingRegisterIds) == HoldingRegisterIds
    ensures |WritableIds(HoldingRegisterIds)| + 1 == 98
  {
    HoldingIdsListTable();
    HoldingAllWritable();
    WritableIdsKeepAll(HoldingRegisterIds);
  }

  /** Every number's minimum is at most its maximum and its step positive;
      registers 38 and 96 admit only one value. */
  lemma NumberBoundsSane(r: int)
    requires HoldingRegister(r).Some?
    ensures MinMaxStep(r).0 <= MinMaxStep(r).1 && MinMaxStep(r).2 > 0.0
    ensures MinMaxStep(38) == (0.0, 0.0, MinMaxStep(38).2) && MinMaxStep(96).0 == MinMaxStep(96).1 == 1.0
  {
    HoldingBoundsOrdered();
    HoldingDegenerateBounds();
    HoldingNumberStepsPositive();
    HoldingNumberBoundsDefaults();
  }

  /** Where a descriptor gives a step it is positive. */
  lemma HoldingNumberStepsPositive()
    ensures forall r :: HoldingRegister(r).Some? && HoldingRegister(r).value.step.Some? ==> HoldingRegister(r).value.step.value > 0.0
  {
  }

  /** Where a descriptor lacks one bound, the default still lies on the right
      side of the other. */
  lemma HoldingNumberBoundsDefaults()
    ensures forall r :: HoldingRegister(r).Some? && HoldingRegister(r).value.minValue.None? && HoldingRegister(r).value.maxValue.Some? ==> HoldingRegister(r).value.maxValue.value >= 0.0
    ensures forall r :: HoldingRegister(r).Some? && HoldingRegister(r).value.maxValue.None? && HoldingRegister(r).value.minValue.Some? ==> HoldingRegister(r).value.minValue.value <= 100.0
  {
  }

  /** The value shown: the raw register times the descriptor's scale, or
      nothing when the snapshot lacks the register. */
  function NumberValue(snap: Snapshot, r: int): (v: Option<real>)
    ensures v.Some? <==> r in snap.holdingRegisters
    ensures v.Some? ==> v.value == snap.holdingRegisters[r] as real * ScaleOf(HoldingRegister(r))
  {
    ScaledRegister(snap.holdingRegisters, HoldingRegister(r), r)
  }

  /** The raw value written for a requested value: the value divided by the
      scale, truncated toward zero. */
  function RawSetting(r: int, value: real): (raw: int)
    requires HoldingRegister(r).Some?
    ensures value >= 0.0 ==> raw >= 0 && raw as real * ScaleOf(HoldingRegister(r)) <= value < raw as real * ScaleOf(HoldingRegister(r)) + ScaleOf(HoldingRegister(r))
    ensures value < 0.0 ==> raw <= 0 && raw as real * ScaleOf(HoldingRegister(r)) - ScaleOf(HoldingRegister(r)) < value <= raw as real * ScaleOf(HoldingRegister(r))
  {
    HoldingScales();
    var s := ScaleOf(HoldingRegister(r));
    assert s > 0.0;
    var n := Trunc(value / s);
    ScaledBounds(value, s, n);
    n
  }

  /** Multiplying the truncation bounds of `value / s` back by `s`. */
  lemma ScaledBounds(value: real, s: real, n: int)
    requires s > 0.0 && n == Trunc(value / s)
    ensures value >= 0.0 ==> n >= 0 && n as real * s <= value < n as real * s + s
    ensures value < 0.0 ==> n <= 0 && n as real * s - s < value <= n as real * s
  {
    var q := value / s;
    if value >= 0.0 {
      assert q >= 0.0;
      BetweenMultiples(value, s, n as real);
    } else {
      assert q < 0.0;
      BetweenMultiples(value, s, n as real - 1.0);
      assert (n as real - 1.0) * s == n as real * s - s;
    }
  }

  /** A quotient between `k` and `k + 1` puts the dividend between `k` and
      `k + 1` multiples of the divisor. */
  lemma BetweenMultiples(value: real, s: real, k: real)
    requires s > 0.0 && k <= value / s <= k + 1.0
    ensures k * s <= value <= k * s + s
    ensures value / s < k + 1.0 ==> value < k * s + s
    ensures k < value / s ==> k * s < value
  {
    var f := value / s - k;
    assert value == k * s + f * s;
    ProductNonNegative(f, s);
    ProductNonNegative(1.0 - f, s);
    assert (1.0 - f) * s == s - f * s;
    if f < 1.0 {
      ProductPositive(1.0 - f, s);
    }
    if f > 0.0 {
      ProductPositive(f, s);
    }
  }

  /** A non-negative value whose raw setting fits the signed range, written
      through a number and polled back (the poll reads the device word as
      signed 16-bit), is shown at most one scale step below what was asked
      for, never above it. */
  lemma SettingRoundTrip(snap: Snapshot, r: int, value: real)
    requires HoldingRegister(r).Some? && value >= 0.0
    requires RawSetting(r, value) <= 32767
    ensures var after := snap.(holdingRegisters := snap.holdingRegisters[r := Signed16(RawSetting(r, value))]);
      NumberValue(after, r).Some? &&
      value - ScaleOf(HoldingRegister(r)) < NumberValue(after, r).value <= value
  {
  }

  /** A raw setting above 32767 that still fits a word polls back negative:
      the entity then shows a value below zero, whatever was asked for. */
  lemma SettingWrapsAbove(snap: Snapshot, r: int, value: real)
    requires HoldingRegister(r).Some?
    requires 32768 <= RawSetting(r, value) < 0x1_0000
    ensures var after := snap.(holdingRegisters := snap.holdingRegisters[r := Signed16(RawSetting(r, value))]);
      NumberValue(after, r).Some? && NumberValue(after, r).value < 0.0
  {
    HoldingScales();
    var raw := RawSetting(r, value);
    assert Signed16(raw) == raw - 65536 < 0;
    ProductPositive(-(raw - 65536) as real, ScaleOf(HoldingRegister(r)));
  }

  /** Setting a value as the entity does it: the raw value is computed, then
      the entity calls a writer the coordinator does not have, so the call
      fails before anything reaches the device. */
  method SetHoldingValueAsWritten(r: int, value: real) returns (raised: bool, ops: seq<Op>)
    requires HoldingRegister(r).Some?
    ensures raised && ops == []
  {
    var raw := RawSetting(r, value);
    raised := true;
    ops := [];
  }

  /** Setting a value through the coordinator's writer: the truncated raw
      value goes to the entity's register, and a refresh is requested once
      more after a successful write. */
  method SetHoldingValue(c: Coordinator, link: Link, r: int, value: real) returns (ok: bool, ops: seq<Op>)
    requires HoldingRegister(r).Some?
    ensures ok == WriteSucceeds(link, r, RawSetting(r, value))
    ensures ops == WriteOps(link, r, RawSetting(r, value)) + (if ok then [RequestRefresh] else [])
  {
    var raw := RawSetting(r, value);
    ok, ops := c.WriteRegister(link, r, raw);
    if ok {
      ops := ops + [RequestRefresh];
    }
  }

  /** The corrected set reaches the device exactly when connected, with the
      raw value for the entity's own register, where the set as written never
      does. */
  lemma SetHoldingReachesDevice(link: Link, r: int, value: real)
    requires HoldingRegister(r).Some?
    ensures var ops := WriteOps(link, r, RawSetting(r, value));
      WriteOp(r, RawSetting(r, value)) in ops <==> link.connect == Connected
    ensures forall op :: op in WriteOps(link, r, RawSetting(r, value)) && op.WriteOp? ==> op == WriteOp(r, RawSetting(r, value))
  {
    WriteProtocol(link, r, RawSetting(r, value));
  }

  /** The keys of the coordinator's snapshot. */
  const SnapshotKeys: set<string> := {"input_registers", "holding_registers", "coil_registers", "last_update", "calculated"}

  /** The key a number looks for to decide availability. */
  function AvailabilityKey(r: int): (k: string)
    ensures |k| > 8 && k[..8] == "holding_"
    ensures '0' <= k[8] <= '9' || k[8] == '-'
  {
    "holding_" + IntToString(r)
  }

  /** A number is available when the snapshot holds its key and the last
      update succeeded. */
  predicate NumberAvailable(keys: set<string>, r: int, lastUpdateSuccess: bool)
  {
    AvailabilityKey(r) in keys && lastUpdateSuccess
  }

  /** The snapshot never holds such a key, so no holding number is ever
      available. */
  lemma NumbersNeverAvailable(r: int, lastUpdateSuccess: bool)
    ensures !NumberAvailable(SnapshotKeys, r, lastUpdateSuccess)
  {
    var k := AvailabilityKey(r);
    assert k[0] == 'h';
    assert "holding_registers"[8] == 'r';
    assert k != "holding_registers";
    assert k != "input_registers" && k != "coil_registers" && k != "last_update" && k != "calculated";
  }

  /** Availability as evidently intended: the last update succeeded and the
      snapshot's holding registers hold the number's register. */
  predicate NumberAvailableCorrected(data: Option<Snapshot>, r: int, lastUpdateSuccess: bool)
  {
    data.Some? && r in data.value.holdingRegisters && lastUpdateSuccess
  }

  /** With the corrected test a number is available exactly when the last
      update succeeded and it has a value to show, so, unlike the test as
      written, every number that was read can be available. */
  lemma CorrectedAvailabilityMeaning(data: Option<Snapshot>, r: int, lastUpdateSuccess: bool)
    ensures NumberAvailableCorrected(data, r, lastUpdateSuccess) <==>
      lastUpdateSuccess && data.Some? && NumberValue(data.value, r).Some?
    ensures data.Some? && lastUpdateSuccess && NumberValue(data.value, r).Some? ==>
      NumberAvailableCorrected(data, r, lastUpdateSuccess) && !NumberAvailable(SnapshotKeys, r, lastUpdateSuccess)
  {
    NumbersNeverAvailable(r, lastUpdateSuccess);
  }

  // ---------------------------------------------------------------------
  // Flow rate

  const FlowRateMin: real := 10.0
  const FlowRateMax: real := 50.0
  const FlowRateStep: real := 0.5
  const InitialFlowRate: real := 30.0

  /** The initial flow rate lies within the bounds, on the step grid. */
  lemma InitialFlowRateOnGrid()
    ensures FlowRateMin <= InitialFlowRate <= FlowRateMax
    ensures (InitialFlowRate - FlowRateMin) / FlowRateStep == 40.0
  {
  }

  /** The flow rate feeds the heat output: with the same inputs and different
      flow rates, a non-zero temperature difference gives different heat
      outputs. */
  lemma FlowRateMatters(inputs: map<int, int>, a: real, b: real)
    requires CanDerive(inputs, a) && CanDerive(inputs, b) && a != b
    requires inputs[9] != inputs[0]
    ensures CalculateDerivedValues(inputs, a)["heat_output_w"] != CalculateDerivedValues(inputs, b)["heat_output_w"]
  {
    var d := (inputs[9] - inputs[0]) as real;
    var ha := CalculateDerivedValues(inputs, a)["heat_output_w"];
    var hb := CalculateDerivedValues(inputs, b)["heat_output_w"];
    assert ha == a * 60.0 * WattsPerLitreHourKelvin * d;
    assert hb == b * 60.0 * WattsPerLitreHourKelvin * d;
    assert ha - hb == (a - b) * (60.0 * WattsPerLitreHourKelvin * d);
    assert 60.0 * WattsPerLitreHourKelvin * d != 0.0;
  }

  class FlowRateNumber {
    const coordinator: Coordinator
    /** The value the entity shows. */
    var flowRate: real

    constructor(coordinator: Coordinator)
      ensures this.coordinator == coordinator && flowRate == InitialFlowRate
    {
      this.coordinator := coordinator;
      flowRate := InitialFlowRate;
    }

    /** As written: the entity and the coordinator's `flowRate` attribute take
        the value, but the flow rate the derived values use stays as it was. */
    method SetNativeValueAsWritten(value: real)
      modifies this, coordinator
      ensures flowRate == value && coordinator.flowRate == Some(value)
      ensures coordinator.flowRateLpm == old(coordinator.flowRateLpm)
      ensures coordinator.scanInterval == old(coordinator.scanInterval)
      ensures coordinator.data == old(coordinator.data) && coordinator.lastUpdateSuccess == old(coordinator.lastUpdateSuccess)
    {
      flowRate := value;
      coordinator.flowRate := Some(value);
    }

    /** Corrected: the value also becomes the flow rate of the derived
        values, so the next refresh computes with it. */
    method SetNativeValue(value: real)
      modifies this, coordinator
      ensures flowRate == value && coordinator.flowRate == Some(value)
      ensures coordinator.flowRateLpm == value
      ensures coordinator.scanInterval == old(coordinator.scanInterval)
      ensures coordinator.data == old(coordinator.data) && coordinator.lastUpdateSuccess == old(coordinator.lastUpdateSuccess)
    {
      flowRate := value;
      coordinator.flowRate := Some(value);
      coordinator.flowRateLpm := value;
    }
  }
}
