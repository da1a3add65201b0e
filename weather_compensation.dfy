/** Weather compensation: a clamped linear heating curve from outdoor
    temperature to flow temperature, and a controller that ticks the curve,
    switches to a boost curve for a limited time and reports its state.
    Times are seconds passed in by the caller. */
module WeatherCompensation {
  import opened Wrappers
  import opened Words
  import opened Reals
  import opened Poller
  import opened Readings

  datatype CurveConfig = CurveConfig(
    name: string,
    minOutdoor: real,
    maxOutdoor: real,
    minFlow: real,
    maxFlow: real)

  function Max(a: real, b: real): real { if a >= b then a else b }
  function Min(a: real, b: real): real { if a <= b then a else b }

  /** The outdoor temperature held within the curve's range. */
  function Clamp(cfg: CurveConfig, t: real): (c: real)
    ensures cfg.minOutdoor <= cfg.maxOutdoor ==> cfg.minOutdoor <= c <= cfg.maxOutdoor
    ensures cfg.minOutdoor <= t <= cfg.maxOutdoor ==> c == t
    ensures cfg.minOutdoor >= cfg.maxOutdoor ==> c == cfg.minOutdoor
  {
    Max(cfg.minOutdoor, Min(cfg.maxOutdoor, t))
  }

  /** The flow temperature for an outdoor temperature: the maximum flow at or
      below the coldest point, the minimum flow at or above the warmest,
      linear in between. */
  function FlowTemperature(cfg: CurveConfig, t: real): (f: real)
  {
    var c := Clamp(cfg, t);
    if c <= cfg.minOutdoor then cfg.maxFlow
    else if c >= cfg.maxOutdoor then cfg.minFlow
    else cfg.maxFlow - ((c - cfg.minOutdoor) / (cfg.maxOutdoor - cfg.minOutdoor)) * (cfg.maxFlow - cfg.minFlow)
  }

  /** At and beyond the ends of a proper range the curve gives the end
      values; with an empty or inverted range it always gives the maximum
      flow. */
  lemma FlowAtBounds(cfg: CurveConfig, t: real)
    ensures t <= cfg.minOutdoor ==> FlowTemperature(cfg, t) == cfg.maxFlow
    ensures cfg.minOutdoor < cfg.maxOutdoor <= t ==> FlowTemperature(cfg, t) == cfg.minFlow
    ensures cfg.minOutdoor >= cfg.maxOutdoor ==> FlowTemperature(cfg, t) == cfg.maxFlow
  {
  }

  /** The share of the way from the coldest to the warmest point. */
  function Ratio(cfg: CurveConfig, c: real): (r: real)
    requires cfg.minOutdoor < cfg.maxOutdoor
    ensures r * (cfg.maxOutdoor - cfg.minOutdoor) == c - cfg.minOutdoor
  {
    (c - cfg.minOutdoor) / (cfg.maxOutdoor - cfg.minOutdoor)
  }

  /** Within the range the share lies between 0 and 1. */
  lemma RatioBounds(cfg: CurveConfig, c: real)
    requires cfg.minOutdoor < cfg.maxOutdoor && cfg.minOutdoor <= c <= cfg.maxOutdoor
    ensures 0.0 <= Ratio(cfg, c) <= 1.0
  {
    var w := cfg.maxOutdoor - cfg.minOutdoor;
    var r := Ratio(cfg, c);
    NonNegativeFactor(r, w);
    assert (1.0 - r) * w == w - (c - cfg.minOutdoor);
    NonNegativeFactor(1.0 - r, w);
  }

  /** Within a proper range the curve is the straight line through
      (coldest, maximum flow) and (warmest, minimum flow). */
  lemma FlowOnLine(cfg: CurveConfig, t: real)
    requires cfg.minOutdoor < cfg.maxOutdoor && cfg.minOutdoor <= t <= cfg.maxOutdoor
    ensures FlowTemperature(cfg, t) == cfg.maxFlow - Ratio(cfg, t) * (cfg.maxFlow - cfg.minFlow)
  {
    if t == cfg.maxOutdoor {
      var w := cfg.maxOutdoor - cfg.minOutdoor;
      var r := Ratio(cfg, t);
      assert (r - 1.0) * w == 0.0;
      NonNegativeFactor(r - 1.0, w);
      assert (1.0 - r) * w == 0.0;
      NonNegativeFactor(1.0 - r, w);
    }
  }

  /** Any two points of a proper range lie on one line: the flow falls by
      the flow span for every range width the outdoor temperature rises. */
  lemma FlowLinear(cfg: CurveConfig, t1: real, t2: real)
    requires cfg.minOutdoor < cfg.maxOutdoor
    requires cfg.minOutdoor <= t1 <= cfg.maxOutdoor && cfg.minOutdoor <= t2 <= cfg.maxOutdoor
    ensures (FlowTemperature(cfg, t1) - FlowTemperature(cfg, t2)) * (cfg.maxOutdoor - cfg.minOutdoor)
            == (t2 - t1) * (cfg.maxFlow - cfg.minFlow)
  {
    FlowOnLine(cfg, t1);
    FlowOnLine(cfg, t2);
    var w := cfg.maxOutdoor - cfg.minOutdoor;
    var d := cfg.maxFlow - cfg.minFlow;
    var r1 := Ratio(cfg, t1);
    var r2 := Ratio(cfg, t2);
    assert FlowTemperature(cfg, t1) - FlowTemperature(cfg, t2) == (r2 - r1) * d;
    assert (r2 - r1) * w == t2 - t1;
    assert (r2 - r1) * d * w == (r2 - r1) * w * d;
  }

  /** With the minimum flow not above the maximum, every output lies between
      them. */
  lemma FlowWithinBounds(cfg: CurveConfig, t: real)
    requires cfg.minFlow <= cfg.maxFlow
    ensures cfg.minFlow <= FlowTemperature(cfg, t) <= cfg.maxFlow
  {
    var c := Clamp(cfg, t);
    if cfg.minOutdoor < c < cfg.maxOutdoor {
      var r := Ratio(cfg, c);
      var d := cfg.maxFlow - cfg.minFlow;
      RatioBounds(cfg, c);
      ProductNonNegative(r, d);
      ProductNonNegative(1.0 - r, d);
      assert FlowTemperature(cfg, t) == cfg.maxFlow - r * d;
    }
  }

  /** With the minimum flow not above the maximum, a warmer day never asks for
      a hotter flow. */
  lemma FlowNonIncreasing(cfg: CurveConfig, t1: real, t2: real)
    requires cfg.minFlow <= cfg.maxFlow && t1 <= t2
    ensures FlowTemperature(cfg, t2) <= FlowTemperature(cfg, t1)
  {
    FlowWithinBounds(cfg, t1);
    FlowWithinBounds(cfg, t2);
    var c1 := Clamp(cfg, t1);
    var c2 := Clamp(cfg, t2);
    assert c1 <= c2;
    if cfg.minOutdoor < c1 < cfg.maxOutdoor && cfg.minOutdoor < c2 < cfg.maxOutdoor {
      var d := cfg.maxFlow - cfg.minFlow;
      var r1 := Ratio(cfg, c1);
      var r2 := Ratio(cfg, c2);
      assert (r2 - r1) * (cfg.maxOutdoor - cfg.minOutdoor) == c2 - c1;
      NonNegativeFactor(r2 - r1, cfg.maxOutdoor - cfg.minOutdoor);
      ProductNonNegative(r2 - r1, d);
      assert FlowTemperature(cfg, t2) - FlowTemperature(cfg, t1) == -((r2 - r1) * d);
    }
  }

  /** The outdoor temperature of point `i` of `n` evenly spaced points from
      the coldest to the warmest. */
  function CurvePointOutdoor(cfg: CurveConfig, n: nat, i: nat): (t: real)
    requires n != 1
    ensures n >= 2 && i == 0 ==> t == cfg.minOutdoor
    ensures n >= 2 && i == n - 1 ==> t == cfg.maxOutdoor
  {
    cfg.minOutdoor + (cfg.maxOutdoor - cfg.minOutdoor) * (i as real) / ((n - 1) as real)
  }

  /** The points of the curve for display: `n` pairs of outdoor and flow
      temperature, the outdoor ones evenly spaced from the coldest to the
      warmest point.  One point would divide by zero, so `n` is not 1. */
  method GetCurvePoints(cfg: CurveConfig, n: nat) returns (points: seq<(real, real)>)
    requires n != 1
    ensures |points| == n
    ensures forall i :: 0 <= i < n ==>
      points[i] == (CurvePointOutdoor(cfg, n, i), FlowTemperature(cfg, CurvePointOutdoor(cfg, n, i)))
  {
    points := [];
    var i := 0;
    while i < n
      invariant 0 <= i <= n
      invariant |points| == i
      invariant forall j :: 0 <= j < i ==>
        points[j] == (CurvePointOutdoor(cfg, n, j), FlowTemperature(cfg, CurvePointOutdoor(cfg, n, j)))
    {
      var outdoor := CurvePointOutdoor(cfg, n, i);
      points := points + [(outdoor, FlowTemperature(cfg, outdoor))];
      i := i + 1;
    }
  }

  /** With the coldest point not above the warmest, the points' outdoor
      temperatures ascend. */
  lemma CurvePointsAscending(cfg: CurveConfig, n: nat, i: nat, j: nat)
    requires n >= 2 && i <= j < n && cfg.minOutdoor <= cfg.maxOutdoor
    ensures CurvePointOutdoor(cfg, n, i) <= CurvePointOutdoor(cfg, n, j)
  {
    var w := cfg.maxOutdoor - cfg.minOutdoor;
    var a := w * (i as real);
    var b := w * (j as real);
    ProductNonNegative(w, (j - i) as real);
    assert b - a == w * ((j - i) as real);
    DivideMonotone(a, b, (n - 1) as real);
  }

  /** On such a curve with minimum flow not above maximum flow, the points'
      flow temperatures never rise from one point to the next. */
  lemma CurvePointsDescending(cfg: CurveConfig, n: nat, i: nat, j: nat)
    requires n >= 2 && i <= j < n
    requires cfg.minOutdoor <= cfg.maxOutdoor && cfg.minFlow <= cfg.maxFlow
    ensures FlowTemperature(cfg, CurvePointOutdoor(cfg, n, j)) <= FlowTemperature(cfg, CurvePointOutdoor(cfg, n, i))
  {
    CurvePointsAscending(cfg, n, i, j);
    FlowNonIncreasing(cfg, CurvePointOutdoor(cfg, n, i), CurvePointOutdoor(cfg, n, j));
  }

  // ---------------------------------------------------------------------
  // The controller

  /** The configuration the controller is built from: the two flags and the
      curve settings by key. */
  datatype ControllerOptions = ControllerOptions(
    weatherCompensation: Option<bool>,
    dualWeatherCompensation: Option<bool>,
    values: map<string, real>)

  datatype CurveChoice = PrimaryCurve | SecondaryCurve

  /** Everything the controller keeps between calls. */
  datatype ControllerState = ControllerState(
    enabled: bool,
    primary: Option<CurveConfig>,
    secondary: Option<CurveConfig>,
    activeCurve: CurveChoice,
    boostActive: bool,
    boostEnd: Option<real>,
    lastOutdoor: Option<real>,
    lastFlow: Option<real>,
    lastUpdate: Option<real>,
    calculationCount: nat,
    setupDone: bool)

  const BoostMinutesDefault: int := 120
  const TickSeconds: real := 60.0

  /** Enabled when the options say so; no curves, no boost, nothing recorded. */
  function InitialState(options: ControllerOptions): (s: ControllerState)
    ensures s.enabled == options.weatherCompensation.GetOr(false)
    ensures s.primary.None? && s.secondary.None? && !s.boostActive && !s.setupDone
    ensures s.activeCurve == PrimaryCurve && s.calculationCount == 0 && s.lastFlow.None?
  {
    ControllerState(options.weatherCompensation.GetOr(false), None, None, PrimaryCurve, false, None, None, None, None, 0, false)
  }

  /** The primary curve from the options, with defaults from -5 to 18 degrees
      outside and 25 to 45 degrees flow. */
  function PrimaryConfig(options: ControllerOptions): (cfg: CurveConfig)
    ensures options.values == map[] ==> cfg == CurveConfig("Primary", -5.0, 18.0, 25.0, 45.0)
  {
    CurveConfig("Primary",
      GetOr(options.values, "wc_min_outdoor_temp", -5.0),
      GetOr(options.values, "wc_max_outdoor_temp", 18.0),
      GetOr(options.values, "wc_min_flow_temp", 25.0),
      GetOr(options.values, "wc_max_flow_temp", 45.0))
  }

  /** The boost curve from the options, with defaults from -10 to 10 degrees
      outside and 35 to 55 degrees flow. */
  function BoostConfig(options: ControllerOptions): (cfg: CurveConfig)
    ensures options.values == map[] ==> cfg == CurveConfig("Boost", -10.0, 10.0, 35.0, 55.0)
  {
    CurveConfig("Boost",
      GetOr(options.values, "boost_min_outdoor_temp", -10.0),
      GetOr(options.values, "boost_max_outdoor_temp", 10.0),
      GetOr(options.values, "boost_min_flow_temp", 35.0),
      GetOr(options.values, "boost_max_flow_temp", 55.0))
  }

  /** Setup does nothing while disabled; otherwise it builds the primary
      curve, the boost curve when dual compensation is on, and marks itself
      done. */
  function SetupState(s: ControllerState, options: ControllerOptions): ControllerState
  {
    if !s.enabled then s
    else s.(
      primary := Some(PrimaryConfig(options)),
      secondary := if options.dualWeatherCompensation.GetOr(false) then Some(BoostConfig(options)) else s.secondary,
      setupDone := true)
  }

  /** The outdoor temperature a tick uses: input 6, or nothing without it. */
  function OutdoorTemperature(data: Option<Snapshot>): (t: Option<real>)
    ensures t.Some? <==> data.Some? && 6 in data.value.inputRegisters
    ensures t.Some? ==> t.value == data.value.inputRegisters[6] as real
  {
    match Get(InputsOf(data), 6)
    case None => None
    case Some(raw) => Some(raw as real)
  }

  /** The target flow: the boost curve while boosting with one configured,
      else the primary curve; nothing when that curve does not exist. */
  function TargetFlow(s: ControllerState, outdoor: real): (f: Option<real>)
    ensures s.boostActive && s.secondary.Some? ==> f == Some(FlowTemperature(s.secondary.value, outdoor))
    ensures !(s.boostActive && s.secondary.Some?) ==>
      (f.Some? <==> s.primary.Some?) && (f.Some? ==> f.value == FlowTemperature(s.primary.value, outdoor))
  {
    if s.boostActive && s.secondary.Some? then Some(FlowTemperature(s.secondary.value, outdoor))
    else if s.primary.Some? then Some(FlowTemperature(s.primary.value, outdoor))
    else None
  }

  /** The recording part of a tick; nothing when the outdoor temperature or
      the curve is missing, as the tick then stops early. */
  function Recorded(s: ControllerState, data: Option<Snapshot>, now: real): (r: Option<ControllerState>)
    ensures r.Some? <==> OutdoorTemperature(data).Some? && TargetFlow(s, OutdoorTemperature(data).value).Some?
    ensures r.Some? ==> r.value.calculationCount == s.calculationCount + 1 && r.value.lastUpdate == Some(now)
    ensures r.Some? ==> r.value.boostActive == s.boostActive && r.value.boostEnd == s.boostEnd
  {
    match OutdoorTemperature(data)
    case None => None
    case Some(outdoor) =>
      match TargetFlow(s, outdoor)
      case None => None
      case Some(flow) =>
        Some(s.(lastOutdoor := Some(outdoor), lastFlow := Some(flow), lastUpdate := Some(now),
                calculationCount := s.calculationCount + 1))
  }

  /** The boost has run out at `now`. */
  predicate Expired(s: ControllerState, now: real)
  {
    s.boostActive && s.boostEnd.Some? && now > s.boostEnd.value
  }

  /** Back to the primary curve with no boost. */
  function Unboosted(s: ControllerState): (u: ControllerState)
    ensures !u.boostActive && u.activeCurve == PrimaryCurve && u.boostEnd.None?
  {
    s.(boostActive := false, activeCurve := PrimaryCurve, boostEnd := None)
  }

  /** Deactivation: nothing while not boosting; otherwise the boost is reset
      and a tick recorded on the primary curve. */
  function DeactivateState(s: ControllerState, data: Option<Snapshot>, now: real): ControllerState
  {
    if !s.boostActive then s
    else
      match Recorded(Unboosted(s), data, now)
      case None => Unboosted(s)
      case Some(r) => r
  }

  /** A tick: record, then end a boost that has run out. */
  function TickState(s: ControllerState, data: Option<Snapshot>, now: real): ControllerState
  {
    match Recorded(s, data, now)
    case None => s
    case Some(r) => if Expired(r, now) then DeactivateState(r, data, now) else r
  }

  /** Activation: refused without a boost curve; otherwise the boost starts,
      ends `minutes` from now, and a tick is run. */
  function ActivateState(s: ControllerState, minutes: int, data: Option<Snapshot>, now: real): (r: (bool, ControllerState))
  {
    if s.secondary.None? then (false, s)
    else (true, TickState(s.(boostActive := true, activeCurve := SecondaryCurve,
                              boostEnd := Some(now + minutes as real * 60.0)), data, now))
  }

  /** Whole minutes of boost left, never negative; nothing while not
      boosting. */
  function RemainingMinutes(s: ControllerState, now: real): (m: Option<int>)
  {
    if !s.boostActive || s.boostEnd.None? then None
    else Some(if Trunc((s.boostEnd.value - now) / 60.0) >= 0 then Trunc((s.boostEnd.value - now) / 60.0) else 0)
  }

  predicate IsEnabled(s: ControllerState)
  {
    s.enabled && s.setupDone
  }

  // ---------------------------------------------------------------------
  // Properties of the state machine

  /** Setup while disabled changes nothing; enabled, it builds the primary
      curve, a boost curve exactly when dual compensation is on (starting from
      none), and enables the controller. */
  lemma SetupBuildsCurves(options: ControllerOptions)
    ensures var s := SetupState(InitialState(options), options);
      && (!options.weatherCompensation.GetOr(false) ==> s == InitialState(options) && !IsEnabled(s))
      && (options.weatherCompensation.GetOr(false) ==>
            IsEnabled(s) && s.primary == Some(PrimaryConfig(options)) &&
            (s.secondary.Some? <==> options.dualWeatherCompensation.GetOr(false)))
  {
  }

  /** The default curves both have minimum flows below their maximum, so the
      curve properties above hold for them. */
  lemma DefaultCurvesOrdered()
    ensures var p := PrimaryConfig(ControllerOptions(None, None, map[]));
      p.minOutdoor < p.maxOutdoor && p.minFlow <= p.maxFlow
    ensures var b := BoostConfig(ControllerOptions(None, None, map[]));
      b.minOutdoor < b.maxOutdoor && b.minFlow <= b.maxFlow
  {
  }

  /** Without a boost curve activation is refused and changes nothing; with
      one it is accepted, and unless a tick ends it at once the boost is on,
      on the boost curve, until `minutes` from now. */
  lemma ActivateBoostEffect(s: ControllerState, minutes: int, data: Option<Snapshot>, now: real)
    ensures s.secondary.None? ==> ActivateState(s, minutes, data, now) == (false, s)
    ensures s.secondary.Some? && minutes >= 0 ==>
      var r := ActivateState(s, minutes, data, now);
      && r.0 && r.1.boostActive && r.1.activeCurve == SecondaryCurve
      && r.1.boostEnd == Some(now + minutes as real * 60.0)
      && r.1.secondary == s.secondary
  {
    if s.secondary.Some? && minutes >= 0 {
      var b := s.(boostActive := true, activeCurve := SecondaryCurve, boostEnd := Some(now + minutes as real * 60.0));
      ProductNonNegative(minutes as real, 60.0);
      match Recorded(b, data, now) {
        case None =>
        case Some(r) =>
          assert !Expired(r, now);
      }
    }
  }

  /** A negative duration ends the boost in the tick activation runs, as
      long as that tick can record. */
  lemma ActivateNegativeDuration(s: ControllerState, minutes: int, data: Option<Snapshot>, now: real)
    requires s.secondary.Some? && minutes < 0 && OutdoorTemperature(data).Some?
    ensures ActivateState(s, minutes, data, now).0
    ensures !ActivateState(s, minutes, data, now).1.boostActive
  {
    var b := s.(boostActive := true, activeCurve := SecondaryCurve, boostEnd := Some(now + minutes as real * 60.0));
    assert TargetFlow(b, OutdoorTemperature(data).value).Some?;
    assert Expired(Recorded(b, data, now).value, now);
  }

  /** Deactivating twice is deactivating once, deactivating while not
      boosting changes nothing, and afterwards the primary curve is in use. */
  lemma DeactivateIdempotent(s: ControllerState, data: Option<Snapshot>, now: real, later: real)
    ensures !s.boostActive ==> DeactivateState(s, data, now) == s
    ensures var d := DeactivateState(s, data, now);
      !d.boostActive && DeactivateState(d, data, later) == d
    ensures s.boostActive ==> DeactivateState(s, data, now).activeCurve == PrimaryCurve && DeactivateState(s, data, now).boostEnd.None?
  {
  }

  /** A tick without an outdoor temperature changes nothing, not even an
      expired boost. */
  lemma TickWithoutOutdoor(s: ControllerState, data: Option<Snapshot>, now: real)
    requires OutdoorTemperature(data).None?
    ensures TickState(s, data, now) == s
  {
  }

  /** A tick that can record counts one calculation and records the outdoor
      temperature and target; when the boost has run out it ends it and
      counts a second calculation, on the primary curve. */
  lemma TickRecords(s: ControllerState, data: Option<Snapshot>, now: real)
    requires OutdoorTemperature(data).Some? && TargetFlow(s, OutdoorTemperature(data).value).Some?
    ensures var t := TickState(s, data, now);
      var outdoor := OutdoorTemperature(data).value;
      && t.lastOutdoor == Some(outdoor) && t.lastUpdate == Some(now)
      && (!Expired(s, now) ==> t.calculationCount == s.calculationCount + 1 && t.lastFlow == TargetFlow(s, outdoor) && t.boostActive == s.boostActive)
      && (Expired(s, now) ==> !t.boostActive && t.activeCurve == PrimaryCurve && t.boostEnd.None?)
      && (Expired(s, now) && s.primary.Some? ==>
            t.calculationCount == s.calculationCount + 2 && t.lastFlow == Some(FlowTemperature(s.primary.value, outdoor)))
  {
    var r := Recorded(s, data, now).value;
    assert Expired(r, now) == Expired(s, now);
    if Expired(s, now) && s.primary.Some? {
      assert TargetFlow(Unboosted(r), OutdoorTemperature(data).value) == Some(FlowTemperature(s.primary.value, OutdoorTemperature(data).value));
    }
  }

  /** Remaining minutes exist exactly while boosting with an end time, are
      never negative, and are zero from a minute before the end on. */
  lemma RemainingMinutesBounds(s: ControllerState, now: real)
    ensures RemainingMinutes(s, now).Some? <==> s.boostActive && s.boostEnd.Some?
    ensures RemainingMinutes(s, now).Some? ==> RemainingMinutes(s, now).value >= 0
    ensures RemainingMinutes(s, now).Some? && now > s.boostEnd.value - 60.0 ==> RemainingMinutes(s, now).value == 0
    ensures RemainingMinutes(s, now).Some? && now <= s.boostEnd.value ==>
      RemainingMinutes(s, now).value as real * 60.0 <= s.boostEnd.value - now < (RemainingMinutes(s, now).value + 1) as real * 60.0
  {
    if s.boostActive && s.boostEnd.Some? {
      var q := (s.boostEnd.value - now) / 60.0;
      var n := Trunc(q);
      assert q * 60.0 == s.boostEnd.value - now;
      if now > s.boostEnd.value - 60.0 {
        assert q < 1.0;
      }
      if now <= s.boostEnd.value {
        assert q >= 0.0;
        assert n as real <= q < n as real + 1.0;
        assert (n + 1) as real == n as real + 1.0;
      }
    }
  }

  /** The controller as an object: its fields are the state above and each
      call moves them as the matching state function says. */
  class Controller {
    const options: ControllerOptions
    var enabled: bool
    var primary: Option<CurveConfig>
    var secondary: Option<CurveConfig>
    var activeCurve: CurveChoice
    var boostActive: bool
    var boostEnd: Option<real>
    var lastOutdoor: Option<real>
    var lastFlow: Option<real>
    var lastUpdate: Option<real>
    var calculationCount: nat
    var setupDone: bool

    function State(): ControllerState
      reads this
    {
      ControllerState(enabled, primary, secondary, activeCurve, boostActive, boostEnd,
                      lastOutdoor, lastFlow, lastUpdate, calculationCount, setupDone)
    }

    constructor(options: ControllerOptions)
      ensures this.options == options && State() == InitialState(options)
    {
      this.options := options;
      enabled := options.weatherCompensation.GetOr(false);
      primary := None;
      secondary := None;
      activeCurve := PrimaryCurve;
      boostActive := false;
      boostEnd := None;
      lastOutdoor := None;
      lastFlow := None;
      lastUpdate := None;
      calculationCount := 0;
      setupDone := false;
    }

    method Setup()
      modifies this
      ensures State() == SetupState(old(State()), options)
    {
      if !enabled {
        return;
      }
      primary := Some(PrimaryConfig(options));
      if options.dualWeatherCompensation.GetOr(false) {
        secondary := Some(BoostConfig(options));
      }
      setupDone := true;
    }

    /** One tick; a boost found expired is ended through `DeactivateBoost`,
        which ticks again on the primary curve. */
    method Tick(data: Option<Snapshot>, now: real)
      modifies this
      decreases if boostActive then 2 else 0
      ensures State() == TickState(old(State()), data, now)
    {
      var outdoor := OutdoorTemperature(data);
      if outdoor.None? {
        return;
      }
      var target := TargetFlow(State(), outdoor.value);
      if target.None? {
        return;
      }
      lastOutdoor := outdoor;
      lastFlow := target;
      lastUpdate := Some(now);
      calculationCount := calculationCount + 1;
      if boostActive && boostEnd.Some? && now > boostEnd.value {
        DeactivateBoost(data, now);
      }
    }

    method ActivateBoost(minutes: int, data: Option<Snapshot>, now: real) returns (accepted: bool)
      modifies this
      ensures (accepted, State()) == ActivateState(old(State()), minutes, data, now)
    {
      if secondary.None? {
        return false;
      }
      boostActive := true;
      activeCurve := SecondaryCurve;
      boostEnd := Some(now + minutes as real * 60.0);
      Tick(data, now);
      return true;
    }

    method DeactivateBoost(data: Option<Snapshot>, now: real)
      modifies this
      decreases if boostActive then 1 else 0
      ensures State() == DeactivateState(old(State()), data, now)
    {
      if !boostActive {
        return;
      }
      boostActive := false;
      activeCurve := PrimaryCurve;
      boostEnd := None;
      Tick(data, now);
    }
  }
}
