/**
 * The force-feedback synthesis of fsffb/core/ffb_calculator.py as pure functions of one
 * telemetry frame and the scaled parameters: the spring-centre offsets from trim and
 * autopilot, the axis values sent back to the simulator, the aerodynamic spring
 * coefficients with the stall branch, the constant force and the vibration effects. The
 * stateful parts (derivative history, low-pass filters) are in `FfbCalculator`.
 */
module FfbForces {
  import opened Wrappers
  import opened Dict
  import opened Numeric
  import opened Params
  import opened Presets
  import opened Aircraft
  import E = EffectTables

  const MsToKt: real := 1.943844
  const StdAirDensity: real := 1.225
  const VsoundIsa: real := 290.07
  const P0Isa: real := 101325.0
  /** Pounds-force to newtons, applied to the propeller thrust. */
  const LbfToN: real := 4.4482216152605

  function RadToDeg(tr: Transcendentals): real
    requires Facts(tr)
  {
    180.0 / tr.pi
  }

  function DegToRad(tr: Transcendentals): real
    requires Facts(tr)
  {
    tr.pi / 180.0
  }

  // ---------------------------------------------------------------- telemetry frames

  /** A telemetry value: numbers (booleans as 0/1), strings such as `src`, and number lists. */
  datatype TelemValue = Number(x: real) | Text(s: string) | List(xs: seq<real>)

  type Telemetry = map<string, TelemValue>

  /** Python truthiness of a telemetry value. */
  predicate TruthyValue(v: TelemValue) {
    match v
    case Number(x) => x != 0.0
    case Text(s) => s != ""
    case List(xs) => xs != []
  }

  /** `telem.get(key, False)` (or `0`) used as a condition. */
  predicate IsSet(t: Telemetry, key: string) {
    key in t && TruthyValue(t[key])
  }

  predicate NumberAt(t: Telemetry, key: string) {
    key in t ==> t[key].Number?
  }

  /** `telem.get(key, default)` used in arithmetic. */
  function Real(t: Telemetry, key: string, default: real): real
    requires NumberAt(t, key)
  {
    if key in t then t[key].x else default
  }

  /** The keys the calculator uses in arithmetic hold numbers (otherwise Python raises). */
  predicate Numbers(t: Telemetry) {
    && NumberAt(t, "IAS") && NumberAt(t, "DynPressure") && NumberAt(t, "AirDensity")
    && NumberAt(t, "AoA") && NumberAt(t, "SideSlip") && NumberAt(t, "StallAoA")
    && NumberAt(t, "Vne") && NumberAt(t, "G") && NumberAt(t, "WindX") && NumberAt(t, "WindY")
    && NumberAt(t, "WindZ") && NumberAt(t, "Heading") && NumberAt(t, "GroundSpeed")
    && NumberAt(t, "ElevTrimPct") && NumberAt(t, "AileronTrimPct") && NumberAt(t, "ElevDeflPct")
    && NumberAt(t, "APPitchServo")
  }

  /** `PropThrust` is a number or a non-empty list (whose `max` is taken). */
  predicate PropThrustOk(t: Telemetry) {
    "PropThrust" in t ==> t["PropThrust"].Number? || (t["PropThrust"].List? && t["PropThrust"].xs != [])
  }

  /** `DesignSpeed` unpacks into three numbers. */
  predicate DesignSpeedOk(t: Telemetry) {
    "DesignSpeed" in t ==> t["DesignSpeed"].List? && |t["DesignSpeed"].xs| == 3
  }

  /** `AileronDeflPctLR` is indexed at 0 and 1. */
  predicate AileronPairOk(t: Telemetry) {
    "AileronDeflPctLR" in t && t["AileronDeflPctLR"].List? && |t["AileronDeflPctLR"].xs| >= 2
  }

  /** `telem.get('src') != 'XPLANE'`. */
  predicate IsMsfs(t: Telemetry) {
    !("src" in t && t["src"] == Text("XPLANE"))
  }

  function MaxOf(xs: seq<real>): (m: real)
    requires xs != []
    ensures m in xs && forall i :: 0 <= i < |xs| ==> xs[i] <= m
  {
    if |xs| == 1 then xs[0] else Max(xs[0], MaxOf(xs[1..]))
  }

  // ---------------------------------------------------------------- scaled parameters

  /** `_get_scaled_params`: every parameter value, with the UI ranges scaled to physical ones. */
  datatype Scaled = Scaled(
    vneOverride: real, aileronExpo: real, elevatorExpo: real, stallAoaRatio: real,
    damperCoef: real, gForceGain: real, elevatorDroopMoment: real,
    windGainX: real, windGainY: real, windMaxIntensity: real,
    stickShakerIntensity: real, runwayRumbleIntensity: real,
    trimGainPhysicalY: real, trimGainVirtualY: real, trimGainPhysicalX: real, trimGainVirtualX: real,
    apGainPhysicalY: real, apGainPhysicalX: real,
    maxAileronCoeff: real, maxElevatorCoeff: real, propDiameter: real,
    trimFollowing: bool, apFollowing: bool, apTrimOnly: bool, pmdgApOn: bool, test1: bool, test2: bool)

  /** The parameters the frame reads (a missing one raises `KeyError`). */
  predicate HasScaledKeys(p: map<string, Value>) {
    && "vne_override" in p && "aileron_expo" in p && "elevator_expo" in p
    && "stall_aoa_ratio" in p && "damper_coef" in p && "g_force_gain" in p
    && "elevator_droop_moment" in p && "wind_gain_x" in p && "wind_gain_y" in p
    && "wind_max_intensity" in p && "stick_shaker_intensity" in p
    && "runway_rumble_intensity" in p && "trim_following" in p
    && "joystick_trim_follow_gain_physical_y" in p && "joystick_trim_follow_gain_virtual_y" in p
    && "joystick_trim_follow_gain_physical_x" in p && "joystick_trim_follow_gain_virtual_x" in p
    && "ap_following" in p && "ap_trim_only" in p && "PMDG_AP_On" in p
    && "joystick_ap_follow_gain_physical_y" in p && "joystick_ap_follow_gain_physical_x" in p
    && "max_aileron_coeff" in p && "max_elevator_coeff" in p && "prop_diameter" in p
    && "test1" in p && "test2" in p
  }

  /**
   * The scaling of `_get_scaled_params` applied to the copied values `p`: percentages become
   * fractions, the droop moment is divided by 500, the prop diameter goes from cm to m, and
   * the Vne override and damper coefficient are kept as they are.
   */
  function ScaledOf(p: map<string, Value>): Scaled
    requires HasScaledKeys(p)
  {
    Scaled(
      NumVal(p["vne_override"]),
      NumVal(p["aileron_expo"]) / 100.0,
      NumVal(p["elevator_expo"]) / 100.0,
      NumVal(p["stall_aoa_ratio"]) / 100.0,
      NumVal(p["damper_coef"]),
      NumVal(p["g_force_gain"]) / 100.0,
      NumVal(p["elevator_droop_moment"]) / 500.0,
      NumVal(p["wind_gain_x"]) / 100.0,
      NumVal(p["wind_gain_y"]) / 100.0,
      NumVal(p["wind_max_intensity"]) / 100.0,
      NumVal(p["stick_shaker_intensity"]) / 100.0,
      NumVal(p["runway_rumble_intensity"]) / 100.0,
      NumVal(p["joystick_trim_follow_gain_physical_y"]) / 100.0,
      NumVal(p["joystick_trim_follow_gain_virtual_y"]) / 100.0,
      NumVal(p["joystick_trim_follow_gain_physical_x"]) / 100.0,
      NumVal(p["joystick_trim_follow_gain_virtual_x"]) / 100.0,
      NumVal(p["joystick_ap_follow_gain_physical_y"]) / 100.0,
      NumVal(p["joystick_ap_follow_gain_physical_x"]) / 100.0,
      NumVal(p["max_aileron_coeff"]) / 100.0,
      NumVal(p["max_elevator_coeff"]) / 100.0,
      NumVal(p["prop_diameter"]) / 100.0,
      Truthy(p["trim_following"]),
      Truthy(p["ap_following"]),
      Truthy(p["ap_trim_only"]),
      Truthy(p["PMDG_AP_On"]),
      Truthy(p["test1"]),
      Truthy(p["test2"]))
  }

  /**
   * The dictionary `p` of `_get_scaled_params`: each parameter's `'value'` under its name, a
   * later entry of the same name overwriting an earlier one. Only lookups are made in it, so
   * its order is not kept.
   */
  function ValuesMap(t: ParamTable): map<string, Value>
    decreases |t|
  {
    if t == [] then map[] else ValuesMap(t[..|t| - 1])[t[|t| - 1].0 := t[|t| - 1].1.value]
  }

  /** Copying the values keeps exactly the table's names. */
  lemma {:induction false} ValuesMapHasKey(t: ParamTable, k: string)
    ensures k in ValuesMap(t) <==> HasKey(t, k)
    decreases |t|
  {
    if t != [] {
      var p := t[..|t| - 1];
      ValuesMapHasKey(p, k);
      if HasKey(t, k) && k != t[|t| - 1].0 {
        var i :| 0 <= i < |t| && t[i].0 == k;
        assert p[i].0 == k;
      }
      if HasKey(p, k) {
        var i :| 0 <= i < |p| && p[i].0 == k;
        assert t[i].0 == k;
      }
    }
  }

  /** In a dictionary, the copied value of a parameter is its `'value'`. */
  lemma {:induction false} ValuesMapGet(t: ParamTable, k: string)
    requires Distinct(t) && HasKey(t, k)
    ensures k in ValuesMap(t) && ValuesMap(t)[k] == ValueOf(t, k)
    decreases |t|
  {
    ValuesMapHasKey(t, k);
    var n := |t| - 1;
    var p := t[..n];
    if t[n].0 == k {
      IndexOfAt(t, n, k);
    } else {
      var j := IndexOf(t, k);
      assert p[j].0 == k;
      IndexOfAt(p, j, k);
      ValuesMapGet(p, k);
    }
  }

  lemma HasScaledKeysPart1(t: ParamTable)
    requires SameShape(DefaultAircraftParams, t)
    ensures HasKey(t, "vne_override") && HasKey(t, "aileron_expo") && HasKey(t, "elevator_expo") && HasKey(t, "stall_aoa_ratio")
  {
    var d := DefaultAircraftParams;
    assert d[0].0 == "vne_override" && d[1].0 == "aileron_expo" && d[2].0 == "elevator_expo" && d[3].0 == "stall_aoa_ratio";
    assert t[0].0 == "vne_override" && t[1].0 == "aileron_expo" && t[2].0 == "elevator_expo" && t[3].0 == "stall_aoa_ratio";
  }

  lemma HasScaledKeysPart2(t: ParamTable)
    requires SameShape(DefaultAircraftParams, t)
    ensures HasKey(t, "damper_coef") && HasKey(t, "g_force_gain") && HasKey(t, "elevator_droop_moment") && HasKey(t, "wind_gain_x")
  {
    var d := DefaultAircraftParams;
    assert d[4].0 == "damper_coef" && d[5].0 == "g_force_gain" && d[6].0 == "elevator_droop_moment" && d[7].0 == "wind_gain_x";
    assert t[4].0 == "damper_coef" && t[5].0 == "g_force_gain" && t[6].0 == "elevator_droop_moment" && t[7].0 == "wind_gain_x";
  }

  lemma HasScaledKeysPart3(t: ParamTable)
    requires SameShape(DefaultAircraftParams, t)
    ensures HasKey(t, "wind_gain_y") && HasKey(t, "wind_max_intensity") && HasKey(t, "stick_shaker_intensity") && HasKey(t, "runway_rumble_intensity")
  {
    var d := DefaultAircraftParams;
    assert d[8].0 == "wind_gain_y" && d[9].0 == "wind_max_intensity" && d[11].0 == "stick_shaker_intensity" && d[12].0 == "runway_rumble_intensity";
    assert t[8].0 == "wind_gain_y" && t[9].0 == "wind_max_intensity" && t[11].0 == "stick_shaker_intensity" && t[12].0 == "runway_rumble_intensity";
  }

  lemma HasScaledKeysPart4(t: ParamTable)
    requires SameShape(DefaultAircraftParams, t)
    ensures HasKey(t, "trim_following") && HasKey(t, "joystick_trim_follow_gain_physical_y") && HasKey(t, "joystick_trim_follow_gain_virtual_y") && HasKey(t, "joystick_trim_follow_gain_physical_x")
  {
    var d := DefaultAircraftParams;
    assert d[13].0 == "trim_following" && d[14].0 == "joystick_trim_follow_gain_physical_y" && d[15].0 == "joystick_trim_follow_gain_virtual_y" && d[16].0 == "joystick_trim_follow_gain_physical_x";
    assert t[13].0 == "trim_following" && t[14].0 == "joystick_trim_follow_gain_physical_y" && t[15].0 == "joystick_trim_follow_gain_virtual_y" && t[16].0 == "joystick_trim_follow_gain_physical_x";
  }

  lemma HasScaledKeysPart5(t: ParamTable)
    requires SameShape(DefaultAircraftParams, t)
    ensures HasKey(t, "joystick_trim_follow_gain_virtual_x") && HasKey(t, "ap_following") && HasKey(t, "ap_trim_only") && HasKey(t, "PMDG_AP_On")
  {
    var d := DefaultAircraftParams;
    assert d[17].0 == "joystick_trim_follow_gain_virtual_x" && d[18].0 == "ap_following" && d[19].0 == "ap_trim_only" && d[20].0 == "PMDG_AP_On";
    assert t[17].0 == "joystick_trim_follow_gain_virtual_x" && t[18].0 == "ap_following" && t[19].0 == "ap_trim_only" && t[20].0 == "PMDG_AP_On";
  }

  lemma HasScaledKeysPart6(t: ParamTable)
    requires SameShape(DefaultAircraftParams, t)
    ensures HasKey(t, "joystick_ap_follow_gain_physical_y") && HasKey(t, "joystick_ap_follow_gain_physical_x") && HasKey(t, "max_aileron_coeff") && HasKey(t, "max_elevator_coeff")
  {
    var d := DefaultAircraftParams;
    assert d[21].0 == "joystick_ap_follow_gain_physical_y" && d[22].0 == "joystick_ap_follow_gain_physical_x" && d[24].0 == "max_aileron_coeff" && d[25].0 == "max_elevator_coeff";
    assert t[21].0 == "joystick_ap_follow_gain_physical_y" && t[22].0 == "joystick_ap_follow_gain_physical_x" && t[24].0 == "max_aileron_coeff" && t[25].0 == "max_elevator_coeff";
  }

  lemma HasScaledKeysPart7(t: ParamTable)
    requires SameShape(DefaultAircraftParams, t)
    ensures HasKey(t, "prop_diameter") && HasKey(t, "test1") && HasKey(t, "test2")
  {
    var d := DefaultAircraftParams;
    assert d[26].0 == "prop_diameter" && d[27].0 == "test1" && d[28].0 == "test2";
    assert t[26].0 == "prop_diameter" && t[27].0 == "test1" && t[28].0 == "test2";
  }

  /** Every table of the built-in shape has every parameter the frame reads. */
  lemma DefaultShapeHasScaledKeys(t: ParamTable)
    requires SameShape(DefaultAircraftParams, t)
    ensures HasScaledKeys(ValuesMap(t))
  {
    HasScaledKeysPart1(t);
    HasScaledKeysPart2(t);
    HasScaledKeysPart3(t);
    HasScaledKeysPart4(t);
    HasScaledKeysPart5(t);
    HasScaledKeysPart6(t);
    HasScaledKeysPart7(t);
    forall k ensures k in ValuesMap(t) <==> HasKey(t, k) {
      ValuesMapHasKey(t, k);
    }
  }

  /** In a table whose keys are distinct and whose sliders are in range, each slider's copied value is a number in range. */
  lemma SliderAt(t: ParamTable, j: nat)
    requires InRange(t) && Distinct(t) && j < |t|
    ensures t[j].0 in ValuesMap(t)
    ensures t[j].1.kind.Slider? ==>
      ValuesMap(t)[t[j].0].Num? &&
      t[j].1.kind.min as real <= ValuesMap(t)[t[j].0].x <= t[j].1.kind.max as real
  {
    IndexOfAt(t, j, t[j].0);
    ValuesMapGet(t, t[j].0);
    assert SliderInRange(t[j].1);
  }

  /** The parameter `key` holds a number in [lo, hi]. */
  predicate Between(p: map<string, Value>, key: string, lo: real, hi: real) {
    key in p && p[key].Num? && lo <= p[key].x <= hi
  }

  lemma ScaledRangesPart1(t: ParamTable)
    requires SameShape(DefaultAircraftParams, t) && InRange(t) && Distinct(t)
    ensures Between(ValuesMap(t), "vne_override", 0.0, 400.0)
    ensures Between(ValuesMap(t), "aileron_expo", -100.0, 100.0)
    ensures Between(ValuesMap(t), "elevator_expo", -100.0, 100.0)
  {
    var d := DefaultAircraftParams;
    assert d[0].0 == "vne_override" && d[1].0 == "aileron_expo" && d[2].0 == "elevator_expo";
    assert d[0].1.kind == Slider(0, 400) && d[1].1.kind == Slider(-100, 100) && d[2].1.kind == Slider(-100, 100);
    SliderAt(t, 0);
    SliderAt(t, 1);
    SliderAt(t, 2);
  }

  lemma ScaledRangesPart2(t: ParamTable)
    requires SameShape(DefaultAircraftParams, t) && InRange(t) && Distinct(t)
    ensures Between(ValuesMap(t), "stall_aoa_ratio", 0.0, 100.0)
    ensures Between(ValuesMap(t), "damper_coef", 0.0, 100.0)
    ensures Between(ValuesMap(t), "wind_max_intensity", 0.0, 50.0)
  {
    var d := DefaultAircraftParams;
    assert d[3].0 == "stall_aoa_ratio" && d[4].0 == "damper_coef" && d[9].0 == "wind_max_intensity";
    assert d[3].1.kind == Slider(0, 100) && d[4].1.kind == Slider(0, 100) && d[9].1.kind == Slider(0, 50);
    SliderAt(t, 3);
    SliderAt(t, 4);
    SliderAt(t, 9);
  }

  lemma ScaledRangesPart3(t: ParamTable)
    requires SameShape(DefaultAircraftParams, t) && InRange(t) && Distinct(t)
    ensures Between(ValuesMap(t), "stick_shaker_intensity", 0.0, 100.0)
    ensures Between(ValuesMap(t), "runway_rumble_intensity", 0.0, 100.0)
  {
    var d := DefaultAircraftParams;
    assert d[11].0 == "stick_shaker_intensity" && d[12].0 == "runway_rumble_intensity";
    assert d[11].1.kind == Slider(0, 100) && d[12].1.kind == Slider(0, 100);
    SliderAt(t, 11);
    SliderAt(t, 12);
  }

  lemma ScaledRangesPart4(t: ParamTable)
    requires SameShape(DefaultAircraftParams, t) && InRange(t) && Distinct(t)
    ensures Between(ValuesMap(t), "max_aileron_coeff", 0.0, 100.0)
    ensures Between(ValuesMap(t), "max_elevator_coeff", 0.0, 100.0)
    ensures Between(ValuesMap(t), "prop_diameter", 1.0, 500.0)
  {
    var d := DefaultAircraftParams;
    assert d[24].0 == "max_aileron_coeff" && d[25].0 == "max_elevator_coeff" && d[26].0 == "prop_diameter";
    assert d[24].1.kind == Slider(0, 100) && d[25].1.kind == Slider(0, 100) && d[26].1.kind == Slider(1, 500);
    SliderAt(t, 24);
    SliderAt(t, 25);
    SliderAt(t, 26);
  }

  /**
   * The ranges the scaled parameters keep: the prop diameter is positive (so the prop-wash
   * branch is the one taken), the expo factors lie in [-1, 1], the stall ratio, coefficient
   * caps and intensities in [0, 1].
   */
  predicate ScaledInRange(s: Scaled) {
    && 0.01 <= s.propDiameter <= 5.0
    && -1.0 <= s.aileronExpo <= 1.0 && -1.0 <= s.elevatorExpo <= 1.0
    && 0.0 <= s.stallAoaRatio <= 1.0 && 0.0 <= s.damperCoef <= 100.0
    && 0.0 <= s.maxAileronCoeff <= 1.0 && 0.0 <= s.maxElevatorCoeff <= 1.0
    && 0.0 <= s.windMaxIntensity <= 0.5 && 0.0 <= s.stickShakerIntensity <= 1.0
    && 0.0 <= s.runwayRumbleIntensity <= 1.0 && 0.0 <= s.vneOverride <= 400.0
  }

  /** The scaled fields whose parameters hold numbers in the sliders' ranges. */
  lemma ScaledOfRanges(p: map<string, Value>)
    requires HasScaledKeys(p)
    requires Between(p, "vne_override", 0.0, 400.0)
    requires Between(p, "aileron_expo", -100.0, 100.0) && Between(p, "elevator_expo", -100.0, 100.0)
    requires Between(p, "stall_aoa_ratio", 0.0, 100.0) && Between(p, "damper_coef", 0.0, 100.0)
    requires Between(p, "wind_max_intensity", 0.0, 50.0)
    requires Between(p, "stick_shaker_intensity", 0.0, 100.0) && Between(p, "runway_rumble_intensity", 0.0, 100.0)
    requires Between(p, "max_aileron_coeff", 0.0, 100.0) && Between(p, "max_elevator_coeff", 0.0, 100.0)
    requires Between(p, "prop_diameter", 1.0, 500.0)
    ensures ScaledInRange(ScaledOf(p))
  {
  }

  /** The scaled parameters of any table of the built-in shape whose sliders are in range. */
  lemma ScaledRanges(t: ParamTable)
    requires SameShape(DefaultAircraftParams, t) && InRange(t)
    ensures HasScaledKeys(ValuesMap(t))
    ensures ScaledInRange(ScaledOf(ValuesMap(t)))
  {
    DefaultShapeHasScaledKeys(t);
    DefaultParamsDistinct();
    SameShapeKeys(DefaultAircraftParams, t);
    ScaledRangesPart1(t);
    ScaledRangesPart2(t);
    ScaledRangesPart3(t);
    ScaledRangesPart4(t);
    ScaledOfRanges(ValuesMap(t));
  }

  // ---------------------------------------------------------------- autopilot and offsets

  /**
   * `ap_active`: on MSFS the autopilot master or the PMDG override, on X-Plane the servo flag
   * (Python's `or` is truthy exactly when one operand is).
   */
  predicate ApActive(t: Telemetry, s: Scaled) {
    if IsMsfs(t) then IsSet(t, "APMaster") || s.pmdgApOn else IsSet(t, "APServos")
  }

  datatype Offsets = Offsets(x: real, y: real)

  /**
   * What `_calculate_spring_offsets` needs to return: on the MSFS autopilot path the trim
   * variables are bound only under trim following, and `AileronDeflPctLR` is indexed.
   */
  predicate OffsetsDefined(t: Telemetry, s: Scaled) {
    && Numbers(t)
    && (ApActive(t, s) && s.apFollowing && IsMsfs(t) ==> (s.apTrimOnly ==> s.trimFollowing) && AileronPairOk(t))
  }

  /**
   * `_calculate_spring_offsets`: the physical spring centre (first) and the virtual offset
   * subtracted from the axes sent to the simulator (second). Trim following moves both by
   * the trim percentages; an engaged autopilot with AP following takes over the physical
   * centre and zeroes the virtual offset.
   */
  function SpringOffsets(t: Telemetry, s: Scaled): (r: (Offsets, Offsets))
    requires OffsetsDefined(t, s)
    ensures -1.0 <= r.0.x <= 1.0 && -1.0 <= r.0.y <= 1.0
    ensures !s.trimFollowing && !(ApActive(t, s) && s.apFollowing) ==> r == (Offsets(0.0, 0.0), Offsets(0.0, 0.0))
    ensures ApActive(t, s) && s.apFollowing ==> r.1 == Offsets(0.0, 0.0)
    ensures ApActive(t, s) && s.apFollowing && !IsMsfs(t) ==> r.0.y == Clamp(Real(t, "APPitchServo", 0.0), -1.0, 1.0)
  {
    var elevTrim := Real(t, "ElevTrimPct", 0.0);
    var aileronTrim := Real(t, "AileronTrimPct", 0.0);
    var trimPhys :=
      if s.trimFollowing then Offsets(Clamp(aileronTrim * s.trimGainPhysicalX, -1.0, 1.0), Clamp(elevTrim * s.trimGainPhysicalY, -1.0, 1.0))
      else Offsets(0.0, 0.0);
    var trimVirtual :=
      if s.trimFollowing then Offsets(aileronTrim * s.trimGainVirtualX, -elevTrim * s.trimGainVirtualY)
      else Offsets(0.0, 0.0);
    if !(ApActive(t, s) && s.apFollowing) then (trimPhys, trimVirtual)
    else if IsMsfs(t) then
      var y :=
        if s.apTrimOnly then Clamp(elevTrim * s.trimGainPhysicalY, -1.0, 1.0)
        else Clamp(Real(t, "ElevDeflPct", 0.0) * s.apGainPhysicalY, -1.0, 1.0);
      var lr := t["AileronDeflPctLR"].xs;
      (Offsets(Clamp((lr[0] + lr[1]) / 2.0 * s.apGainPhysicalX, -1.0, 1.0), y), Offsets(0.0, 0.0))
    else
      (Offsets(trimPhys.x, Clamp(Real(t, "APPitchServo", 0.0), -1.0, 1.0)), Offsets(0.0, 0.0))
  }

  // ---------------------------------------------------------------- axes sent to the simulator

  /** `joystick_axes.get(key, 0)`. */
  function Axis(axes: map<string, real>, key: string): real {
    if key in axes then axes[key] else 0.0
  }

  /** `self.params.get('send_stick_position', {}).get('value', True)`. */
  predicate SendStickPosition(params: ParamTable) {
    HasKey(params, "send_stick_position") ==> Truthy(ValueOf(params, "send_stick_position"))
  }

  /** The pilot holds the stick within 0.3 of the autopilot's spring centre on both axes. */
  predicate HandsOff(axes: map<string, real>, phys: Offsets) {
    Abs(phys.x - Axis(axes, "jx")) < 0.3 && Abs(phys.y - Axis(axes, "jy")) < 0.3
  }

  /**
   * `_calculate_final_sim_axes`: nothing when stick forwarding is off; zero deflection while
   * the autopilot flies and the pilot stays near its spring centre; otherwise the stick minus
   * the virtual offset, with X negated, Y inverted, and the pedals passed through.
   */
  function FinalSimAxes(send: bool, axes: map<string, real>, virtual: Offsets, phys: Offsets, apActive: bool): (r: Option<Dict<string, real>>)
    ensures r.None? <==> !send
    ensures r.Some? ==> |r.value| == 3 && r.value[0].0 == "jx" && r.value[1].0 == "jy" && r.value[2] == ("px", Axis(axes, "px"))
    ensures r.Some? && apActive && HandsOff(axes, phys) ==> r.value[0].1 == 0.0 && r.value[1].1 == 0.0
    ensures r.Some? && !(apActive && HandsOff(axes, phys)) ==>
      r.value[0].1 == virtual.x - Axis(axes, "jx") && r.value[1].1 == -Axis(axes, "jy") - virtual.y
  {
    if !send then None
    else
      var physX := Axis(axes, "jx");
      var physY := -Axis(axes, "jy");
      var sim :=
        if apActive && HandsOff(axes, phys) then (0.0, 0.0)
        else (-(physX - virtual.x), physY - virtual.y);
      Some([("jx", sim.0), ("jy", sim.1), ("px", Axis(axes, "px"))])
  }

  // ---------------------------------------------------------------- aerodynamic springs

  /** What `_calculate_aero_spring_forces` divides by or unpacks. */
  predicate AeroDefined(t: Telemetry, s: Scaled) {
    && Numbers(t) && PropThrustOk(t)
    && s.propDiameter > 0.0
    && Real(t, "AirDensity", StdAirDensity) > 0.0
    && (IsMsfs(t) ==> DesignSpeedOk(t))
  }

  /** The propeller thrust in pounds-force: the largest engine's when a list is reported. */
  function PropThrust(t: Telemetry): real
    requires PropThrustOk(t)
  {
    if "PropThrust" in t && t["PropThrust"].List? then MaxOf(t["PropThrust"].xs)
    else if "PropThrust" in t then t["PropThrust"].x
    else 0.0
  }

  /**
   * The never-exceed speed: X-Plane reports it; for MSFS it is derived from the design
   * cruise speed (`DesignSpeed[0] * 1.4`) through the compressible-flow relation; a positive
   * Vne override (knots) replaces both.
   */
  function Vne(tr: Transcendentals, t: Telemetry, s: Scaled): (v: real)
    requires Facts(tr) && Numbers(t) && (IsMsfs(t) ==> DesignSpeedOk(t))
    ensures s.vneOverride > 0.0 ==> v * MsToKt == s.vneOverride
  {
    if s.vneOverride > 0.0 then s.vneOverride / MsToKt
    else if !IsMsfs(t) then Real(t, "Vne", 250.0 * MsToKt)
    else
      var vc := if "DesignSpeed" in t then t["DesignSpeed"].xs[0] else 150.0 * MsToKt;
      var tvne := vc * 1.4;
      var qv := 0.5 * StdAirDensity * (tvne * tvne);
      var kmNs := tr.pow(qv / P0Isa + 1.0, 2.0 / 7.0);
      VsoundIsa * tr.sqrt(5.0 * (kmNs - 1.0))
  }

  /**
   * The dynamic pressure `0.5 * rho * v**2`: never negative for a non-negative density,
   * positive for a positive density and a non-zero speed.
   */
  function DynamicPressure(rho: real, v: real): (q: real)
    requires rho >= 0.0
    ensures q >= 0.0
    ensures rho > 0.0 && v != 0.0 ==> q > 0.0
    ensures rho == 0.0 || v == 0.0 ==> q == 0.0
  {
    if v > 0.0 && rho > 0.0 then
      MulPos(0.5 * rho, v); MulPos(0.5 * rho * v, v); 0.5 * rho * v * v
    else if v < 0.0 && rho > 0.0 then
      MulPosNeg(0.5 * rho, v); MulPos(0.5 * rho * v, v); 0.5 * rho * v * v
    else 0.5 * rho * v * v
  }

  /** `1 / Qvne`, the reciprocal of the dynamic pressure at Vne, or 0 when that is not positive. */
  function QGain(vne: real): (g: real)
    ensures g >= 0.0
    ensures vne != 0.0 ==> g * DynamicPressure(StdAirDensity, vne) == 1.0
    ensures vne == 0.0 ==> g == 0.0
  {
    var qvne := DynamicPressure(StdAirDensity, vne);
    if qvne > 0.0 then 1.0 / qvne else 0.0
  }

  /** The area of the propeller disc, `pi * r**2`. */
  function DiscArea(pi: real, r: real): (a: real)
    requires pi > 0.0 && r > 0.0
    ensures a > 0.0
  {
    MulPos(pi, r); MulPos(pi * r, r);
    pi * r * r
  }

  /** The stall threshold `StallAoA * stall_aoa_ratio` (0 when the simulator reports none). */
  function StallAoa(t: Telemetry, s: Scaled): real
    requires Numbers(t)
  {
    Real(t, "StallAoA", 0.0) * s.stallAoaRatio
  }

  /** The wing is past the stall threshold while airborne. */
  predicate Stalled(t: Telemetry, s: Scaled)
    requires Numbers(t)
  {
    Real(t, "AoA", 0.0) > StallAoa(t, s) && !IsSet(t, "SimOnGround")
  }

  /** The values `_calculate_aero_spring_forces` returns as springs and as debug data. */
  datatype Aero = Aero(
    aileronCoeff: real, elevatorCoeff: real,
    elevDynPressure: real, aileronDynPressure: real,
    mixingFactor: real, propAirVel: real, damperAileron: real)

  /**
   * The prop wash: the air speed the propeller adds behind the disc (momentum theory), and
   * how much of it reaches the elevator, fading with AoA away from 3 degrees and with sideslip.
   */
  function PropWash(tr: Transcendentals, t: Telemetry, s: Scaled): (w: (real, real))
    requires Facts(tr) && AeroDefined(t, s)
    ensures w.1 > 0.0
  {
    var ias := Real(t, "IAS", 0.0);
    var rho := Real(t, "AirDensity", StdAirDensity);
    var thrust := PropThrust(t) * LbfToN;
    var radius := s.propDiameter / 2.0;
    var area := DiscArea(tr.pi, radius);
    MulPos(rho, area);
    var airVel := tr.sqrt(2.0 * Max(0.0, thrust) / (rho * area) + ias * ias) - ias;
    var sideslip := Real(t, "SideSlip", 0.0) / 10.0;
    var mixing := tr.exp(-Abs(Real(t, "AoA", 0.0) - 3.0) / 8.6) * tr.exp(-(sideslip * sideslip));
    MulPos(tr.exp(-Abs(Real(t, "AoA", 0.0) - 3.0) / 8.6), tr.exp(-(sideslip * sideslip)));
    (airVel, mixing)
  }

  /**
   * The spring coefficients before the stall branch: dynamic pressure over the pressure at
   * Vne, bent by the expo curves and scaled into [0, max coefficient].
   */
  function BaseCoeffs(tr: Transcendentals, t: Telemetry, s: Scaled, elevDynPressure: real): (c: (real, real))
    requires Facts(tr) && AeroDefined(t, s)
    ensures s.maxAileronCoeff >= 0.0 ==> 0.0 <= c.0 <= s.maxAileronCoeff
    ensures s.maxElevatorCoeff >= 0.0 ==> 0.0 <= c.1 <= s.maxElevatorCoeff
  {
    var gain := QGain(Vne(tr, t, s));
    var aileron := Expocurve(tr, Real(t, "DynPressure", 0.0) * gain, s.aileronExpo);
    var elevator := Expocurve(tr, elevDynPressure * gain, s.elevatorExpo);
    (ScaleClamp(aileron, 0.0, 1.0, 0.0, s.maxAileronCoeff), ScaleClamp(elevator, 0.0, 1.0, 0.0, s.maxElevatorCoeff))
  }

  /** The elevator sees the dynamic pressure plus the prop wash's share of it. */
  function ElevDynPressure(tr: Transcendentals, t: Telemetry, s: Scaled): (q: real)
    requires Facts(tr) && AeroDefined(t, s)
    ensures q >= Real(t, "DynPressure", 0.0)
  {
    var w := PropWash(tr, t, s);
    var rho := Real(t, "AirDensity", StdAirDensity);
    var wash := DynamicPressure(rho, w.0);
    MulLe(0.0, wash, w.1);
    Real(t, "DynPressure", 0.0) + wash * w.1
  }

  /**
   * `_calculate_aero_spring_forces`. Past the stall threshold while airborne, the aileron
   * spring fades exponentially (kept in [0, 1]) and the elevator spring may weaken, but not
   * below a fifth of its pre-stall value, and never exceeds 1.
   */
  function AeroSprings(tr: Transcendentals, t: Telemetry, s: Scaled): (a: Aero)
    requires Facts(tr) && AeroDefined(t, s)
    ensures a.elevDynPressure >= a.aileronDynPressure == Real(t, "DynPressure", 0.0)
    ensures !Stalled(t, s) ==> (a.aileronCoeff, a.elevatorCoeff) == BaseCoeffs(tr, t, s, a.elevDynPressure)
    ensures !Stalled(t, s) ==> a.damperAileron == 0.0
    ensures Stalled(t, s) ==> 0.0 <= a.aileronCoeff <= 1.0 && a.damperAileron > 0.0
    ensures Stalled(t, s) && BaseCoeffs(tr, t, s, a.elevDynPressure).1 * 0.2 <= 1.0 ==>
      BaseCoeffs(tr, t, s, a.elevDynPressure).1 * 0.2 <= a.elevatorCoeff <= 1.0
  {
    var w := PropWash(tr, t, s);
    var elevDyn := ElevDynPressure(tr, t, s);
    var c := BaseCoeffs(tr, t, s, elevDyn);
    var stall := StallAoa(t, s);
    var aoa := Real(t, "AoA", 0.0);
    if Stalled(t, s) then
      var aileron := Clamp(c.0 * tr.exp(-(aoa - stall) / 5.0), 0.0, 1.0);
      var elevator := Clamp(c.1 * (2.0 - tr.exp((aoa - stall) / 6.0)), c.1 * 0.2, 1.0);
      Aero(aileron, elevator, elevDyn, Real(t, "DynPressure", 0.0), w.1, w.0, (aoa - stall) / 10.0)
    else
      Aero(c.0, c.1, elevDyn, Real(t, "DynPressure", 0.0), w.1, w.0, 0.0)
  }

  /** With the coefficient caps of in-range parameters, both spring coefficients lie in [0, 1]. */
  lemma SpringCoefficientsBounded(tr: Transcendentals, t: Telemetry, s: Scaled)
    requires Facts(tr) && AeroDefined(t, s)
    requires 0.0 <= s.maxAileronCoeff <= 1.0 && 0.0 <= s.maxElevatorCoeff <= 1.0
    ensures 0.0 <= AeroSprings(tr, t, s).aileronCoeff <= 1.0
    ensures 0.0 <= AeroSprings(tr, t, s).elevatorCoeff <= 1.0
  {
    var a := AeroSprings(tr, t, s);
    var c := BaseCoeffs(tr, t, s, a.elevDynPressure);
    if Stalled(t, s) {
      assert 0.0 <= c.1 * 0.2;
    }
  }

  // ---------------------------------------------------------------- time derivatives

  /**
   * `_calculate_time_derivative` on the history of previous values: the derivative and the
   * new history. A non-positive `dt` yields 0 and stores nothing; the first sighting of a
   * variable yields 0; otherwise the difference quotient. The current value is stored.
   */
  function DerivativeStep(history: map<string, real>, name: string, current: real, dt: real): (r: (real, map<string, real>))
    ensures dt <= 0.0 ==> r == (0.0, history)
    ensures dt > 0.0 ==> r.1 == history[name := current]
    ensures dt > 0.0 && name !in history ==> r.0 == 0.0
    ensures dt > 0.0 && name in history ==> r.0 * dt == current - history[name]
  {
    if dt <= 0.0 then (0.0, history)
    else if name in history then ((current - history[name]) / dt, history[name := current])
    else (0.0, history[name := current])
  }

  /** A signal that holds still has derivative 0 from its second sighting on. */
  lemma SteadySignal(history: map<string, real>, name: string, v: real, dt1: real, dt2: real)
    requires dt1 > 0.0 && dt2 > 0.0
    ensures var h := DerivativeStep(history, name, v, dt1).1;
      DerivativeStep(h, name, v, dt2) == (0.0, h)
  {
    var h := DerivativeStep(history, name, v, dt1).1;
    assert name in h && h[name] == v;
    assert (v - h[name]) / dt2 == 0.0;
    assert h[name := v] == h;
  }

  /** The three wind derivatives in the order the frame takes them (X, then Z, then Y). */
  function WindDerivatives(history: map<string, real>, t: Telemetry, dt: real): (r: (real, real, real, map<string, real>))
    requires Numbers(t)
    ensures dt <= 0.0 ==> r == (0.0, 0.0, 0.0, history)
    ensures dt > 0.0 ==> r.3 == history["WindX" := Real(t, "WindX", 0.0)]["WindZ" := Real(t, "WindZ", 0.0)]["WindY" := Real(t, "WindY", 0.0)]
  {
    var x := DerivativeStep(history, "WindX", Real(t, "WindX", 0.0), dt);
    var z := DerivativeStep(x.1, "WindZ", Real(t, "WindZ", 0.0), dt);
    var y := DerivativeStep(z.1, "WindY", Real(t, "WindY", 0.0), dt);
    (x.0, y.0, z.0, y.1)
  }

  // ---------------------------------------------------------------- constant force

  /**
   * The horizontal wind change rotated into the aircraft's frame: the heading (radians) goes
   * to degrees and back, as in the source.
   */
  function WindOnAircraft(tr: Transcendentals, dx: real, dz: real, heading: real): (w: (real, real))
    requires Facts(tr)
    ensures dx == 0.0 && dz == 0.0 ==> w == (0.0, 0.0)
  {
    var angle := heading * RadToDeg(tr);
    var c := tr.cos(angle * DegToRad(tr));
    var sn := tr.sin(angle * DegToRad(tr));
    (dx * c - dz * sn, dz * c + dx * sn)
  }

  /** A filtered wind derivative times its gain, clamped to the wind intensity limit. */
  function WindTerm(filtered: real, gain: real, maxIntensity: real): (w: real)
    ensures maxIntensity >= 0.0 ==> -maxIntensity <= w <= maxIntensity
    ensures -maxIntensity <= filtered * gain <= maxIntensity ==> w == filtered * gain
    ensures filtered == 0.0 && maxIntensity >= 0.0 ==> w == 0.0
  {
    Clamp(filtered * gain, -maxIntensity, maxIntensity)
  }

  /** The droop term divides by `1 + DynPressure`. */
  predicate ConstantDefined(t: Telemetry) {
    Numbers(t) && Real(t, "DynPressure", 0.0) != -1.0
  }

  /** The load-factor term and the elevator droop term of the pitch force. */
  function LoadTerms(t: Telemetry, s: Scaled): (l: (real, real))
    requires ConstantDefined(t)
  {
    var g := Real(t, "G", 1.0);
    (s.gForceGain * (g - 1.0), s.elevatorDroopMoment * g / (1.0 + Real(t, "DynPressure", 0.0)))
  }

  datatype ConstantForce = ConstantForce(magnitude: real, direction: real, roll: real, pitch: real)

  /**
   * `_calculate_constant_forces` after the derivative filters: the pitch force opposes load
   * factor, droop and vertical wind change, the roll force the lateral wind change; each is
   * clamped to [-1, 1], then turned into a polar force whose magnitude is 0 while the
   * autopilot flies.
   */
  function ConstantForceOf(tr: Transcendentals, t: Telemetry, s: Scaled, filteredX: real, filteredY: real, apActive: bool): (f: ConstantForce)
    requires Facts(tr) && ConstantDefined(t)
    ensures -1.0 <= f.roll <= 1.0 && -1.0 <= f.pitch <= 1.0
    ensures apActive ==> f.magnitude == 0.0
    ensures !apActive ==> f.magnitude == Magnitude(tr, f.roll, f.pitch) && f.magnitude >= 0.0
    ensures f.direction == tr.atan2(f.pitch, f.roll) * RadToDeg(tr)
  {
    var l := LoadTerms(t, s);
    var windX := WindTerm(filteredX, s.windGainX, s.windMaxIntensity);
    var windY := WindTerm(filteredY, s.windGainY, s.windMaxIntensity);
    var pitch := Clamp(-l.1 - l.0 + 0.0 - windY, -1.0, 1.0);
    var roll := Clamp(0.0 - windX, -1.0, 1.0);
    var polar := ToPolar(tr, roll, pitch);
    ConstantForce(if apActive then 0.0 else polar.0, polar.1 * RadToDeg(tr), roll, pitch)
  }

  /**
   * With a wind limit of at most 1 (the slider's range gives at most 0.5), the roll clamp
   * never bites: the roll force is exactly the negated lateral wind term.
   */
  lemma RollIsWindTerm(tr: Transcendentals, t: Telemetry, s: Scaled, filteredX: real, filteredY: real, apActive: bool)
    requires Facts(tr) && ConstantDefined(t)
    requires 0.0 <= s.windMaxIntensity <= 1.0
    ensures ConstantForceOf(tr, t, s, filteredX, filteredY, apActive).roll == -WindTerm(filteredX, s.windGainX, s.windMaxIntensity)
  {
  }

  /**
   * In still air, at 1 g with no droop moment, there is no constant force at all.
   */
  lemma CalmLevelFlight(tr: Transcendentals, t: Telemetry, s: Scaled, apActive: bool)
    requires Facts(tr) && ConstantDefined(t)
    requires Real(t, "G", 1.0) == 1.0 && s.elevatorDroopMoment == 0.0 && s.windMaxIntensity >= 0.0
    ensures var f := ConstantForceOf(tr, t, s, 0.0, 0.0, apActive);
      f.roll == 0.0 && f.pitch == 0.0 && f.magnitude == 0.0
  {
    var g := Real(t, "G", 1.0);
    assert g - 1.0 == 0.0;
    assert s.gForceGain * (g - 1.0) == 0.0;
    var q := 1.0 + Real(t, "DynPressure", 0.0);
    assert s.elevatorDroopMoment * g == 0.0;
    assert s.elevatorDroopMoment * g / q == 0.0 / q;
    assert LoadTerms(t, s) == (0.0, 0.0);
    assert WindTerm(0.0, s.windGainX, s.windMaxIntensity) == 0.0;
    assert WindTerm(0.0, s.windGainY, s.windMaxIntensity) == 0.0;
  }

  /**
   * Under positive load (G >= 1) in still air, with non-negative gains and dynamic pressure,
   * the pitch force never pulls the stick aft: load and droop push it forward.
   */
  lemma PitchForwardUnderLoad(tr: Transcendentals, t: Telemetry, s: Scaled, apActive: bool)
    requires Facts(tr) && ConstantDefined(t)
    requires Real(t, "G", 1.0) >= 1.0 && Real(t, "DynPressure", 0.0) >= 0.0
    requires s.gForceGain >= 0.0 && s.elevatorDroopMoment >= 0.0 && s.windMaxIntensity >= 0.0
    ensures ConstantForceOf(tr, t, s, 0.0, 0.0, apActive).pitch <= 0.0
  {
    var g := Real(t, "G", 1.0);
    var q := 1.0 + Real(t, "DynPressure", 0.0);
    MulLe(0.0, s.gForceGain, g - 1.0);
    MulLe(0.0, s.elevatorDroopMoment, g);
    DivLe(0.0, s.elevatorDroopMoment * g, q);
    var l := LoadTerms(t, s);
    assert l.0 >= 0.0 && l.1 >= 0.0;
  }

  // ---------------------------------------------------------------- vibration effects

  /**
   * The stick-shaker magnitude as the source computes it,
   * `(1 - |aoa - 1.2 stall| / (0.3 stall)) * intensity`: `None` where Python raises
   * `ZeroDivisionError`, which is whenever the stall threshold is 0.
   */
  function ShakerAsWritten(t: Telemetry, s: Scaled): (m: Option<real>)
    requires Numbers(t)
    ensures m.None? <==> StallAoa(t, s) == 0.0
  {
    var stall := StallAoa(t, s);
    if stall * 0.3 == 0.0 then None
    else Some((1.0 - Abs(Real(t, "AoA", 0.0) - stall * 1.2) / (stall * 0.3)) * s.stickShakerIntensity)
  }

  /**
   * The X-Plane plugin reports `WarnAlpha` but no `StallAoA`, so the threshold is 0 and any
   * positive angle of attack in flight takes the stall branch into the division by zero.
   */
  lemma ShakerDividesByZeroOnXPlane(s: Scaled)
    ensures var t := map["src" := Text("XPLANE"), "AoA" := Number(5.0), "SimOnGround" := Number(0.0)];
      Numbers(t) && Stalled(t, s) && ShakerAsWritten(t, s).None?
  {
    var t := map["src" := Text("XPLANE"), "AoA" := Number(5.0), "SimOnGround" := Number(0.0)];
    assert "StallAoA" !in t;
    assert StallAoa(t, s) == 0.0 * s.stallAoaRatio;
  }

  /**
   * The stick-shaker magnitude with the division guarded: no shaker band (magnitude 0) when
   * the stall threshold is 0, the source's value otherwise.
   */
  function Shaker(t: Telemetry, s: Scaled): (m: real)
    requires Numbers(t)
    ensures StallAoa(t, s) != 0.0 ==> ShakerAsWritten(t, s) == Some(m)
    ensures StallAoa(t, s) == 0.0 ==> m == 0.0
  {
    match ShakerAsWritten(t, s)
    case Some(m) => m
    case None => 0.0
  }

  /** The shaker peaks, at full intensity, at 1.2 times the stall threshold. */
  lemma ShakerPeak(t: Telemetry, s: Scaled)
    requires Numbers(t) && StallAoa(t, s) != 0.0 && Real(t, "AoA", 0.0) == StallAoa(t, s) * 1.2
    ensures Shaker(t, s) == s.stickShakerIntensity
  {
    var d := StallAoa(t, s) * 0.3;
    assert Abs(Real(t, "AoA", 0.0) - StallAoa(t, s) * 1.2) == 0.0;
    assert 0.0 / d == 0.0;
  }

  /** Above a positive threshold the shaker never exceeds its intensity. */
  lemma ShakerAtMostIntensity(t: Telemetry, s: Scaled)
    requires Numbers(t) && StallAoa(t, s) > 0.0 && s.stickShakerIntensity >= 0.0
    ensures Shaker(t, s) <= s.stickShakerIntensity
  {
    var stall := StallAoa(t, s);
    var d := stall * 0.3;
    var a := Abs(Real(t, "AoA", 0.0) - stall * 1.2);
    DivLe(0.0, a, d);
    assert 0.0 / d == 0.0;
    MulLe(1.0 - a / d, 1.0, s.stickShakerIntensity);
  }

  /**
   * With a positive threshold and intensity, the shaker pushes (positive magnitude) exactly
   * within 0.3 thresholds of its peak.
   */
  lemma ShakerBand(t: Telemetry, s: Scaled)
    requires Numbers(t) && StallAoa(t, s) > 0.0 && s.stickShakerIntensity > 0.0
    ensures Shaker(t, s) > 0.0 <==> Abs(Real(t, "AoA", 0.0) - StallAoa(t, s) * 1.2) < StallAoa(t, s) * 0.3
  {
    var stall := StallAoa(t, s);
    var i := s.stickShakerIntensity;
    var d := stall * 0.3;
    var a := Abs(Real(t, "AoA", 0.0) - stall * 1.2);
    var q := a / d;
    MulPos(stall, 0.3);
    assert d > 0.0;
    assert ShakerAsWritten(t, s).value == (1.0 - q) * i;
    var m := Shaker(t, s);
    assert m == (1.0 - q) * i;
    DivBelowOne(a, d);
    if a < d {
      assert 1.0 - q > 0.0;
      MulPos(1.0 - q, i);
      assert m > 0.0;
    } else {
      assert 1.0 - q <= 0.0;
      MulLe(1.0 - q, 0.0, i);
      assert 0.0 * i == 0.0;
      assert m <= 0.0;
    }
  }

  /**
   * The damper's X coefficient: the base damping plus, in a stall, a share growing with the
   * AoA past the threshold; always within [0, 0.8].
   */
  function DamperX(tr: Transcendentals, t: Telemetry, s: Scaled): (c: real)
    requires Facts(tr) && Numbers(t)
    ensures 0.0 <= c <= 0.8
    ensures !Stalled(t, s) && 0.0 <= s.damperCoef <= 80.0 ==> c == s.damperCoef / 100.0
  {
    var stallDamping :=
      if Stalled(t, s) then Expocurve(tr, (Real(t, "AoA", 0.0) - StallAoa(t, s)) / 6.0, 0.4) * 0.5 else 0.0;
    Clamp(stallDamping + s.damperCoef / 100.0, 0.0, 0.8)
  }

  /** The ground speed in knots. */
  function GroundKnots(t: Telemetry): real
    requires Numbers(t)
  {
    Real(t, "GroundSpeed", 0.0) * MsToKt
  }

  /**
   * The runway rumble's magnitude and frequency, both scaled from 5..80 kt: the frequency
   * always lies in [15, 60] Hz, the magnitude between 0.1 and the rumble intensity; an
   * intensity below 0.1 (the slider at 0) still rumbles at 0.1.
   */
  function Rumble(t: Telemetry, s: Scaled): (r: (real, real))
    requires Numbers(t)
    ensures 15.0 <= r.1 <= 60.0
    ensures s.runwayRumbleIntensity >= 0.1 ==> 0.1 <= r.0 <= s.runwayRumbleIntensity
    ensures s.runwayRumbleIntensity < 0.1 ==> r.0 == 0.1
    ensures GroundKnots(t) == 80.0 ==> r == (s.runwayRumbleIntensity, 60.0) || s.runwayRumbleIntensity < 0.1
  {
    var k := GroundKnots(t);
    (ScaleClamp(k, 5.0, 80.0, 0.1, s.runwayRumbleIntensity), ScaleClamp(k, 5.0, 80.0, 15.0, 60.0))
  }

  /** A periodic (sine) effect's property dictionary. */
  function Periodic(frequency: real, magnitude: real, direction: real): (p: E.Props)
    ensures E.NumericProps(p)
  {
    map["type" := E.Text("periodic"), "waveform" := E.Text("sine"), "frequency" := E.Num(frequency),
        "magnitude" := E.Num(magnitude), "direction" := E.Num(direction)]
  }

  /** A condition effect's property dictionary. */
  function Coefs(x: real, y: real): (p: E.Props)
    ensures E.NumericProps(p)
  {
    map["coef_x" := E.Num(x), "coef_y" := E.Num(y)]
  }

  predicate AllNumeric(e: E.Effects) {
    forall i :: 0 <= i < |e| ==> E.NumericProps(e[i].1)
  }

  /** `if c: effects[k] = v`. */
  function PutIf(c: bool, d: E.Effects, k: string, v: E.Props): (r: E.Effects)
    ensures forall q :: HasKey(r, q) <==> HasKey(d, q) || (c && q == k)
    ensures Distinct(d) ==> Distinct(r)
    ensures AllNumeric(d) && E.NumericProps(v) ==> AllNumeric(r)
    ensures !c ==> r == d
  {
    if c then
      forall q ensures HasKey(Put(d, k, v), q) <==> HasKey(d, q) || q == k {
        PutHasKey(d, k, v, q);
      }
      assert Distinct(d) ==> Distinct(Put(d, k, v)) by {
        if Distinct(d) { PutDistinct(d, k, v); }
      }
      Put(d, k, v)
    else d
  }

  /** The names of the conditional vibration effects. */
  const HeadNames: set<string> :=
    {"stick_shaker_1", "stick_shaker_2", "runway_rumble_1", "runway_rumble_2", "test1", "test2"}

  /** The conditional part of `_calculate_vibration_effects`: shakers, rumbles and test vibrations. */
  function VibrationHead(t: Telemetry, s: Scaled): (e: E.Effects)
    requires Numbers(t)
    ensures Distinct(e) && AllNumeric(e)
    ensures forall q :: HasKey(e, q) ==> q in HeadNames
  {
    var stalled := Stalled(t, s);
    var ground := IsSet(t, "SimOnGround");
    var rumble := Rumble(t, s);
    var e1 := PutIf(stalled, [], "stick_shaker_1", Periodic(13.0, Shaker(t, s), 0.0));
    var e2 := PutIf(stalled, e1, "stick_shaker_2", Periodic(18.0, Shaker(t, s), 90.0));
    var e3 := PutIf(ground && GroundKnots(t) > 5.0, e2, "runway_rumble_1", Periodic(rumble.1, rumble.0, 90.0));
    var e4 := PutIf(ground && GroundKnots(t) > 20.0, e3, "runway_rumble_2", Periodic(rumble.1, rumble.0, 180.0));
    var e5 := PutIf(s.test1, e4, "test1", Periodic(15.0, 0.4, 0.0));
    var e := PutIf(s.test2, e5, "test2", Periodic(10.0, 0.7, 90.0));
    assert forall q :: HasKey(e, q) ==> q in HeadNames by {
      forall q | HasKey(e, q) ensures q in HeadNames {
        assert q == "test2" || q == "test1" || q == "runway_rumble_2" || q == "runway_rumble_1"
            || q == "stick_shaker_2" || q == "stick_shaker_1";
      }
    }
    e
  }

  lemma VibrationHeadPresence(t: Telemetry, s: Scaled, q: string)
    requires Numbers(t)
    ensures HasKey(VibrationHead(t, s), q) <==>
      || (q in {"stick_shaker_1", "stick_shaker_2"} && Stalled(t, s))
      || (q == "runway_rumble_1" && IsSet(t, "SimOnGround") && GroundKnots(t) > 5.0)
      || (q == "runway_rumble_2" && IsSet(t, "SimOnGround") && GroundKnots(t) > 20.0)
      || (q == "test1" && s.test1)
      || (q == "test2" && s.test2)
  {
  }

  /** The damper, inertia and friction entries every frame ends with. */
  function ConditionTail(damperX: real, damperY: real): (e: E.Effects)
    ensures Distinct(e) && AllNumeric(e)
    ensures forall q :: HasKey(e, q) <==> q in {"damper", "inertia", "friction"}
  {
    var e := [("damper", Coefs(damperX, damperY)), ("inertia", Coefs(0.0, 0.0)), ("friction", Coefs(0.0, 0.0))];
    assert forall q :: HasKey(e, q) <==> q in {"damper", "inertia", "friction"} by {
      forall q ensures HasKey(e, q) <==> q in {"damper", "inertia", "friction"} {
        if q == "damper" { assert e[0].0 == q; }
        if q == "inertia" { assert e[1].0 == q; }
        if q == "friction" { assert e[2].0 == q; }
      }
    }
    e
  }

  /**
   * `{**a, **b}` for effect dictionaries without a common name: `b` appended to `a`, a
   * well-formed effects dictionary again.
   */
  function Merge(a: E.Effects, b: E.Effects): (r: E.Effects)
    requires Distinct(a) && Distinct(b) && AllNumeric(a) && AllNumeric(b)
    requires forall q :: HasKey(a, q) ==> !HasKey(b, q)
    ensures Distinct(r) && AllNumeric(r)
    ensures |r| == |a| + |b| && r[..|a|] == a && r[|a|..] == b
    ensures forall q :: HasKey(r, q) <==> HasKey(a, q) || HasKey(b, q)
  {
    ConcatDistinct(a, b);
    forall i | 0 <= i < |b| ensures !HasKey(a, b[i].0) {
      assert HasKey(b, b[i].0);
    }
    assert AllNumeric(a + b) by {
      forall i | 0 <= i < |a + b| ensures E.NumericProps((a + b)[i].1) {
        if i >= |a| { assert (a + b)[i] == b[i - |a|]; }
      }
    }
    forall q ensures HasKey(a + b, q) <==> HasKey(a, q) || HasKey(b, q) {
      HasKeyConcat(a, b, q);
    }
    a + b
  }

  /**
   * `_calculate_vibration_effects`: the conditional effects, then, always, the damper,
   * inertia and friction. Every name is assigned once, so each assignment appends.
   */
  function VibrationEffects(tr: Transcendentals, t: Telemetry, s: Scaled): (e: E.Effects)
    requires Facts(tr) && Numbers(t)
    ensures E.WellFormed(e) && AllNumeric(e)
    ensures |e| >= 3 && e[|e| - 3..] == ConditionTail(DamperX(tr, t, s), s.damperCoef / 100.0)
    ensures forall q :: HasKey(e, q) ==> q in HeadNames + {"damper", "inertia", "friction"}
  {
    var head := VibrationHead(t, s);
    var tail := ConditionTail(DamperX(tr, t, s), s.damperCoef / 100.0);
    HeadTailDisjoint(head, tail);
    Merge(head, tail)
  }

  /** No conditional vibration is named like a condition effect. */
  lemma HeadTailDisjoint(head: E.Effects, tail: E.Effects)
    requires forall q :: HasKey(head, q) ==> q in HeadNames
    requires forall q :: HasKey(tail, q) <==> q in {"damper", "inertia", "friction"}
    ensures forall q :: HasKey(head, q) ==> !HasKey(tail, q)
  {
  }

  /**
   * Which effects a frame's vibration dictionary holds: both stick shakers exactly in a stall
   * while airborne, the first runway rumble above 5 kt and the second above 20 kt on the
   * ground, the test vibrations exactly when their flags are set, and always the damper,
   * inertia and friction; nothing else.
   */
  lemma VibrationPresence(tr: Transcendentals, t: Telemetry, s: Scaled, q: string)
    requires Facts(tr) && Numbers(t)
    ensures HasKey(VibrationEffects(tr, t, s), q) <==>
      || (q in {"stick_shaker_1", "stick_shaker_2"} && Stalled(t, s))
      || (q == "runway_rumble_1" && IsSet(t, "SimOnGround") && GroundKnots(t) > 5.0)
      || (q == "runway_rumble_2" && IsSet(t, "SimOnGround") && GroundKnots(t) > 20.0)
      || (q == "test1" && s.test1)
      || (q == "test2" && s.test2)
      || q in {"damper", "inertia", "friction"}
  {
    VibrationHeadPresence(t, s, q);
  }

  // ---------------------------------------------------------------- the frame's effects

  /** The two spring effects: coefficients from the aerodynamics, centres at the physical offsets. */
  function SpringEffects(a: Aero, phys: Offsets): (e: E.Effects)
    ensures |e| == 2 && Distinct(e) && AllNumeric(e)
    ensures e[0].0 == "spring_x" && "coefficient" in e[0].1 && e[0].1["coefficient"] == E.Num(a.aileronCoeff)
    ensures e[1].0 == "spring_y" && "coefficient" in e[1].1 && e[1].1["coefficient"] == E.Num(a.elevatorCoeff)
    ensures forall q :: HasKey(e, q) <==> q in {"spring_x", "spring_y"}
  {
    var e := [("spring_x", map["coefficient" := E.Num(a.aileronCoeff), "cp_offset" := E.Num(phys.x)]),
              ("spring_y", map["coefficient" := E.Num(a.elevatorCoeff), "cp_offset" := E.Num(phys.y)])];
    assert forall q :: HasKey(e, q) <==> q in {"spring_x", "spring_y"} by {
      forall q ensures HasKey(e, q) <==> q in {"spring_x", "spring_y"} {
        if q == "spring_x" { assert e[0].0 == q; }
        if q == "spring_y" { assert e[1].0 == q; }
      }
    }
    e
  }

  /** The constant-force effect (magnitude and direction in degrees). */
  function ConstantEffect(f: ConstantForce): (e: E.Effects)
    ensures |e| == 1 && Distinct(e) && AllNumeric(e)
    ensures e[0].0 == "constant_force" && "magnitude" in e[0].1 && e[0].1["magnitude"] == E.Num(f.magnitude)
    ensures forall q :: HasKey(e, q) <==> q == "constant_force"
  {
    var e := [("constant_force", map["magnitude" := E.Num(f.magnitude), "direction" := E.Num(f.direction)])];
    assert forall q :: HasKey(e, q) <==> q == "constant_force" by {
      forall q ensures HasKey(e, q) <==> q == "constant_force" {
        if q == "constant_force" { assert e[0].0 == q; }
      }
    }
    e
  }

  /** The springs, the constant force and the vibrations are named apart. */
  lemma FrameNamesDisjoint(springs: E.Effects, constant: E.Effects, vibration: E.Effects)
    requires forall q :: HasKey(springs, q) <==> q in {"spring_x", "spring_y"}
    requires forall q :: HasKey(constant, q) <==> q == "constant_force"
    requires forall q :: HasKey(vibration, q) ==> q in HeadNames + {"damper", "inertia", "friction"}
    ensures forall q :: HasKey(springs, q) ==> !HasKey(constant, q)
    ensures forall q :: HasKey(springs, q) || HasKey(constant, q) ==> !HasKey(vibration, q)
  {
  }

  /**
   * `{**spring_effects, **constant_effects, **vibration_effects}`: a well-formed effects
   * dictionary that starts with the two springs and the constant force and ends with the
   * damper, inertia and friction.
   */
  function FrameEffects(springs: E.Effects, constant: E.Effects, vibration: E.Effects): (e: E.Effects)
    requires Distinct(springs) && AllNumeric(springs) && Distinct(constant) && AllNumeric(constant)
    requires E.WellFormed(vibration) && AllNumeric(vibration)
    requires forall q :: HasKey(springs, q) <==> q in {"spring_x", "spring_y"}
    requires forall q :: HasKey(constant, q) <==> q == "constant_force"
    requires forall q :: HasKey(vibration, q) ==> q in HeadNames + {"damper", "inertia", "friction"}
    ensures E.WellFormed(e)
    ensures forall q :: HasKey(e, q) <==> q in {"spring_x", "spring_y", "constant_force"} || HasKey(vibration, q)
    ensures |e| == |springs| + |constant| + |vibration| && e[|e| - |vibration|..] == vibration
    ensures e[..|springs| + |constant|] == springs + constant
  {
    FrameNamesDisjoint(springs, constant, vibration);
    var front := Merge(springs, constant);
    assert front == springs + constant by {
      assert front == front[..|springs|] + front[|springs|..];
    }
    Merge(front, vibration)
  }

  /** The concatenation `Merge` builds is `a.update(b)` when no key is shared. */
  lemma MergeIsUpdate(a: E.Effects, b: E.Effects)
    requires Distinct(a) && Distinct(b) && AllNumeric(a) && AllNumeric(b)
    requires forall q :: HasKey(a, q) ==> !HasKey(b, q)
    ensures Merge(a, b) == Update(a, b)
  {
    forall i | 0 <= i < |b| ensures !HasKey(a, b[i].0) {
      assert HasKey(b, b[i].0);
    }
    UpdateDisjoint(a, b);
  }

  /** The frame's effects are the dictionary unpacking `{**springs, **constant, **vibration}`. */
  lemma FrameEffectsIsUpdate(springs: E.Effects, constant: E.Effects, vibration: E.Effects)
    requires Distinct(springs) && AllNumeric(springs) && Distinct(constant) && AllNumeric(constant)
    requires E.WellFormed(vibration) && AllNumeric(vibration)
    requires forall q :: HasKey(springs, q) <==> q in {"spring_x", "spring_y"}
    requires forall q :: HasKey(constant, q) <==> q == "constant_force"
    requires forall q :: HasKey(vibration, q) ==> q in HeadNames + {"damper", "inertia", "friction"}
    ensures FrameEffects(springs, constant, vibration) == Update(Update(springs, constant), vibration)
  {
    FrameNamesDisjoint(springs, constant, vibration);
    MergeIsUpdate(springs, constant);
    MergeIsUpdate(Merge(springs, constant), vibration);
  }
}
