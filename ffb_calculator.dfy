/**
 * `FFBCalculator` (fsffb/core/ffb_calculator.py): the object that owns the aircraft's
 * parameter table, the derivative history, the two wind low-pass filters, the stick-force
 * snapshot and the debug data, and turns one telemetry frame into force-feedback effects,
 * the axis values sent back to the simulator and the virtual offsets. The clock is a
 * parameter: the caller passes the frame's time (`time.time()` in the source).
 */
module FfbCalculator {
  import opened Wrappers
  import opened Dict
  import opened Numeric
  import opened Params
  import opened Presets
  import opened FfbForces
  import E = EffectTables

  /** The stick forces X-Plane reports, stored as received (0.0 when absent). */
  datatype StickForces = StickForces(pitch: TelemValue, roll: TelemValue, yaw: TelemValue)

  /** `telemetry.get(key, 0.0)` stored without arithmetic. */
  function Field(t: Telemetry, key: string): (v: TelemValue)
    ensures key !in t ==> v == Number(0.0)
    ensures key in t ==> v == t[key]
  {
    if key in t then t[key] else Number(0.0)
  }

  /** Everything a non-empty frame reads without raising. */
  predicate FrameDefined(t: Telemetry, s: Scaled) {
    OffsetsDefined(t, s) && AeroDefined(t, s) && ConstantDefined(t)
  }

  /** The offsets as the `{'x': .., 'y': ..}` dictionary the frame returns. */
  function OffsetsDict(o: Offsets): (d: Dict<string, real>)
    ensures Distinct(d) && HasKey(d, "x") && HasKey(d, "y")
    ensures Get(d, "x") == o.x && Get(d, "y") == o.y
  {
    var d := [("x", o.x), ("y", o.y)];
    assert d[0].0 == "x" && d[1].0 == "y";
    d
  }

  /** The aerodynamic debug values, in the order the source lists them. */
  function AeroDebug(a: Aero): Dict<string, real> {
    [("spring_coeff_x", a.aileronCoeff), ("spring_coeff_y", a.elevatorCoeff),
     ("elev_dyn_pressure", a.elevDynPressure), ("aileron_dyn_pressure", a.aileronDynPressure),
     ("mixing_factor", a.mixingFactor), ("prop air vel", a.propAirVel), ("damper_aileron", a.damperAileron)]
  }

  /**
   * The frame's effects: the two springs, the constant force, then the vibrations and
   * conditions, merged in that order.
   */
  function EffectsOf(tr: Transcendentals, t: Telemetry, s: Scaled, aero: Aero, phys: Offsets, force: ConstantForce): (e: E.Effects)
    requires Facts(tr) && Numbers(t)
    ensures E.WellFormed(e) && |e| >= 6
    ensures e[0] == SpringEffects(aero, phys)[0] && e[1] == SpringEffects(aero, phys)[1]
    ensures e[2] == ConstantEffect(force)[0]
  {
    var springs := SpringEffects(aero, phys);
    var constant := ConstantEffect(force);
    var vibration := VibrationEffects(tr, t, s);
    var e := FrameEffects(springs, constant, vibration);
    assert e[..3] == springs + constant;
    assert e[0] == (e[..3])[0] && e[1] == (e[..3])[1] && e[2] == (e[..3])[2];
    e
  }

  /** The outputs of one non-empty frame, given the filtered wind derivatives. */
  datatype Frame = Frame(effects: E.Effects, simAxes: Option<Dict<string, real>>, virtual: Dict<string, real>, debug: Dict<string, real>)

  /** The wind and autopilot debug values `_calculate_constant_forces` adds. */
  function WindDebug(t: Telemetry, filteredY: real, apActive: bool): Dict<string, real>
    requires Numbers(t)
  {
    [("wind_y", Real(t, "WindY", 0.0)), ("wind_y_derivative_filtered", filteredY), ("ap_active", if apActive then 1.0 else 0.0)]
  }

  /** The debug values of a frame: the aerodynamic ones, then wind and autopilot state. */
  function FrameDebug(t: Telemetry, aero: Aero, filteredY: real, apActive: bool): Dict<string, real>
    requires Numbers(t)
  {
    AeroDebug(aero) + WindDebug(t, filteredY, apActive)
  }

  /**
   * `debug_data.update(...)` with the wind and autopilot values appends them: none of their
   * names is an aerodynamic one, so the frame's debug dictionary is a dictionary.
   */
  lemma FrameDebugIsUpdate(t: Telemetry, aero: Aero, filteredY: real, apActive: bool)
    requires Numbers(t)
    ensures Update(AeroDebug(aero), WindDebug(t, filteredY, apActive)) == FrameDebug(t, aero, filteredY, apActive)
    ensures Distinct(FrameDebug(t, aero, filteredY, apActive))
  {
    var a := AeroDebug(aero);
    var w := WindDebug(t, filteredY, apActive);
    forall i | 0 <= i < |w| ensures !HasKey(a, w[i].0) {
      if HasKey(a, w[i].0) {
        var j :| 0 <= j < |a| && a[j].0 == w[i].0;
      }
    }
    UpdateDisjoint(a, w);
  }

  /**
   * `process_frame` past the stateful steps: offsets, axes, aerodynamic springs, constant
   * force and vibrations, merged into one effects dictionary the driver accepts. The springs
   * and the constant force come first; the constant force has magnitude 0 while the
   * autopilot flies; stick forwarding off gives no axes.
   */
  function FrameOf(tr: Transcendentals, t: Telemetry, s: Scaled, send: bool, axes: map<string, real>,
                   filteredX: real, filteredY: real): (f: Frame)
    requires Facts(tr) && FrameDefined(t, s)
    ensures E.WellFormed(f.effects) && |f.effects| >= 6
    ensures f.effects[0].0 == "spring_x" && f.effects[1].0 == "spring_y" && f.effects[2].0 == "constant_force"
    ensures "coefficient" in f.effects[0].1 && f.effects[0].1["coefficient"] == E.Num(AeroSprings(tr, t, s).aileronCoeff)
    ensures "coefficient" in f.effects[1].1 && f.effects[1].1["coefficient"] == E.Num(AeroSprings(tr, t, s).elevatorCoeff)
    ensures "magnitude" in f.effects[2].1 && (ApActive(t, s) ==> f.effects[2].1["magnitude"] == E.Num(0.0))
    ensures f.simAxes.None? <==> !send
    ensures ApActive(t, s) && s.apFollowing ==> f.virtual == [("x", 0.0), ("y", 0.0)]
  {
    var apActive := ApActive(t, s);
    var offsets := SpringOffsets(t, s);
    var aero := AeroSprings(tr, t, s);
    var force := ConstantForceOf(tr, t, s, filteredX, filteredY, apActive);
    var effects := EffectsOf(tr, t, s, aero, offsets.0, force);
    Frame(effects, FinalSimAxes(send, axes, offsets.1, offsets.0, apActive), OffsetsDict(offsets.1), FrameDebug(t, aero, filteredY, apActive))
  }

  /**
   * With coefficient caps within [0, 1] (as every in-range parameter table gives them), both
   * spring coefficients of a frame lie in [0, 1].
   */
  lemma FrameSpringsBounded(tr: Transcendentals, t: Telemetry, s: Scaled, send: bool, axes: map<string, real>,
                            filteredX: real, filteredY: real)
    requires Facts(tr) && FrameDefined(t, s)
    requires 0.0 <= s.maxAileronCoeff <= 1.0 && 0.0 <= s.maxElevatorCoeff <= 1.0
    ensures var e := FrameOf(tr, t, s, send, axes, filteredX, filteredY).effects;
      && "coefficient" in e[0].1 && e[0].1["coefficient"].Num? && 0.0 <= e[0].1["coefficient"].x <= 1.0
      && "coefficient" in e[1].1 && e[1].1["coefficient"].Num? && 0.0 <= e[1].1["coefficient"].x <= 1.0
  {
    SpringCoefficientsBounded(tr, t, s);
  }

  /**
   * `_get_scaled_params` on the calculator's table: every value copied under its name, then
   * scaled. The table is the only state it reads.
   */
  method GetScaledParams(table: ParamTable) returns (s: Scaled)
    requires HasScaledKeys(ValuesMap(table))
    ensures s == ScaledOf(ValuesMap(table))
  {
    var p := map[];
    var i := 0;
    while i < |table|
      invariant 0 <= i <= |table|
      invariant p == ValuesMap(table[..i])
    {
      assert table[..i + 1][..i] == table[..i];
      p := p[table[i].0 := table[i].1.value];
      i := i + 1;
    }
    assert table[..|table|] == table;
    s := ScaledOf(p);
  }

  /** The stick forces a frame stores. */
  function StickForcesOf(t: Telemetry): (f: StickForces)
    ensures "StickForcePitch" in t ==> f.pitch == t["StickForcePitch"]
    ensures "StickForcePitch" !in t ==> f.pitch == Number(0.0)
  {
    StickForces(Field(t, "StickForcePitch"), Field(t, "StickForceRoll"), Field(t, "StickForceYaw"))
  }

  class Calculator {
    var params: ParamTable
    var stickForces: StickForces
    var debugData: Dict<string, real>
    var lastFrameTime: real
    var previousValues: map<string, real>
    const windXFilter: LowPassFilter
    const windYFilter: LowPassFilter

    /** The two filters are distinct objects with the source's time constants. */
    ghost predicate Valid()
      reads this, windXFilter, windYFilter
    {
      windXFilter != windYFilter && windXFilter.timeConstant == 0.4 && windYFilter.timeConstant == 1.0
    }

    /** `__init__`: zero stick forces, no debug data, no history, fresh filters at rest. */
    constructor (aircraftParams: ParamTable, now: real)
      ensures Valid() && fresh(windXFilter) && fresh(windYFilter)
      ensures params == aircraftParams && debugData == [] && lastFrameTime == now && previousValues == map[]
      ensures stickForces == StickForces(Number(0.0), Number(0.0), Number(0.0))
      ensures windXFilter.filteredValue == 0.0 && windYFilter.filteredValue == 0.0
    {
      params := aircraftParams;
      stickForces := StickForces(Number(0.0), Number(0.0), Number(0.0));
      debugData := [];
      lastFrameTime := now;
      previousValues := map[];
      windXFilter := new LowPassFilter(0.4);
      windYFilter := new LowPassFilter(1.0);
    }

    /** `update_parameter`: sets a known parameter's value; an unknown name changes nothing. */
    method UpdateParameter(name: string, value: Value)
      modifies this`params
      ensures params == SetValue(old(params), name, value)
    {
      if HasKey(params, name) {
        var i := IndexOf(params, name);
        params := params[i := (name, params[i].1.(value := value))];
      }
    }

    method GetStickForces() returns (f: StickForces)
      ensures f == stickForces
    {
      f := stickForces;
    }

    method GetDebugData() returns (d: Dict<string, real>)
      ensures d == debugData
    {
      d := debugData;
    }

    /** `_calculate_time_derivative`, following `DerivativeStep` on the history. */
    method CalculateTimeDerivative(current: real, name: string, dt: real) returns (d: real)
      modifies this`previousValues
      ensures (d, previousValues) == DerivativeStep(old(previousValues), name, current, dt)
    {
      if dt <= 0.0 {
        return 0.0;
      }
      if name in previousValues {
        d := (current - previousValues[name]) / dt;
      } else {
        d := 0.0;
      }
      previousValues := previousValues[name := current];
    }

    /**
     * Every state change of a non-empty frame, in the source's order: the clock, the stick
     * forces, the aerodynamic debug values, the wind derivatives (X, Z, Y) rotated into the
     * aircraft frame and filtered, and the wind and autopilot debug values; returns the two
     * filtered derivatives.
     */
    method Advance(tr: Transcendentals, t: Telemetry, now: real, aero: Aero, apActive: bool)
      returns (filteredX: real, filteredY: real)
      requires Facts(tr) && Numbers(t) && Valid()
      requires now - lastFrameTime != -0.4 && now - lastFrameTime != -1.0
      modifies this`lastFrameTime, this`stickForces, this`previousValues, this`debugData
      modifies windXFilter`filteredValue, windYFilter`filteredValue
      ensures Valid()
      ensures lastFrameTime == now && stickForces == StickForcesOf(t)
      ensures debugData == FrameDebug(t, aero, filteredY, apActive)
      ensures var dt := now - old(lastFrameTime);
        var w := WindDerivatives(old(previousValues), t, dt);
        && previousValues == w.3
        && var rotated := WindOnAircraft(tr, w.0, w.2, Real(t, "Heading", 0.0));
        && filteredX == windXFilter.filteredValue == FilterStep(0.4, old(windXFilter.filteredValue), rotated.0, dt)
        && filteredY == windYFilter.filteredValue == FilterStep(1.0, old(windYFilter.filteredValue), w.1, dt)
    {
      var dt := now - lastFrameTime;
      lastFrameTime := now;
      stickForces := StickForcesOf(t);
      debugData := AeroDebug(aero);
      ghost var w := WindDerivatives(previousValues, t, dt);
      var dx := CalculateTimeDerivative(Real(t, "WindX", 0.0), "WindX", dt);
      var dz := CalculateTimeDerivative(Real(t, "WindZ", 0.0), "WindZ", dt);
      var dy := CalculateTimeDerivative(Real(t, "WindY", 0.0), "WindY", dt);
      assert dx == w.0 && dy == w.1 && dz == w.2 && previousValues == w.3;
      var rotated := WindOnAircraft(tr, dx, dz, Real(t, "Heading", 0.0));
      filteredX := windXFilter.Process(rotated.0, dt);
      filteredY := windYFilter.Process(dy, dt);
      debugData := Update(debugData, WindDebug(t, filteredY, apActive));
      FrameDebugIsUpdate(t, aero, filteredY, apActive);
    }

    /**
     * A non-empty frame, given the table's scaled parameters and stick-forwarding setting:
     * the state advances, then the outputs are computed.
     */
    method ComputeFrame(tr: Transcendentals, t: Telemetry, axes: map<string, real>, now: real, s: Scaled, send: bool)
      returns (effects: E.Effects, simAxes: Option<Dict<string, real>>, virtual: Dict<string, real>)
      requires Facts(tr) && Valid() && FrameDefined(t, s)
      requires now - lastFrameTime != -0.4 && now - lastFrameTime != -1.0
      modifies this`lastFrameTime, this`stickForces, this`previousValues, this`debugData
      modifies windXFilter`filteredValue, windYFilter`filteredValue
      ensures Valid()
      ensures lastFrameTime == now && stickForces == StickForcesOf(t)
      ensures previousValues == WindDerivatives(old(previousValues), t, now - old(lastFrameTime)).3
      ensures var f := FrameOf(tr, t, s, send, axes, windXFilter.filteredValue, windYFilter.filteredValue);
        (effects, simAxes, virtual, debugData) == (f.effects, f.simAxes, f.virtual, f.debug)
    {
      var filteredX, filteredY := Advance(tr, t, now, AeroSprings(tr, t, s), ApActive(t, s));
      var f := FrameOf(tr, t, s, send, axes, filteredX, filteredY);
      effects, simAxes, virtual := f.effects, f.simAxes, f.virtual;
    }

    /**
     * `process_frame`. Empty telemetry clears the debug data and returns three empty
     * dictionaries, touching nothing else. Otherwise the frame's time becomes the last frame
     * time, the stick forces are stored, the wind history and filters advance, and the
     * outputs are those of `FrameOf` at the table's scaled parameters and the new filter
     * values, with the debug data of `FrameDebug`.
     */
    method ProcessFrame(tr: Transcendentals, t: Telemetry, axes: map<string, real>, now: real)
      returns (effects: E.Effects, simAxes: Option<Dict<string, real>>, virtual: Dict<string, real>)
      requires Facts(tr) && Valid()
      requires t != map[] ==> HasScaledKeys(ValuesMap(params)) && FrameDefined(t, ScaledOf(ValuesMap(params)))
      requires t != map[] ==> now - lastFrameTime != -0.4 && now - lastFrameTime != -1.0
      modifies this`lastFrameTime, this`stickForces, this`previousValues, this`debugData
      modifies windXFilter`filteredValue, windYFilter`filteredValue
      ensures Valid()
      ensures t == map[] ==> effects == [] && simAxes == Some([]) && virtual == [] && debugData == []
      ensures t == map[] ==> unchanged(this`lastFrameTime, this`stickForces)
      ensures t == map[] ==> previousValues == old(previousValues)
      ensures t == map[] ==> unchanged(windXFilter, windYFilter)
      ensures t != map[] ==>
        var s := ScaledOf(ValuesMap(old(params)));
        && lastFrameTime == now && stickForces == StickForcesOf(t)
        && previousValues == WindDerivatives(old(previousValues), t, now - old(lastFrameTime)).3
        && var f := FrameOf(tr, t, s, SendStickPosition(old(params)), axes, windXFilter.filteredValue, windYFilter.filteredValue);
        && (effects, simAxes, virtual, debugData) == (f.effects, f.simAxes, f.virtual, f.debug)
    {
      if t == map[] {
        debugData := [];
        return [], Some([]), [];
      }
      var send := SendStickPosition(params);
      var s := GetScaledParams(params);
      effects, simAxes, virtual := ComputeFrame(tr, t, axes, now, s, send);
    }
  }
}
