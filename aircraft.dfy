/**
 * The central parameter table (fsffb/core/aircraft.py): every tunable parameter with its
 * label, slider range or checkbox, and default value, and `get_aircraft_params`, which
 * starts from that table and applies a preset when one is named.
 */
module Aircraft {
  import opened Wrappers
  import opened Dict
  import opened Params
  import opened Presets

  const DefaultAircraftParams: ParamTable := [
    ("vne_override", ParamConfig("Vne Override (kts)", Slider(0, 400), Num(120.0))),
    ("aileron_expo", ParamConfig("Aileron Force Expo", Slider(-100, 100), Num(40.0))),
    ("elevator_expo", ParamConfig("Elevator Force Expo", Slider(-100, 100), Num(40.0))),
    ("stall_aoa_ratio", ParamConfig("Stall AoA Multiplier", Slider(0, 100), Num(85.0))),
    ("damper_coef", ParamConfig("Damper Coef", Slider(0, 100), Num(10.0))),
    ("g_force_gain", ParamConfig("G-Force Gain", Slider(0, 100), Num(10.0))),
    ("elevator_droop_moment", ParamConfig("Elevator Droop", Slider(0, 100), Num(0.0))),
    ("wind_gain_x", ParamConfig("Wind Gain Roll", Slider(-30, 30), Num(15.0))),
    ("wind_gain_y", ParamConfig("Wind Gain Pitch", Slider(-30, 30), Num(10.0))),
    ("wind_max_intensity", ParamConfig("Wind Max Intensity", Slider(0, 50), Num(20.0))),
    ("enable_stick_shaker", ParamConfig("Enable Stick Shaker", Checkbox, Flag(true))),
    ("stick_shaker_intensity", ParamConfig("Stick Shaker Intensity", Slider(0, 100), Num(50.0))),
    ("runway_rumble_intensity", ParamConfig("Runway Rumble Intensity", Slider(0, 100), Num(0.0))),
    ("trim_following", ParamConfig("Enable Trim Following", Checkbox, Flag(true))),
    ("joystick_trim_follow_gain_physical_y", ParamConfig("Y Trim Physical", Slider(0, 100), Num(58.0))),
    ("joystick_trim_follow_gain_virtual_y", ParamConfig("Y Trim Virtual", Slider(0, 100), Num(80.0))),
    ("joystick_trim_follow_gain_physical_x", ParamConfig("X Trim Physical", Slider(0, 100), Num(80.0))),
    ("joystick_trim_follow_gain_virtual_x", ParamConfig("X Trim Virtual", Slider(0, 100), Num(80.0))),
    ("ap_following", ParamConfig("Enable AP Following", Checkbox, Flag(true))),
    ("ap_trim_only", ParamConfig("AP Trim Only", Checkbox, Flag(false))),
    ("PMDG_AP_On", ParamConfig("PMDG AP On", Checkbox, Flag(false))),
    ("joystick_ap_follow_gain_physical_y", ParamConfig("Y AP Physical", Slider(0, 100), Num(50.0))),
    ("joystick_ap_follow_gain_physical_x", ParamConfig("X AP Physical", Slider(0, 100), Num(50.0))),
    ("send_stick_position", ParamConfig("Send Stick Position to Game", Checkbox, Flag(true))),
    ("max_aileron_coeff", ParamConfig("Max Aileron Force %", Slider(0, 100), Num(100.0))),
    ("max_elevator_coeff", ParamConfig("Max Elevator Force %", Slider(0, 100), Num(100.0))),
    ("prop_diameter", ParamConfig("Prop Diameter (cm)", Slider(1, 500), Num(190.0))),
    ("test1", ParamConfig("test1", Checkbox, Flag(false))),
    ("test2", ParamConfig("test2", Checkbox, Flag(false)))
  ]

  /** The built-in table is a dictionary whose sliders hold in-range numbers and whose checkboxes hold booleans. */
  lemma DefaultParamsSane()
    ensures Distinct(DefaultAircraftParams)
    ensures Typed(DefaultAircraftParams)
    ensures InRange(DefaultAircraftParams)
  {
    DefaultParamsDistinct();
    DefaultParamsTyped();
  }

  lemma DefaultParamsDistinct()
    ensures Distinct(DefaultAircraftParams)
  {
    var t := DefaultAircraftParams;
    assert forall i, j :: 0 <= i < j < |t| ==> t[i].0 != t[j].0;
  }

  lemma DefaultParamsTyped()
    ensures Typed(DefaultAircraftParams)
  {
    var t := DefaultAircraftParams;
    assert forall i :: 0 <= i < |t| ==> Fits(t[i].1.kind, t[i].1.value);
  }

  /**
   * `get_aircraft_params`: a copy of the built-in table, with the named preset applied
   * when a name other than `""` or `"default"` is given. `aircraftName` is unused.
   */
  function GetAircraftParams(user: Dict<string, Preset>, aircraftName: string, presetName: Option<string>): (t: ParamTable)
    requires Distinct(user)
    ensures SameShape(DefaultAircraftParams, t)
    ensures presetName.None? || presetName == Some("") || presetName == Some("default") ==> t == DefaultAircraftParams
    ensures presetName.Some? && GetPreset(user, presetName.value).None? ==> t == DefaultAircraftParams
  {
    if presetName.Some? && presetName.value != "" && presetName.value != "default" then
      ApplyPreset(user, presetName.value, DefaultAircraftParams)
    else DefaultAircraftParams
  }

  /** Every value a preset gives a known parameter has the parameter's type and lies in its range. */
  predicate ValuesFit(t: ParamTable, vals: Dict<string, Value>) {
    forall i :: 0 <= i < |vals| && HasKey(t, vals[i].0) ==>
      var c := Get(t, vals[i].0).(value := vals[i].1);
      Fits(c.kind, c.value) && SliderInRange(c)
  }

  /** Applying values that fit keeps a table typed and in range. */
  lemma {:induction false} ApplyKeepsSane(t: ParamTable, vals: Dict<string, Value>)
    requires Distinct(t) && Typed(t) && InRange(t) && ValuesFit(t, vals)
    ensures Typed(ApplyValues(t, vals)) && InRange(ApplyValues(t, vals))
    decreases |vals|
  {
    if vals != [] {
      var p := vals[..|vals| - 1];
      var last := vals[|vals| - 1];
      assert ValuesFit(t, p) by {
        forall i | 0 <= i < |p| ensures p[i] == vals[i] { }
      }
      ApplyKeepsSane(t, p);
      var mid := ApplyValues(t, p);
      assert HasKey(t, last.0) ==>
        var c := Get(t, last.0).(value := last.1);
        Fits(c.kind, c.value) && SliderInRange(c);
      SetValueKeepsSane(t, mid, last.0, last.1);
    }
  }

  /** Setting a value that fits its parameter keeps a table of the same shape typed and in range. */
  lemma SetValueKeepsSane(t: ParamTable, mid: ParamTable, name: string, v: Value)
    requires Distinct(t) && SameShape(t, mid) && Typed(mid) && InRange(mid)
    requires HasKey(t, name) ==> var c := Get(t, name).(value := v); Fits(c.kind, c.value) && SliderInRange(c)
    ensures Typed(SetValue(mid, name, v)) && InRange(SetValue(mid, name, v))
  {
    SameShapeKeys(t, mid);
    if HasKey(mid, name) {
      var j := IndexOf(mid, name);
      assert mid[j].1.kind == Get(t, name).kind;
    }
  }

  /** Where those parameters sit in the built-in table. */
  const PresetKeyPositions: seq<nat> := [0, 1, 2, 3, 4, 5, 6, 7, 8, 9, 11, 12, 14, 15, 16, 17, 21, 22, 24, 25, 26]

  /** Every built-in preset sets either nothing ("CUSTOM") or exactly the `PresetKeys`, which the built-in table has. */
  lemma PresetKeysKnown()
    ensures |PresetKeyPositions| == |PresetKeys|
    ensures forall i :: 0 <= i < |PresetKeys| ==>
      PresetKeyPositions[i] < |DefaultAircraftParams| && DefaultAircraftParams[PresetKeyPositions[i]].0 == PresetKeys[i]
  {
    PresetKeysFirst();
    PresetKeysMiddle();
    PresetKeysLast();
  }

  /** The `PresetKeys` sit at their positions in the built-in table, a third at a time. */
  lemma PresetKeysFirst()
    ensures |PresetKeyPositions| == |PresetKeys| == 21
    ensures forall i :: 0 <= i < 7 ==>
      PresetKeyPositions[i] < |DefaultAircraftParams| && DefaultAircraftParams[PresetKeyPositions[i]].0 == PresetKeys[i]
  {
  }

  lemma PresetKeysMiddle()
    ensures |PresetKeyPositions| == |PresetKeys| == 21
    ensures forall i :: 7 <= i < 14 ==>
      PresetKeyPositions[i] < |DefaultAircraftParams| && DefaultAircraftParams[PresetKeyPositions[i]].0 == PresetKeys[i]
  {
  }

  lemma PresetKeysLast()
    ensures |PresetKeyPositions| == |PresetKeys| == 21
    ensures forall i :: 14 <= i < 21 ==>
      PresetKeyPositions[i] < |DefaultAircraftParams| && DefaultAircraftParams[PresetKeyPositions[i]].0 == PresetKeys[i]
  {
  }

  /** Positions that grow from one to the next grow throughout. */
  lemma {:induction false} Increasing(p: seq<nat>)
    requires forall i :: 0 <= i < |p| - 1 ==> p[i] < p[i + 1]
    ensures forall i, j :: 0 <= i < j < |p| ==> p[i] < p[j]
    decreases |p|
  {
    if |p| > 1 {
      var q := p[..|p| - 1];
      Increasing(q);
      forall i, j | 0 <= i < j < |p| ensures p[i] < p[j] {
        if j == |p| - 1 && i < j - 1 {
          assert p[i] == q[i] && p[j - 1] == q[j - 1];
        } else if j < |p| - 1 {
          assert p[i] == q[i] && p[j] == q[j];
        }
      }
    }
  }

  /** The preset keys are distinct, since they sit at distinct positions of the built-in table. */
  lemma PresetKeysDistinct()
    ensures forall i, j :: 0 <= i < j < |PresetKeys| ==> PresetKeys[i] != PresetKeys[j]
  {
    PresetKeysKnown();
    DefaultParamsDistinct();
    var p := PresetKeyPositions;
    assert forall i :: 0 <= i < |p| - 1 ==> p[i] < p[i + 1];
    Increasing(p);
  }

  /** The slider ranges of the `PresetKeys`, in order. */
  const PresetRanges: seq<(int, int)> := [
    (0, 400), (-100, 100), (-100, 100), (0, 100), (0, 100), (0, 100), (0, 100), (-30, 30), (-30, 30),
    (0, 50), (0, 100), (0, 100), (0, 100), (0, 100), (0, 100), (0, 100), (0, 100), (0, 100),
    (0, 100), (0, 100), (1, 500)]

  /** Each of the `PresetKeys` is a slider with the range listed for it. */
  lemma PresetRangesMatch()
    ensures |PresetRanges| == |PresetKeyPositions| == 21
    ensures forall i :: 0 <= i < 21 ==>
      PresetKeyPositions[i] < |DefaultAircraftParams| &&
      DefaultAircraftParams[PresetKeyPositions[i]].1.kind == Slider(PresetRanges[i].0, PresetRanges[i].1)
  {
    PresetRangesFirst();
    PresetRangesMiddle();
    PresetRangesLast();
  }

  lemma PresetRangesFirst()
    ensures |PresetRanges| == |PresetKeyPositions| == 21
    ensures forall i :: 0 <= i < 7 ==>
      PresetKeyPositions[i] < |DefaultAircraftParams| &&
      DefaultAircraftParams[PresetKeyPositions[i]].1.kind == Slider(PresetRanges[i].0, PresetRanges[i].1)
  {
  }

  lemma PresetRangesMiddle()
    ensures |PresetRanges| == |PresetKeyPositions| == 21
    ensures forall i :: 7 <= i < 14 ==>
      PresetKeyPositions[i] < |DefaultAircraftParams| &&
      DefaultAircraftParams[PresetKeyPositions[i]].1.kind == Slider(PresetRanges[i].0, PresetRanges[i].1)
  {
  }

  lemma PresetRangesLast()
    ensures |PresetRanges| == |PresetKeyPositions| == 21
    ensures forall i :: 14 <= i < 21 ==>
      PresetKeyPositions[i] < |DefaultAircraftParams| &&
      DefaultAircraftParams[PresetKeyPositions[i]].1.kind == Slider(PresetRanges[i].0, PresetRanges[i].1)
  {
  }

  /** The slider of the `i`-th of the `PresetKeys` admits `x`. */
  predicate PresetValueInRange(i: nat, x: real)
    requires i < |PresetRanges|
  {
    PresetRanges[i].0 as real <= x <= PresetRanges[i].1 as real
  }

  /** Standard preset values each within their slider's range fit the built-in table. */
  lemma StandardFits(values: seq<real>)
    requires |values| == |PresetKeys|
    requires forall i :: 0 <= i < |values| ==> PresetValueInRange(i, values[i])
    ensures ValuesFit(DefaultAircraftParams, StandardParams(values))
  {
    DefaultParamsSane();
    PresetKeysKnown();
    PresetRangesMatch();
    var vals := StandardParams(values);
    forall i | 0 <= i < |vals| && HasKey(DefaultAircraftParams, vals[i].0)
      ensures var c := Get(DefaultAircraftParams, vals[i].0).(value := vals[i].1);
        Fits(c.kind, c.value) && SliderInRange(c)
    {
      IndexOfAt(DefaultAircraftParams, PresetKeyPositions[i], vals[i].0);
    }
  }

  /** The values of built-in preset "172" fit the built-in table's ranges. */
  lemma PresetFits0()
    ensures ValuesFit(DefaultAircraftParams, DefaultPresets[0].1.params)
  {
    var v := [
      140.0, 25.0, 30.0, 90.0, 8.0, 8.0, 0.0, 12.0, 8.0, 15.0, 40.0,
      10.0, 50.0, 75.0, 75.0, 75.0, 40.0, 40.0, 100.0, 100.0, 190.0];
    assert forall i :: 0 <= i < |v| ==> PresetValueInRange(i, v[i]);
    StandardFits(v);
    assert DefaultPresets[0].1.params == StandardParams(v);
  }

  /** The values of built-in preset "A250" fit the built-in table's ranges. */
  lemma PresetFits1()
    ensures ValuesFit(DefaultAircraftParams, DefaultPresets[1].1.params)
  {
    var v := [
      310.0, 40.0, 45.0, 85.0, 18.0, 14.0, 2.0, 14.0, 10.0, 20.0, 65.0,
      18.0, 70.0, 90.0, 90.0, 90.0, 60.0, 60.0, 85.0, 80.0, 220.0];
    assert forall i :: 0 <= i < |v| ==> PresetValueInRange(i, v[i]);
    StandardFits(v);
    assert DefaultPresets[1].1.params == StandardParams(v);
  }

  /** The values of built-in preset "777" fit the built-in table's ranges. */
  lemma PresetFits2()
    ensures ValuesFit(DefaultAircraftParams, DefaultPresets[2].1.params)
  {
    var v := [
      340.0, 45.0, 50.0, 85.0, 15.0, 12.0, 5.0, 18.0, 12.0, 25.0, 60.0,
      15.0, 65.0, 85.0, 85.0, 85.0, 55.0, 55.0, 90.0, 85.0, 350.0];
    assert forall i :: 0 <= i < |v| ==> PresetValueInRange(i, v[i]);
    StandardFits(v);
    assert DefaultPresets[2].1.params == StandardParams(v);
  }

  /** The values of built-in preset "737" fit the built-in table's ranges. */
  lemma PresetFits3()
    ensures ValuesFit(DefaultAircraftParams, DefaultPresets[3].1.params)
  {
    var v := [
      300.0, 35.0, 40.0, 80.0, 12.0, 15.0, 3.0, 16.0, 11.0, 22.0, 70.0,
      20.0, 60.0, 80.0, 80.0, 80.0, 50.0, 50.0, 95.0, 90.0, 180.0];
    assert forall i :: 0 <= i < |v| ==> PresetValueInRange(i, v[i]);
    StandardFits(v);
    assert DefaultPresets[3].1.params == StandardParams(v);
  }

  /** The values of built-in preset "Cessna CitationX 750" fit the built-in table's ranges. */
  lemma PresetFits5()
    ensures ValuesFit(DefaultAircraftParams, DefaultPresets[5].1.params)
  {
    var v := [
      400.0, 30.0, 35.0, 88.0, 10.0, 18.0, 8.0, 15.0, 12.0, 25.0, 50.0,
      30.0, 45.0, 70.0, 70.0, 70.0, 30.0, 30.0, 100.0, 100.0, 340.0];
    assert forall i :: 0 <= i < |v| ==> PresetValueInRange(i, v[i]);
    StandardFits(v);
    assert DefaultPresets[5].1.params == StandardParams(v);
  }

  /** The values of built-in preset "C130" fit the built-in table's ranges. */
  lemma PresetFits6()
    ensures ValuesFit(DefaultAircraftParams, DefaultPresets[6].1.params)
  {
    var v := [
      280.0, 50.0, 55.0, 82.0, 20.0, 10.0, 10.0, 20.0, 15.0, 30.0, 65.0,
      35.0, 70.0, 85.0, 85.0, 85.0, 55.0, 55.0, 85.0, 80.0, 380.0];
    assert forall i :: 0 <= i < |v| ==> PresetValueInRange(i, v[i]);
    StandardFits(v);
    assert DefaultPresets[6].1.params == StandardParams(v);
  }

  /** The values of every built-in preset except "Aerostar" fit the built-in table's ranges. */
  lemma PresetFits(p: nat)
    requires p < |DefaultPresets| && DefaultPresets[p].0 != "Aerostar"
    ensures ValuesFit(DefaultAircraftParams, DefaultPresets[p].1.params)
  {
    if p == 0 { PresetFits0(); }
    else if p == 1 { PresetFits1(); }
    else if p == 2 { PresetFits2(); }
    else if p == 3 { PresetFits3(); }
    else if p == 5 { PresetFits5(); }
    else if p == 6 { PresetFits6(); }
    else {
      assert DefaultPresets[p].1.params == [];
    }
  }

  /**
   * Loading any built-in preset other than "Aerostar" (when no user preset shadows it)
   * gives a table whose every slider holds a number within its range.
   */
  lemma BuiltInPresetsInRange(user: Dict<string, Preset>, p: nat)
    requires Distinct(user) && p < |DefaultPresets| && !HasKey(user, DefaultPresets[p].0)
    requires DefaultPresets[p].0 != "Aerostar"
    ensures Typed(GetAircraftParams(user, "default", Some(DefaultPresets[p].0)))
    ensures InRange(GetAircraftParams(user, "default", Some(DefaultPresets[p].0)))
  {
    var name := DefaultPresets[p].0;
    PresetFits(p);
    DefaultPresetsDistinct();
    IndexOfAt(DefaultPresets, p, name);
    GetPresetUserWins(user, name);
    DefaultPresetNames(p);
    LoadedPresetSane(user, name, DefaultPresets[p].1);
  }

  /** A preset whose values fit the built-in table loads as a typed, in-range table. */
  lemma LoadedPresetSane(user: Dict<string, Preset>, name: string, pr: Preset)
    requires Distinct(user) && name != "" && name != "default" && GetPreset(user, name) == Some(pr)
    requires ValuesFit(DefaultAircraftParams, pr.params)
    ensures Typed(GetAircraftParams(user, "default", Some(name)))
    ensures InRange(GetAircraftParams(user, "default", Some(name)))
  {
    assert GetAircraftParams(user, "default", Some(name)) == ApplyValues(DefaultAircraftParams, pr.params);
    DefaultParamsSane();
    ApplyKeepsSane(DefaultAircraftParams, pr.params);
  }

  /** The "Aerostar" preset's values are keyed uniquely and give the Vne override 800. */
  lemma AerostarVne()
    ensures DefaultPresets[4].0 == "Aerostar"
    ensures var v := DefaultPresets[4].1.params;
      Distinct(v) && HasKey(v, "vne_override") && Get(v, "vne_override") == Num(800.0)
  {
    var v := DefaultPresets[4].1.params;
    var vs := [
      800.0, 60.0, 65.0, 95.0, 25.0, 25.0, 0.0, 20.0, 15.0, 30.0, 80.0,
      25.0, 80.0, 95.0, 95.0, 95.0, 70.0, 70.0, 100.0, 100.0, 100.0];
    assert v == StandardParams(vs);
    PresetKeysDistinct();
    assert forall i, j :: 0 <= i < j < |v| ==> v[i].0 != v[j].0;
    IndexOfAt(v, 0, "vne_override");
  }

  /** Selecting "Aerostar" with no user preset of that name applies the built-in preset's values. */
  lemma AerostarTable(user: Dict<string, Preset>)
    requires Distinct(user) && !HasKey(user, "Aerostar")
    ensures GetAircraftParams(user, "default", Some("Aerostar")) == ApplyValues(DefaultAircraftParams, DefaultPresets[4].1.params)
  {
    var d := DefaultPresets;
    GetPresetUserWins(user, "Aerostar");
    DefaultPresetsDistinct();
    assert d[4].0 == "Aerostar";
    IndexOfAt(d, 4, "Aerostar");
    assert Lookup(d, "Aerostar") == Some(d[4].1);
    PresetApplied(user, "Aerostar", d[4].1);
  }

  /** Naming a preset that is found applies that preset's values to the built-in table. */
  lemma PresetApplied(user: Dict<string, Preset>, name: string, p: Preset)
    requires Distinct(user) && name != "" && name != "default" && GetPreset(user, name) == Some(p)
    ensures GetAircraftParams(user, "default", Some(name)) == ApplyValues(DefaultAircraftParams, p.params)
  {
  }

  /** The "Aerostar" preset sets the Vne override to 800 knots, beyond its slider's 400-knot maximum. */
  lemma AerostarExceedsVneSlider(user: Dict<string, Preset>)
    requires Distinct(user) && !HasKey(user, "Aerostar")
    ensures var t := GetAircraftParams(user, "default", Some("Aerostar"));
      t[0].0 == "vne_override" && t[0].1.kind == Slider(0, 400) && t[0].1.value == Num(800.0) && !InRange(t)
  {
    AerostarTable(user);
    AerostarVne();
    DefaultParamsDistinct();
    FirstRowApplied(DefaultAircraftParams, DefaultPresets[4].1.params);
  }

  /** Applying values overwrites the first row's value with the one given for its key, and keeps its kind. */
  lemma FirstRowApplied(t: ParamTable, vals: Dict<string, Value>)
    requires Distinct(t) && Distinct(vals) && |t| > 0 && HasKey(vals, t[0].0)
    ensures var r := ApplyValues(t, vals);
      |r| == |t| && r[0].0 == t[0].0 && r[0].1.kind == t[0].1.kind && r[0].1.value == Get(vals, t[0].0)
  {
    var k := t[0].0;
    IndexOfAt(t, 0, k);
    ApplyValuesGet(t, vals, k);
    SameShapeIndex(t, ApplyValues(t, vals), k);
  }
}
