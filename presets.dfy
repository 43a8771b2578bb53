/**
 * Presets (fsffb/core/presets.py): named sets of parameter values. The built-in presets
 * are a constant table; the user's presets live in a `PresetManager` and shadow the
 * built-in ones of the same name. A preset stores bare values; applying it writes each
 * value into the matching configuration of a parameter table and ignores unknown names.
 */
module Presets {
  import opened Wrappers
  import opened Dict
  import opened Params

  /** `{'name', 'description'?, 'params'}`. */
  datatype Preset = Preset(name: string, description: Option<string>, params: Dict<string, Value>)

  /** The parameters every non-empty built-in preset sets, in this order. */
  const PresetKeys: seq<string> := [
    "vne_override", "aileron_expo", "elevator_expo", "stall_aoa_ratio", "damper_coef",
    "g_force_gain", "elevator_droop_moment", "wind_gain_x", "wind_gain_y", "wind_max_intensity",
    "stick_shaker_intensity", "runway_rumble_intensity",
    "joystick_trim_follow_gain_physical_y", "joystick_trim_follow_gain_virtual_y",
    "joystick_trim_follow_gain_physical_x", "joystick_trim_follow_gain_virtual_x",
    "joystick_ap_follow_gain_physical_y", "joystick_ap_follow_gain_physical_x",
    "max_aileron_coeff", "max_elevator_coeff", "prop_diameter"]

  /** A built-in preset's `'params'`: one number for each of the `PresetKeys`, in order. */
  function StandardParams(values: seq<real>): (vals: Dict<string, Value>)
    requires |values| == |PresetKeys|
    ensures |vals| == |PresetKeys|
    ensures forall i :: 0 <= i < |vals| ==> vals[i] == (PresetKeys[i], Num(values[i]))
  {
    Numbered(PresetKeys, values)
  }

  /** Each key paired with the number at its position. */
  function Numbered(keys: seq<string>, values: seq<real>): (vals: Dict<string, Value>)
    requires |keys| == |values|
    ensures |vals| == |keys|
    ensures forall i :: 0 <= i < |vals| ==> vals[i] == (keys[i], Num(values[i]))
  {
    seq(|keys|, i requires 0 <= i < |keys| => (keys[i], Num(values[i])))
  }

  /** `DEFAULT_AIRCRAFT_PRESETS`. */
  const DefaultPresets: Dict<string, Preset> := [
    ("172", Preset("Cessna 172", None,
      StandardParams([
        140.0, 25.0, 30.0, 90.0, 8.0, 8.0, 0.0, 12.0, 8.0, 15.0, 40.0, 10.0, 50.0, 75.0, 75.0,
        75.0, 40.0, 40.0, 100.0, 100.0, 190.0]))),
    ("A250", Preset("Comanche A250", None,
      StandardParams([
        310.0, 40.0, 45.0, 85.0, 18.0, 14.0, 2.0, 14.0, 10.0, 20.0, 65.0, 18.0, 70.0, 90.0, 90.0,
        90.0, 60.0, 60.0, 85.0, 80.0, 220.0]))),
    ("777", Preset("Boeing 777", Some("Heavy widebody airliner with moderate forces"),
      StandardParams([
        340.0, 45.0, 50.0, 85.0, 15.0, 12.0, 5.0, 18.0, 12.0, 25.0, 60.0, 15.0, 65.0, 85.0, 85.0,
        85.0, 55.0, 55.0, 90.0, 85.0, 350.0]))),
    ("737", Preset("Boeing 737", Some("Medium-haul narrow-body with crisp controls"),
      StandardParams([
        300.0, 35.0, 40.0, 80.0, 12.0, 15.0, 3.0, 16.0, 11.0, 22.0, 70.0, 20.0, 60.0, 80.0, 80.0,
        80.0, 50.0, 50.0, 95.0, 90.0, 180.0]))),
    ("Aerostar", Preset("Aerostar", None,
      StandardParams([
        800.0, 60.0, 65.0, 95.0, 25.0, 25.0, 0.0, 20.0, 15.0, 30.0, 80.0, 25.0, 80.0, 95.0, 95.0,
        95.0, 70.0, 70.0, 100.0, 100.0, 100.0]))),
    ("Cessna CitationX 750", Preset("Cessna CitationX 750", None,
      StandardParams([
        400.0, 30.0, 35.0, 88.0, 10.0, 18.0, 8.0, 15.0, 12.0, 25.0, 50.0, 30.0, 45.0, 70.0, 70.0,
        70.0, 30.0, 30.0, 100.0, 100.0, 340.0]))),
    ("C130", Preset("C-130 Hercules", Some("Military transport with heavy controls"),
      StandardParams([
        280.0, 50.0, 55.0, 82.0, 20.0, 10.0, 10.0, 20.0, 15.0, 30.0, 65.0, 35.0, 70.0, 85.0, 85.0,
        85.0, 55.0, 55.0, 85.0, 80.0, 380.0]))),
    ("CUSTOM", Preset("Custom Settings", Some("User-customizable preset"),
      []))
  ]

  /** `get_all_presets`: the built-in table updated with the user's presets. */
  function AllPresets(user: Dict<string, Preset>): (all: Dict<string, Preset>)
    requires Distinct(user)
    ensures Distinct(all)
    ensures forall k :: HasKey(all, k) <==> HasKey(DefaultPresets, k) || HasKey(user, k)
  {
    DefaultPresetsDistinct();
    UpdateDistinct(DefaultPresets, user);
    Update(DefaultPresets, user)
  }

  /** No built-in preset is named "" or "default", the names that select the built-in table. */
  lemma DefaultPresetNames(p: nat)
    requires p < |DefaultPresets|
    ensures DefaultPresets[p].0 != "" && DefaultPresets[p].0 != "default"
  {
    var d := DefaultPresets;
    assert forall i :: 0 <= i < |d| ==> |d[i].0| > 0 && d[i].0[0] != 'd';
  }

  lemma DefaultPresetsDistinct()
    ensures Distinct(DefaultPresets)
  {
    var d := DefaultPresets;
    assert forall i, j :: 0 <= i < j < |d| ==> d[i].0 != d[j].0;
  }

  /** `get_preset_names`: the built-in names first, in their order, then the user's new ones. */
  function PresetNames(user: Dict<string, Preset>): (names: seq<string>)
    requires Distinct(user)
    ensures |DefaultPresets| <= |names|
    ensures names[..|DefaultPresets|] == Keys(DefaultPresets)
    ensures forall k :: k in names <==> HasKey(DefaultPresets, k) || HasKey(user, k)
  {
    var all := AllPresets(user);
    UpdateKeysPrefix(DefaultPresets, user);
    KeysHasKey(all);
    Keys(all)
  }

  /** `get_preset`: `None` for an unknown name. */
  function GetPreset(user: Dict<string, Preset>, name: string): (r: Option<Preset>)
    requires Distinct(user)
    ensures r.Some? <==> HasKey(DefaultPresets, name) || HasKey(user, name)
  {
    Lookup(AllPresets(user), name)
  }

  /** A user preset shadows the built-in one of the same name; otherwise the built-in one is found. */
  lemma GetPresetUserWins(user: Dict<string, Preset>, name: string)
    requires Distinct(user)
    ensures HasKey(user, name) ==> GetPreset(user, name) == Some(Get(user, name))
    ensures !HasKey(user, name) ==> GetPreset(user, name) == Lookup(DefaultPresets, name)
  {
    DefaultPresetsDistinct();
    if HasKey(user, name) || HasKey(DefaultPresets, name) {
      UpdateGet(DefaultPresets, user, name);
    }
  }

  /**
   * The `saved_params` of `save_user_preset`: each parameter's `'value'`, under its name,
   * in the table's order (a repeated name keeps its first position and its last value).
   */
  function SavedValues(t: ParamTable): Dict<string, Value>
    decreases |t|
  {
    if t == [] then []
    else Put(SavedValues(t[..|t| - 1]), t[|t| - 1].0, t[|t| - 1].1.value)
  }

  /** Saving a dictionary keeps every name, in order, with its value. */
  lemma {:induction false} SavedValuesShape(t: ParamTable)
    requires Distinct(t)
    ensures |SavedValues(t)| == |t|
    ensures forall i :: 0 <= i < |t| ==> SavedValues(t)[i] == (t[i].0, t[i].1.value)
    ensures Distinct(SavedValues(t))
    decreases |t|
  {
    if t != [] {
      var p := t[..|t| - 1];
      var last := t[|t| - 1];
      SavedValuesShape(p);
      var s := SavedValues(p);
    }
  }

  /**
   * The loop of `apply_preset_to_params`: each `(name, value)` of the preset, in order,
   * written into the configuration of that name; names the table lacks are skipped.
   */
  function ApplyValues(t: ParamTable, vals: Dict<string, Value>): (r: ParamTable)
    ensures SameShape(t, r)
    decreases |vals|
  {
    if vals == [] then t
    else
      var mid := ApplyValues(t, vals[..|vals| - 1]);
      var r := SetValue(mid, vals[|vals| - 1].0, vals[|vals| - 1].1);
      SameShapeTrans(t, mid, r);
      r
  }

  /** Applying one more value sets it on the table built so far. */
  lemma ApplyValuesSnoc(t: ParamTable, vals: Dict<string, Value>, i: nat)
    requires i < |vals|
    ensures ApplyValues(t, vals[..i + 1]) == SetValue(ApplyValues(t, vals[..i]), vals[i].0, vals[i].1)
  {
    assert vals[..i + 1][..i] == vals[..i];
  }

  /** After applying, a parameter holds the preset's value for it, or its old value if the preset has none. */
  lemma {:induction false} ApplyValuesGet(t: ParamTable, vals: Dict<string, Value>, k: string)
    requires Distinct(t) && Distinct(vals) && HasKey(t, k)
    ensures HasKey(ApplyValues(t, vals), k)
    ensures ValueOf(ApplyValues(t, vals), k) == if HasKey(vals, k) then Get(vals, k) else ValueOf(t, k)
    decreases |vals|
  {
    var r := ApplyValues(t, vals);
    SameShapeKeys(t, r);
    if vals != [] {
      var p := vals[..|vals| - 1];
      var last := vals[|vals| - 1];
      var mid := ApplyValues(t, p);
      LastGet(vals, k);
      ApplyValuesGet(t, p, k);
      SameShapeKeys(t, mid);
      if HasKey(mid, last.0) {
        SetValueGet(mid, last.0, last.1, k);
      }
    }
  }

  /** `apply_preset_to_params` as a function: an unknown preset leaves the table as it is. */
  function ApplyPreset(user: Dict<string, Preset>, name: string, current: ParamTable): (r: ParamTable)
    requires Distinct(user)
    ensures SameShape(current, r)
    ensures GetPreset(user, name).None? ==> r == current
  {
    match GetPreset(user, name)
    case None => current
    case Some(p) => ApplyValues(current, p.params)
  }

  /**
   * Saving a table as a preset and applying that preset to any table of the same shape
   * gives back the saved table: presets capture every parameter value.
   */
  lemma SaveThenApply(user: Dict<string, Preset>, name: string, description: string, saved: ParamTable, target: ParamTable)
    requires Distinct(user) && Distinct(saved) && SameShape(saved, target)
    ensures var user' := Put(user, name, Preset(name, Some(description), SavedValues(saved)));
      Distinct(user') && ApplyPreset(user', name, target) == saved
  {
    var p := Preset(name, Some(description), SavedValues(saved));
    var user' := Put(user, name, p);
    PutDistinct(user, name, p);
    GetPresetUserWins(user', name);
    assert GetPreset(user', name) == Some(p);
    var s := SavedValues(saved);
    SavedValuesShape(saved);
    SameShapeKeys(saved, target);
    var r := ApplyValues(target, s);
    SameShapeKeys(target, r);
    forall i | 0 <= i < |saved| ensures r[i] == saved[i] {
      var k := saved[i].0;
      assert HasKey(target, k) by { assert target[i].0 == k; }
      ApplyValuesGet(target, s, k);
      assert HasKey(s, k) by { assert s[i].0 == k; }
      assert IndexOf(s, k) == i;
      assert IndexOf(r, k) == i;
    }
  }

  /** The user's presets, loaded from and saved to a JSON file. */
  class PresetManager {
    var userPresets: Dict<string, Preset>

    predicate Valid()
      reads this
    {
      Distinct(userPresets)
    }

    /**
     * `__init__` and `load_user_presets`: `loaded` is the file's content, `None` when the
     * file is missing or unreadable (the manager then starts with no user presets).
     */
    constructor (loaded: Option<Dict<string, Preset>>)
      requires loaded.Some? ==> Distinct(loaded.value)
      ensures Valid()
      ensures userPresets == if loaded.Some? then loaded.value else []
    {
      userPresets := if loaded.Some? then loaded.value else [];
    }

    /** `save_user_preset`: the values of `params` stored under `name`, replacing any preset of that name. */
    method SaveUserPreset(name: string, params: ParamTable, description: string)
      requires Valid()
      modifies this
      ensures Valid()
      ensures userPresets == Put(old(userPresets), name, Preset(name, Some(description), SavedValues(params)))
      ensures GetPreset(userPresets, name) == Some(Preset(name, Some(description), SavedValues(params)))
    {
      var saved: Dict<string, Value> := [];
      var i := 0;
      while i < |params|
        invariant 0 <= i <= |params|
        invariant saved == SavedValues(params[..i])
      {
        assert params[..i + 1][..i] == params[..i];
        saved := Put(saved, params[i].0, params[i].1.value);
        i := i + 1;
      }
      assert params[..|params|] == params;
      var p := Preset(name, Some(description), saved);
      PutDistinct(userPresets, name, p);
      userPresets := Put(userPresets, name, p);
      GetPresetUserWins(userPresets, name);
    }

    /** `delete_user_preset`: whether a user preset of that name existed; a built-in one of the name reappears. */
    method DeleteUserPreset(name: string) returns (deleted: bool)
      requires Valid()
      modifies this
      ensures Valid()
      ensures deleted == HasKey(old(userPresets), name)
      ensures userPresets == Remove(old(userPresets), name)
      ensures GetPreset(userPresets, name) == Lookup(DefaultPresets, name)
    {
      deleted := HasKey(userPresets, name);
      if deleted {
        userPresets := Remove(userPresets, name);
      } else {
        RemoveAbsent(userPresets, name);
      }
      RemoveDistinct(old(userPresets), name);
      GetPresetUserWins(userPresets, name);
    }

    /** `apply_preset_to_params`: a new table; the argument is not changed. */
    method ApplyPresetToParams(name: string, current: ParamTable) returns (updated: ParamTable)
      requires Valid()
      ensures updated == ApplyPreset(userPresets, name, current)
    {
      var preset := GetPreset(userPresets, name);
      if preset.None? {
        return current;
      }
      var vals := preset.value.params;
      updated := current;
      var i := 0;
      while i < |vals|
        invariant 0 <= i <= |vals|
        invariant updated == ApplyValues(current, vals[..i])
      {
        ApplyValuesSnoc(current, vals, i);
        if HasKey(updated, vals[i].0) {
          updated := SetValue(updated, vals[i].0, vals[i].1);
        }
        i := i + 1;
      }
      assert vals[..|vals|] == vals;
    }
  }
}
