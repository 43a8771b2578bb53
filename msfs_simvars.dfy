/**
 * The simulation variables the MSFS manager subscribes to (fsffb/telemetry/msfs_manager.py):
 * a single `SimVar`, a `SimVarArray` of related variables, the value transformation applied
 * to every reading, and the default subscription table.
 *
 * A Python object whose identity matters only through the table that holds it is a value
 * here; the `parent` back-reference of an array element is implied by the array that holds
 * it (and, once subscribed, by the name of that array).
 */
module MsfsSimVars {
  import opened Wrappers
  import opened Dict
  import opened Text

  /** SimConnect's `DATATYPE_*` constants that the manager uses. */
  datatype DataType = Float64 | Float32 | Int32 | String32 | String128

  /** A reading: a number (SimConnect's doubles, floats and longs) or a decoded string. */
  datatype SimValue = Num(x: real) | Str(s: string)

  /** `SimVar`: `variable` is the SimConnect name (the source's `var`), `scUnit` its unit. */
  datatype SimVar = SimVar(
    name: string,
    variable: string,
    scUnit: string,
    unit: Option<string>,
    dataType: DataType,
    scale: Option<real>,
    mutator: Option<SimValue -> SimValue>,
    index: Option<int>)

  /** Units SimConnect delivers as integers. */
  predicate ForcesInt32(scUnit: string) {
    Lower(scUnit) == "bool" || Lower(scUnit) == "enum"
  }

  /** `SimVar.__init__`: the data type becomes INT32 for a `bool` or `enum` unit, in any case. */
  function NewSimVar(name: string, variable: string, scUnit: string, unit: Option<string>,
                     dataType: DataType, scale: Option<real>, mutator: Option<SimValue -> SimValue>): (sv: SimVar)
    ensures sv.name == name && sv.variable == variable && sv.scUnit == scUnit && sv.unit == unit
    ensures sv.scale == scale && sv.mutator == mutator && sv.index == None
    ensures ForcesInt32(scUnit) ==> sv.dataType == Int32
    ensures !ForcesInt32(scUnit) ==> sv.dataType == dataType
  {
    SimVar(name, variable, scUnit, unit, if ForcesInt32(scUnit) then Int32 else dataType, scale, mutator, None)
  }

  /** The unit test is case-insensitive and exact: "Bool" and "ENUM" qualify, "Boolean" does not. */
  lemma Int32Units()
    ensures ForcesInt32("Bool") && ForcesInt32("Enum") && ForcesInt32("BOOL") && ForcesInt32("enum")
  {
    assert Lower("Bool") == "bool";
    assert Lower("Enum") == "enum";
    assert Lower("BOOL") == "bool";
    assert Lower("enum") == "enum";
  }

  /** Other units, including longer words that start with "bool", keep the declared data type. */
  lemma OtherUnitsNotInt32()
    ensures !ForcesInt32("Number") && !ForcesInt32("Boolean") && !ForcesInt32("")
  {
    assert |Lower("Number")| == 6;
    assert |Lower("Boolean")| == 7;
  }

  // ---------------------------------------------------------------- _calculate

  /** The reading after the mutator, when there is one. */
  function Mutated(sv: SimVar, input: SimValue): SimValue {
    if sv.mutator.Some? then sv.mutator.value(input) else input
  }

  /** `if self.scale:` -- an absent or zero scale is skipped. */
  predicate Scales(sv: SimVar) {
    sv.scale.Some? && sv.scale.value != 0.0
  }

  /** `input * self.scale` for a number. */
  function Times(x: real, scale: real): real {
    x * scale
  }

  /**
   * `_calculate`: the mutator first, then the scale. Scaling a string raises TypeError
   * (None here), which the packet handler does not catch.
   */
  function Calculate(sv: SimVar, input: SimValue): (r: Option<SimValue>)
    ensures r.None? <==> Scales(sv) && Mutated(sv, input).Str?
    ensures r.Some? && !Scales(sv) ==> r.value == Mutated(sv, input)
    ensures Scales(sv) && Mutated(sv, input).Num? ==> r == Some(Num(Times(Mutated(sv, input).x, sv.scale.value)))
  {
    if sv.scale.Some? && sv.scale.value != 0.0 then
      if Mutated(sv, input).Num? then Some(Num(Times(Mutated(sv, input).x, sv.scale.value))) else None
    else Some(Mutated(sv, input))
  }

  /** Without mutator and scale a reading passes through unchanged. */
  lemma CalculateIdentity(sv: SimVar, input: SimValue)
    requires sv.mutator.None? && !Scales(sv)
    ensures Calculate(sv, input) == Some(input)
  {
  }

  /** The order: `_calculate` is the scale-only calculation applied to the mutated reading. */
  lemma CalculateMutatesFirst(sv: SimVar, input: SimValue)
    ensures Calculate(sv, input) == Calculate(sv.(mutator := None), Mutated(sv, input))
  {
    var m := Mutated(sv, input);
    assert Mutated(sv.(mutator := None), m) == m;
  }

  // ---------------------------------------------------------------- surface types

  /** `surface_types`, by code. */
  const SurfaceTypes: seq<string> := [
    "Concrete", "Grass", "Water", "Grass_bumpy", "Asphalt",
    "Short_grass", "Long_grass", "Hard_turf", "Snow", "Ice",
    "Urban", "Forest", "Dirt", "Coral", "Gravel",
    "Oil_treated", "Steel_mats", "Bituminus", "Brick",
    "Macadam", "Planks", "Sand", "Shale", "Tarmac",
    "Wright flyer track"]

  /** Whether a reading is one of the integer codes of `surface_types`. */
  predicate IsSurfaceCode(v: SimValue) {
    v.Num? && v.x.Floor as real == v.x && 0 <= v.x.Floor < |SurfaceTypes|
  }

  /** The SurfaceType mutator, `surface_types.get(x, "unknown")`. */
  function SurfaceName(v: SimValue): (r: SimValue)
    ensures r.Str?
    ensures IsSurfaceCode(v) ==> r.s == SurfaceTypes[v.x.Floor]
    ensures !IsSurfaceCode(v) ==> r.s == "unknown"
  {
    if IsSurfaceCode(v) then Str(SurfaceTypes[v.x.Floor]) else Str("unknown")
  }

  /** Codes 0..24 name the 25 surfaces; any other number is "unknown", never a surface name. */
  lemma SurfaceNames(n: int)
    ensures 0 <= n < 25 ==> SurfaceName(Num(n as real)) == Str(SurfaceTypes[n])
    ensures !(0 <= n < 25) ==> SurfaceName(Num(n as real)) == Str("unknown")
    ensures "unknown" !in SurfaceTypes
  {
    assert |SurfaceTypes| == 25;
    assert (n as real).Floor == n;
  }

  // ---------------------------------------------------------------- arrays

  /** `SimVarArray`; `unit` is the SimConnect unit of every element. */
  datatype SimVarArray = SimVarArray(
    name: string,
    variable: string,
    unit: string,
    dataType: DataType,
    scale: Option<real>,
    min: int,
    max: int,
    keywords: Option<seq<string>>,
    vars: seq<SimVar>,
    values: seq<SimValue>)

  /** `if keywords:` -- an empty keyword list falls back to the numeric range. */
  predicate UsesKeywords(keywords: Option<seq<string>>) {
    keywords.Some? && keywords.value != []
  }

  /** One element per keyword, or one per number of `range(min, max + 1)`. */
  function ElementCount(min: int, max: int, keywords: Option<seq<string>>): nat {
    if UsesKeywords(keywords) then |keywords.value|
    else if max >= min then max - min + 1
    else 0
  }

  /** The SimConnect name of element `i`: `"<>"` replaced by the keyword, or `var:n`. */
  function ElementVariable(variable: string, min: int, keywords: Option<seq<string>>, i: nat): string
    requires UsesKeywords(keywords) ==> i < |keywords.value|
  {
    if UsesKeywords(keywords) then Replace(variable, "<>", keywords.value[i])
    else variable + ":" + IntToString(min + i)
  }

  /** Element `i` of an array: a SimVar named after the array, with index `i`. */
  function Element(name: string, variable: string, unit: string, dataType: DataType, scale: Option<real>,
                   min: int, keywords: Option<seq<string>>, i: nat): SimVar
    requires UsesKeywords(keywords) ==> i < |keywords.value|
  {
    NewSimVar(name, ElementVariable(variable, min, keywords, i), unit, None, dataType, scale, None).(index := Some(i))
  }

  /** The array `SimVarArray(...)` constructs. */
  function ArrayOf(name: string, variable: string, unit: string, dataType: DataType, scale: Option<real>,
                   min: int, max: int, keywords: Option<seq<string>>): (a: SimVarArray)
    ensures a.name == name && a.variable == variable && a.unit == unit && a.dataType == dataType
    ensures a.scale == scale && a.min == min && a.max == max && a.keywords == keywords
    ensures |a.vars| == |a.values| == ElementCount(min, max, keywords)
    ensures WellIndexed(a)
  {
    var n := ElementCount(min, max, keywords);
    SimVarArray(name, variable, unit, dataType, scale, min, max, keywords,
      seq(n, i requires 0 <= i < n => Element(name, variable, unit, dataType, scale, min, keywords, i)),
      seq(n, i => Num(0.0)))
  }

  /** Every element sits at its own index: what lets a reading find its slot in `values`. */
  predicate WellIndexed(a: SimVarArray) {
    |a.values| == |a.vars| && forall i :: 0 <= i < |a.vars| ==> a.vars[i].index == Some(i)
  }

  /**
   * A fresh array: elements named after the array, at their own index, with the array's
   * unit, scale and type (INT32 for bool/enum units), no mutator, and every value 0.
   */
  lemma ArrayOfElements(name: string, variable: string, unit: string, dataType: DataType, scale: Option<real>,
                        min: int, max: int, keywords: Option<seq<string>>)
    ensures var a := ArrayOf(name, variable, unit, dataType, scale, min, max, keywords);
      WellIndexed(a) &&
      (forall i :: 0 <= i < |a.vars| ==>
        a.vars[i].name == name && a.vars[i].scUnit == unit && a.vars[i].scale == scale &&
        a.vars[i].mutator.None? && a.vars[i].unit.None? &&
        a.vars[i].dataType == (if ForcesInt32(unit) then Int32 else dataType)) &&
      (forall i :: 0 <= i < |a.values| ==> a.values[i] == Num(0.0))
  {
  }

  /** With keywords, element `i` is the variable with `"<>"` replaced by the `i`-th keyword. */
  lemma KeywordElements(name: string, variable: string, unit: string, dataType: DataType, scale: Option<real>,
                        min: int, max: int, keywords: seq<string>, i: nat)
    requires i < |keywords|
    ensures var a := ArrayOf(name, variable, unit, dataType, scale, min, max, Some(keywords));
      i < |a.vars| && a.vars[i].variable == Replace(variable, "<>", keywords[i]) && a.vars[i].index == Some(i)
  {
  }

  /** Without keywords, `var:k` for each `k` in `[min, max]` is the element at index `k - min`. */
  lemma RangeElements(name: string, variable: string, unit: string, dataType: DataType, scale: Option<real>,
                      min: int, max: int, keywords: Option<seq<string>>, k: int)
    requires !UsesKeywords(keywords) && min <= k <= max
    ensures var a := ArrayOf(name, variable, unit, dataType, scale, min, max, keywords);
      k - min < |a.vars| && a.vars[k - min].variable == variable + ":" + IntToString(k) &&
      a.vars[k - min].index == Some(k - min)
  {
  }

  /** The keyword loop of the `SimVarArray` constructor. */
  method BuildKeywordElements(name: string, variable: string, unit: string, dataType: DataType,
                              scale: Option<real>, min: int, keywords: seq<string>) returns (vars: seq<SimVar>)
    requires keywords != []
    ensures |vars| == |keywords|
    ensures forall j :: 0 <= j < |vars| ==> vars[j] == Element(name, variable, unit, dataType, scale, min, Some(keywords), j)
  {
    vars := [];
    var i := 0;
    while i < |keywords|
      invariant 0 <= i <= |keywords| && |vars| == i
      invariant forall j :: 0 <= j < i ==> vars[j] == Element(name, variable, unit, dataType, scale, min, Some(keywords), j)
    {
      var v := NewSimVar(name, Replace(variable, "<>", keywords[i]), unit, None, dataType, scale, None);
      v := v.(index := Some(i));
      assert v == Element(name, variable, unit, dataType, scale, min, Some(keywords), i);
      vars := vars + [v];
      i := i + 1;
    }
  }

  /** The `range(min, max + 1)` loop of the `SimVarArray` constructor. */
  method BuildRangeElements(name: string, variable: string, unit: string, dataType: DataType,
                            scale: Option<real>, min: int, max: int, keywords: Option<seq<string>>) returns (vars: seq<SimVar>)
    requires !UsesKeywords(keywords)
    ensures |vars| == ElementCount(min, max, keywords)
    ensures forall j :: 0 <= j < |vars| ==> vars[j] == Element(name, variable, unit, dataType, scale, min, keywords, j)
  {
    vars := [];
    var k := min;
    while k < max + 1
      invariant min <= k && (k <= max + 1 || k == min)
      invariant |vars| == k - min
      invariant forall j :: 0 <= j < k - min ==> vars[j] == Element(name, variable, unit, dataType, scale, min, keywords, j)
    {
      var v := NewSimVar(name, variable + ":" + IntToString(k), unit, None, dataType, scale, None);
      v := v.(index := Some(k - min));
      RangeElement(name, variable, unit, dataType, scale, min, keywords, k);
      ghost var prev := vars;
      vars := vars + [v];
      forall j | 0 <= j < k + 1 - min ensures vars[j] == Element(name, variable, unit, dataType, scale, min, keywords, j) {
        if j < k - min {
          assert vars[j] == prev[j];
        }
      }
      k := k + 1;
    }
  }

  /** The element the range loop builds for `k` is element `k - min` of the array. */
  lemma RangeElement(name: string, variable: string, unit: string, dataType: DataType,
                     scale: Option<real>, min: int, keywords: Option<seq<string>>, k: int)
    requires !UsesKeywords(keywords) && min <= k
    ensures NewSimVar(name, variable + ":" + IntToString(k), unit, None, dataType, scale, None).(index := Some(k - min))
         == Element(name, variable, unit, dataType, scale, min, keywords, k - min)
  {
    assert min + (k - min) == k;
  }

  /** The `SimVarArray` constructor: one element and one zero value per keyword or number. */
  method BuildArray(name: string, variable: string, unit: string, dataType: DataType, scale: Option<real>,
                    min: int, max: int, keywords: Option<seq<string>>) returns (a: SimVarArray)
    ensures a == ArrayOf(name, variable, unit, dataType, scale, min, max, keywords)
  {
    var vars: seq<SimVar>;
    if UsesKeywords(keywords) {
      vars := BuildKeywordElements(name, variable, unit, dataType, scale, min, keywords.value);
    } else {
      vars := BuildRangeElements(name, variable, unit, dataType, scale, min, max, keywords);
    }
    var values := seq(|vars|, j => Num(0.0));
    a := SimVarArray(name, variable, unit, dataType, scale, min, max, keywords, vars, values);
    assert a.vars == ArrayOf(name, variable, unit, dataType, scale, min, max, keywords).vars;
  }

  /** `clone`: a fresh array with the same configuration (elements and values rebuilt). */
  function Clone(a: SimVarArray): (c: SimVarArray)
    ensures c.name == a.name
  {
    ArrayOf(a.name, a.variable, a.unit, a.dataType, a.scale, a.min, a.max, a.keywords)
  }

  /**
   * A clone forgets what was done to the original's elements and values; cloning a fresh
   * array gives an equal array, and cloning twice is cloning once.
   */
  lemma CloneProperties(a: SimVarArray, vars: seq<SimVar>, values: seq<SimValue>)
    ensures Clone(a.(vars := vars, values := values)) == Clone(a)
    ensures Clone(Clone(a)) == Clone(a)
    ensures WellIndexed(Clone(a))
    ensures forall i :: 0 <= i < |Clone(a).values| ==> Clone(a).values[i] == Num(0.0)
    ensures a == ArrayOf(a.name, a.variable, a.unit, a.dataType, a.scale, a.min, a.max, a.keywords) ==> Clone(a) == a
  {
    ArrayOfElements(a.name, a.variable, a.unit, a.dataType, a.scale, a.min, a.max, a.keywords);
  }

  // ---------------------------------------------------------------- the subscription table

  /** An entry of the table: a single variable or an array. */
  datatype Entry = Plain(sv: SimVar) | Array(arr: SimVarArray)

  function EntryName(e: Entry): string {
    match e
    case Plain(sv) => sv.name
    case Array(a) => a.name
  }

  /** Every array of a table has its elements at their own indices. */
  predicate WellFormed(entries: seq<Entry>) {
    forall i :: 0 <= i < |entries| && entries[i].Array? ==> WellIndexed(entries[i].arr)
  }

  /**
   * A line of `_get_default_simvars`: a SimVar with its unit, data type and mutator, an array
   * over keywords (with its scale), or an array over a numeric range.
   */
  datatype DefaultRow =
    | VarRow(name: string, variable: string, scUnit: string, dataType: DataType, mutator: Option<SimValue -> SimValue>)
    | KeywordRow(name: string, variable: string, unit: string, scale: Option<real>, keywords: seq<string>)
    | RangeRow(name: string, variable: string, unit: string, min: int, max: int)

  /** The object a line of `_get_default_simvars` constructs. */
  function BuildDefault(row: DefaultRow): (e: Entry)
    ensures EntryName(e) == row.name
    ensures e.Array? <==> !row.VarRow?
    ensures e.Array? ==> WellIndexed(e.arr)
  {
    match row
    case VarRow(name, variable, scUnit, dataType, mutator) =>
      Plain(NewSimVar(name, variable, scUnit, None, dataType, None, mutator))
    case KeywordRow(name, variable, unit, scale, keywords) =>
      Array(ArrayOf(name, variable, unit, Float64, scale, 0, 1, Some(keywords)))
    case RangeRow(name, variable, unit, min, max) =>
      Array(ArrayOf(name, variable, unit, Float64, None, min, max, None))
  }

  /** `_get_default_simvars`, line by line; "SideSlip" and "Heading" occur twice. */
  const DefaultRows: seq<DefaultRow> := FirstRows + LaterRows

  /** The lines of `_get_default_simvars` up to the first "Heading". */
  const FirstRows: seq<DefaultRow> := [
    VarRow("T", "ABSOLUTE TIME", "Seconds", Float64, None),
    VarRow("N", "TITLE", "", String128, None),
    VarRow("G", "G FORCE", "Number", Float64, None),
    KeywordRow("VelRotBody", "ROTATION VELOCITY BODY <>", "degrees per second", None, ["X", "Y", "Z"]),
    KeywordRow("AccBody", "ACCELERATION BODY <>", "feet per second squared", Some(0.031081), ["X", "Y", "Z"]),
    VarRow("AoA", "INCIDENCE ALPHA", "degrees", Float64, None),
    VarRow("SideSlip", "INCIDENCE BETA", "degrees", Float64, None),
    VarRow("Pitch", "PLANE PITCH DEGREES", "degrees", Float64, None),
    VarRow("Roll", "PLANE BANK DEGREES", "degrees", Float64, None),
    VarRow("Heading", "PLANE HEADING DEGREES TRUE", "degrees", Float64, None)
  ]

  /** The rest of `_get_default_simvars`, from "TAS" on. */
  const LaterRows: seq<DefaultRow> := [
    VarRow("TAS", "AIRSPEED TRUE", "meter/second", Float64, None),
    VarRow("IAS", "AIRSPEED INDICATED", "meter/second", Float64, None),
    VarRow("AirDensity", "AMBIENT DENSITY", "kilograms per cubic meter", Float64, None),
    VarRow("DynPressure", "DYNAMIC PRESSURE", "pascal", Float64, None),
    VarRow("StallAoA", "STALL ALPHA", "degrees", Float64, None),
    VarRow("ElevDefl", "ELEVATOR DEFLECTION", "degrees", Float64, None),
    VarRow("ElevDeflPct", "ELEVATOR DEFLECTION PCT", "Percent Over 100", Float64, None),
    VarRow("AileronDefl", "AILERON AVERAGE DEFLECTION", "degrees", Float64, None),
    KeywordRow("AileronDeflPctLR", "AILERON <> DEFLECTION PCT", "Percent Over 100", None, ["LEFT", "RIGHT"]),
    VarRow("RudderDefl", "RUDDER DEFLECTION", "degrees", Float64, None),
    VarRow("RudderDeflPct", "RUDDER DEFLECTION PCT", "Percent Over 100", Float64, None),
    VarRow("ElevTrim", "ELEVATOR TRIM POSITION", "degrees", Float64, None),
    VarRow("ElevTrimPct", "ELEVATOR TRIM PCT", "Percent Over 100", Float64, None),
    VarRow("ElevTrimDnLmt", "ELEVATOR TRIM DOWN LIMIT", "degrees", Float64, None),
    VarRow("ElevTrimUpLmt", "ELEVATOR TRIM UP LIMIT", "degrees", Float64, None),
    VarRow("ElevTrimNeutral", "ELEVATOR TRIM NEUTRAL", "degrees", Float64, None),
    VarRow("AileronTrim", "AILERON TRIM", "degrees", Float64, None),
    VarRow("AileronTrimPct", "AILERON TRIM PCT", "Percent Over 100", Float64, None),
    VarRow("CameraState", "CAMERA STATE", "Enum", Float64, None),
    VarRow("GroundSpeed", "GROUND VELOCITY", "meter/second", Float64, None),
    VarRow("SimOnGround", "SIM ON GROUND", "Bool", Float64, None),
    VarRow("Parked", "PLANE IN PARKING STATE", "Bool", Float64, None),
    VarRow("Slew", "IS SLEW ACTIVE", "Bool", Float64, None),
    VarRow("SurfaceType", "SURFACE TYPE", "Enum", Float64, Some(SurfaceName)),
    VarRow("EngineType", "ENGINE TYPE", "Enum", Float64, None),
    VarRow("NumEngines", "NUMBER OF ENGINES", "Number", Int32, None),
    RangeRow("WeightOnWheels", "CONTACT POINT COMPRESSION", "Number", 0, 2),
    VarRow("APMaster", "AUTOPILOT MASTER", "Bool", Float64, None),
    RangeRow("PropThrust", "PROP THRUST", "pounds", 0, 3),
    VarRow("SideSlip", "INCIDENCE BETA", "degrees", Float64, None),
    VarRow("WindX", "AMBIENT WIND X", "meter/second", Float64, None),
    VarRow("WindY", "AMBIENT WIND Y", "meter/second", Float64, None),
    VarRow("WindZ", "AMBIENT WIND Z", "meter/second", Float64, None),
    VarRow("WindDirection", "AMBIENT WIND DIRECTION", "degrees", Float64, None),
    VarRow("WindVelocity", "AMBIENT WIND VELOCITY", "meter/second", Float64, None),
    VarRow("Heading", "PLANE HEADING DEGREES TRUE", "radians", Float64, None)
  ]

  /** The default table the manager starts from. */
  function DefaultSimVars(): (entries: seq<Entry>)
    ensures |entries| == |DefaultRows|
    ensures forall i :: 0 <= i < |entries| ==> entries[i] == BuildDefault(DefaultRows[i])
  {
    BuildAll(DefaultRows)
  }

  /** The objects the given lines construct, in order. */
  function BuildAll(rows: seq<DefaultRow>): (entries: seq<Entry>)
    ensures |entries| == |rows|
    ensures forall i :: 0 <= i < |rows| ==> entries[i] == BuildDefault(rows[i])
  {
    seq(|rows|, i requires 0 <= i < |rows| => BuildDefault(rows[i]))
  }

  /** `{sv.name: sv for sv in entries}`. */
  function ByName(entries: seq<Entry>): (d: Dict<string, Entry>)
    ensures |d| == |entries|
    ensures forall i :: 0 <= i < |entries| ==> d[i] == (EntryName(entries[i]), entries[i])
  {
    seq(|entries|, i requires 0 <= i < |entries| => (EntryName(entries[i]), entries[i]))
  }

  /** Every array of the default table is well indexed. */
  lemma DefaultsWellFormed()
    ensures WellFormed(DefaultSimVars())
  {
  }

  /** "Heading" is listed twice: in degrees (line 157) and, last of all, in radians (line 202). */
  lemma DefaultHeadingRows()
    ensures |DefaultSimVars()| == 46
    ensures EntryName(DefaultSimVars()[45]) == "Heading"
    ensures DefaultSimVars()[45].Plain? && DefaultSimVars()[45].sv.scUnit == "radians"
    ensures DefaultRows[9].VarRow? && DefaultRows[9].name == "Heading" && DefaultRows[9].scUnit == "degrees"
  {
    var row := DefaultRows[45];
    assert |DefaultRows| == 46;
    assert row == VarRow("Heading", "PLANE HEADING DEGREES TRUE", "radians", Float64, None);
    assert DefaultSimVars()[45] == BuildDefault(row);
    assert DefaultRows[9] == FirstRows[9];
  }

  /** Of the two "Heading" defaults the later one, in radians, is the one the name resolves to. */
  lemma DefaultHeadingIsRadians()
    ensures HasKey(FromList(ByName(DefaultSimVars())), "Heading")
    ensures Get(FromList(ByName(DefaultSimVars())), "Heading") == DefaultSimVars()[|DefaultSimVars()| - 1]
    ensures DefaultSimVars()[|DefaultSimVars()| - 1].sv.scUnit == "radians"
  {
    DefaultHeadingRows();
    var b := ByName(DefaultSimVars());
    assert b[45].0 == "Heading";
    UpdateLastWins([], b, 45);
  }
}
