/**
 * The bookkeeping of the joystick's force-feedback driver (fsffb/hardware/joystick_manager.py)
 * as a state machine on values. A `Driver` holds the connection flag, the table of
 * periodic (vibration) effects, the table of condition effects (damper, inertia,
 * friction), the set of effect slots in use and the log of reports written to the
 * device. Each operation of the driver is a function from the old `Driver` to the new
 * one; the `Joystick` module's class is proved to follow these functions.
 */
module EffectTables {
  import opened Wrappers
  import opened Dict
  import opened Numeric
  import opened HidReports

  /** A value of an effect's property dictionary: the driver reads numbers and the waveform name. */
  datatype PropValue = Num(x: real) | Text(s: string)
  type Props = map<string, PropValue>

  /** The `effects` dictionary handed to `apply_effects`: effect name to property dictionary. */
  type Effects = Dict<string, Props>

  predicate NumberAt(p: Props, key: string) {
    key in p ==> p[key].Num?
  }

  /** The properties the driver multiplies or compares hold numbers (otherwise Python raises). */
  predicate NumericProps(p: Props) {
    && NumberAt(p, "magnitude") && NumberAt(p, "frequency") && NumberAt(p, "direction")
    && NumberAt(p, "coef_x") && NumberAt(p, "coef_y") && NumberAt(p, "coefficient")
    && NumberAt(p, "cp_offset")
  }

  predicate WellFormed(e: Effects) {
    Distinct(e) && forall i :: 0 <= i < |e| ==> NumericProps(e[i].1)
  }

  /** `props.get(key, default)` for a numeric property. */
  function NumOr(p: Props, key: string, default: real): real
    requires NumberAt(p, key)
  {
    if key in p then p[key].x else default
  }

  /** `int(x * 4096)`: a fraction of full scale in device units, truncated toward zero. */
  function DeviceUnits(x: real): (n: int)
    ensures 0.0 <= x ==> 0 <= n && n as real <= x * 4096.0
    ensures x <= 0.0 ==> n <= 0 && x * 4096.0 <= n as real
    ensures x == 0.0 ==> n == 0
  {
    Trunc(x * 4096.0)
  }

  /**
   * `int(((90 - direction) % 360) * 255 / 360)`: the device's coordinate system is
   * reflected, so the angle is mirrored about 45 degrees before it is scaled to a byte.
   */
  function DirectionByte(degrees: real): (b: int)
    ensures 0 <= b <= 254
  {
    var c := FloorMod(90.0 - degrees, 360.0);
    var s := c * 255.0 / 360.0;
    assert 0.0 <= s < 255.0 by { DirectionScale(c); }
    Trunc(s)
  }

  lemma DirectionScale(c: real)
    requires 0.0 <= c < 360.0
    ensures 0.0 <= c * 255.0 / 360.0 < 255.0
  {
  }

  /** The effect type for a `'waveform'` name; anything unrecognised (or absent) is a sine. */
  function WaveformType(p: Props): (t: int)
    ensures t == EffectSquare || t == EffectSine || t == EffectSawtoothUp || t == EffectSawtoothDown
    ensures "waveform" !in p ==> t == EffectSine
    ensures t == EffectSquare <==> "waveform" in p && p["waveform"] == Text("square")
  {
    var w := if "waveform" in p then p["waveform"] else Text("sine");
    if w == Text("square") then EffectSquare
    else if w == Text("sine") then EffectSine
    else if w == Text("saw_up") then EffectSawtoothUp
    else if w == Text("saw_down") then EffectSawtoothDown
    else EffectSine
  }

  /** `int(1000 / freq)` milliseconds for a positive frequency, else 0. */
  function PeriodOf(p: Props): (ms: int)
    requires NumberAt(p, "frequency")
    ensures ms >= 0
    ensures NumOr(p, "frequency", 0.0) <= 0.0 ==> ms == 0
  {
    var f := NumOr(p, "frequency", 0.0);
    if f > 0.0 then Trunc(1000.0 / f) else 0
  }

  /** Condition effects sit on fixed slots equal to their PID effect types. */
  const ConditionTypes: map<string, int> := map["damper" := 9, "inertia" := 10, "friction" := 11]

  /** Slots 3-8, then 12-23: the dynamic pool, around the condition slots 9-11. */
  const DynamicPool: seq<int> := [3, 4, 5, 6, 7, 8, 12, 13, 14, 15, 16, 17, 18, 19, 20, 21, 22, 23]

  /** Slot 1 carries the springs, slot 2 the constant force. */
  const SpringSlot := 1
  const ConstantForceSlot := 2

  /** A tracked effect: the `{'slot', 'pending', 'props'}` and `{'slot', 'props'}` dictionaries. */
  datatype EffectState =
    | PeriodicState(slot: int, pending: bool, props: Props)
    | ConditionState(slot: int, props: Props)

  /** `state.get('pending')`: only a periodic state has the key. */
  predicate Pending(s: EffectState) {
    s.PeriodicState? && s.pending
  }

  datatype Driver = Driver(
    connected: bool,
    periodic: Dict<string, EffectState>,
    condition: Dict<string, EffectState>,
    used: set<int>,
    written: seq<Report>)

  /** `_write_report`: the device sees the report only while connected. */
  function Write(d: Driver, r: Report): Driver {
    d.(written := Logged(d, [r]))
  }

  /** The reports a sequence of writes leaves in the log. */
  function Logged(d: Driver, rs: seq<Report>): seq<Report> {
    if d.connected then d.written + rs else d.written
  }

  // ---------------------------------------------------------------- slot pool

  function FreeFrom(i: nat, used: set<int>): (r: Option<int>)
    requires i <= |DynamicPool|
    ensures r.Some? ==> r.value in DynamicPool[i..] && r.value !in used
    ensures r.Some? ==> forall j :: i <= j < |DynamicPool| && DynamicPool[j] < r.value ==> DynamicPool[j] in used
    ensures r.None? ==> forall j :: i <= j < |DynamicPool| ==> DynamicPool[j] in used
    decreases |DynamicPool| - i
  {
    if i == |DynamicPool| then None
    else if DynamicPool[i] !in used then
      assert forall j :: i < j < |DynamicPool| ==> DynamicPool[i] < DynamicPool[j];
      Some(DynamicPool[i])
    else FreeFrom(i + 1, used)
  }

  /**
   * `_allocate_dynamic_slot`'s choice: the lowest free slot of 3-8, then of 12-23, or
   * `None` once all eighteen are taken. It never hands out the spring slot 1, the
   * constant-force slot 2 or the condition slots 9-11.
   */
  function FreeSlot(used: set<int>): (r: Option<int>)
    ensures r.Some? ==> InPool(r.value) && r.value !in used
    ensures r.Some? ==> r.value != 1 && r.value != 2 && !(9 <= r.value <= 11)
    ensures r.Some? ==> forall s :: InPool(s) && s < r.value ==> s in used
    ensures r.None? <==> forall s :: InPool(s) ==> s in used
  {
    PoolMembers();
    FreeFrom(0, used)
  }

  predicate InPool(s: int) {
    3 <= s <= 8 || 12 <= s <= 23
  }

  lemma PoolMembers()
    ensures forall s :: s in DynamicPool <==> InPool(s)
    ensures forall j :: 0 <= j < |DynamicPool| ==> InPool(DynamicPool[j])
    ensures forall s :: InPool(s) ==> exists j :: 0 <= j < |DynamicPool| && DynamicPool[j] == s
  {
    forall s | InPool(s) ensures exists j :: 0 <= j < |DynamicPool| && DynamicPool[j] == s {
      var j := if s <= 8 then s - 3 else s - 6;
      assert DynamicPool[j] == s;
    }
  }

  // ---------------------------------------------------------------- requests

  /** `{name: props for name, props in effects.items() if 'frequency' in props}`. */
  function PeriodicRequests(e: Effects): (r: Effects)
    ensures forall i :: 0 <= i < |r| ==> r[i] in e && "frequency" in r[i].1
    ensures forall i :: 0 <= i < |e| && "frequency" in e[i].1 ==> e[i] in r
  {
    if e == [] then []
    else
      var rest := PeriodicRequests(e[..|e| - 1]);
      var last := e[|e| - 1];
      assert e == e[..|e| - 1] + [last];
      if "frequency" in last.1 then rest + [last] else rest
  }

  /** `{k: v for k, v in effects.items() if k in _COND_TYPE_MAP}`. */
  function ConditionRequests(e: Effects): (r: Effects)
    ensures forall i :: 0 <= i < |r| ==> r[i] in e && r[i].0 in ConditionTypes
    ensures forall i :: 0 <= i < |e| && e[i].0 in ConditionTypes ==> e[i] in r
  {
    if e == [] then []
    else
      var rest := ConditionRequests(e[..|e| - 1]);
      var last := e[|e| - 1];
      assert e == e[..|e| - 1] + [last];
      if last.0 in ConditionTypes then rest + [last] else rest
  }

  // ---------------------------------------------------------------- dropping vanished effects

  /** The slots of tracked effects a request no longer names. */
  function DroppedSlots(t: Dict<string, EffectState>, req: Effects): set<int> {
    if t == [] then {}
    else
      var last := t[|t| - 1];
      DroppedSlots(t[..|t| - 1], req) + if HasKey(req, last.0) then {} else {last.1.slot}
  }

  /** The Stop reports for those effects, in table order. */
  function DroppedStops(t: Dict<string, EffectState>, req: Effects): seq<Report> {
    if t == [] then []
    else
      var last := t[|t| - 1];
      DroppedStops(t[..|t| - 1], req) + if HasKey(req, last.0) then [] else [Stop(last.1.slot)]
  }

  /** The stop loop of `_update_periodic_effects`: pop, stop and release every vanished name. */
  function DropPeriodic(d: Driver, req: Effects): Driver {
    d.(periodic := Restrict(d.periodic, req),
       used := d.used - DroppedSlots(d.periodic, req),
       written := Logged(d, DroppedStops(d.periodic, req)))
  }

  /** The stop loop of `_update_condition_effects`. */
  function DropConditions(d: Driver, req: Effects): Driver {
    d.(condition := Restrict(d.condition, req),
       used := d.used - DroppedSlots(d.condition, req),
       written := Logged(d, DroppedStops(d.condition, req)))
  }

  // ---------------------------------------------------------------- periodic effects

  /** `_configure`: a Set Effect header and a Set Periodic block for one slot. */
  function Configure(d: Driver, slot: int, effectType: int, direction: int, magnitude: int, period: int): Driver {
    Write(Write(d, SetEffectHeader(slot, effectType, AxisEnableDir, direction)),
          SetPeriodic(slot, magnitude, 0, 0, period))
  }

  /** One name of the request loop of `_update_periodic_effects`. */
  function PeriodicStep(d: Driver, name: string, props: Props): Driver
    requires NumericProps(props)
  {
    var target := DeviceUnits(NumOr(props, "magnitude", 0.0));
    var period := PeriodOf(props);
    var effectType := WaveformType(props);
    var direction := DirectionByte(NumOr(props, "direction", 0.0));
    match Lookup(d.periodic, name)
    case None =>
      (match FreeSlot(d.used)
       case None => d
       case Some(slot) =>
         var d1 := Write(Configure(d.(used := d.used + {slot}), slot, effectType, direction, 0, period), Start(slot));
         d1.(periodic := Put(d1.periodic, name, PeriodicState(slot, true, props))))
    case Some(st) =>
      if Pending(st) then
        var d1 := Configure(d, st.slot, effectType, direction, target, period);
        d1.(periodic := Put(d1.periodic, name, PeriodicState(st.slot, false, props)))
      else if props != st.props then
        var d1 := Configure(d, st.slot, effectType, direction, target, period);
        d1.(periodic := Put(d1.periodic, name, st.(props := props)))
      else d
  }

  predicate AllNumeric(req: Effects) {
    forall i :: 0 <= i < |req| ==> NumericProps(req[i].1)
  }

  /** The request loop, over the requests in dictionary order. */
  function PeriodicFold(d: Driver, req: Effects): Driver
    requires AllNumeric(req)
  {
    if req == [] then d
    else
      var last := req[|req| - 1];
      PeriodicStep(PeriodicFold(d, req[..|req| - 1]), last.0, last.1)
  }

  /** `_update_periodic_effects(effects)`. */
  function UpdatePeriodic(d: Driver, e: Effects): Driver
    requires WellFormed(e)
  {
    var req := PeriodicRequests(e);
    PeriodicFold(DropPeriodic(d, req), req)
  }

  // ---------------------------------------------------------------- condition effects

  /** `int(props.get(key, props.get('coefficient', 0.0)) * 4096)`. */
  function CoefficientUnits(p: Props, key: string): int
    requires NumericProps(p) && NumberAt(p, key)
  {
    DeviceUnits(NumOr(p, key, NumOr(p, "coefficient", 0.0)))
  }

  /** The X (offset 0) and Y (offset 1) Set Condition blocks of a condition effect. */
  function ConditionBlocks(slot: int, props: Props): seq<Report>
    requires NumericProps(props)
  {
    [Condition(slot, 0, 0, CoefficientUnits(props, "coef_x")),
     Condition(slot, 1, 0, CoefficientUnits(props, "coef_y"))]
  }

  /** One name of the request loop of `_update_condition_effects`. */
  function ConditionStep(d: Driver, name: string, props: Props): Driver
    requires name in ConditionTypes && NumericProps(props)
  {
    var slot := ConditionTypes[name];
    var blocks := ConditionBlocks(slot, props);
    match Lookup(d.condition, name)
    case None =>
      if slot in d.used then d
      else
        var header := SetEffectHeader(slot, slot, AxisEnableX + AxisEnableY, 0);
        var d1 := Write(Write(Write(Write(d.(used := d.used + {slot}), header), blocks[0]), blocks[1]), Start(slot));
        d1.(condition := Put(d1.condition, name, ConditionState(slot, props)))
    case Some(st) =>
      if props != st.props then
        var b := ConditionBlocks(st.slot, props);
        var d1 := Write(Write(d, b[0]), b[1]);
        d1.(condition := Put(d1.condition, name, ConditionState(st.slot, props)))
      else d
  }

  predicate ConditionNamed(req: Effects) {
    forall i :: 0 <= i < |req| ==> req[i].0 in ConditionTypes && NumericProps(req[i].1)
  }

  function ConditionFold(d: Driver, req: Effects): Driver
    requires ConditionNamed(req)
  {
    if req == [] then d
    else
      var last := req[|req| - 1];
      ConditionStep(ConditionFold(d, req[..|req| - 1]), last.0, last.1)
  }

  /** `_update_condition_effects(effects)`. */
  function UpdateConditions(d: Driver, e: Effects): Driver
    requires WellFormed(e)
  {
    var req := ConditionRequests(e);
    ConditionFold(DropConditions(d, req), req)
  }

  // ---------------------------------------------------------------- constant force, springs

  /** `_send_constant_force_effect`: header, magnitude, start, all on slot 2. */
  function ConstantForceReports(props: Props): seq<Report>
    requires NumericProps(props)
  {
    [SetEffectHeader(ConstantForceSlot, EffectConstant, AxisEnableDir, DirectionByte(NumOr(props, "direction", 0.0))),
     SetConstantForce(ConstantForceSlot, DeviceUnits(NumOr(props, "magnitude", 0.0))),
     Start(ConstantForceSlot)]
  }

  function WriteAll(d: Driver, rs: seq<Report>): Driver
    decreases |rs|
  {
    if rs == [] then d else WriteAll(Write(d, rs[0]), rs[1..])
  }

  /** `_send_spring_effect(axis, props)`'s report: slot 1, parameter block `axis`. */
  function SpringReport(axis: int, props: Props): Report
    requires NumericProps(props)
  {
    Condition(SpringSlot, axis, DeviceUnits(NumOr(props, "cp_offset", 0.0)),
              DeviceUnits(NumOr(props, "coefficient", 0.0)))
  }

  /** `effects.get(key, {'coefficient': 0, 'cp_offset': 0})`. */
  function SpringProps(e: Effects, key: string): (p: Props)
    ensures WellFormed(e) ==> NumericProps(p)
  {
    Lookup(e, key).GetOr(map["coefficient" := Num(0.0), "cp_offset" := Num(0.0)])
  }

  /** The reports `apply_effects` sends for the constant force: its three, or a Stop on slot 2. */
  function ConstantForceTail(e: Effects): seq<Report>
    requires WellFormed(e)
  {
    if HasKey(e, "constant_force") then
      ConstantForceNumeric(e);
      ConstantForceReports(Get(e, "constant_force"))
    else [Stop(ConstantForceSlot)]
  }

  lemma ConstantForceNumeric(e: Effects)
    requires WellFormed(e) && HasKey(e, "constant_force")
    ensures NumericProps(Get(e, "constant_force"))
  {
  }

  /** `apply_effects(effects)`. The spring reports go to the device without `_write_report`'s check. */
  function ApplyEffects(d: Driver, e: Effects): (r: Driver)
    requires WellFormed(e)
    ensures !d.connected ==> r == d
    ensures d.connected ==> (|r.written| >= 2 &&
      r.written[|r.written| - 2..] == [SpringReport(0, SpringProps(e, "spring_x")), SpringReport(1, SpringProps(e, "spring_y"))])
  {
    if !d.connected then d
    else
      var d1 := UpdateConditions(UpdatePeriodic(d, e), e);
      var d2 := if HasKey(e, "constant_force") then
                  ConstantForceNumeric(e);
                  WriteAll(d1, ConstantForceReports(Get(e, "constant_force")))
                else Write(d1, Stop(ConstantForceSlot));
      d2.(written := d2.written + [SpringReport(0, SpringProps(e, "spring_x")), SpringReport(1, SpringProps(e, "spring_y"))])
  }

  /** `stop_all_effects`: the stop loops with nothing requested, then a Stop on slot 2. */
  function StopAll(d: Driver): (r: Driver)
    ensures !d.connected ==> r == d
    ensures r.connected == d.connected
    ensures d.connected ==> |r.written| > |d.written| && r.written[..|d.written|] == d.written
    ensures d.connected ==> r.written[|r.written| - 1] == Stop(ConstantForceSlot)
  {
    if !d.connected then d
    else Write(DropConditions(DropPeriodic(d, []), []), Stop(ConstantForceSlot))
  }
}
