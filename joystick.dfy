/**
 * `JoystickManager` of the joystick driver as a class: its fields are the ones the
 * driver updates in place, and every method is proved to leave exactly the state that
 * the matching `EffectTables` function computes from the old state. `Valid()` is the
 * slot invariant of `EffectInvariants`, kept by every method.
 */
module Joystick {
  import opened Wrappers
  import opened Dict
  import opened HidReports
  import opened EffectTables
  import opened EffectInvariants

  /** What `_parse_input_report` does with one input report. */
  datatype InputParse =
    | Axes(x: real, y: real)   // report id 1: new stick position
    | Ignored                  // any other report id: the axes stay as they are
    | IndexError               // report id 1 shorter than five bytes: Python raises

  /**
   * The axes of an input report: bytes 1-2 and 3-4 are little-endian signed 16-bit X
   * and Y, divided by 4096.
   */
  function ParseInput(report: seq<Byte>): (p: InputParse)
    requires |report| >= 1
    ensures p.Ignored? <==> report[0] != 1
    ensures p.IndexError? <==> report[0] == 1 && |report| < 5
    ensures p.Axes? ==> -8.0 <= p.x < 8.0 && -8.0 <= p.y < 8.0
  {
    if report[0] != 1 then Ignored
    else if |report| < 5 then IndexError
    else Axes(ReadI16(report[1], report[2]) as real / 4096.0, ReadI16(report[3], report[4]) as real / 4096.0)
  }

  /** Any signed 16-bit pair written as an id-1 report reads back as that pair over 4096. */
  lemma InputRoundTrip(x: int, y: int, rest: seq<Byte>)
    requires IsI16(x) && IsI16(y)
    ensures ParseInput([1] + Le16(x) + Le16(y) + rest) == Axes(x as real / 4096.0, y as real / 4096.0)
  {
    var r := [1] + Le16(x) + Le16(y) + rest;
    assert r[1] == Le16(x)[0] && r[2] == Le16(x)[1] && r[3] == Le16(y)[0] && r[4] == Le16(y)[1];
    Le16Read(x);
    Le16Read(y);
    I16Wrap(x);
    I16Wrap(y);
  }

  /** The lowest free pool slot is the one `FreeSlot` picks. */
  lemma FreeSlotIs(used: set<int>, s: int)
    requires InPool(s) && s !in used
    requires forall t :: InPool(t) && t < s ==> t in used
    ensures FreeSlot(used) == Some(s)
  {
  }

  /** In closed form, the driver once a stop loop has walked the first `i` entries of `tbl`, its snapshot of the periodic table. */
  function PeriodicStopClosed(d0: Driver, tbl: Dict<string, EffectState>, req: Effects, i: nat): Driver
    requires i <= |tbl|
  {
    d0.(periodic := Restrict(tbl[..i], req) + tbl[i..],
        used := d0.used - DroppedSlots(tbl[..i], req),
        written := Logged(d0, DroppedStops(tbl[..i], req)))
  }

  /** The same for the condition table. */
  function ConditionStopClosed(d0: Driver, tbl: Dict<string, EffectState>, req: Effects, i: nat): Driver
    requires i <= |tbl|
  {
    d0.(condition := Restrict(tbl[..i], req) + tbl[i..],
        used := d0.used - DroppedSlots(tbl[..i], req),
        written := Logged(d0, DroppedStops(tbl[..i], req)))
  }

  /** One entry more of a stop loop's snapshot: what it adds to the dropped slots, the stops and the live table. */
  lemma DropStep(t: Dict<string, EffectState>, req: Effects, i: nat)
    requires Distinct(t) && i < |t|
    ensures DroppedSlots(t[..i + 1], req) == DroppedSlots(t[..i], req) + (if HasKey(req, t[i].0) then {} else {t[i].1.slot})
    ensures DroppedStops(t[..i + 1], req) == DroppedStops(t[..i], req) + (if HasKey(req, t[i].0) then [] else [Stop(t[i].1.slot)])
    ensures HasKey(req, t[i].0) ==> Restrict(t[..i + 1], req) + t[i + 1..] == Restrict(t[..i], req) + t[i..]
    ensures !HasKey(req, t[i].0) ==>
      var live := Restrict(t[..i], req) + t[i..];
      && HasKey(live, t[i].0) && Get(live, t[i].0) == t[i].1
      && Remove(live, t[i].0) == Restrict(t[..i + 1], req) + t[i + 1..]
  {
    assert t[..i + 1][..i] == t[..i];
    assert t[..i + 1][i] == t[i];
    if HasKey(req, t[i].0) {
      assert Restrict(t[..i + 1], req) == Restrict(t[..i], req) + [t[i]];
      assert t[i..] == [t[i]] + t[i + 1..];
    } else {
      PopStep(t, req, i);
    }
  }

  /** A kept entry leaves the loop state as it was; a dropped one is popped, stopped and released. */
  lemma PeriodicStopStep(d0: Driver, tbl: Dict<string, EffectState>, req: Effects, i: nat)
    requires Distinct(tbl) && i < |tbl|
    ensures var s := PeriodicStopClosed(d0, tbl, req, i);
      && (!HasKey(req, tbl[i].0) ==> HasKey(s.periodic, tbl[i].0) && Get(s.periodic, tbl[i].0) == tbl[i].1)
      && PeriodicStopClosed(d0, tbl, req, i + 1) == PeriodicStopOne(s, tbl[i], req)
  {
    DropStep(tbl, req, i);
    var s := PeriodicStopClosed(d0, tbl, req, i);
    var t := PeriodicStopClosed(d0, tbl, req, i + 1);
    var o := PeriodicStopOne(s, tbl[i], req);
    var stops := DroppedStops(tbl[..i], req);
    if HasKey(req, tbl[i].0) {
      assert t.written == o.written by {
        if d0.connected {
          assert d0.written + stops + [] == d0.written + stops;
        }
      }
    } else {
      assert t.written == o.written by {
        if d0.connected {
          assert d0.written + (stops + [Stop(tbl[i].1.slot)]) == d0.written + stops + [Stop(tbl[i].1.slot)];
        }
      }
    }
    assert t.periodic == o.periodic && t.used == o.used;
  }

  lemma ConditionStopStep(d0: Driver, tbl: Dict<string, EffectState>, req: Effects, i: nat)
    requires Distinct(tbl) && i < |tbl|
    ensures var s := ConditionStopClosed(d0, tbl, req, i);
      && (!HasKey(req, tbl[i].0) ==> HasKey(s.condition, tbl[i].0) && Get(s.condition, tbl[i].0) == tbl[i].1)
      && ConditionStopClosed(d0, tbl, req, i + 1) == ConditionStopOne(s, tbl[i], req)
  {
    DropStep(tbl, req, i);
    var s := ConditionStopClosed(d0, tbl, req, i);
    var t := ConditionStopClosed(d0, tbl, req, i + 1);
    var o := ConditionStopOne(s, tbl[i], req);
    var stops := DroppedStops(tbl[..i], req);
    if HasKey(req, tbl[i].0) {
      assert t.written == o.written by {
        if d0.connected {
          assert d0.written + stops + [] == d0.written + stops;
        }
      }
    } else {
      assert t.written == o.written by {
        if d0.connected {
          assert d0.written + (stops + [Stop(tbl[i].1.slot)]) == d0.written + stops + [Stop(tbl[i].1.slot)];
        }
      }
    }
    assert t.condition == o.condition && t.used == o.used;
  }

  /** One iteration of `_update_periodic_effects`'s stop loop on snapshot entry `e`. */
  function PeriodicStopOne(s: Driver, e: (string, EffectState), req: Effects): Driver {
    if HasKey(req, e.0) then s
    else Write(s.(periodic := Remove(s.periodic, e.0)), Stop(e.1.slot)).(used := s.used - {e.1.slot})
  }

  function ConditionStopOne(s: Driver, e: (string, EffectState), req: Effects): Driver {
    if HasKey(req, e.0) then s
    else Write(s.(condition := Remove(s.condition, e.0)), Stop(e.1.slot)).(used := s.used - {e.1.slot})
  }

  /** The driver after the first `i` iterations of the periodic stop loop over snapshot `tbl`. */
  function PeriodicStopLoop(d0: Driver, tbl: Dict<string, EffectState>, req: Effects, i: nat): Driver
    requires i <= |tbl|
  {
    if i == 0 then d0 else PeriodicStopOne(PeriodicStopLoop(d0, tbl, req, i - 1), tbl[i - 1], req)
  }

  function ConditionStopLoop(d0: Driver, tbl: Dict<string, EffectState>, req: Effects, i: nat): Driver
    requires i <= |tbl|
  {
    if i == 0 then d0 else ConditionStopOne(ConditionStopLoop(d0, tbl, req, i - 1), tbl[i - 1], req)
  }

  lemma {:induction false} PeriodicStopLoopClosed(d0: Driver, tbl: Dict<string, EffectState>, req: Effects, i: nat)
    requires Distinct(tbl) && d0.periodic == tbl && i <= |tbl|
    ensures PeriodicStopLoop(d0, tbl, req, i) == PeriodicStopClosed(d0, tbl, req, i)
  {
    if i == 0 {
      assert tbl[..0] == [] && tbl[0..] == tbl;
      assert d0.written + [] == d0.written;
    } else {
      PeriodicStopLoopClosed(d0, tbl, req, i - 1);
      PeriodicStopStep(d0, tbl, req, i - 1);
    }
  }

  lemma {:induction false} ConditionStopLoopClosed(d0: Driver, tbl: Dict<string, EffectState>, req: Effects, i: nat)
    requires Distinct(tbl) && d0.condition == tbl && i <= |tbl|
    ensures ConditionStopLoop(d0, tbl, req, i) == ConditionStopClosed(d0, tbl, req, i)
  {
    if i == 0 {
      assert tbl[..0] == [] && tbl[0..] == tbl;
      assert d0.written + [] == d0.written;
    } else {
      ConditionStopLoopClosed(d0, tbl, req, i - 1);
      ConditionStopStep(d0, tbl, req, i - 1);
    }
  }

  /** Inside the periodic stop loop the live table still holds snapshot entry `i` unchanged. */
  lemma PeriodicStopLive(d0: Driver, tbl: Dict<string, EffectState>, req: Effects, i: nat)
    requires Distinct(tbl) && d0.periodic == tbl && i < |tbl| && !HasKey(req, tbl[i].0)
    ensures HasKey(PeriodicStopLoop(d0, tbl, req, i).periodic, tbl[i].0)
    ensures Get(PeriodicStopLoop(d0, tbl, req, i).periodic, tbl[i].0) == tbl[i].1
  {
    PeriodicStopLoopClosed(d0, tbl, req, i);
    PeriodicStopStep(d0, tbl, req, i);
  }

  lemma ConditionStopLive(d0: Driver, tbl: Dict<string, EffectState>, req: Effects, i: nat)
    requires Distinct(tbl) && d0.condition == tbl && i < |tbl| && !HasKey(req, tbl[i].0)
    ensures HasKey(ConditionStopLoop(d0, tbl, req, i).condition, tbl[i].0)
    ensures Get(ConditionStopLoop(d0, tbl, req, i).condition, tbl[i].0) == tbl[i].1
  {
    ConditionStopLoopClosed(d0, tbl, req, i);
    ConditionStopStep(d0, tbl, req, i);
  }

  /** The whole periodic stop loop is `DropPeriodic`. */
  lemma PeriodicStopLoopDone(d0: Driver, req: Effects)
    requires Distinct(d0.periodic)
    ensures PeriodicStopLoop(d0, d0.periodic, req, |d0.periodic|) == DropPeriodic(d0, req)
  {
    var tbl := d0.periodic;
    PeriodicStopLoopClosed(d0, tbl, req, |tbl|);
    assert tbl[..|tbl|] == tbl && tbl[|tbl|..] == [];
    assert Restrict(tbl, req) + [] == Restrict(tbl, req);
  }

  lemma ConditionStopLoopDone(d0: Driver, req: Effects)
    requires Distinct(d0.condition)
    ensures ConditionStopLoop(d0, d0.condition, req, |d0.condition|) == DropConditions(d0, req)
  {
    var tbl := d0.condition;
    ConditionStopLoopClosed(d0, tbl, req, |tbl|);
    assert tbl[..|tbl|] == tbl && tbl[|tbl|..] == [];
    assert Restrict(tbl, req) + [] == Restrict(tbl, req);
  }

  class JoystickManager {
    var connected: bool
    var jx: real
    var jy: real
    var periodicStates: Dict<string, EffectState>
    var conditionStates: Dict<string, EffectState>
    var usedSlots: set<int>
    /** The reports written to the device, oldest first. */
    var written: seq<Report>

    function State(): Driver
      reads this
    {
      Driver(connected, periodicStates, conditionStates, usedSlots, written)
    }

    ghost predicate Valid()
      reads this
    {
      Inv(State())
    }

    /** `__init__`: no device yet, the stick centred, no effects tracked, no slot in use. */
    constructor ()
      ensures Valid()
      ensures State() == Driver(false, [], [], {}, []) && jx == 0.0 && jy == 0.0
    {
      connected := false;
      jx := 0.0;
      jy := 0.0;
      periodicStates := [];
      conditionStates := [];
      usedSlots := {};
      written := [];
      InitialInv(false);
    }

    /** `_write_report`: the report reaches the device only while connected. */
    method WriteReport(r: Report)
      modifies this`written
      ensures State() == Write(old(State()), r)
    {
      if connected {
        written := written + [r];
      }
    }

    method StartEffect(block: int)
      modifies this`written
      ensures State() == Write(old(State()), Start(block))
    {
      WriteReport(EffectOperation(block, OpStart, 1));
    }

    method StopEffect(block: int)
      modifies this`written
      ensures State() == Write(old(State()), Stop(block))
    {
      WriteReport(EffectOperation(block, OpStop, 0));
    }

    /** `_allocate_dynamic_slot`: the lowest free slot of 3-8, then of 12-23, marked used. */
    method AllocateDynamicSlot() returns (slot: Option<int>)
      modifies this`usedSlots
      ensures slot == FreeSlot(old(usedSlots))
      ensures usedSlots == if slot.Some? then old(usedSlots) + {slot.value} else old(usedSlots)
    {
      var used0 := usedSlots;
      for eid := 3 to 9
        invariant usedSlots == used0
        invariant forall s :: InPool(s) && s < eid ==> s in used0
      {
        if eid !in usedSlots {
          usedSlots := usedSlots + {eid};
          FreeSlotIs(used0, eid);
          return Some(eid);
        }
      }
      for eid := 12 to 24
        invariant usedSlots == used0
        invariant forall s :: InPool(s) && s < eid ==> s in used0
      {
        if eid !in usedSlots {
          usedSlots := usedSlots + {eid};
          FreeSlotIs(used0, eid);
          return Some(eid);
        }
      }
      assert forall s :: InPool(s) ==> s in used0;
      return None;
    }

    /** `_release_dynamic_slot` (and the `discard` of the condition loops). */
    method ReleaseDynamicSlot(slot: int)
      modifies this`usedSlots
      ensures usedSlots == old(usedSlots) - {slot}
    {
      usedSlots := usedSlots - {slot};
    }

    /**
     * The stop loop of `_update_periodic_effects`: over a snapshot of the tracked names,
     * every name `requested` lacks is popped, stopped on its slot and its slot released.
     */
    method StopUnrequestedPeriodic(requested: Effects)
      requires Distinct(periodicStates)
      modifies this`periodicStates, this`usedSlots, this`written
      ensures State() == DropPeriodic(old(State()), requested)
    {
      ghost var d0 := State();
      var tbl := periodicStates;
      var i := 0;
      while i < |tbl|
        invariant 0 <= i <= |tbl|
        invariant State() == PeriodicStopLoop(d0, tbl, requested, i)
      {
        var name := tbl[i].0;
        if !HasKey(requested, name) {
          PeriodicStopLive(d0, tbl, requested, i);
          var state := Get(periodicStates, name);
          periodicStates := Remove(periodicStates, name);
          StopEffect(state.slot);
          ReleaseDynamicSlot(state.slot);
        }
        i := i + 1;
      }
      PeriodicStopLoopDone(d0, requested);
    }

    /** The stop loop of `_update_condition_effects`. */
    method StopUnrequestedConditions(requested: Effects)
      requires Distinct(conditionStates)
      modifies this`conditionStates, this`usedSlots, this`written
      ensures State() == DropConditions(old(State()), requested)
    {
      ghost var d0 := State();
      var tbl := conditionStates;
      var i := 0;
      while i < |tbl|
        invariant 0 <= i <= |tbl|
        invariant State() == ConditionStopLoop(d0, tbl, requested, i)
      {
        var name := tbl[i].0;
        if !HasKey(requested, name) {
          ConditionStopLive(d0, tbl, requested, i);
          var state := Get(conditionStates, name);
          conditionStates := Remove(conditionStates, name);
          StopEffect(state.slot);
          ReleaseDynamicSlot(state.slot);
        }
        i := i + 1;
      }
      ConditionStopLoopDone(d0, requested);
    }

    /** `_configure` inside `_update_periodic_effects`: a header, then the periodic block with phase 0. */
    method ConfigurePeriodic(slot: int, effectType: int, direction: int, magnitude: int, period: int)
      modifies this`written
      ensures State() == Configure(old(State()), slot, effectType, direction, magnitude, period)
    {
      WriteReport(SetEffectHeader(slot, effectType, AxisEnableDir, direction));
      WriteReport(SetPeriodic(slot, magnitude, 0, 0, period));
    }

    /** One requested name of `_update_periodic_effects`' request loop. */
    method UpdatePeriodicEffect(name: string, props: Props)
      requires NumericProps(props)
      modifies this`periodicStates, this`usedSlots, this`written
      ensures State() == PeriodicStep(old(State()), name, props)
    {
      var targetMag := DeviceUnits(NumOr(props, "magnitude", 0.0));
      var period := PeriodOf(props);
      var effectType := WaveformType(props);
      var direction := DirectionByte(NumOr(props, "direction", 0.0));
      var state := Lookup(periodicStates, name);
      if state.None? {
        var slot := AllocateDynamicSlot();
        if slot.None? {
          return;
        }
        ConfigurePeriodic(slot.value, effectType, direction, 0, period);
        StartEffect(slot.value);
        periodicStates := Put(periodicStates, name, PeriodicState(slot.value, true, props));
        return;
      }
      var st := state.value;
      if Pending(st) {
        ConfigurePeriodic(st.slot, effectType, direction, targetMag, period);
        periodicStates := Put(periodicStates, name, PeriodicState(st.slot, false, props));
        return;
      }
      if props != st.props {
        ConfigurePeriodic(st.slot, effectType, direction, targetMag, period);
        periodicStates := Put(periodicStates, name, st.(props := props));
      }
    }

    /** `_update_periodic_effects(effects)`: stop what vanished, then start, settle or update each request. */
    method UpdatePeriodicEffects(effects: Effects)
      requires WellFormed(effects) && Distinct(periodicStates)
      modifies this`periodicStates, this`usedSlots, this`written
      ensures State() == UpdatePeriodic(old(State()), effects)
    {
      var requested := PeriodicRequests(effects);
      StopUnrequestedPeriodic(requested);
      ghost var d1 := State();
      var i := 0;
      while i < |requested|
        invariant 0 <= i <= |requested|
        invariant AllNumeric(requested[..i])
        invariant State() == PeriodicFold(d1, requested[..i])
      {
        assert requested[..i + 1][..i] == requested[..i];
        UpdatePeriodicEffect(requested[i].0, requested[i].1);
        i := i + 1;
      }
      assert requested[..i] == requested;
    }

    /** One requested name of `_update_condition_effects`' request loop; the slot is the effect type. */
    method UpdateConditionEffect(name: string, props: Props)
      requires name in ConditionTypes && NumericProps(props)
      modifies this`conditionStates, this`usedSlots, this`written
      ensures State() == ConditionStep(old(State()), name, props)
    {
      var slot := ConditionTypes[name];
      var coeffX := CoefficientUnits(props, "coef_x");
      var coeffY := CoefficientUnits(props, "coef_y");
      var state := Lookup(conditionStates, name);
      if state.None? {
        if slot in usedSlots {
          return;
        }
        usedSlots := usedSlots + {slot};
        WriteReport(SetEffectHeader(slot, slot, AxisEnableX + AxisEnableY, 0));
        WriteReport(Condition(slot, 0, 0, coeffX));
        WriteReport(Condition(slot, 1, 0, coeffY));
        StartEffect(slot);
        conditionStates := Put(conditionStates, name, ConditionState(slot, props));
        return;
      }
      var st := state.value;
      if props != st.props {
        WriteReport(Condition(st.slot, 0, 0, coeffX));
        WriteReport(Condition(st.slot, 1, 0, coeffY));
        conditionStates := Put(conditionStates, name, ConditionState(st.slot, props));
      }
    }

    /** `_update_condition_effects(effects)`. */
    method UpdateConditionEffects(effects: Effects)
      requires WellFormed(effects) && Distinct(conditionStates)
      modifies this`conditionStates, this`usedSlots, this`written
      ensures State() == UpdateConditions(old(State()), effects)
    {
      var requested := ConditionRequests(effects);
      StopUnrequestedConditions(requested);
      ghost var d1 := State();
      var i := 0;
      while i < |requested|
        invariant 0 <= i <= |requested|
        invariant ConditionNamed(requested[..i])
        invariant State() == ConditionFold(d1, requested[..i])
      {
        assert requested[..i + 1][..i] == requested[..i];
        UpdateConditionEffect(requested[i].0, requested[i].1);
        i := i + 1;
      }
      assert requested[..i] == requested;
    }

    /** `_send_constant_force_effect(props)`: header, magnitude and start on slot 2. */
    method SendConstantForceEffect(props: Props)
      requires NumericProps(props)
      modifies this`written
      ensures State() == WriteAll(old(State()), ConstantForceReports(props))
    {
      var magnitude := DeviceUnits(NumOr(props, "magnitude", 0.0));
      var direction := DirectionByte(NumOr(props, "direction", 0.0));
      ghost var d0 := State();
      WriteReport(SetEffectHeader(ConstantForceSlot, EffectConstant, AxisEnableDir, direction));
      WriteReport(SetConstantForce(ConstantForceSlot, magnitude));
      StartEffect(ConstantForceSlot);
      WriteAllLogs(d0, ConstantForceReports(props));
    }

    /** `_send_spring_effect(axis, props)`: written straight to the device, without the connection check. */
    method SendSpringEffect(axis: int, props: Props)
      requires NumericProps(props)
      modifies this`written
      ensures written == old(written) + [SpringReport(axis, props)]
    {
      var coefficient := DeviceUnits(NumOr(props, "coefficient", 0.0));
      var offset := DeviceUnits(NumOr(props, "cp_offset", 0.0));
      written := written + [Condition(SpringSlot, axis, offset, coefficient)];
    }

    /** `apply_effects(effects)`; keeps the slot invariant. */
    method ApplyEffects(effects: Effects)
      requires WellFormed(effects) && Valid()
      modifies this`periodicStates, this`conditionStates, this`usedSlots, this`written
      ensures State() == EffectTables.ApplyEffects(old(State()), effects)
      ensures Valid()
    {
      ghost var d0 := State();
      ApplyToTables(effects);
      ApplyEffectsInv(d0, effects);
    }

    method ApplyToTables(effects: Effects)
      requires WellFormed(effects) && Distinct(periodicStates) && Distinct(conditionStates)
      modifies this`periodicStates, this`conditionStates, this`usedSlots, this`written
      ensures State() == EffectTables.ApplyEffects(old(State()), effects)
    {
      if !connected {
        return;
      }
      UpdatePeriodicEffects(effects);
      UpdateConditionEffects(effects);
      SendForces(effects);
    }

    /** The tail of `apply_effects`: the constant force on slot 2 (or its stop), then both springs. */
    method SendForces(effects: Effects)
      requires WellFormed(effects)
      modifies this`written
      ensures var d2 := if HasKey(effects, "constant_force") then WriteAll(old(State()), ConstantForceReports(Get(effects, "constant_force")))
                        else Write(old(State()), Stop(ConstantForceSlot));
        State() == d2.(written := d2.written + [SpringReport(0, SpringProps(effects, "spring_x")),
                                                SpringReport(1, SpringProps(effects, "spring_y"))])
    {
      var constant := Lookup(effects, "constant_force");
      if constant.Some? {
        SendConstantForceEffect(constant.value);
      } else {
        StopEffect(ConstantForceSlot);
      }
      SendSpringEffect(0, SpringProps(effects, "spring_x"));
      SendSpringEffect(1, SpringProps(effects, "spring_y"));
    }

    /** `stop_all_effects`: every tracked effect stopped and forgotten, then slot 2 stopped. */
    method StopAllEffects()
      requires Valid()
      modifies this`periodicStates, this`conditionStates, this`usedSlots, this`written
      ensures State() == StopAll(old(State()))
      ensures Valid()
    {
      ghost var d0 := State();
      if !connected {
        return;
      }
      StopUnrequestedPeriodic([]);
      StopUnrequestedConditions([]);
      StopEffect(ConstantForceSlot);
      StopAllClears(d0);
    }

    /** `_parse_input_report(report)`: a non-empty report, as the read loop only passes those on. */
    method ParseInputReport(report: seq<Byte>) returns (outcome: InputParse)
      requires |report| >= 1
      modifies this`jx, this`jy
      ensures outcome == ParseInput(report)
      ensures outcome.Axes? ==> jx == outcome.x && jy == outcome.y
      ensures !outcome.Axes? ==> jx == old(jx) && jy == old(jy)
    {
      if report[0] != 1 {
        return Ignored;
      }
      if |report| < 5 {
        return IndexError;
      }
      var rawX := (report[2] as int) * 256 + report[1] as int;
      var rawY := (report[4] as int) * 256 + report[3] as int;
      var xSigned := if rawX < 32768 then rawX else rawX - 65536;
      var ySigned := if rawY < 32768 then rawY else rawY - 65536;
      jx := xSigned as real / 4096.0;
      jy := ySigned as real / 4096.0;
      return Axes(jx, jy);
    }

    /** `read_axes`: a copy of the last stick position. */
    method ReadAxes() returns (x: real, y: real)
      ensures x == jx && y == jy
    {
      return jx, jy;
    }

    /** `_connect_to_device`: connected afterwards if it already was or a matching device was opened. */
    method Connect(deviceOpened: bool)
      modifies this`connected
      ensures connected == (old(connected) || deviceOpened)
    {
      if connected {
        return;
      }
      connected := deviceOpened;
    }

    /** The read loop's error path: an I/O error marks the device disconnected. */
    method ReadFailed()
      modifies this`connected
      ensures !connected
    {
      connected := false;
    }
  }
}
