/**
 * The write rules of the joystick driver: which reports each situation produces, that
 * nothing is rewritten for a settled effect, that a vanished effect is stopped and its
 * slot freed, and the order in which `apply_effects` writes its reports.
 */
module EffectRules {
  import opened Wrappers
  import opened Dict
  import opened HidReports
  import opened EffectTables
  import opened EffectInvariants

  function Header(slot: int, props: Props): Report
    requires NumericProps(props)
  {
    SetEffectHeader(slot, WaveformType(props), AxisEnableDir, DirectionByte(NumOr(props, "direction", 0.0)))
  }

  // ---------------------------------------------------------------- periodic effects, one name

  /**
   * A periodic request seen for the first time, with a slot free: a header, a Set
   * Periodic of magnitude 0 and a Start on the lowest free slot, which becomes used; the
   * name is stored as pending with a copy of its properties.
   */
  lemma PeriodicFirstSighting(d: Driver, name: string, props: Props)
    requires Distinct(d.periodic) && NumericProps(props)
    requires !HasKey(d.periodic, name) && FreeSlot(d.used).Some?
    ensures var slot := FreeSlot(d.used).value;
      var r := PeriodicStep(d, name, props);
      && r.written == Logged(d, [Header(slot, props), SetPeriodic(slot, 0, 0, 0, PeriodOf(props)), Start(slot)])
      && HasKey(r.periodic, name) && Get(r.periodic, name) == PeriodicState(slot, true, props)
      && r.used == d.used + {slot} && r.condition == d.condition
  {
    var slot := FreeSlot(d.used).value;
    PutDistinct(d.periodic, name, PeriodicState(slot, true, props));
  }

  /** With all eighteen dynamic slots taken, a new periodic request is skipped: nothing changes. */
  lemma PeriodicNoFreeSlot(d: Driver, name: string, props: Props)
    requires NumericProps(props) && !HasKey(d.periodic, name) && FreeSlot(d.used).None?
    ensures PeriodicStep(d, name, props) == d
  {
  }

  /**
   * On the call after its first sighting a pending effect is configured again, now with
   * its real magnitude `int(magnitude * 4096)`, and is no longer pending.
   */
  lemma PeriodicPendingGetsMagnitude(d: Driver, name: string, props: Props)
    requires Distinct(d.periodic) && NumericProps(props)
    requires HasKey(d.periodic, name) && Pending(Get(d.periodic, name))
    ensures var slot := Get(d.periodic, name).slot;
      var r := PeriodicStep(d, name, props);
      && r.written == Logged(d, [Header(slot, props),
                                 SetPeriodic(slot, DeviceUnits(NumOr(props, "magnitude", 0.0)), 0, 0, PeriodOf(props))])
      && HasKey(r.periodic, name) && Get(r.periodic, name) == PeriodicState(slot, false, props)
      && r.used == d.used && r.condition == d.condition
  {
    var st := Get(d.periodic, name);
    PutDistinct(d.periodic, name, PeriodicState(st.slot, false, props));
  }

  /** A settled effect whose properties equal the stored copy: nothing is written, nothing changes. */
  lemma PeriodicUnchangedWritesNothing(d: Driver, name: string, props: Props)
    requires NumericProps(props) && HasKey(d.periodic, name)
    requires !Pending(Get(d.periodic, name)) && Get(d.periodic, name).props == props
    ensures PeriodicStep(d, name, props) == d
  {
  }

  /** A settled effect whose properties differ: exactly one header and Set Periodic pair, and the copy is replaced. */
  lemma PeriodicChangedRewrites(d: Driver, name: string, props: Props)
    requires Distinct(d.periodic) && NumericProps(props) && HasKey(d.periodic, name)
    requires !Pending(Get(d.periodic, name)) && Get(d.periodic, name).props != props
    ensures var st := Get(d.periodic, name);
      var r := PeriodicStep(d, name, props);
      && r.written == Logged(d, [Header(st.slot, props),
                                 SetPeriodic(st.slot, DeviceUnits(NumOr(props, "magnitude", 0.0)), 0, 0, PeriodOf(props))])
      && HasKey(r.periodic, name) && Get(r.periodic, name) == st.(props := props)
      && r.used == d.used && r.condition == d.condition
  {
    var st := Get(d.periodic, name);
    PutDistinct(d.periodic, name, st.(props := props));
  }

  // ---------------------------------------------------------------- vanished effects

  lemma {:induction false} DroppedMember(t: Dict<string, EffectState>, req: Effects, i: nat)
    requires i < |t| && !HasKey(req, t[i].0)
    ensures t[i].1.slot in DroppedSlots(t, req)
    ensures Stop(t[i].1.slot) in DroppedStops(t, req)
  {
    var init := t[..|t| - 1];
    if i < |t| - 1 {
      assert init[i] == t[i];
      DroppedMember(init, req, i);
    }
  }

  /**
   * A tracked periodic name the request no longer holds (absent, or without
   * `'frequency'`) is stopped on its slot, leaves the table, and its slot is free for
   * the allocator again.
   */
  lemma VanishedPeriodicStopped(d: Driver, e: Effects, name: string)
    requires Inv(d) && WellFormed(e)
    requires HasKey(d.periodic, name) && !HasKey(PeriodicRequests(e), name)
    ensures var st := Get(d.periodic, name);
      var r := DropPeriodic(d, PeriodicRequests(e));
      && !HasKey(r.periodic, name)
      && InPool(st.slot) && st.slot !in r.used
      && (d.connected ==> Stop(st.slot) in r.written[|d.written|..])
  {
    var req := PeriodicRequests(e);
    var i := IndexOf(d.periodic, name);
    DroppedMember(d.periodic, req, i);
    var r := DropPeriodic(d, req);
    if d.connected {
      assert r.written[|d.written|..] == DroppedStops(d.periodic, req);
    }
  }

  // ---------------------------------------------------------------- no redundant writes

  /** Every requested name is tracked, settled, and stored with exactly the requested properties. */
  ghost predicate PeriodicSettled(d: Driver, req: Effects) {
    forall i :: 0 <= i < |req| ==>
      HasKey(d.periodic, req[i].0) && !Pending(Get(d.periodic, req[i].0)) && Get(d.periodic, req[i].0).props == req[i].1
  }

  lemma {:induction false} SettledFold(d: Driver, req: Effects)
    requires AllNumeric(req) && PeriodicSettled(d, req)
    ensures PeriodicFold(d, req) == d
  {
    if req != [] {
      var init := req[..|req| - 1];
      assert PeriodicSettled(d, init) by {
        forall i | 0 <= i < |init| ensures HasKey(d.periodic, init[i].0) {
          assert init[i] == req[i];
        }
      }
      SettledFold(d, init);
    }
  }

  lemma {:induction false} DropNothing(t: Dict<string, EffectState>, req: Effects)
    requires forall i :: 0 <= i < |t| ==> HasKey(req, t[i].0)
    ensures Restrict(t, req) == t && DroppedSlots(t, req) == {} && DroppedStops(t, req) == []
  {
    if t != [] {
      var init := t[..|t| - 1];
      assert forall i :: 0 <= i < |init| ==> init[i] == t[i];
      DropNothing(init, req);
      assert t == init + [t[|t| - 1]];
    }
  }

  lemma DropNothingDriver(d: Driver, req: Effects)
    requires forall i :: 0 <= i < |d.periodic| ==> HasKey(req, d.periodic[i].0)
    ensures DropPeriodic(d, req) == d
  {
    DropNothing(d.periodic, req);
    var r := DropPeriodic(d, req);
    assert r.periodic == d.periodic;
    assert r.used == d.used - {};
    assert r.written == d.written by {
      assert d.written + [] == d.written;
    }
  }

  /**
   * No redundant writes: once every requested periodic effect is settled with the
   * requested properties and nothing else is tracked, `_update_periodic_effects` with
   * the same request writes nothing and changes nothing.
   */
  lemma PeriodicSteadyState(d: Driver, e: Effects)
    requires WellFormed(e) && PeriodicSettled(d, PeriodicRequests(e))
    requires forall i :: 0 <= i < |d.periodic| ==> HasKey(PeriodicRequests(e), d.periodic[i].0)
    ensures UpdatePeriodic(d, e) == d
  {
    var req := PeriodicRequests(e);
    DropNothingDriver(d, req);
    SettledFold(d, req);
  }

  // ---------------------------------------------------------------- condition effects

  /**
   * First activation of a condition effect: its fixed slot becomes used and gets a
   * header (type = slot, X and Y axes enabled), the X and Y Set Condition blocks
   * (saturation 4096, dead band 0), then a Start. With the invariant the slot is
   * always free, so the "already in use" branch is never taken.
   */
  lemma ConditionFirstActivation(d: Driver, name: string, props: Props)
    requires Inv(d) && name in ConditionTypes && NumericProps(props) && !HasKey(d.condition, name)
    ensures var slot := ConditionTypes[name];
      var r := ConditionStep(d, name, props);
      && r.written == Logged(d, [SetEffectHeader(slot, slot, AxisEnableX + AxisEnableY, 0)]
                                 + ConditionBlocks(slot, props) + [Start(slot)])
      && HasKey(r.condition, name) && Get(r.condition, name) == ConditionState(slot, props)
      && r.used == d.used + {slot} && r.periodic == d.periodic
  {
    var slot := ConditionTypes[name];
    ConditionSlotFree(d, name);
    PutDistinct(d.condition, name, ConditionState(slot, props));
  }

  /** Outside the invariant, a condition slot already in use makes the driver skip the effect. */
  lemma ConditionSlotClashSkips(d: Driver, name: string, props: Props)
    requires name in ConditionTypes && NumericProps(props) && !HasKey(d.condition, name)
    requires ConditionTypes[name] in d.used
    ensures ConditionStep(d, name, props) == d
  {
  }

  lemma ConditionUnchangedWritesNothing(d: Driver, name: string, props: Props)
    requires name in ConditionTypes && NumericProps(props)
    requires HasKey(d.condition, name) && Get(d.condition, name).props == props
    ensures ConditionStep(d, name, props) == d
  {
  }

  /** Changed properties rewrite the X and Y blocks only (no header, no Start). */
  lemma ConditionChangedRewrites(d: Driver, name: string, props: Props)
    requires Distinct(d.condition) && name in ConditionTypes && NumericProps(props)
    requires HasKey(d.condition, name) && Get(d.condition, name).props != props
    ensures var st := Get(d.condition, name);
      var r := ConditionStep(d, name, props);
      && r.written == Logged(d, ConditionBlocks(st.slot, props))
      && HasKey(r.condition, name) && Get(r.condition, name) == ConditionState(st.slot, props)
      && r.used == d.used && r.periodic == d.periodic
  {
    var st := Get(d.condition, name);
    PutDistinct(d.condition, name, ConditionState(st.slot, props));
  }

  // ---------------------------------------------------------------- apply_effects

  /** `apply_effects` on a disconnected device writes nothing and changes nothing. */
  lemma ApplyDisconnected(d: Driver, e: Effects)
    requires WellFormed(e) && !d.connected
    ensures ApplyEffects(d, e) == d
  {
  }

  lemma PeriodicStepAppends(d: Driver, name: string, props: Props)
    requires NumericProps(props)
    ensures PeriodicStep(d, name, props).connected == d.connected
    ensures d.written <= PeriodicStep(d, name, props).written
    ensures PeriodicStep(d, name, props).condition == d.condition
  {
    var effectType := WaveformType(props);
    var direction := DirectionByte(NumOr(props, "direction", 0.0));
    var period := PeriodOf(props);
    match Lookup(d.periodic, name)
    case None =>
      match FreeSlot(d.used) {
        case None =>
        case Some(slot) =>
          ConfigureKeeps(d.(used := d.used + {slot}), slot, effectType, direction, 0, period);
      }
    case Some(st) =>
      ConfigureKeeps(d, st.slot, effectType, direction, DeviceUnits(NumOr(props, "magnitude", 0.0)), period);
  }

  /** Configuring a slot only writes reports. */
  lemma ConfigureKeeps(d: Driver, slot: int, effectType: int, direction: int, magnitude: int, period: int)
    ensures var c := Configure(d, slot, effectType, direction, magnitude, period);
      c.connected == d.connected && c.periodic == d.periodic && c.condition == d.condition &&
      c.used == d.used && d.written <= c.written
  {
  }

  lemma ConditionStepAppends(d: Driver, name: string, props: Props)
    requires name in ConditionTypes && NumericProps(props)
    ensures ConditionStep(d, name, props).connected == d.connected
    ensures d.written <= ConditionStep(d, name, props).written
    ensures ConditionStep(d, name, props).periodic == d.periodic
  {
  }

  lemma {:induction false} PeriodicFoldAppends(d: Driver, req: Effects)
    requires AllNumeric(req)
    ensures PeriodicFold(d, req).connected == d.connected
    ensures d.written <= PeriodicFold(d, req).written
    ensures PeriodicFold(d, req).condition == d.condition
  {
    if req != [] {
      var last := req[|req| - 1];
      PeriodicFoldAppends(d, req[..|req| - 1]);
      PeriodicStepAppends(PeriodicFold(d, req[..|req| - 1]), last.0, last.1);
    }
  }

  lemma {:induction false} ConditionFoldAppends(d: Driver, req: Effects)
    requires ConditionNamed(req)
    ensures ConditionFold(d, req).connected == d.connected
    ensures d.written <= ConditionFold(d, req).written
    ensures ConditionFold(d, req).periodic == d.periodic
  {
    if req != [] {
      var last := req[|req| - 1];
      ConditionFoldAppends(d, req[..|req| - 1]);
      ConditionStepAppends(ConditionFold(d, req[..|req| - 1]), last.0, last.1);
    }
  }

  /**
   * The order of `apply_effects` on a connected device: the periodic updates, then the
   * condition updates, then the constant force on slot 2 (header, magnitude, Start) or
   * a Stop on slot 2 when there is none, and last the two spring blocks on slot 1 for
   * parameter blocks 0 and 1. The log only grows.
   */
  lemma ApplyOrder(d: Driver, e: Effects)
    requires WellFormed(e) && d.connected
    ensures var p := UpdatePeriodic(d, e);
      var c := UpdateConditions(p, e);
      var k := ConstantForceTail(e);
      var a := ApplyEffects(d, e);
      && d.written <= p.written <= c.written
      && a.written == c.written + k
         + [SpringReport(0, SpringProps(e, "spring_x")), SpringReport(1, SpringProps(e, "spring_y"))]
      && a.periodic == c.periodic && a.condition == c.condition && a.used == c.used
  {
    var req := PeriodicRequests(e);
    PeriodicFoldAppends(DropPeriodic(d, req), req);
    var p := UpdatePeriodic(d, e);
    var creq := ConditionRequests(e);
    ConditionFoldAppends(DropConditions(p, creq), creq);
    var c := UpdateConditions(p, e);
    if HasKey(e, "constant_force") {
      WriteAllLogs(c, ConstantForceReports(Get(e, "constant_force")));
    }
  }

  /** A missing spring defaults to coefficient 0 and centre offset 0. */
  lemma SpringDefault(e: Effects, axis: int)
    requires !HasKey(e, "spring_x")
    ensures SpringReport(axis, SpringProps(e, "spring_x")) == Condition(SpringSlot, axis, 0, 0)
  {
  }
}
