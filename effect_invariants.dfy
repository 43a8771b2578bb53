/**
 * What the joystick driver's bookkeeping guarantees: the slot set is exactly the slots of
 * the tracked effects, no two tracked effects share a slot, the condition-slot clash the
 * driver guards against cannot happen, and the write rules for first activation, pending
 * magnitude, unchanged and changed properties, and vanished effects.
 */
module EffectInvariants {
  import opened Wrappers
  import opened Dict
  import opened HidReports
  import opened EffectTables

  /** The slots held by a table's entries. */
  function Slots(t: Dict<string, EffectState>): set<int> {
    if t == [] then {} else Slots(t[..|t| - 1]) + {t[|t| - 1].1.slot}
  }

  lemma {:induction false} SlotsMember(t: Dict<string, EffectState>, s: int)
    ensures s in Slots(t) <==> exists i :: 0 <= i < |t| && t[i].1.slot == s
  {
    if t != [] {
      var init := t[..|t| - 1];
      SlotsMember(init, s);
      if s in Slots(init) {
        var i :| 0 <= i < |init| && init[i].1.slot == s;
        assert t[i].1.slot == s;
      }
      if exists i :: 0 <= i < |t| && t[i].1.slot == s {
        var i :| 0 <= i < |t| && t[i].1.slot == s;
        if i < |t| - 1 { assert init[i].1.slot == s; }
      }
    }
  }

  lemma SlotsAll(t: Dict<string, EffectState>)
    ensures forall s :: s in Slots(t) <==> exists i :: 0 <= i < |t| && t[i].1.slot == s
  {
    forall s ensures s in Slots(t) <==> exists i :: 0 <= i < |t| && t[i].1.slot == s {
      SlotsMember(t, s);
    }
  }

  predicate UniqueSlots(t: Dict<string, EffectState>) {
    forall i, j :: 0 <= i < j < |t| ==> t[i].1.slot != t[j].1.slot
  }

  /** Every periodic entry is a periodic state on a dynamic slot. */
  predicate PeriodicShape(t: Dict<string, EffectState>) {
    forall i :: 0 <= i < |t| ==> t[i].1.PeriodicState? && InPool(t[i].1.slot)
  }

  /** Every condition entry is a condition state on its name's fixed slot. */
  predicate ConditionShape(t: Dict<string, EffectState>) {
    forall i :: 0 <= i < |t| ==>
      t[i].1.ConditionState? && t[i].0 in ConditionTypes && t[i].1.slot == ConditionTypes[t[i].0]
  }

  /**
   * The driver's invariant: both tables are dictionaries of the right shape, no two
   * periodic effects share a slot, and `_used_slots` is exactly the slots of the
   * tracked effects (periodic and condition).
   */
  ghost predicate Inv(d: Driver) {
    && Distinct(d.periodic) && Distinct(d.condition)
    && PeriodicShape(d.periodic) && ConditionShape(d.condition)
    && UniqueSlots(d.periodic)
    && d.used == Slots(d.periodic) + Slots(d.condition)
  }

  /** Condition slots are distinct because the fixed slot map is one-to-one and names are keys. */
  lemma ConditionSlotsUnique(t: Dict<string, EffectState>)
    requires Distinct(t) && ConditionShape(t)
    ensures UniqueSlots(t)
  {
  }

  lemma PeriodicSlotsInPool(t: Dict<string, EffectState>)
    requires PeriodicShape(t)
    ensures forall s :: s in Slots(t) ==> InPool(s)
  {
    SlotsAll(t);
  }

  lemma ConditionSlotsFixed(t: Dict<string, EffectState>)
    requires ConditionShape(t)
    ensures forall s :: s in Slots(t) ==> 9 <= s <= 11
  {
    SlotsAll(t);
  }

  /** The initial driver: nothing tracked, nothing used, nothing written. */
  lemma InitialInv(connected: bool)
    ensures Inv(Driver(connected, [], [], {}, []))
  {
  }

  // ---------------------------------------------------------------- tables through Put and Restrict

  lemma SlotsAppend(t: Dict<string, EffectState>, x: (string, EffectState))
    ensures Slots(t + [x]) == Slots(t) + {x.1.slot}
  {
    assert (t + [x])[..|t|] == t;
  }

  lemma SlotsReplace(t: Dict<string, EffectState>, i: nat, x: (string, EffectState))
    requires i < |t| && t[i].1.slot == x.1.slot
    ensures Slots(t[i := x]) == Slots(t)
  {
    SlotsAll(t);
    SlotsAll(t[i := x]);
    forall s | s in Slots(t) ensures s in Slots(t[i := x]) {
      var j :| 0 <= j < |t| && t[j].1.slot == s;
      assert t[i := x][j].1.slot == s;
    }
    forall s | s in Slots(t[i := x]) ensures s in Slots(t) {
      var j :| 0 <= j < |t| && t[i := x][j].1.slot == s;
      assert t[j].1.slot == s;
    }
  }

  lemma {:induction false} RestrictSlots(t: Dict<string, EffectState>, req: Effects)
    requires UniqueSlots(t)
    ensures DroppedSlots(t, req) <= Slots(t)
    ensures Slots(Restrict(t, req)) == Slots(t) - DroppedSlots(t, req)
  {
    if t != [] {
      var init := t[..|t| - 1];
      var last := t[|t| - 1];
      UniqueInit(t);
      RestrictSlots(init, req);
      var rest := Restrict(init, req);
      if HasKey(req, last.0) {
        assert Restrict(t, req) == rest + [last];
        SlotsAppend(rest, last);
      } else {
        assert Restrict(t, req) == rest;
      }
    }
  }

  lemma UniqueInit(t: Dict<string, EffectState>)
    requires UniqueSlots(t) && t != []
    ensures UniqueSlots(t[..|t| - 1])
    ensures t[|t| - 1].1.slot !in Slots(t[..|t| - 1])
  {
    var init := t[..|t| - 1];
    var last := t[|t| - 1];
    SlotsMember(init, last.1.slot);
  }

  lemma RestrictShape(t: Dict<string, EffectState>, req: Effects)
    requires Distinct(t) && UniqueSlots(t)
    ensures Distinct(Restrict(t, req))
    ensures UniqueSlots(Restrict(t, req))
    ensures PeriodicShape(t) ==> PeriodicShape(Restrict(t, req))
    ensures ConditionShape(t) ==> ConditionShape(Restrict(t, req))
  {
    var r := Restrict(t, req);
    RestrictDistinct(t, req);
    RestrictMembers(t, req);
    forall a, b | 0 <= a < b < |r| ensures r[a].1.slot != r[b].1.slot {
      var x :| 0 <= x < |t| && t[x] == r[a];
      var y :| 0 <= y < |t| && t[y] == r[b];
      assert x != y;
    }
  }

  /** Putting a state with the slot the name already holds changes no slot. */
  lemma PutSameSlot(t: Dict<string, EffectState>, name: string, v: EffectState)
    requires Distinct(t) && UniqueSlots(t) && HasKey(t, name) && Get(t, name).slot == v.slot
    ensures Distinct(Put(t, name, v)) && UniqueSlots(Put(t, name, v))
    ensures Slots(Put(t, name, v)) == Slots(t)
    ensures PeriodicShape(t) && v.PeriodicState? ==> PeriodicShape(Put(t, name, v))
    ensures ConditionShape(t) && v.ConditionState? ==> ConditionShape(Put(t, name, v))
  {
    PutDistinct(t, name, v);
    SlotsReplace(t, IndexOf(t, name), (name, v));
  }

  /** Putting a new name on a free slot appends it and adds exactly that slot. */
  lemma PutNewSlot(t: Dict<string, EffectState>, name: string, v: EffectState)
    requires Distinct(t) && UniqueSlots(t) && !HasKey(t, name) && v.slot !in Slots(t)
    ensures Put(t, name, v) == t + [(name, v)]
    ensures Distinct(t + [(name, v)]) && UniqueSlots(t + [(name, v)])
    ensures Slots(t + [(name, v)]) == Slots(t) + {v.slot}
    ensures PeriodicShape(t) && v.PeriodicState? && InPool(v.slot) ==> PeriodicShape(t + [(name, v)])
    ensures ConditionShape(t) && v.ConditionState? && name in ConditionTypes && v.slot == ConditionTypes[name] ==>
              ConditionShape(t + [(name, v)])
  {
    SlotsAppend(t, (name, v));
    SlotsAll(t);
  }

  // ---------------------------------------------------------------- writes leave the tables alone

  lemma {:induction false} WriteAllLogs(d: Driver, rs: seq<Report>)
    ensures WriteAll(d, rs) == d.(written := Logged(d, rs))
    decreases |rs|
  {
    if rs != [] {
      var d1 := Write(d, rs[0]);
      calc {
        WriteAll(d, rs);
        WriteAll(d1, rs[1..]);
        { WriteAllLogs(d1, rs[1..]); }
        d1.(written := Logged(d1, rs[1..]));
        { assert [rs[0]] + rs[1..] == rs; }
        d.(written := Logged(d, rs));
      }
    }
  }

  // ---------------------------------------------------------------- the invariant is preserved

  lemma DropPeriodicInv(d: Driver, req: Effects)
    requires Inv(d)
    ensures Inv(DropPeriodic(d, req))
  {
    RestrictSlots(d.periodic, req);
    RestrictShape(d.periodic, req);
    PeriodicSlotsInPool(d.periodic);
    ConditionSlotsFixed(d.condition);
    var dropped := DroppedSlots(d.periodic, req);
    forall s | s in dropped ensures s !in Slots(d.condition) {
      assert InPool(s);
    }
    assert (Slots(d.periodic) + Slots(d.condition)) - dropped
        == (Slots(d.periodic) - dropped) + Slots(d.condition);
  }

  lemma DropConditionsInv(d: Driver, req: Effects)
    requires Inv(d)
    ensures Inv(DropConditions(d, req))
  {
    ConditionSlotsUnique(d.condition);
    RestrictSlots(d.condition, req);
    RestrictShape(d.condition, req);
    PeriodicSlotsInPool(d.periodic);
    ConditionSlotsFixed(d.condition);
    var dropped := DroppedSlots(d.condition, req);
    forall s | s in dropped ensures s !in Slots(d.periodic) {
      assert 9 <= s <= 11;
    }
    assert (Slots(d.periodic) + Slots(d.condition)) - dropped
        == Slots(d.periodic) + (Slots(d.condition) - dropped);
  }

  lemma PeriodicStepInv(d: Driver, name: string, props: Props)
    requires Inv(d) && NumericProps(props)
    ensures Inv(PeriodicStep(d, name, props))
  {
    match Lookup(d.periodic, name)
    case None =>
      PeriodicStepNewInv(d, name, props);
    case Some(st) =>
      assert st.PeriodicState? by {
        assert d.periodic[IndexOf(d.periodic, name)].1 == st;
      }
      PeriodicStepTrackedInv(d, name, props, st);
  }

  /** A name seen for the first time takes a free pool slot, if there is one. */
  lemma PeriodicStepNewInv(d: Driver, name: string, props: Props)
    requires Inv(d) && NumericProps(props) && Lookup(d.periodic, name).None?
    ensures Inv(PeriodicStep(d, name, props))
  {
    if FreeSlot(d.used).Some? {
      var slot := FreeSlot(d.used).value;
      PeriodicStepNew(d, name, props, slot);
      AddPeriodicInv(d, PeriodicStep(d, name, props), name, PeriodicState(slot, true, props));
    } else {
      assert PeriodicStep(d, name, props) == d;
    }
  }

  /** Tracking a new name on a free pool slot keeps the invariant. */
  lemma AddPeriodicInv(d: Driver, r: Driver, name: string, v: EffectState)
    requires Inv(d) && !HasKey(d.periodic, name) && v.PeriodicState? && InPool(v.slot) && v.slot !in d.used
    requires r.periodic == Put(d.periodic, name, v) && r.condition == d.condition && r.used == d.used + {v.slot}
    ensures Inv(r)
  {
    PutNewSlot(d.periodic, name, v);
  }

  /** What the first sight of a name does to the tables when slot `slot` is free. */
  lemma PeriodicStepNew(d: Driver, name: string, props: Props, slot: int)
    requires NumericProps(props) && Lookup(d.periodic, name).None? && FreeSlot(d.used) == Some(slot)
    ensures var r := PeriodicStep(d, name, props);
      r.periodic == Put(d.periodic, name, PeriodicState(slot, true, props)) &&
      r.condition == d.condition && r.used == d.used + {slot}
  {
  }

  /** A tracked name keeps its slot, whatever its new properties. */
  lemma PeriodicStepTrackedInv(d: Driver, name: string, props: Props, st: EffectState)
    requires Inv(d) && NumericProps(props) && Lookup(d.periodic, name) == Some(st) && st.PeriodicState?
    ensures Inv(PeriodicStep(d, name, props))
  {
    if Pending(st) {
      PutSameSlot(d.periodic, name, PeriodicState(st.slot, false, props));
    } else if props != st.props {
      PutSameSlot(d.periodic, name, st.(props := props));
    }
  }

  lemma {:induction false} PeriodicFoldInv(d: Driver, req: Effects)
    requires Inv(d) && AllNumeric(req)
    ensures Inv(PeriodicFold(d, req))
  {
    if req != [] {
      var init := req[..|req| - 1];
      PeriodicFoldInv(d, init);
      PeriodicStepInv(PeriodicFold(d, init), req[|req| - 1].0, req[|req| - 1].1);
    }
  }

  lemma UpdatePeriodicInv(d: Driver, e: Effects)
    requires Inv(d) && WellFormed(e)
    ensures Inv(UpdatePeriodic(d, e))
  {
    var req := PeriodicRequests(e);
    DropPeriodicInv(d, req);
    PeriodicFoldInv(DropPeriodic(d, req), req);
  }

  /**
   * The clash `_update_condition_effects` logs ("slot already in use") never happens
   * while the invariant holds: a condition name not yet tracked finds its fixed slot free.
   */
  lemma ConditionSlotFree(d: Driver, name: string)
    requires Inv(d) && name in ConditionTypes && !HasKey(d.condition, name)
    ensures ConditionTypes[name] !in d.used
  {
    PeriodicSlotsInPool(d.periodic);
    SlotsAll(d.condition);
  }

  lemma ConditionStepInv(d: Driver, name: string, props: Props)
    requires Inv(d) && name in ConditionTypes && NumericProps(props)
    ensures Inv(ConditionStep(d, name, props))
  {
    var slot := ConditionTypes[name];
    match Lookup(d.condition, name)
    case None =>
      ConditionSlotFree(d, name);
      ConditionStepNew(d, name, props);
      AddConditionInv(d, ConditionStep(d, name, props), name, ConditionState(slot, props));
    case Some(st) =>
      if props != st.props {
        ConditionStepTracked(d, name, props, st);
        ReplaceConditionInv(d, ConditionStep(d, name, props), name, ConditionState(st.slot, props));
      }
  }

  /** What the first request for a condition effect does to the tables when its slot is free. */
  lemma ConditionStepNew(d: Driver, name: string, props: Props)
    requires name in ConditionTypes && NumericProps(props)
    requires Lookup(d.condition, name).None? && ConditionTypes[name] !in d.used
    ensures var r := ConditionStep(d, name, props);
      r.periodic == d.periodic && r.used == d.used + {ConditionTypes[name]} &&
      r.condition == Put(d.condition, name, ConditionState(ConditionTypes[name], props))
  {
  }

  /** What a changed request for a tracked condition effect does to the tables. */
  lemma ConditionStepTracked(d: Driver, name: string, props: Props, st: EffectState)
    requires name in ConditionTypes && NumericProps(props)
    requires Lookup(d.condition, name) == Some(st) && props != st.props
    ensures var r := ConditionStep(d, name, props);
      r.periodic == d.periodic && r.used == d.used &&
      r.condition == Put(d.condition, name, ConditionState(st.slot, props))
  {
  }

  /** Tracking a new condition effect on its own free slot keeps the invariant. */
  lemma AddConditionInv(d: Driver, r: Driver, name: string, v: EffectState)
    requires Inv(d) && !HasKey(d.condition, name) && name in ConditionTypes
    requires v.ConditionState? && v.slot == ConditionTypes[name] && v.slot !in d.used
    requires r.periodic == d.periodic && r.condition == Put(d.condition, name, v) && r.used == d.used + {v.slot}
    ensures Inv(r)
  {
    ConditionSlotsUnique(d.condition);
    PutNewSlot(d.condition, name, v);
  }

  /** Replacing a tracked condition effect's properties on the same slot keeps the invariant. */
  lemma ReplaceConditionInv(d: Driver, r: Driver, name: string, v: EffectState)
    requires Inv(d) && HasKey(d.condition, name) && v.ConditionState? && Get(d.condition, name).slot == v.slot
    requires r.periodic == d.periodic && r.condition == Put(d.condition, name, v) && r.used == d.used
    ensures Inv(r)
  {
    ConditionSlotsUnique(d.condition);
    PutSameSlot(d.condition, name, v);
  }

  lemma {:induction false} ConditionFoldInv(d: Driver, req: Effects)
    requires Inv(d) && ConditionNamed(req)
    ensures Inv(ConditionFold(d, req))
  {
    if req != [] {
      var init := req[..|req| - 1];
      ConditionFoldInv(d, init);
      ConditionStepInv(ConditionFold(d, init), req[|req| - 1].0, req[|req| - 1].1);
    }
  }

  lemma UpdateConditionsInv(d: Driver, e: Effects)
    requires Inv(d) && WellFormed(e)
    ensures Inv(UpdateConditions(d, e))
  {
    var req := ConditionRequests(e);
    DropConditionsInv(d, req);
    ConditionFoldInv(DropConditions(d, req), req);
  }

  /** `apply_effects` keeps the slot bookkeeping consistent. */
  lemma ApplyEffectsInv(d: Driver, e: Effects)
    requires Inv(d) && WellFormed(e)
    ensures Inv(ApplyEffects(d, e))
  {
    if d.connected {
      UpdatePeriodicInv(d, e);
      UpdateConditionsInv(UpdatePeriodic(d, e), e);
      var d1 := UpdateConditions(UpdatePeriodic(d, e), e);
      if HasKey(e, "constant_force") {
        WriteAllLogs(d1, ConstantForceReports(Get(e, "constant_force")));
      }
    }
  }

  /**
   * `stop_all_effects` while connected empties both tables and frees every slot; the log
   * gains a Stop for each tracked slot, periodic ones first, then a Stop on slot 2.
   */
  lemma StopAllClears(d: Driver)
    requires Inv(d) && d.connected
    ensures StopAll(d).periodic == [] && StopAll(d).condition == [] && StopAll(d).used == {}
    ensures StopAll(d).written
      == d.written + DroppedStops(d.periodic, []) + DroppedStops(d.condition, []) + [Stop(ConstantForceSlot)]
    ensures Inv(StopAll(d))
  {
    RestrictSlots(d.periodic, []);
    ConditionSlotsUnique(d.condition);
    RestrictSlots(d.condition, []);

  }
}
