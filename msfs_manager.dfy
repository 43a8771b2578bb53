/**
 * `MSFSManager` (fsffb/telemetry/msfs_manager.py): the queues of overrides, events and
 * simulation data, the subscription bookkeeping of `_subscribe`, the system events and the
 * decoding and stop latch of `_handle_simobject_data`.
 *
 * SimConnect itself is replaced by what the manager hands to it and to its callbacks: the
 * events and data it sends, the event callbacks and the telemetry dictionaries it delivers.
 * A data packet arrives already split into (datum index, value) pairs.
 */
module MsfsManager {
  import opened Wrappers
  import opened Dict
  import opened Text
  import opened MsfsSimVars
  import opened MsfsSubstitute

  /** The client event ids of the four system events the manager subscribes to. */
  const EvPaused: int := 65499
  const EvStarted: int := 65498
  const EvStopped: int := 65497
  const EvSimState: int := 65496

  /** A telemetry value: a variable's value, or the values list of an array. */
  datatype Datum = Val(v: SimValue) | Arr(values: seq<SimValue>)

  /** The dictionary handed to the telemetry callback. */
  type Frame = Dict<string, Datum>

  /** One call of the event callback: the event's name and its data, if it has any. */
  datatype EventCall = EventCall(name: string, data: Option<int>)

  // ---------------------------------------------------------------- add_simvar

  /** `name.split(":")[1]`: the text between the first `:` and the next one. */
  function IndexField(name: string): (r: string)
    requires ':' in name
    ensures ':' !in r
  {
    var rest := After(name, ':');
    if ':' in rest then Before(rest, ':') else rest
  }

  /** The element override `add_simvar` queues for `name:index`. */
  function ElementOverride(name: string, index: int, variable: string, scUnit: string, unit: Option<string>,
                           dataType: DataType, scale: Option<real>, mutator: Option<SimValue -> SimValue>): (sv: SimVar)
    requires ':' in name
    ensures sv.name == Before(name, ':') && ':' !in sv.name && sv.index == Some(index)
    ensures sv.variable == variable && sv.scUnit == scUnit && sv.scale == scale
  {
    NewSimVar(Before(name, ':'), variable, scUnit, unit, dataType, scale, mutator).(index := Some(index))
  }

  // ---------------------------------------------------------------- _tx_events

  /** The events `_tx_events` hands to SimConnect: those not starting with `L:`, in order. */
  function SentPart(q: seq<(string, int)>): (r: seq<(string, int)>)
    ensures |r| <= |q|
    ensures forall i :: 0 <= i < |r| ==> r[i] in q && !StartsWith(r[i].0, "L:")
    decreases |q|
  {
    if q == [] then []
    else (if StartsWith(q[0].0, "L:") then [] else [q[0]]) + SentPart(q[1..])
  }

  /** The simulation data `_tx_events` queues instead: each `L:` event with units "number". */
  function LvarPart(q: seq<(string, int)>): (r: seq<(string, real, Option<string>)>)
    ensures |r| <= |q|
    ensures forall i :: 0 <= i < |r| ==> StartsWith(r[i].0, "L:") && r[i].2 == Some("number")
    ensures forall i :: 0 <= i < |r| ==> exists j :: 0 <= j < |q| && q[j].0 == r[i].0 && q[j].1 as real == r[i].1
    decreases |q|
  {
    if q == [] then []
    else
      var rest := LvarPart(q[1..]);
      assert forall i :: 0 <= i < |rest| ==> exists j :: 0 <= j < |q| && q[j].0 == rest[i].0 && q[j].1 as real == rest[i].1 by {
        forall i | 0 <= i < |rest|
          ensures exists j :: 0 <= j < |q| && q[j].0 == rest[i].0 && q[j].1 as real == rest[i].1
        {
          var j :| 0 <= j < |q[1..]| && q[1..][j].0 == rest[i].0 && q[1..][j].1 as real == rest[i].1;
          assert q[j + 1] == q[1..][j];
        }
      }
      (if StartsWith(q[0].0, "L:") then [(q[0].0, q[0].1 as real, Some("number"))] else []) + rest
  }

  lemma TxStep(q: seq<(string, int)>)
    requires q != []
    ensures StartsWith(q[0].0, "L:") ==> SentPart(q) == SentPart(q[1..])
    ensures StartsWith(q[0].0, "L:") ==> LvarPart(q) == [(q[0].0, q[0].1 as real, Some("number"))] + LvarPart(q[1..])
    ensures !StartsWith(q[0].0, "L:") ==> SentPart(q) == [q[0]] + SentPart(q[1..])
    ensures !StartsWith(q[0].0, "L:") ==> LvarPart(q) == LvarPart(q[1..])
  {
  }

  /** Every queued event goes exactly one way: to SimConnect or to the simulation-data queue. */
  lemma {:induction false} EventsPartition(q: seq<(string, int)>)
    ensures |SentPart(q)| + |LvarPart(q)| == |q|
    ensures forall e :: e in q && !StartsWith(e.0, "L:") ==> e in SentPart(q)
    decreases |q|
  {
    if q != [] {
      EventsPartition(q[1..]);
      forall e | e in q && !StartsWith(e.0, "L:")
        ensures e in SentPart(q)
      {
        if e != q[0] {
          assert e in q[1..];
        }
      }
    }
  }

  // ---------------------------------------------------------------- _handle_simobject_data

  /** The outcome of decoding a packet: the arrays' values, the frame, and whether it raised. */
  datatype Decoded = Decoded(values: map<string, seq<SimValue>>, frame: Frame, failed: bool)

  /**
   * The loop over the packet's data: an index outside the subscription is skipped (the caught
   * IndexError); a value `_calculate` cannot scale raises TypeError, which ends the decoding; a
   * plain variable is stored under its name; an array element is written into its array's
   * values, and the frame gets the whole values list under the array's name.
   */
  function Decode(slots: seq<Slot>, values: map<string, seq<SimValue>>, frame: Frame,
                  items: seq<(nat, SimValue)>): (r: Decoded)
    ensures r.values.Keys == values.Keys
    ensures forall p :: p in values ==> |r.values[p]| == |values[p]|
    ensures items == [] ==> !r.failed
    decreases |items|
  {
    if items == [] then Decoded(values, frame, false)
    else
      var idx := items[0].0;
      if idx >= |slots| then Decode(slots, values, frame, items[1..])
      else
        var slot := slots[idx];
        match Calculate(slot.sv, items[0].1)
        case None => Decoded(values, frame, true)
        case Some(v) =>
          match slot.parent
          case None => Decode(slots, values, Put(frame, slot.sv.name, Val(v)), items[1..])
          case Some(p) =>
            if p in values && slot.sv.index.Some? && 0 <= slot.sv.index.value < |values[p]| then
              var vs := values[p][slot.sv.index.value := v];
              Decode(slots, values[p := vs], Put(frame, p, Arr(vs)), items[1..])
            else Decode(slots, values, frame, items[1..])
  }

  /**
   * Decoding never adds or drops an array or changes its length, keeps every key the frame
   * had, and fails exactly when some reached item's value cannot be scaled.
   */
  lemma {:induction false} DecodeKeeps(slots: seq<Slot>, values: map<string, seq<SimValue>>, frame: Frame,
                                       items: seq<(nat, SimValue)>, k: string)
    requires Distinct(frame)
    ensures Decode(slots, values, frame, items).values.Keys == values.Keys
    ensures forall p :: p in values ==> |Decode(slots, values, frame, items).values[p]| == |values[p]|
    ensures Distinct(Decode(slots, values, frame, items).frame)
    ensures HasKey(frame, k) ==> HasKey(Decode(slots, values, frame, items).frame, k)
    decreases |items|
  {
    if items != [] && items[0].0 < |slots| {
      var slot := slots[items[0].0];
      var r := Calculate(slot.sv, items[0].1);
      if r.Some? {
        if slot.parent.None? {
          PutDistinct(frame, slot.sv.name, Val(r.value));
          DecodeKeeps(slots, values, Put(frame, slot.sv.name, Val(r.value)), items[1..], k);
        } else {
          var p := slot.parent.value;
          if p in values && slot.sv.index.Some? && 0 <= slot.sv.index.value < |values[p]| {
            var vs := values[p][slot.sv.index.value := r.value];
            PutDistinct(frame, p, Arr(vs));
            DecodeKeeps(slots, values[p := vs], Put(frame, p, Arr(vs)), items[1..], k);
          } else {
            DecodeKeeps(slots, values, frame, items[1..], k);
          }
        }
      }
    } else if items != [] {
      DecodeKeeps(slots, values, frame, items[1..], k);
    }
  }

  /** A plain variable's latest value in a packet ends up in the frame under its name. */
  lemma {:induction false} DecodeLastPlain(slots: seq<Slot>, values: map<string, seq<SimValue>>, frame: Frame,
                                           items: seq<(nat, SimValue)>, v: SimValue)
    requires Distinct(frame) && items != [] && items[0].0 < |slots| && slots[items[0].0].parent.None?
    requires Calculate(slots[items[0].0].sv, items[0].1) == Some(v)
    requires forall i :: 0 < i < |items| ==> items[i].0 < |slots|
    requires forall i :: 0 < i < |items| ==> slots[items[i].0].sv.name != slots[items[0].0].sv.name
    requires forall i :: 0 < i < |items| ==> slots[items[i].0].parent != Some(slots[items[0].0].sv.name)
    requires forall i :: 0 < i < |items| ==> Calculate(slots[items[i].0].sv, items[i].1).Some?
    ensures !Decode(slots, values, frame, items).failed
    ensures HasKey(Decode(slots, values, frame, items).frame, slots[items[0].0].sv.name)
    ensures Get(Decode(slots, values, frame, items).frame, slots[items[0].0].sv.name) == Val(v)
  {
    var n := slots[items[0].0].sv.name;
    PutDistinct(frame, n, Val(v));
    DecodeUntouched(slots, values, Put(frame, n, Val(v)), items[1..], n);
  }

  /** A key that no later item writes keeps its value through the decoding. */
  lemma {:induction false} DecodeUntouched(slots: seq<Slot>, values: map<string, seq<SimValue>>, frame: Frame,
                                           items: seq<(nat, SimValue)>, n: string)
    requires Distinct(frame) && HasKey(frame, n)
    requires forall i :: 0 <= i < |items| ==> items[i].0 < |slots|
    requires forall i :: 0 <= i < |items| ==> slots[items[i].0].sv.name != n && slots[items[i].0].parent != Some(n)
    requires forall i :: 0 <= i < |items| ==> Calculate(slots[items[i].0].sv, items[i].1).Some?
    ensures !Decode(slots, values, frame, items).failed
    ensures HasKey(Decode(slots, values, frame, items).frame, n)
    ensures Get(Decode(slots, values, frame, items).frame, n) == Get(frame, n)
    decreases |items|
  {
    if items != [] {
      var slot := slots[items[0].0];
      var v := Calculate(slot.sv, items[0].1).value;
      assert forall i :: 0 <= i < |items[1..]| ==> items[1..][i] == items[i + 1];
      if slot.parent.None? {
        PutDistinct(frame, slot.sv.name, Val(v));
        DecodeUntouched(slots, values, Put(frame, slot.sv.name, Val(v)), items[1..], n);
      } else {
        var p := slot.parent.value;
        if p in values && slot.sv.index.Some? && 0 <= slot.sv.index.value < |values[p]| {
          var vs := values[p][slot.sv.index.value := v];
          PutDistinct(frame, p, Arr(vs));
          DecodeUntouched(slots, values[p := vs], Put(frame, p, Arr(vs)), items[1..], n);
        } else {
          DecodeUntouched(slots, values, frame, items[1..], n);
        }
      }
    }
  }

  /** Python truthiness of a telemetry value. */
  predicate Truthy(d: Datum) {
    match d
    case Val(Num(x)) => x != 0.0
    case Val(Str(s)) => s != ""
    case Arr(vs) => vs != []
  }

  /** A camera state of 2, 3, 4 or 5: the user is flying rather than in a menu. */
  predicate CameraInFlight(d: Datum) {
    d.Val? && d.v.Num? && (d.v.x == 2.0 || d.v.x == 3.0 || d.v.x == 4.0 || d.v.x == 5.0)
  }

  /** `data.get(k, 0)` is truthy. */
  predicate FlagSet(frame: Frame, k: string) {
    HasKey(frame, k) && Truthy(Get(frame, k))
  }

  /** `is_stopped`: paused, parked, slewing, or a camera state outside 2..5 (absent counts as 0). */
  predicate Stopped(simPaused: int, frame: Frame) {
    simPaused != 0 || FlagSet(frame, "Parked") || FlagSet(frame, "Slew") ||
    !(HasKey(frame, "CameraState") && CameraInFlight(Get(frame, "CameraState")))
  }

  /** The frame as first built: the pause state under "SimPaused". */
  function InitialFrame(simPaused: int): (f: Frame)
    ensures Distinct(f) && HasKey(f, "SimPaused") && Get(f, "SimPaused") == Val(Num(simPaused as real))
  {
    var f := [("SimPaused", Val(Num(simPaused as real)))];
    assert f[0].0 == "SimPaused";
    f
  }

  /** What the stop latch does with one decoded frame. */
  datatype LatchStep = LatchStep(latch: bool, notify: bool, deliver: bool)

  /**
   * The latch: a stopped frame is delivered (with STOP) and announced only when the latch
   * was open, and closes it; a running frame is always delivered and opens it.
   */
  function Latch(latch: bool, stopped: bool): (r: LatchStep)
    ensures r.latch == stopped
    ensures r.notify ==> r.deliver
    ensures r.notify <==> stopped && !latch
    ensures !r.deliver <==> stopped && latch
  {
    if stopped then LatchStep(true, !latch, !latch)
    else LatchStep(false, false, true)
  }

  /** The number of STOP announcements and of deliveries over a run of frames. */
  function LatchRun(latch: bool, stops: seq<bool>): (r: (nat, nat))
    decreases |stops|
  {
    if stops == [] then (0, 0)
    else
      var s := Latch(latch, stops[0]);
      var rest := LatchRun(s.latch, stops[1..]);
      ((if s.notify then 1 else 0) + rest.0, (if s.deliver then 1 else 0) + rest.1)
  }

  /** A run of stopped frames after running ones is announced and delivered once. */
  lemma {:induction false} StoppedRunOnce(latch: bool, n: nat)
    requires n > 0
    ensures LatchRun(latch, seq(n, _ => true)) == (if latch then (0, 0) else (1, 1))
    decreases n
  {
    var stops := seq(n, _ => true);
    if n > 1 {
      assert stops[1..] == seq(n - 1, _ => true);
      StoppedRunOnce(true, n - 1);
    } else {
      assert stops[1..] == [];
    }
  }

  /** Running frames are all delivered and never announce STOP. */
  lemma {:induction false} RunningAllDelivered(latch: bool, n: nat)
    ensures LatchRun(latch, seq(n, _ => false)) == (0, n)
    decreases n
  {
    var stops := seq(n, _ => false);
    if n > 0 {
      assert stops[1..] == seq(n - 1, _ => false);
      RunningAllDelivered(false, n - 1);
    }
  }

  /** How many frames of a run are stopped. */
  function Stops(stops: seq<bool>): (n: nat)
    ensures n <= |stops|
    decreases |stops|
  {
    if stops == [] then 0 else (if stops[0] then 1 else 0) + Stops(stops[1..])
  }

  /**
   * Over any run every running frame is delivered, and each announcement comes with the
   * delivery of its frame.
   */
  lemma {:induction false} LatchRunBounds(latch: bool, stops: seq<bool>)
    ensures LatchRun(latch, stops).0 <= LatchRun(latch, stops).1 <= |stops|
    ensures LatchRun(latch, stops).1 >= |stops| - Stops(stops)
    decreases |stops|
  {
    if stops != [] {
      LatchRunBounds(Latch(latch, stops[0]).latch, stops[1..]);
    }
  }

  // ---------------------------------------------------------------- the subscription

  /** The values lists of the arrays of a table, by name (a later array of the same name wins). */
  function ValuesMap(es: seq<Entry>): map<string, seq<SimValue>>
    decreases |es|
  {
    if es == [] then map[]
    else
      var m := ValuesMap(es[..|es| - 1]);
      var e := es[|es| - 1];
      if e.Array? then m[e.arr.name := e.arr.values] else m
  }

  lemma ArrayVarsStep(es: seq<Entry>, i: nat)
    requires i < |es|
    ensures ArrayVars(es[i..]) == (if es[i].Array? then VarNames(es[i].arr.vars) else []) + ArrayVars(es[i + 1..])
  {
    assert es[i..][1..] == es[i + 1..];
  }

  /** `new_var_tracker`: the comprehension over the plain entries, then the loop over the arrays. */
  method ComputeTracker(final: seq<Entry>) returns (tracker: seq<string>)
    ensures tracker == Tracker(final)
  {
    tracker := PlainVars(final);
    var j := 0;
    while j < |final|
      invariant 0 <= j <= |final|
      invariant tracker + ArrayVars(final[j..]) == Tracker(final)
    {
      ArrayVarsStep(final, j);
      if final[j].Array? {
        tracker := tracker + VarNames(final[j].arr.vars);
      }
      j := j + 1;
    }
    assert final[|final|..] == [];
  }

  /** `Update` over a concatenation is one update after the other. */
  lemma {:induction false} UpdateConcat<K, V>(a: Dict<K, V>, b: Dict<K, V>, c: Dict<K, V>)
    ensures Update(a, b + c) == Update(Update(a, b), c)
    decreases |b|
  {
    if b == [] {
      assert b + c == c;
    } else {
      assert (b + c)[0] == b[0] && (b + c)[1..] == b[1..] + c;
      UpdateConcat(Put(a, b[0].0, b[0].1), b[1..], c);
    }
  }

  lemma ElementPairsStep(es: seq<Entry>, i: nat)
    requires i < |es|
    ensures ElementPairs(es[i..]) == ElementPairsOf(es[i]) + ElementPairs(es[i + 1..])
  {
    assert es[i..][1..] == es[i + 1..];
  }

  /** One assignment `d[k] = v` is the first step of updating with a list starting with `(k, v)`. */
  lemma UpdateStep<K, V>(d: Dict<K, V>, pairs: seq<(K, V)>, j: nat)
    requires j < |pairs|
    ensures Update(Put(d, pairs[j].0, pairs[j].1), pairs[j + 1..]) == Update(d, pairs[j..])
  {
    assert pairs[j..][0] == pairs[j] && pairs[j..][1..] == pairs[j + 1..];
  }

  /** The loop over one array's elements: `sv_dict[f"{sva.name}:{v.index}"] = v.var`. */
  method PutElements(d0: Dict<string, string>, a: SimVarArray) returns (d: Dict<string, string>)
    ensures d == Update(d0, ElementPairsOf(Array(a)))
  {
    var pairs := ElementPairsOf(Array(a));
    d := d0;
    var j := 0;
    while j < |a.vars|
      invariant 0 <= j <= |a.vars|
      invariant Update(d, pairs[j..]) == Update(d0, pairs)
    {
      UpdateStep(d, pairs, j);
      d := Put(d, ElementKey(a, j), a.vars[j].variable);
      j := j + 1;
    }
    assert pairs[j..] == [];
  }

  /** `sv_dict`: the dictionary comprehension over the plain entries, then the loop over the arrays. */
  method ComputeSvDict(final: seq<Entry>) returns (d: Dict<string, string>)
    ensures d == SvDict(final)
  {
    d := FromList(PlainPairs(final));
    UpdateConcat([], PlainPairs(final), ElementPairs(final));
    var i := 0;
    while i < |final|
      invariant 0 <= i <= |final|
      invariant Update(d, ElementPairs(final[i..])) == SvDict(final)
    {
      ElementPairsStep(final, i);
      UpdateConcat(d, ElementPairsOf(final[i]), ElementPairs(final[i + 1..]));
      if final[i].Array? {
        d := PutElements(d, final[i].arr);
      }
      i := i + 1;
    }
    assert final[i..] == [];
  }

  lemma SlotsStep(es: seq<Entry>, i: nat)
    requires i < |es|
    ensures Slots(es[i..]) == EntrySlots(es[i]) + Slots(es[i + 1..])
  {
    assert es[i..][1..] == es[i + 1..];
  }

  /** Appending one entry's slots moves the loop of `_subscribe` on by one entry. */
  lemma SlotsAdvance(es: seq<Entry>, i: nat, prev: seq<Slot>, slots: seq<Slot>)
    requires i < |es| && prev + Slots(es[i..]) == Slots(es) && slots == prev + EntrySlots(es[i])
    ensures slots + Slots(es[i + 1..]) == Slots(es)
  {
    SlotsStep(es, i);
    ConcatAssoc(prev, EntrySlots(es[i]), Slots(es[i + 1..]));
  }

  /** The inner loop of `_subscribe`: an array's elements are subscribed in order. */
  method AppendElements(slots0: seq<Slot>, a: SimVarArray) returns (slots: seq<Slot>)
    ensures slots == slots0 + EntrySlots(Array(a))
  {
    slots := slots0;
    var j := 0;
    while j < |a.vars|
      invariant 0 <= j <= |a.vars|
      invariant slots == slots0 + EntrySlots(Array(a))[..j]
    {
      assert EntrySlots(Array(a))[..j + 1] == EntrySlots(Array(a))[..j] + [Slot(a.vars[j], Some(a.name))];
      slots := slots + [Slot(a.vars[j], Some(a.name))];
      j := j + 1;
    }
    assert EntrySlots(Array(a))[..j] == EntrySlots(Array(a));
  }

  /** The loop of `_subscribe` over `final_list`: an array expands into its elements in place. */
  method ComputeSlots(final: seq<Entry>) returns (slots: seq<Slot>)
    ensures slots == Slots(final)
  {
    slots := [];
    var i := 0;
    while i < |final|
      invariant 0 <= i <= |final|
      invariant slots + Slots(final[i..]) == Slots(final)
    {
      var e := final[i];
      ghost var prev := slots;
      if e.Array? {
        slots := AppendElements(slots, e.arr);
      } else {
        slots := slots + [Slot(e.sv, None)];
      }
      SlotsAdvance(final, i, prev, slots);
      i := i + 1;
    }
    assert final[i..] == [];
  }

  // ---------------------------------------------------------------- the manager

  /**
   * `MSFSManager`: the default table, the queued overrides, the subscription, the queues to
   * SimConnect, the pause and stop state, and what was sent and delivered.
   */
  class Manager {
    var simVars: seq<Entry>
    var tempSimVars: seq<SimVar>
    var tempElements: seq<SimVar>
    var newVarTracker: seq<string>
    var currentVarTracker: seq<string>
    var svDict: Dict<string, string>
    var subscribed: seq<Slot>
    var arrayValues: map<string, seq<SimValue>>
    var initialSubscribeDone: bool
    var defId: int
    var reqId: int
    var resubscribe: bool
    var simPaused: int
    var simStarted: int
    var simState: int
    var stopState: bool
    var eventsToSend: seq<(string, int)>
    var simdatumsToSend: seq<(string, real, Option<string>)>
    var sentEvents: seq<(string, int)>
    var sentSimdatums: seq<(string, real, Option<string>)>
    var eventCalls: seq<EventCall>
    var telemetryCalls: seq<Frame>
    var quitRequested: bool

    /** `__init__`: the default table, empty queues, both ids equal to the process id. */
    constructor (pid: int)
      ensures simVars == DefaultSimVars() && reqId == pid && defId == pid
      ensures tempSimVars == [] && tempElements == [] && subscribed == [] && arrayValues == map[]
      ensures newVarTracker == [] && currentVarTracker == [] && svDict == []
      ensures !initialSubscribeDone && !resubscribe && !stopState && !quitRequested
      ensures simPaused == 0 && simStarted == 0 && simState == 0
      ensures eventsToSend == [] && simdatumsToSend == [] && sentEvents == [] && sentSimdatums == []
      ensures eventCalls == [] && telemetryCalls == []
    {
      simVars := DefaultSimVars();
      tempSimVars := [];
      tempElements := [];
      newVarTracker := [];
      currentVarTracker := [];
      svDict := [];
      subscribed := [];
      arrayValues := map[];
      initialSubscribeDone := false;
      defId := pid;
      reqId := pid;
      resubscribe := false;
      simPaused := 0;
      simStarted := 0;
      simState := 0;
      stopState := false;
      eventsToSend := [];
      simdatumsToSend := [];
      sentEvents := [];
      sentSimdatums := [];
      eventCalls := [];
      telemetryCalls := [];
      quitRequested := false;
    }

    /**
     * `add_simvar`: a name with a `:` queues an element override named by the text before it,
     * with the index `int()` reads from the text after it (nothing is queued when that raises);
     * any other name queues a plain override.
     */
    method AddSimVar(parseInt: string -> Option<int>, name: string, variable: string, scUnit: string,
                     unit: Option<string>, dataType: DataType, scale: Option<real>,
                     mutator: Option<SimValue -> SimValue>) returns (ok: bool)
      modifies this`tempSimVars, this`tempElements
      ensures ':' !in name ==> ok && tempElements == old(tempElements)
      ensures ':' !in name ==> tempSimVars == old(tempSimVars) + [NewSimVar(name, variable, scUnit, unit, dataType, scale, mutator)]
      ensures ':' in name ==> tempSimVars == old(tempSimVars) && (ok <==> parseInt(IndexField(name)).Some?)
      ensures ':' in name && !ok ==> tempElements == old(tempElements)
      ensures ':' in name && ok ==>
        tempElements == old(tempElements) + [ElementOverride(name, parseInt(IndexField(name)).value, variable, scUnit, unit, dataType, scale, mutator)]
    {
      if ':' in name {
        var index := parseInt(IndexField(name));
        if index.None? {
          return false;
        }
        tempElements := tempElements + [ElementOverride(name, index.value, variable, scUnit, unit, dataType, scale, mutator)];
      } else {
        tempSimVars := tempSimVars + [NewSimVar(name, variable, scUnit, unit, dataType, scale, mutator)];
      }
      ok := true;
    }

    /**
     * `substitute_simvars`: on success the queues are emptied and the tracker and `sv_dict` are
     * those of the merged table, which is returned; when the merge raises nothing changes.
     */
    method SubstituteSimVars() returns (r: Result<seq<Entry>>)
      modifies this`tempSimVars, this`tempElements, this`newVarTracker, this`svDict
      ensures Substitute(old(simVars), old(tempSimVars), old(tempElements)).Err? ==>
        r.Err? && tempSimVars == old(tempSimVars) && tempElements == old(tempElements) &&
        newVarTracker == old(newVarTracker) && svDict == old(svDict)
      ensures Substitute(old(simVars), old(tempSimVars), old(tempElements)).Ok? ==>
        r == Ok(Values(Substitute(old(simVars), old(tempSimVars), old(tempElements)).value)) &&
        tempSimVars == [] && tempElements == [] &&
        newVarTracker == Tracker(r.value) && svDict == SvDict(r.value)
    {
      var merged := Substitute(simVars, tempSimVars, tempElements);
      if merged.Err? {
        return Err(merged.error);
      }
      var final := Values(merged.value);
      tempSimVars := [];
      tempElements := [];
      newVarTracker := ComputeTracker(final);
      svDict := ComputeSvDict(final);
      r := Ok(final);
    }

    /**
     * `_subscribe`: after a successful merge, a tracker equal to the current one keeps the
     * subscription; otherwise the definition id moves on (except the first time), the
     * subscription becomes the merged table's slots and the tracker becomes current.
     */
    method Subscribe() returns (ok: bool)
      modifies this`tempSimVars, this`tempElements, this`newVarTracker, this`svDict
      modifies this`currentVarTracker, this`subscribed, this`arrayValues, this`defId, this`initialSubscribeDone
      ensures ok <==> Substitute(old(simVars), old(tempSimVars), old(tempElements)).Ok?
      ensures !ok ==> unchanged(this`tempSimVars, this`tempElements)
      ensures !ok || currentVarTracker == old(currentVarTracker) ==>
        unchanged(this`subscribed, this`arrayValues, this`defId, this`initialSubscribeDone, this`currentVarTracker)
      ensures ok ==> var final := Values(Substitute(old(simVars), old(tempSimVars), old(tempElements)).value);
        tempSimVars == [] && tempElements == [] && newVarTracker == Tracker(final) && svDict == SvDict(final) &&
        (old(currentVarTracker) == Tracker(final) <==> currentVarTracker == old(currentVarTracker)) &&
        (old(currentVarTracker) != Tracker(final) ==>
          currentVarTracker == Tracker(final) && subscribed == Slots(final) && arrayValues == ValuesMap(final) &&
          initialSubscribeDone && defId == old(defId) + (if old(initialSubscribeDone) then 1 else 0))
    {
      var r := SubstituteSimVars();
      if r.Err? {
        return false;
      }
      ok := true;
      Resubscribe(r.value);
    }

    /**
     * The part of `_subscribe` after the merge: when the merged table's tracker differs from
     * the current one, the table is subscribed anew under the next definition id.
     */
    method Resubscribe(final: seq<Entry>)
      requires newVarTracker == Tracker(final)
      modifies this`currentVarTracker, this`subscribed, this`arrayValues, this`defId, this`initialSubscribeDone
      ensures old(currentVarTracker) == Tracker(final) ==>
        unchanged(this`subscribed, this`arrayValues, this`defId, this`initialSubscribeDone, this`currentVarTracker)
      ensures old(currentVarTracker) != Tracker(final) ==>
        currentVarTracker == Tracker(final) && subscribed == Slots(final) && arrayValues == ValuesMap(final) &&
        initialSubscribeDone && defId == old(defId) + (if old(initialSubscribeDone) then 1 else 0)
    {
      if currentVarTracker == newVarTracker {
        return;
      }
      if initialSubscribeDone {
        defId := defId + 1;
      }
      initialSubscribeDone := true;
      subscribed := ComputeSlots(final);
      arrayValues := ValuesMap(final);
      currentVarTracker := newVarTracker;
    }

    /** `request_resubscribe`. */
    method RequestResubscribe()
      modifies this`resubscribe
      ensures resubscribe
    {
      resubscribe := true;
    }

    /** `set_simdatum`: queues one datum. */
    method SetSimdatum(simvar: string, value: real, units: Option<string>)
      modifies this`simdatumsToSend
      ensures simdatumsToSend == old(simdatumsToSend) + [(simvar, value, units)]
    {
      simdatumsToSend := simdatumsToSend + [(simvar, value, units)];
    }

    /** `send_event`: queues one event, except the placeholder "DO_NOT_SEND". */
    method SendEvent(event: string, data: int)
      modifies this`eventsToSend
      ensures eventsToSend == old(eventsToSend) + (if event == "DO_NOT_SEND" then [] else [(event, data)])
    {
      if event == "DO_NOT_SEND" {
        return;
      }
      eventsToSend := eventsToSend + [(event, data)];
    }

    /** `_tx_simdatums`: every queued datum goes to SimConnect, oldest first. */
    method TxSimdatums()
      modifies this`simdatumsToSend, this`sentSimdatums
      ensures simdatumsToSend == [] && sentSimdatums == old(sentSimdatums) + old(simdatumsToSend)
    {
      while simdatumsToSend != []
        invariant sentSimdatums + simdatumsToSend == old(sentSimdatums) + old(simdatumsToSend)
        decreases |simdatumsToSend|
      {
        var datum := simdatumsToSend[0];
        assert simdatumsToSend == [datum] + simdatumsToSend[1..];
        simdatumsToSend := simdatumsToSend[1..];
        sentSimdatums := sentSimdatums + [datum];
      }
    }

    /**
     * `_tx_events`: the queue is drained oldest first; an `L:` event becomes a queued datum with
     * units "number", any other is sent to SimConnect.
     */
    method TxEvents()
      modifies this`eventsToSend, this`simdatumsToSend, this`sentEvents
      ensures eventsToSend == []
      ensures sentEvents == old(sentEvents) + SentPart(old(eventsToSend))
      ensures simdatumsToSend == old(simdatumsToSend) + LvarPart(old(eventsToSend))
    {
      while eventsToSend != []
        invariant sentEvents + SentPart(eventsToSend) == old(sentEvents) + SentPart(old(eventsToSend))
        invariant simdatumsToSend + LvarPart(eventsToSend) == old(simdatumsToSend) + LvarPart(old(eventsToSend))
        decreases |eventsToSend|
      {
        var event := eventsToSend[0];
        TxStep(eventsToSend);
        eventsToSend := eventsToSend[1..];
        if StartsWith(event.0, "L:") {
          ConcatAssoc(simdatumsToSend, [(event.0, event.1 as real, Some("number"))], LvarPart(eventsToSend));
          SetSimdatum(event.0, event.1 as real, Some("number"));
        } else {
          ConcatAssoc(sentEvents, [event], SentPart(eventsToSend));
          sentEvents := sentEvents + [event];
        }
      }
    }

    /**
     * `_handle_event`: the pause and sim-state events store their data, start and stop set
     * the started flag, and each of the four is passed to the event callback (with data only
     * for pause and sim state); any other event id is ignored.
     */
    method HandleEvent(eventId: int, dwData: int)
      modifies this`simPaused, this`simStarted, this`simState, this`eventCalls
      ensures simPaused == (if eventId == EvPaused then dwData else old(simPaused))
      ensures simStarted == (if eventId == EvStarted then 1 else if eventId == EvStopped then 0 else old(simStarted))
      ensures simState == (if eventId == EvSimState then dwData else old(simState))
      ensures eventCalls == old(eventCalls) +
        (if eventId == EvPaused then [EventCall("Paused", Some(dwData))]
         else if eventId == EvStarted then [EventCall("SimStart", None)]
         else if eventId == EvStopped then [EventCall("SimStop", None)]
         else if eventId == EvSimState then [EventCall("SimState", Some(dwData))]
         else [])
    {
      if eventId == EvPaused {
        simPaused := dwData;
        eventCalls := eventCalls + [EventCall("Paused", Some(dwData))];
      } else if eventId == EvStarted {
        simStarted := 1;
        eventCalls := eventCalls + [EventCall("SimStart", None)];
      } else if eventId == EvStopped {
        simStarted := 0;
        eventCalls := eventCalls + [EventCall("SimStop", None)];
      } else if eventId == EvSimState {
        simState := dwData;
        eventCalls := eventCalls + [EventCall("SimState", Some(dwData))];
      }
    }

    /**
     * `_handle_simobject_data`: a packet for another request or definition is ignored. The
     * packet is decoded into a frame that starts with the pause state; a TypeError ends the
     * handling (returning false) after the array values written so far. A running frame is
     * delivered and opens the latch; a stopped frame gets STOP = 1 and, only when the latch
     * was open, is announced and delivered; the latch then records the frame's state.
     */
    method HandleSimobjectData(requestId: int, defineId: int, items: seq<(nat, SimValue)>) returns (ok: bool)
      modifies this`arrayValues, this`telemetryCalls, this`eventCalls, this`stopState
      ensures requestId != reqId || defineId != defId ==>
        ok && arrayValues == old(arrayValues) && telemetryCalls == old(telemetryCalls) &&
        eventCalls == old(eventCalls) && stopState == old(stopState)
      ensures requestId == reqId && defineId == defId ==>
        var d := Decode(subscribed, old(arrayValues), InitialFrame(simPaused), items);
        arrayValues == d.values && ok == !d.failed &&
        (d.failed ==> telemetryCalls == old(telemetryCalls) && eventCalls == old(eventCalls) && stopState == old(stopState)) &&
        (!d.failed ==> var st := Latch(old(stopState), Stopped(simPaused, d.frame));
          stopState == st.latch &&
          eventCalls == old(eventCalls) + (if st.notify then [EventCall("STOP", None)] else []) &&
          telemetryCalls == old(telemetryCalls) +
            (if !st.deliver then [] else if Stopped(simPaused, d.frame) then [Put(d.frame, "STOP", Val(Num(1.0)))] else [d.frame]))
    {
      if requestId != reqId || defineId != defId {
        return true;
      }
      var frame := InitialFrame(simPaused);
      var i := 0;
      while i < |items|
        invariant 0 <= i <= |items|
        invariant Decode(subscribed, arrayValues, frame, items[i..]) ==
                  Decode(subscribed, old(arrayValues), InitialFrame(simPaused), items)
        invariant telemetryCalls == old(telemetryCalls) && eventCalls == old(eventCalls) && stopState == old(stopState)
      {
        assert items[i..][1..] == items[i + 1..];
        var (idx, raw) := items[i];
        i := i + 1;
        if idx >= |subscribed| {
          continue;
        }
        var slot := subscribed[idx];
        var value := Calculate(slot.sv, raw);
        if value.None? {
          return false;
        }
        if slot.parent.None? {
          frame := Put(frame, slot.sv.name, Val(value.value));
        } else {
          var p := slot.parent.value;
          if p in arrayValues && slot.sv.index.Some? && 0 <= slot.sv.index.value < |arrayValues[p]| {
            arrayValues := arrayValues[p := arrayValues[p][slot.sv.index.value := value.value]];
            frame := Put(frame, p, Arr(arrayValues[p]));
          }
        }
      }
      assert items[i..] == [];
      ok := true;
      if Stopped(simPaused, frame) {
        var stopped := Put(frame, "STOP", Val(Num(1.0)));
        if !stopState {
          eventCalls := eventCalls + [EventCall("STOP", None)];
          telemetryCalls := telemetryCalls + [stopped];
          stopState := true;
        }
      } else {
        stopState := false;
        telemetryCalls := telemetryCalls + [frame];
      }
    }

    /** `quit`: the thread ends at its next test. */
    method Quit()
      modifies this`quitRequested
      ensures quitRequested
    {
      quitRequested := true;
    }
  }
}
