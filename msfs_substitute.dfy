/**
 * `substitute_simvars` (fsffb/telemetry/msfs_manager.py): merging the queued overrides into
 * the default table, and the lists derived from the result -- the tracker that decides
 * whether to resubscribe, the subscription order, and `sv_dict`.
 *
 * The Python dictionaries are insertion-ordered association lists (`Dict`). An element
 * override is a `SimVar` carrying the array name and the index parsed from `name:index`.
 */
module MsfsSubstitute {
  import opened Wrappers
  import opened Dict
  import opened Text
  import opened MsfsSimVars

  /** A name-keyed table of entries (`master_dict`, `override_dict`). */
  type Table = Dict<string, Entry>

  predicate PlainIn(t: Table, k: string) {
    HasKey(t, k) && Get(t, k).Plain?
  }

  predicate ArrayIn(t: Table, k: string) {
    HasKey(t, k) && Get(t, k).Array?
  }

  /** Some override in `temps` has name `k`. */
  predicate NamedIn(temps: seq<SimVar>, k: string) {
    exists i :: 0 <= i < |temps| && temps[i].name == k
  }

  function Plains(temps: seq<SimVar>): (es: seq<Entry>)
    ensures |es| == |temps|
    ensures forall i :: 0 <= i < |temps| ==> es[i] == Plain(temps[i])
  {
    seq(|temps|, i requires 0 <= i < |temps| => Plain(temps[i]))
  }

  /** `override_dict` as first built: `{sv.name: sv for sv in temp_sim_vars}`. */
  function PlainOverrides(temps: seq<SimVar>): Table {
    FromList(ByName(Plains(temps)))
  }

  // ---------------------------------------------------------------- the clone loop

  /**
   * The first loop over the element overrides: an array of the master table named by an
   * element override and not already overridden is cloned into `override_dict`. A master
   * entry that is a plain SimVar has no `clone` (AttributeError).
   */
  function AddClones(master: Table, od: Table, elements: seq<SimVar>): Result<Table>
    decreases |elements|
  {
    if elements == [] then Ok(od)
    else
      var n := elements[0].name;
      if HasKey(master, n) && !HasKey(od, n) then
        match Get(master, n)
        case Plain(_) => Err("AttributeError: 'SimVar' object has no attribute 'clone'")
        case Array(a) => AddClones(master, Put(od, n, Array(Clone(a))), elements[1..])
      else AddClones(master, od, elements[1..])
  }

  /** An array the clone loop copies: in the master table, named by an element, not yet overridden. */
  predicate NeedsClone(master: Table, od: Table, elements: seq<SimVar>, k: string) {
    !HasKey(od, k) && ArrayIn(master, k) && NamedIn(elements, k)
  }

  /** Some element override names a plain master entry that is not overridden. */
  predicate CloneFails(master: Table, od: Table, elements: seq<SimVar>) {
    exists i :: 0 <= i < |elements| && PlainIn(master, elements[i].name) && !HasKey(od, elements[i].name)
  }

  /** The clone loop raises exactly when an element override names an unoverridden plain SimVar. */
  lemma {:induction false} AddClonesFails(master: Table, od: Table, elements: seq<SimVar>)
    requires Distinct(od)
    ensures AddClones(master, od, elements).Err? <==> CloneFails(master, od, elements)
    decreases |elements|
  {
    if elements != [] {
      var n := elements[0].name;
      var rest := elements[1..];
      if HasKey(master, n) && !HasKey(od, n) && Get(master, n).Plain? {
        assert PlainIn(master, elements[0].name) && !HasKey(od, elements[0].name);
      } else {
        var od1 := od;
        if HasKey(master, n) && !HasKey(od, n) {
          od1 := Put(od, n, Array(Clone(Get(master, n).arr)));
          PutDistinct(od, n, Array(Clone(Get(master, n).arr)));
        }
        AddClonesFails(master, od1, rest);
        CloneFailsStep(master, od, od1, elements);
      }
    }
  }

  /** The failure condition after one step of the clone loop, which adds no plain name. */
  lemma CloneFailsStep(master: Table, od: Table, od1: Table, elements: seq<SimVar>)
    requires elements != [] && !(PlainIn(master, elements[0].name) && !HasKey(od, elements[0].name))
    requires forall x :: PlainIn(master, x) ==> (HasKey(od1, x) <==> HasKey(od, x))
    ensures CloneFails(master, od, elements) <==> CloneFails(master, od1, elements[1..])
  {
    var rest := elements[1..];
    if CloneFails(master, od, elements) {
      var i :| 0 <= i < |elements| && PlainIn(master, elements[i].name) && !HasKey(od, elements[i].name);
      assert rest[i - 1] == elements[i];
    }
    if CloneFails(master, od1, rest) {
      var i :| 0 <= i < |rest| && PlainIn(master, rest[i].name) && !HasKey(od1, rest[i].name);
      assert elements[i + 1] == rest[i];
    }
  }

  /**
   * After the clone loop a name is overridden iff it was before or it needed a clone; old
   * overrides are kept, and a cloned array is the clone of the master array.
   */
  lemma {:induction false} AddClonesAt(master: Table, od: Table, elements: seq<SimVar>, k: string)
    requires Distinct(od) && AddClones(master, od, elements).Ok?
    ensures Distinct(AddClones(master, od, elements).value)
    ensures HasKey(AddClones(master, od, elements).value, k) <==> HasKey(od, k) || NeedsClone(master, od, elements, k)
    ensures HasKey(od, k) ==> Get(AddClones(master, od, elements).value, k) == Get(od, k)
    ensures NeedsClone(master, od, elements, k) ==>
      Get(AddClones(master, od, elements).value, k) == Array(Clone(Get(master, k).arr))
    decreases |elements|
  {
    if elements != [] {
      var n := elements[0].name;
      var rest := elements[1..];
      assert NamedIn(elements, k) <==> n == k || NamedIn(rest, k) by {
        if NamedIn(elements, k) && n != k {
          var i :| 0 <= i < |elements| && elements[i].name == k;
          assert rest[i - 1] == elements[i];
        }
        if NamedIn(rest, k) {
          var i :| 0 <= i < |rest| && rest[i].name == k;
          assert elements[i + 1] == rest[i];
        }
      }
      if HasKey(master, n) && !HasKey(od, n) {
        var a := Get(master, n).arr;
        var od1 := Put(od, n, Array(Clone(a)));
        PutDistinct(od, n, Array(Clone(a)));
        AddClonesAt(master, od1, rest, k);
      } else {
        AddClonesAt(master, od, rest, k);
      }
    }
  }

  // ---------------------------------------------------------------- the placement loop

  /** Putting one element override into an array, only when its index is in bounds. */
  function PatchOne(a: SimVarArray, e: SimVar): (r: SimVarArray)
    ensures |r.vars| == |a.vars| && r == a.(vars := r.vars)
  {
    if e.index.Some? && 0 <= e.index.value < |a.vars| then a.(vars := a.vars[e.index.value := e]) else a
  }

  /** The array named `n` after every element override naming `n` has been applied in order. */
  function Patched(a: SimVarArray, n: string, elements: seq<SimVar>): SimVarArray
    decreases |elements|
  {
    if elements == [] then a
    else Patched(if elements[0].name == n then PatchOne(a, elements[0]) else a, n, elements[1..])
  }

  /** The last element override naming `n` with index `i`, if any. */
  function LastHit(n: string, elements: seq<SimVar>, i: int): (r: Option<SimVar>)
    ensures r.Some? ==> r.value.name == n && r.value.index == Some(i)
    decreases |elements|
  {
    if elements == [] then None
    else if LastHit(n, elements[1..], i).Some? then LastHit(n, elements[1..], i)
    else if elements[0].name == n && elements[0].index == Some(i) then Some(elements[0])
    else None
  }

  /**
   * The placement rule: slot `i` of the patched array holds the last override naming the
   * array with index `i`, or the original element; the length, the configuration and the
   * values never change, so an out-of-bounds index is ignored.
   */
  lemma {:induction false} PatchedAt(a: SimVarArray, n: string, elements: seq<SimVar>, i: nat)
    requires i < |a.vars|
    ensures |Patched(a, n, elements).vars| == |a.vars|
    ensures Patched(a, n, elements) == a.(vars := Patched(a, n, elements).vars)
    ensures Patched(a, n, elements).vars[i] == LastHit(n, elements, i).GetOr(a.vars[i])
    decreases |elements|
  {
    if elements != [] {
      var a1 := if elements[0].name == n then PatchOne(a, elements[0]) else a;
      PatchedAt(a1, n, elements[1..], i);
    }
  }

  /** Patching keeps every element at its own index. */
  lemma PatchedWellIndexed(a: SimVarArray, n: string, elements: seq<SimVar>)
    requires WellIndexed(a)
    ensures WellIndexed(Patched(a, n, elements))
  {
    if a.vars == [] {
      PatchedLength(a, n, elements);
    }
    forall i | 0 <= i < |Patched(a, n, elements).vars|
      ensures Patched(a, n, elements).vars[i].index == Some(i)
    {
      PatchedLength(a, n, elements);
      PatchedAt(a, n, elements, i);
    }
    PatchedLength(a, n, elements);
  }

  lemma {:induction false} PatchedLength(a: SimVarArray, n: string, elements: seq<SimVar>)
    ensures |Patched(a, n, elements).vars| == |a.vars|
    ensures Patched(a, n, elements) == a.(vars := Patched(a, n, elements).vars)
    decreases |elements|
  {
    if elements != [] {
      var a1 := if elements[0].name == n then PatchOne(a, elements[0]) else a;
      PatchedLength(a1, n, elements[1..]);
    }
  }

  /**
   * The second loop over the element overrides: an override whose name is overridden by an
   * array goes into the slot of its index when that index is in bounds. An absent index cannot
   * be converted (TypeError); a plain override has no `vars` (AttributeError), which is only
   * looked up once the index is known not to be negative.
   */
  function PlaceElements(od: Table, elements: seq<SimVar>): Result<Table>
    decreases |elements|
  {
    if elements == [] then Ok(od)
    else
      var e := elements[0];
      if !HasKey(od, e.name) then PlaceElements(od, elements[1..])
      else if e.index.None? then Err("TypeError: int() argument must be a string or a number, not 'NoneType'")
      else if e.index.value < 0 then PlaceElements(od, elements[1..])
      else match Get(od, e.name)
        case Plain(_) => Err("AttributeError: 'SimVar' object has no attribute 'vars'")
        case Array(a) => PlaceElements(Put(od, e.name, Array(PatchOne(a, e))), elements[1..])
  }

  /** An element override names an override but carries no index, or names a plain override with an index that is not negative. */
  predicate PlaceFails(od: Table, elements: seq<SimVar>) {
    exists i :: 0 <= i < |elements| && PlaceFailsAt(od, elements[i])
  }

  predicate PlaceFailsAt(od: Table, e: SimVar) {
    HasKey(od, e.name) && (e.index.None? || (e.index.value >= 0 && Get(od, e.name).Plain?))
  }

  /** The placement loop raises exactly in those cases. */
  lemma {:induction false} PlaceElementsFails(od: Table, elements: seq<SimVar>)
    requires Distinct(od)
    ensures PlaceElements(od, elements).Err? <==> PlaceFails(od, elements)
    decreases |elements|
  {
    if elements != [] {
      var e := elements[0];
      if PlaceFailsAt(od, e) {
        assert PlaceFailsAt(od, elements[0]);
      } else {
        var od1 := od;
        if HasKey(od, e.name) && e.index.value >= 0 {
          od1 := Put(od, e.name, Array(PatchOne(Get(od, e.name).arr, e)));
          PutDistinct(od, e.name, Array(PatchOne(Get(od, e.name).arr, e)));
          // the entries keep their kinds and the table its keys
          forall x ensures HasKey(od1, x) <==> HasKey(od, x)
            ensures HasKey(od, x) ==> (Get(od1, x).Plain? <==> Get(od, x).Plain?)
          {
            PutHasKey(od, e.name, Array(PatchOne(Get(od, e.name).arr, e)), x);
          }
        }
        PlaceElementsFails(od1, elements[1..]);
        PlaceFailsStep(od, od1, elements);
      }
    }
  }

  /** The failure condition after one step of the placement loop, which keeps keys and kinds. */
  lemma PlaceFailsStep(od: Table, od1: Table, elements: seq<SimVar>)
    requires elements != [] && !PlaceFailsAt(od, elements[0])
    requires forall x :: HasKey(od1, x) <==> HasKey(od, x)
    requires forall x :: HasKey(od, x) ==> (Get(od1, x).Plain? <==> Get(od, x).Plain?)
    ensures PlaceFails(od, elements) <==> PlaceFails(od1, elements[1..])
  {
    var rest := elements[1..];
    if PlaceFails(od, elements) {
      var i :| 0 <= i < |elements| && PlaceFailsAt(od, elements[i]);
      assert rest[i - 1] == elements[i];
    }
    if PlaceFails(od1, rest) {
      var i :| 0 <= i < |rest| && PlaceFailsAt(od1, rest[i]);
      assert elements[i + 1] == rest[i];
    }
  }

  /**
   * After a successful placement loop the keys are the same, plain overrides are untouched,
   * and each overriding array is its patched version.
   */
  lemma {:induction false} PlaceElementsAt(od: Table, elements: seq<SimVar>, k: string)
    requires Distinct(od) && PlaceElements(od, elements).Ok?
    ensures Distinct(PlaceElements(od, elements).value)
    ensures HasKey(PlaceElements(od, elements).value, k) <==> HasKey(od, k)
    ensures PlainIn(od, k) ==> Get(PlaceElements(od, elements).value, k) == Get(od, k)
    ensures ArrayIn(od, k) ==> Get(PlaceElements(od, elements).value, k) == Array(Patched(Get(od, k).arr, k, elements))
    decreases |elements|
  {
    if elements != [] {
      var e := elements[0];
      var rest := elements[1..];
      if HasKey(od, e.name) && e.index.value >= 0 {
        var a := Get(od, e.name).arr;
        var od1 := Put(od, e.name, Array(PatchOne(a, e)));
        PutDistinct(od, e.name, Array(PatchOne(a, e)));
        PlaceElementsAt(od1, rest, k);
      } else {
        PlaceElementsAt(od, rest, k);
        if ArrayIn(od, k) && e.name == k {
          assert PatchOne(Get(od, k).arr, e) == Get(od, k).arr;
        }
      }
    }
  }

  // ---------------------------------------------------------------- the merge

  /** `master_dict`: the default table keyed by name (a later duplicate name wins). */
  function MasterTable(simVars: seq<Entry>): Table {
    FromList(ByName(simVars))
  }

  /** `override_dict` once both loops over the element overrides have run. */
  function OverrideTable(master: Table, temps: seq<SimVar>, elements: seq<SimVar>): Result<Table> {
    match AddClones(master, PlainOverrides(temps), elements)
    case Err(e) => Err(e)
    case Ok(od) => PlaceElements(od, elements)
  }

  /** `substitute_simvars`: `master_dict.update(override_dict)`; an exception of either loop is an `Err`. */
  function Substitute(simVars: seq<Entry>, temps: seq<SimVar>, elements: seq<SimVar>): (r: Result<Table>)
    ensures elements == [] ==> r.Ok?
    ensures r.Ok? ==> |MasterTable(simVars)| <= |r.value|
    ensures r.Ok? ==> forall i :: 0 <= i < |MasterTable(simVars)| ==> r.value[i].0 == MasterTable(simVars)[i].0
  {
    var master := MasterTable(simVars);
    match OverrideTable(master, temps, elements)
    case Err(e) => Err(e)
    case Ok(od) =>
      UpdateKeepsPrefix(master, od);
      Ok(Update(master, od))
  }

  /**
   * When an element override makes the merge raise: it names a plain override and has an
   * index that is absent or not negative, or it names no plain override and names a plain
   * default (no `clone`), or a default array while carrying no index.
   */
  predicate ElementFails(master: Table, temps: seq<SimVar>, e: SimVar) {
    if NamedIn(temps, e.name) then e.index.None? || e.index.value >= 0
    else PlainIn(master, e.name) || (ArrayIn(master, e.name) && e.index.None?)
  }

  /** The plain overrides form a table of plain entries whose keys are the overrides' names. */
  lemma PlainOverridesAt(temps: seq<SimVar>, k: string)
    ensures Distinct(PlainOverrides(temps))
    ensures HasKey(PlainOverrides(temps), k) <==> NamedIn(temps, k)
    ensures HasKey(PlainOverrides(temps), k) ==> PlainIn(PlainOverrides(temps), k)
  {
    var b := ByName(Plains(temps));
    UpdateDistinct([], b);
    if NamedIn(temps, k) {
      var i :| 0 <= i < |temps| && temps[i].name == k;
      assert b[i].0 == k;
    }
    if HasKey(PlainOverrides(temps), k) {
      UpdateValues([], b, k);
      var i :| 0 <= i < |b| && b[i] == (k, Get(PlainOverrides(temps), k));
      assert temps[i].name == k;
    }
  }

  /** The position of the last override named `k`, or -1. */
  function LastNamed(temps: seq<SimVar>, k: string): (j: int)
    ensures -1 <= j < |temps|
    ensures j >= 0 <==> NamedIn(temps, k)
    ensures j >= 0 ==> temps[j].name == k && forall i :: j < i < |temps| ==> temps[i].name != k
    decreases |temps|
  {
    if temps == [] then -1
    else if temps[|temps| - 1].name == k then |temps| - 1
    else
      var j := LastNamed(temps[..|temps| - 1], k);
      assert j >= 0 ==> temps[j] == temps[..|temps| - 1][j];
      assert NamedIn(temps, k) ==> NamedIn(temps[..|temps| - 1], k) by {
        if NamedIn(temps, k) {
          var i :| 0 <= i < |temps| && temps[i].name == k;
          assert temps[..|temps| - 1][i] == temps[i];
        }
      }
      j
  }

  /** Among plain overrides with the same name, the last one queued wins. */
  lemma PlainOverridesLast(temps: seq<SimVar>, j: nat)
    requires j < |temps|
    requires forall i :: j < i < |temps| ==> temps[i].name != temps[j].name
    ensures HasKey(PlainOverrides(temps), temps[j].name)
    ensures Get(PlainOverrides(temps), temps[j].name) == Plain(temps[j])
  {
    var b := ByName(Plains(temps));
    assert forall i :: j < i < |b| ==> b[i].0 != b[j].0;
    UpdateLastWins([], b, j);
  }

  /** Each element override decides on its own whether the placement loop raises. */
  lemma PlaceFailsAtClones(master: Table, temps: seq<SimVar>, elements: seq<SimVar>, i: nat)
    requires Distinct(master) && i < |elements|
    requires AddClones(master, PlainOverrides(temps), elements).Ok?
    ensures PlaceFailsAt(AddClones(master, PlainOverrides(temps), elements).value, elements[i]) <==>
            ElementFails(master, temps, elements[i]) && !(PlainIn(master, elements[i].name) && !NamedIn(temps, elements[i].name))
  {
    var po := PlainOverrides(temps);
    var n := elements[i].name;
    PlainOverridesAt(temps, n);
    AddClonesAt(master, po, elements, n);
    assert NamedIn(elements, n);
  }

  /** The merge raises exactly when some element override fails. */
  lemma SubstituteFails(simVars: seq<Entry>, temps: seq<SimVar>, elements: seq<SimVar>)
    ensures Substitute(simVars, temps, elements).Err? <==>
            exists i :: 0 <= i < |elements| && ElementFails(MasterTable(simVars), temps, elements[i])
  {
    var master := MasterTable(simVars);
    var po := PlainOverrides(temps);
    UpdateDistinct([], ByName(simVars));
    PlainOverridesAt(temps, "");
    AddClonesFails(master, po, elements);
    if CloneFails(master, po, elements) {
      var i :| 0 <= i < |elements| && PlainIn(master, elements[i].name) && !HasKey(po, elements[i].name);
      PlainOverridesAt(temps, elements[i].name);
      assert ElementFails(master, temps, elements[i]);
    } else {
      var od := AddClones(master, po, elements).value;
      AddClonesAt(master, po, elements, "");
      PlaceElementsFails(od, elements);
      forall i | 0 <= i < |elements|
        ensures PlaceFailsAt(od, elements[i]) <==> ElementFails(master, temps, elements[i])
      {
        PlainOverridesAt(temps, elements[i].name);
        PlaceFailsAtClones(master, temps, elements, i);
      }
    }
  }

  /**
   * The merged table: the defaults keep their places and the new names follow; a name with a
   * plain override maps to that override; an array of the defaults that an element override
   * names (and no plain override does) maps to its clone patched by the element overrides;
   * every other default is unchanged.
   */
  lemma SubstituteAt(simVars: seq<Entry>, temps: seq<SimVar>, elements: seq<SimVar>, k: string)
    requires Substitute(simVars, temps, elements).Ok?
    ensures Distinct(Substitute(simVars, temps, elements).value)
    ensures |MasterTable(simVars)| <= |Substitute(simVars, temps, elements).value|
    ensures forall i :: 0 <= i < |MasterTable(simVars)| ==>
              Substitute(simVars, temps, elements).value[i].0 == MasterTable(simVars)[i].0
    ensures HasKey(Substitute(simVars, temps, elements).value, k) <==> HasKey(MasterTable(simVars), k) || NamedIn(temps, k)
    ensures NamedIn(temps, k) ==> Get(Substitute(simVars, temps, elements).value, k) == Plain(temps[LastNamed(temps, k)])
    ensures !NamedIn(temps, k) && ArrayIn(MasterTable(simVars), k) && NamedIn(elements, k) ==>
              Get(Substitute(simVars, temps, elements).value, k) ==
              Array(Patched(Clone(Get(MasterTable(simVars), k).arr), k, elements))
    ensures !NamedIn(temps, k) && HasKey(MasterTable(simVars), k) && !(ArrayIn(MasterTable(simVars), k) && NamedIn(elements, k)) ==>
              Get(Substitute(simVars, temps, elements).value, k) == Get(MasterTable(simVars), k)
  {
    var master := MasterTable(simVars);
    var po := PlainOverrides(temps);
    UpdateDistinct([], ByName(simVars));
    PlainOverridesAt(temps, k);
    var od0 := AddClones(master, po, elements).value;
    AddClonesAt(master, po, elements, k);
    var od := PlaceElements(od0, elements).value;
    PlaceElementsAt(od0, elements, k);
    UpdateDistinct(master, od);
    UpdateKeepsPrefix(master, od);
    if HasKey(master, k) || HasKey(od, k) {
      UpdateGet(master, od, k);
    }
    if NamedIn(temps, k) {
      PlainOverridesLast(temps, LastNamed(temps, k));
    }
  }

  /** A well-formed default table merges into a table whose arrays are all well indexed. */
  lemma SubstituteWellFormed(simVars: seq<Entry>, temps: seq<SimVar>, elements: seq<SimVar>)
    requires WellFormed(simVars) && Substitute(simVars, temps, elements).Ok?
    ensures WellFormed(Values(Substitute(simVars, temps, elements).value))
  {
    var t := Substitute(simVars, temps, elements).value;
    forall i | 0 <= i < |t| && t[i].1.Array?
      ensures WellIndexed(t[i].1.arr)
    {
      EntryWellIndexed(simVars, temps, elements, i);
    }
  }

  lemma EntryWellIndexed(simVars: seq<Entry>, temps: seq<SimVar>, elements: seq<SimVar>, i: nat)
    requires WellFormed(simVars) && Substitute(simVars, temps, elements).Ok?
    requires i < |Substitute(simVars, temps, elements).value|
    requires Substitute(simVars, temps, elements).value[i].1.Array?
    ensures WellIndexed(Substitute(simVars, temps, elements).value[i].1.arr)
  {
    var t := Substitute(simVars, temps, elements).value;
    var master := MasterTable(simVars);
    var k := t[i].0;
    SubstituteAt(simVars, temps, elements, k);
    IndexOfAt(t, i, k);
    if !NamedIn(temps, k) && ArrayIn(master, k) && NamedIn(elements, k) {
      var a := Get(master, k).arr;
      CloneProperties(a, a.vars, a.values);
      PatchedWellIndexed(Clone(a), k, elements);
    } else if !NamedIn(temps, k) {
      UpdateValues([], ByName(simVars), k);
      var j :| 0 <= j < |simVars| && ByName(simVars)[j] == (k, Get(master, k));
    }
  }

  // ---------------------------------------------------------------- what the merge yields

  /** `final_list`: the merged table's entries, in its order. */
  function Values(t: Table): (es: seq<Entry>)
    ensures |es| == |t| && forall i :: 0 <= i < |t| ==> es[i] == t[i].1
  {
    seq(|t|, i requires 0 <= i < |t| => t[i].1)
  }

  /** The simulator variables of a list of elements, in order. */
  function VarNames(vs: seq<SimVar>): (names: seq<string>)
    ensures |names| == |vs| && forall i :: 0 <= i < |vs| ==> names[i] == vs[i].variable
  {
    seq(|vs|, i requires 0 <= i < |vs| => vs[i].variable)
  }

  /** The variables of the plain entries, in order. */
  function PlainVars(es: seq<Entry>): seq<string>
    decreases |es|
  {
    if es == [] then []
    else (if es[0].Plain? then [es[0].sv.variable] else []) + PlainVars(es[1..])
  }

  /** The variables of the arrays' elements, array after array. */
  function ArrayVars(es: seq<Entry>): seq<string>
    decreases |es|
  {
    if es == [] then []
    else (if es[0].Array? then VarNames(es[0].arr.vars) else []) + ArrayVars(es[1..])
  }

  /** `new_var_tracker`: every plain variable first, then every array element's variable. */
  function Tracker(es: seq<Entry>): seq<string> {
    PlainVars(es) + ArrayVars(es)
  }

  /** A subscribed variable and the name of the array it belongs to, if any (`parent`). */
  datatype Slot = Slot(sv: SimVar, parent: Option<string>)

  /** The slots of one entry: a plain variable, or each element of an array. */
  function EntrySlots(e: Entry): (slots: seq<Slot>)
    ensures e.Plain? ==> slots == [Slot(e.sv, None)]
    ensures e.Array? ==> |slots| == |e.arr.vars|
    ensures e.Array? ==> forall i :: 0 <= i < |e.arr.vars| ==> slots[i] == Slot(e.arr.vars[i], Some(e.arr.name))
  {
    match e
    case Plain(sv) => [Slot(sv, None)]
    case Array(a) => seq(|a.vars|, i requires 0 <= i < |a.vars| => Slot(a.vars[i], Some(a.name)))
  }

  /** `subscribed_vars` as `_subscribe` builds it: entry by entry, an array expanding in place. */
  function Slots(es: seq<Entry>): seq<Slot>
    decreases |es|
  {
    if es == [] then [] else EntrySlots(es[0]) + Slots(es[1..])
  }

  function SlotVars(slots: seq<Slot>): (names: seq<string>)
    ensures |names| == |slots| && forall i :: 0 <= i < |slots| ==> names[i] == slots[i].sv.variable
  {
    seq(|slots|, i requires 0 <= i < |slots| => slots[i].sv.variable)
  }

  /**
   * The tracker lists the same variables as the subscription, in another order (plain ones
   * first), so comparing trackers detects every added or removed variable.
   */
  lemma {:induction false} TrackerPermutesSlots(es: seq<Entry>)
    ensures multiset(Tracker(es)) == multiset(SlotVars(Slots(es)))
    decreases |es|
  {
    if es != [] {
      TrackerPermutesSlots(es[1..]);
      var head := EntrySlots(es[0]);
      assert SlotVars(head + Slots(es[1..])) == SlotVars(head) + SlotVars(Slots(es[1..]));
      if es[0].Array? {
        assert SlotVars(head) == VarNames(es[0].arr.vars);
      } else {
        assert SlotVars(head) == [es[0].sv.variable];
      }
    }
  }

  /**
   * The tracker only sees variable names: two tables whose entries differ in anything but
   * the variables (units, data types, scales, mutators) have the same tracker, and
   * `_subscribe` then keeps the old subscription.
   */
  lemma {:induction false} TrackerSeesOnlyVariables(es: seq<Entry>, fs: seq<Entry>)
    requires |es| == |fs|
    requires forall i :: 0 <= i < |es| ==> es[i].Plain? == fs[i].Plain?
    requires forall i :: 0 <= i < |es| && es[i].Plain? ==> es[i].sv.variable == fs[i].sv.variable
    requires forall i :: 0 <= i < |es| && es[i].Array? ==> VarNames(es[i].arr.vars) == VarNames(fs[i].arr.vars)
    ensures PlainVars(es) == PlainVars(fs) && ArrayVars(es) == ArrayVars(fs)
    ensures Tracker(es) == Tracker(fs)
    decreases |es|
  {
    if es != [] {
      TrackerSeesOnlyVariables(es[1..], fs[1..]);
    }
  }

  // ---------------------------------------------------------------- sv_dict

  /** How an element's index is written in its `sv_dict` key (`f"{v.index}"`). */
  function IndexText(index: Option<int>): string {
    match index
    case Some(i) => IntToString(i)
    case None => "None"
  }

  /** The `name:index` key of element `j` of an array. */
  function ElementKey(a: SimVarArray, j: nat): string
    requires j < |a.vars|
  {
    a.name + ":" + IndexText(a.vars[j].index)
  }

  /** The pair a plain entry gives `sv_dict`. */
  function PlainPair(e: Entry): (ps: seq<(string, string)>)
    ensures e.Plain? ==> ps == [(e.sv.name, e.sv.variable)]
    ensures e.Array? ==> ps == []
  {
    if e.Plain? then [(e.sv.name, e.sv.variable)] else []
  }

  /** The pairs an array gives `sv_dict`: each element's key and variable. */
  function ElementPairsOf(e: Entry): (ps: seq<(string, string)>)
    ensures e.Plain? ==> ps == []
    ensures e.Array? ==> |ps| == |e.arr.vars|
    ensures e.Array? ==> forall j :: 0 <= j < |e.arr.vars| ==> ps[j] == (ElementKey(e.arr, j), e.arr.vars[j].variable)
  {
    if e.Array? then seq(|e.arr.vars|, j requires 0 <= j < |e.arr.vars| => (ElementKey(e.arr, j), e.arr.vars[j].variable))
    else []
  }

  function PlainPairs(es: seq<Entry>): seq<(string, string)>
    decreases |es|
  {
    if es == [] then [] else PlainPair(es[0]) + PlainPairs(es[1..])
  }

  function ElementPairs(es: seq<Entry>): seq<(string, string)>
    decreases |es|
  {
    if es == [] then [] else ElementPairsOf(es[0]) + ElementPairs(es[1..])
  }

  /** `sv_dict`: name to variable for the plain entries, then `name:index` for array elements. */
  function SvDict(es: seq<Entry>): Dict<string, string> {
    FromList(PlainPairs(es) + ElementPairs(es))
  }

  lemma {:induction false} PlainPairsMembers(es: seq<Entry>, p: (string, string))
    ensures p in PlainPairs(es) <==> exists i :: 0 <= i < |es| && p in PlainPair(es[i])
    decreases |es|
  {
    if es != [] {
      PlainPairsMembers(es[1..], p);
      if exists i :: 0 <= i < |es| && p in PlainPair(es[i]) {
        var i :| 0 <= i < |es| && p in PlainPair(es[i]);
        if i > 0 { assert es[1..][i - 1] == es[i]; }
      }
      if exists i :: 0 <= i < |es[1..]| && p in PlainPair(es[1..][i]) {
        var i :| 0 <= i < |es[1..]| && p in PlainPair(es[1..][i]);
        assert es[i + 1] == es[1..][i];
      }
    }
  }

  lemma {:induction false} ElementPairsMembers(es: seq<Entry>, p: (string, string))
    ensures p in ElementPairs(es) <==> exists i :: 0 <= i < |es| && p in ElementPairsOf(es[i])
    decreases |es|
  {
    if es != [] {
      ElementPairsMembers(es[1..], p);
      if exists i :: 0 <= i < |es| && p in ElementPairsOf(es[i]) {
        var i :| 0 <= i < |es| && p in ElementPairsOf(es[i]);
        if i > 0 { assert es[1..][i - 1] == es[i]; }
      }
      if exists i :: 0 <= i < |es[1..]| && p in ElementPairsOf(es[1..][i]) {
        var i :| 0 <= i < |es[1..]| && p in ElementPairsOf(es[1..][i]);
        assert es[i + 1] == es[1..][i];
      }
    }
  }

  /** A pair `sv_dict` receives from an entry. */
  predicate PairOf(e: Entry, p: (string, string)) {
    p in PlainPair(e) || p in ElementPairsOf(e)
  }

  lemma PairsMembersOf(es: seq<Entry>, p: (string, string))
    requires p in PlainPairs(es) + ElementPairs(es)
    ensures exists i :: 0 <= i < |es| && PairOf(es[i], p)
  {
    if p in PlainPairs(es) {
      PlainPairsMembers(es, p);
    } else {
      ElementPairsMembers(es, p);
    }
  }

  lemma PairsMembersIn(es: seq<Entry>, p: (string, string), i: nat)
    requires i < |es| && PairOf(es[i], p)
    ensures p in PlainPairs(es) + ElementPairs(es)
  {
    if p in PlainPair(es[i]) {
      PlainPairsMembers(es, p);
    } else {
      ElementPairsMembers(es, p);
    }
  }

  /** `sv_dict` has a key exactly for each plain entry's name and each element's `name:index`. */
  lemma SvDictKeys(es: seq<Entry>, k: string)
    ensures Distinct(SvDict(es))
    ensures HasKey(SvDict(es), k) <==> exists i, v :: 0 <= i < |es| && PairOf(es[i], (k, v))
  {
    var xs := PlainPairs(es) + ElementPairs(es);
    UpdateDistinct([], xs);
    if HasKey(SvDict(es), k) {
      var j :| 0 <= j < |xs| && xs[j].0 == k;
      PairsMembersOf(es, xs[j]);
    }
    if exists i, v :: 0 <= i < |es| && PairOf(es[i], (k, v)) {
      var i, v :| 0 <= i < |es| && PairOf(es[i], (k, v));
      PairsMembersIn(es, (k, v), i);
      var j :| 0 <= j < |xs| && xs[j] == (k, v);
      assert xs[j].0 == k;
    }
  }

  /** ... and maps it to the variable of an entry with that key. */
  lemma SvDictValues(es: seq<Entry>, k: string)
    requires HasKey(SvDict(es), k)
    ensures exists i :: 0 <= i < |es| && PairOf(es[i], (k, Get(SvDict(es), k)))
  {
    var xs := PlainPairs(es) + ElementPairs(es);
    UpdateValues([], xs, k);
    var m :| 0 <= m < |xs| && xs[m] == (k, Get(SvDict(es), k));
    PairsMembersOf(es, xs[m]);
  }
}
