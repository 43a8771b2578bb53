/**
 * The tunable force-feedback parameters: each entry of a parameter table is a
 * configuration (`{'label', 'type', 'min', 'max', 'value'}`) whose value the user, a
 * preset or the UI may change. Tables keep their insertion order, as Python dicts do.
 */
module Params {
  import opened Wrappers
  import opened Dict

  /** A parameter value: slider positions are numbers, checkboxes are booleans. */
  datatype Value = Num(x: real) | Flag(b: bool)

  /** Python truthiness of a value. */
  predicate Truthy(v: Value) {
    match v
    case Num(x) => x != 0.0
    case Flag(b) => b
  }

  /** The value in arithmetic: Python treats `True` as 1 and `False` as 0. */
  function NumVal(v: Value): (x: real)
    ensures v.Num? ==> x == v.x
    ensures v.Flag? ==> x == (if v.b then 1.0 else 0.0)
  {
    match v
    case Num(x) => x
    case Flag(b) => if b then 1.0 else 0.0
  }

  /** The `'type'` of a parameter, with the slider's range. */
  datatype Kind = Slider(min: int, max: int) | Checkbox

  datatype ParamConfig = ParamConfig(caption: string, kind: Kind, value: Value)

  type ParamTable = Dict<string, ParamConfig>

  /** Sliders hold numbers, checkboxes hold booleans. */
  predicate Typed(t: ParamTable) {
    forall i :: 0 <= i < |t| ==> Fits(t[i].1.kind, t[i].1.value)
  }

  predicate Fits(k: Kind, v: Value) {
    if k.Slider? then v.Num? else v.Flag?
  }

  /** Every slider's value lies within the slider's range. */
  predicate InRange(t: ParamTable) {
    forall i :: 0 <= i < |t| ==> SliderInRange(t[i].1)
  }

  predicate SliderInRange(c: ParamConfig) {
    c.kind.Slider? ==> c.value.Num? && c.kind.min as real <= c.value.x <= c.kind.max as real
  }

  /** Same keys in the same order, with the same captions (labels) and kinds: only values may differ. */
  predicate SameShape(a: ParamTable, b: ParamTable) {
    && |a| == |b|
    && forall i :: 0 <= i < |a| ==> a[i].0 == b[i].0 && a[i].1.caption == b[i].1.caption && a[i].1.kind == b[i].1.kind
  }

  lemma SameShapeTrans(a: ParamTable, b: ParamTable, c: ParamTable)
    requires SameShape(a, b) && SameShape(b, c)
    ensures SameShape(a, c)
  {
  }

  lemma SameShapeKeys(a: ParamTable, b: ParamTable)
    requires SameShape(a, b)
    ensures Keys(a) == Keys(b)
    ensures Distinct(a) <==> Distinct(b)
    ensures forall k :: HasKey(a, k) <==> HasKey(b, k)
  {
    assert forall k :: HasKey(a, k) ==> HasKey(b, k) by {
      forall k | HasKey(a, k) ensures HasKey(b, k) {
        var i :| 0 <= i < |a| && a[i].0 == k;
        assert b[i].0 == k;
      }
    }
    assert forall k :: HasKey(b, k) ==> HasKey(a, k) by {
      forall k | HasKey(b, k) ensures HasKey(a, k) {
        var i :| 0 <= i < |b| && b[i].0 == k;
        assert a[i].0 == k;
      }
    }
  }

  /** Tables of the same shape hold each parameter at the same position. */
  lemma SameShapeIndex(a: ParamTable, b: ParamTable, k: string)
    requires SameShape(a, b) && HasKey(a, k)
    ensures HasKey(b, k) && IndexOf(a, k) == IndexOf(b, k)
  {
    SameShapeKeys(a, b);
    var x := IndexOf(a, k);
    var y := IndexOf(b, k);
    assert b[x].0 == k && a[y].0 == k;
  }

  /** `table[name]['value']`. */
  function ValueOf(t: ParamTable, name: string): Value
    requires HasKey(t, name)
  {
    Get(t, name).value
  }

  /**
   * `table[name]['value'] = v` when `name` is present (`update_parameter` and the preset
   * loop); an unknown name changes nothing (the source logs a warning).
   */
  function SetValue(t: ParamTable, name: string, v: Value): (r: ParamTable)
    ensures SameShape(t, r)
    ensures HasKey(t, name) ==> r[IndexOf(t, name)].1.value == v
    ensures forall i :: 0 <= i < |t| && t[i].0 != name ==> r[i] == t[i]
    ensures !HasKey(t, name) ==> r == t
  {
    if HasKey(t, name) then
      var i := IndexOf(t, name);
      t[i := (name, t[i].1.(value := v))]
    else t
  }

  /** After setting, reading the value back in a dictionary gives what was set. */
  lemma SetValueGet(t: ParamTable, name: string, v: Value, other: string)
    requires Distinct(t) && HasKey(t, name) && HasKey(t, other)
    ensures HasKey(SetValue(t, name, v), other)
    ensures ValueOf(SetValue(t, name, v), other) == if other == name then v else ValueOf(t, other)
  {
    var r := SetValue(t, name, v);
    SameShapeKeys(t, r);
    assert IndexOf(r, other) == IndexOf(t, other);
  }
}
