/**
 * The simulator side of the X-Plane link (xplane-plugin/FSFFB-XPP.cpp): the `std::map` of
 * telemetry strings and its `key=value;` serialisation, the formatting of float arrays, the
 * parsing of the AXIS, OVERRIDE and SUBSCRIBE commands, the header split of a received
 * datagram, the landing-gear count and the version test.
 *
 * XPLM dataref reads are inputs (the array contents, the version number, the set of dataref
 * paths X-Plane knows); dataref writes are logged; `std::stof`, `std::stoi` and the
 * fixed-precision float formatting are parameters (`CppNumbers`).
 */
module XPlanePlugin {
  import opened Wrappers
  import opened Dict
  import opened Text

  /**
   * `std::stof`, `std::stoi` (None where they throw), `std::fixed << setprecision(p) << x`, and
   * the value an uninitialised `bool` local happens to hold (`unsetBool`).
   */
  datatype CppNumbers = CppNumbers(
    stof: string -> Option<real>,
    stoi: string -> Option<int>,
    formatFixed: (real, int) -> string,
    unsetBool: bool)

  // ---------------------------------------------------------------- std::map<std::string, V>

  /** `std::string`'s `operator<`: lexicographic order on characters. */
  predicate Less(a: string, b: string)
    decreases |a|
  {
    b != [] && (a == [] || a[0] < b[0] || (a[0] == b[0] && Less(a[1..], b[1..])))
  }

  lemma {:induction false} LessIrreflexive(a: string)
    ensures !Less(a, a)
    decreases |a|
  {
    if a != [] {
      LessIrreflexive(a[1..]);
    }
  }

  lemma {:induction false} LessTransitive(a: string, b: string, c: string)
    requires Less(a, b) && Less(b, c)
    ensures Less(a, c)
    decreases |a|
  {
    if a != [] && a[0] == b[0] && b[0] == c[0] {
      LessTransitive(a[1..], b[1..], c[1..]);
    }
  }

  lemma {:induction false} LessTotal(a: string, b: string)
    ensures a == b || Less(a, b) || Less(b, a)
    decreases |a|
  {
    if a != [] && b != [] && a[0] == b[0] {
      LessTotal(a[1..], b[1..]);
      if a[1..] == b[1..] {
        assert a == [a[0]] + a[1..] && b == [b[0]] + b[1..];
      }
    }
  }

  /** The iteration order of a `std::map`: keys strictly ascending. */
  predicate Ascending<V>(d: Dict<string, V>) {
    forall i, j :: 0 <= i < j < |d| ==> Less(d[i].0, d[j].0)
  }

  lemma AscendingDistinct<V>(d: Dict<string, V>)
    requires Ascending(d)
    ensures Distinct(d)
  {
    forall i, j | 0 <= i < j < |d| ensures d[i].0 != d[j].0 {
      LessIrreflexive(d[i].0);
    }
  }

  /** `m[k] = v` on a `std::map`: replaces the entry of `k`, or inserts it at its place. */
  function Assign<V>(d: Dict<string, V>, k: string, v: V): (r: Dict<string, V>)
    ensures |r| == |d| || |r| == |d| + 1
    decreases |d|
  {
    if d == [] then [(k, v)]
    else if d[0].0 == k then [(k, v)] + d[1..]
    else if Less(k, d[0].0) then [(k, v)] + d
    else [d[0]] + Assign(d[1..], k, v)
  }

  /** After `m[k] = v` the map holds `v` at `k` and its other entries unchanged. */
  lemma {:induction false} AssignContents<V>(d: Dict<string, V>, k: string, v: V)
    ensures ToMap(Assign(d, k, v)) == ToMap(d)[k := v]
    decreases |d|
  {
    if d != [] && d[0].0 != k {
      if Less(k, d[0].0) {
        assert ([(k, v)] + d)[1..] == d;
      } else {
        calc {
          ToMap(Assign(d, k, v));
          { assert ([d[0]] + Assign(d[1..], k, v))[1..] == Assign(d[1..], k, v); }
          ToMap(Assign(d[1..], k, v))[d[0].0 := d[0].1];
          { AssignContents(d[1..], k, v); }
          ToMap(d[1..])[k := v][d[0].0 := d[0].1];
          ToMap(d[1..])[d[0].0 := d[0].1][k := v];
          ToMap(d)[k := v];
        }
      }
    } else if d != [] {
      assert ([(k, v)] + d[1..])[1..] == d[1..];
    }
  }

  /** `m[k] = v` keeps the map in key order. */
  lemma {:induction false} AssignAscending<V>(d: Dict<string, V>, k: string, v: V)
    requires Ascending(d)
    ensures Ascending(Assign(d, k, v))
    ensures forall i :: 0 <= i < |Assign(d, k, v)| ==> Assign(d, k, v)[i].0 == k || HasKey(d, Assign(d, k, v)[i].0)
    decreases |d|
  {
    var r := Assign(d, k, v);
    if d == [] {
    } else if d[0].0 == k {
      forall i | 0 <= i < |r| ensures r[i].0 == k || HasKey(d, r[i].0) {
        assert r[i].0 == d[i].0;
      }
    } else if Less(k, d[0].0) {
      InsertFrontAscending(d, k, v);
    } else {
      LessTotal(k, d[0].0);
      AssignAscending(d[1..], k, v);
      KeepHeadAscending(d, k, Assign(d[1..], k, v));
    }
  }

  /** A key below the first one goes in front. */
  lemma InsertFrontAscending<V>(d: Dict<string, V>, k: string, v: V)
    requires Ascending(d) && d != [] && Less(k, d[0].0)
    ensures Ascending([(k, v)] + d)
    ensures forall i :: 0 <= i < |d| + 1 ==> ([(k, v)] + d)[i].0 == k || HasKey(d, ([(k, v)] + d)[i].0)
  {
    var r := [(k, v)] + d;
    forall i, j | 0 <= i < j < |r| ensures Less(r[i].0, r[j].0) {
      if i == 0 && j > 1 {
        LessTransitive(k, d[0].0, d[j - 1].0);
      }
    }
    forall i | 0 <= i < |r| ensures r[i].0 == k || HasKey(d, r[i].0) {
      if i > 0 {
        assert r[i] == d[i - 1];
      }
    }
  }

  /** A key above the first one leaves the first entry in front of the updated rest. */
  lemma KeepHeadAscending<V>(d: Dict<string, V>, k: string, rest: Dict<string, V>)
    requires Ascending(d) && d != [] && Less(d[0].0, k) && Ascending(rest)
    requires forall i :: 0 <= i < |rest| ==> rest[i].0 == k || HasKey(d[1..], rest[i].0)
    ensures Ascending([d[0]] + rest)
    ensures forall i :: 0 <= i < |rest| + 1 ==> ([d[0]] + rest)[i].0 == k || HasKey(d, ([d[0]] + rest)[i].0)
  {
    var r := [d[0]] + rest;
    forall i | 0 <= i < |r| ensures r[i].0 == k || HasKey(d, r[i].0) {
      if i > 0 && r[i].0 != k {
        assert r[i] == rest[i - 1];
        var j :| 0 <= j < |d[1..]| && d[1..][j].0 == r[i].0;
        assert d[j + 1].0 == r[i].0;
      }
    }
    forall i, j | 0 <= i < j < |r| ensures Less(r[i].0, r[j].0) {
      if i == 0 {
        assert rest[j - 1] == r[j];
        if r[j].0 != k {
          var m :| 0 <= m < |d[1..]| && d[1..][m].0 == r[j].0;
          assert d[m + 1].0 == r[j].0;
        }
      }
    }
  }

  // ---------------------------------------------------------------- telemetry serialisation

  /** One entry of the telemetry datagram. */
  function Entry(e: (string, string)): string {
    e.0 + "=" + e.1 + ";"
  }

  /** The datagram `FormatAndSendTelemetryData` builds: `key=value;` for every entry, in order. */
  function TelemetryText(d: Dict<string, string>): (s: string)
    ensures d != [] ==> s != [] && s[|s| - 1] == ';'
    decreases |d|
  {
    if d == [] then "" else TelemetryText(d[..|d| - 1]) + Entry(d[|d| - 1])
  }

  // ---------------------------------------------------------------- float arrays

  /**
   * The number of elements `FloatArrayToString` formats: the dataref's own size, or
   * `fixed_size` when that is positive and no larger.
   */
  function ArraySize(values: seq<real>, fixedSize: int): (n: nat)
    ensures n <= |values|
  {
    if 0 < fixedSize <= |values| then fixedSize else |values|
  }

  /** An element times the conversion factor (a `float` product; rounding is not modelled). */
  function Scaled(value: real, conversion: real): real {
    value * conversion
  }

  /** Each element, scaled by the conversion factor and formatted with the precision. */
  function ElementTexts(cpp: CppNumbers, values: seq<real>, conversion: real, fixedSize: int, precision: int): (texts: seq<string>)
    ensures |texts| == ArraySize(values, fixedSize)
    ensures forall i :: 0 <= i < |texts| ==> texts[i] == cpp.formatFixed(Scaled(values[i], conversion), precision)
  {
    seq(ArraySize(values, fixedSize), i requires 0 <= i < ArraySize(values, fixedSize) =>
      cpp.formatFixed(Scaled(values[i], conversion), precision))
  }

  /** The characters of the `find_last_not_of("~0.000")` set. */
  predicate TrimChar(c: char) {
    c == '~' || c == '0' || c == '.'
  }

  /** `find_last_not_of("~0.000")`: the position of the last character outside the set. */
  function LastNotTrim(s: string): (r: Option<nat>)
    ensures r.Some? ==> r.value < |s| && !TrimChar(s[r.value])
    ensures r.Some? ==> forall i :: r.value < i < |s| ==> TrimChar(s[i])
    ensures r.None? ==> forall i :: 0 <= i < |s| ==> TrimChar(s[i])
    decreases |s|
  {
    if s == [] then None
    else if !TrimChar(s[|s| - 1]) then Some(|s| - 1)
    else LastNotTrim(s[..|s| - 1])
  }

  /**
   * The trim as written: cut right after the last character that is not `~`, `0` or `.`,
   * or leave the string whole when there is none.
   */
  function TrimAsWritten(s: string): (r: string)
    ensures |r| <= |s| && r == s[..|r|]
    ensures r == s || (r != [] && !TrimChar(r[|r| - 1]))
    ensures forall i :: |r| <= i < |s| ==> TrimChar(s[i])
  {
    match LastNotTrim(s)
    case None => s
    case Some(p) => s[..p + 1]
  }

  /** The trim cuts the digits of the last non-zero element: `10.000~0.000` becomes `1`. */
  lemma TrimAsWrittenEatsDigits()
    ensures TrimAsWritten(Join(["10.000", "0.000"], '~')) == "1"
    ensures TrimZeroElements(["10.000", "0.000"]) == "10.000"
  {
    var s := Join(["10.000", "0.000"], '~');
    assert s == "10.000~0.000";
    assert !TrimChar(s[0]);
    LastNotTrimAt(s, 0);
    var texts := ["10.000", "0.000"];
    assert ZeroText(texts[1]);
    assert texts[0][0] == '1';
    assert LastNonZero(texts) == Some(0);
    assert texts[..1] == ["10.000"];
  }

  /** `find_last_not_of` finds `p` when nothing after it is outside the set. */
  lemma {:induction false} LastNotTrimAt(s: string, p: nat)
    requires p < |s| && !TrimChar(s[p])
    requires forall i :: p < i < |s| ==> TrimChar(s[i])
    ensures LastNotTrim(s) == Some(p)
    decreases |s|
  {
    if p < |s| - 1 {
      LastNotTrimAt(s[..|s| - 1], p);
    }
  }

  /** A formatted element that reads as zero: only `0` and `.` characters. */
  predicate ZeroText(t: string) {
    forall i :: 0 <= i < |t| ==> t[i] == '0' || t[i] == '.'
  }

  /** The position of the last element that is not zero. */
  function LastNonZero(texts: seq<string>): (r: Option<nat>)
    ensures r.Some? ==> r.value < |texts| && !ZeroText(texts[r.value])
    ensures r.Some? ==> forall i :: r.value < i < |texts| ==> ZeroText(texts[i])
    ensures r.None? ==> forall i :: 0 <= i < |texts| ==> ZeroText(texts[i])
    decreases |texts|
  {
    if texts == [] then None
    else if !ZeroText(texts[|texts| - 1]) then Some(|texts| - 1)
    else LastNonZero(texts[..|texts| - 1])
  }

  /** How many elements the corrected trim keeps: all when every element is zero. */
  function KeptCount(texts: seq<string>): (k: nat)
    ensures k <= |texts|
    ensures texts != [] ==> k >= 1
    ensures forall i :: k <= i < |texts| ==> ZeroText(texts[i])
    ensures k < |texts| ==> k >= 1 && !ZeroText(texts[k - 1])
  {
    match LastNonZero(texts)
    case None => |texts|
    case Some(j) => j + 1
  }

  /**
   * The trim as intended: drop the trailing zero-valued elements and their separators,
   * leaving every kept element's text whole. An all-zero array stays whole, as written.
   */
  function TrimZeroElements(texts: seq<string>): (r: string)
    ensures texts != [] ==> texts[0] <= r
  {
    Join(texts[..KeptCount(texts)], '~')
  }

  /**
   * The corrected trim keeps a prefix of the elements, each one intact: splitting its result
   * gives back exactly the kept elements (`KeptCount` says which ones are dropped).
   */
  lemma TrimZeroElementsKeepsElements(texts: seq<string>)
    requires texts != []
    requires forall i :: 0 <= i < |texts| ==> '~' !in texts[i]
    ensures Split(TrimZeroElements(texts), '~') == texts[..KeptCount(texts)]
  {
    var kept := texts[..KeptCount(texts)];
    assert forall i :: 0 <= i < |kept| ==> '~' !in kept[i] by {
      forall i | 0 <= i < |kept| ensures '~' !in kept[i] {
        assert kept[i] == texts[i];
      }
    }
    SplitJoin(kept, '~');
  }

  /**
   * `FloatArrayToString` (with the corrected trim): the elements joined by `~`; untrimmed when
   * a positive `fixed_size` is given, trimmed of trailing zero elements otherwise.
   */
  function FloatArrayText(cpp: CppNumbers, values: seq<real>, conversion: real, fixedSize: int, precision: int): string
  {
    var texts := ElementTexts(cpp, values, conversion, fixedSize, precision);
    if fixedSize > 0 then Join(texts, '~') else TrimZeroElements(texts)
  }

  /** With a positive `fixed_size`, the string splits back into exactly the formatted elements. */
  lemma FixedArraySplits(cpp: CppNumbers, values: seq<real>, conversion: real, fixedSize: int, precision: int)
    requires fixedSize > 0 && values != []
    requires forall v, p :: '~' !in cpp.formatFixed(v, p)
    ensures Split(FloatArrayText(cpp, values, conversion, fixedSize, precision), '~')
         == ElementTexts(cpp, values, conversion, fixedSize, precision)
    ensures |ElementTexts(cpp, values, conversion, fixedSize, precision)| == if fixedSize <= |values| then fixedSize else |values|
  {
    var texts := ElementTexts(cpp, values, conversion, fixedSize, precision);
    SplitJoin(texts, '~');
  }

  /** The formatting loop of `FloatArrayToString`: `~` after every element but the last. */
  method FormatElements(cpp: CppNumbers, values: seq<real>, conversion: real, fixedSize: int, precision: int)
    returns (texts: seq<string>, formatted: string)
    ensures texts == ElementTexts(cpp, values, conversion, fixedSize, precision)
    ensures formatted == Join(texts, '~')
  {
    var size := |values|;
    if fixedSize > 0 && fixedSize <= size {
      size := fixedSize;
    }
    ghost var all := ElementTexts(cpp, values, conversion, fixedSize, precision);
    formatted := "";
    texts := [];
    var i := 0;
    while i < size
      invariant 0 <= i <= size && size == |all|
      invariant texts == all[..i]
      invariant formatted == Join(texts, '~') + (if 0 < i < size then "~" else "")
    {
      var text := cpp.formatFixed(Scaled(values[i], conversion), precision);
      assert ArraySize(values, fixedSize) == size;
      assert text == all[i];
      if i > 0 {
        JoinSnoc(texts, text, '~');
      }
      assert all[..i + 1] == texts + [text];
      formatted := formatted + text;
      if i < size - 1 {
        formatted := formatted + "~";
      }
      texts := texts + [text];
      i := i + 1;
    }
    assert texts == all;
  }

  /** The trim, scanning back over the trailing zero elements. */
  method CountKept(texts: seq<string>) returns (k: nat)
    ensures k == KeptCount(texts)
  {
    k := |texts|;
    while k > 0 && ZeroText(texts[k - 1])
      invariant 0 <= k <= |texts|
      invariant forall j :: k <= j < |texts| ==> ZeroText(texts[j])
      invariant k > 0 && LastNonZero(texts).Some? ==> LastNonZero(texts).value < k
      invariant k == 0 ==> LastNonZero(texts).None?
    {
      k := k - 1;
    }
    if k == 0 {
      k := |texts|;
    }
  }

  /**
   * `FloatArrayToString`: formats the elements, then trims unless a positive `fixed_size`
   * was given.
   */
  method FloatArrayToString(cpp: CppNumbers, values: seq<real>, conversion: real, fixedSize: int, precision: int)
    returns (s: string)
    ensures s == FloatArrayText(cpp, values, conversion, fixedSize, precision)
  {
    var texts, formatted := FormatElements(cpp, values, conversion, fixedSize, precision);
    if fixedSize > 0 {
      return formatted;
    }
    var k := CountKept(texts);
    s := Join(texts[..k], '~');
  }

  // ---------------------------------------------------------------- gear and version

  /** `GetNumGear` reads ten slots of each gear-node coordinate array. */
  const GearSlots: nat := 10

  /** Slot `i` of a node array read into a zero-filled vector of ten. */
  function Node(a: seq<real>, i: nat): real {
    if i < |a| then a[i] else 0.0
  }

  /** How many of the X, Y and Z coordinates of gear slot `i` are non-zero. */
  function NonZeroCount(x: seq<real>, y: seq<real>, z: seq<real>, i: nat): (n: nat)
    ensures n <= 3
    ensures n == 0 <==> Node(x, i) == 0.0 && Node(y, i) == 0.0 && Node(z, i) == 0.0
  {
    (if Node(x, i) != 0.0 then 1 else 0) + (if Node(y, i) != 0.0 then 1 else 0)
      + (if Node(z, i) != 0.0 then 1 else 0)
  }

  /** `GetNumGear`: the largest per-slot count of non-zero coordinates over the ten slots. */
  method GetNumGear(x: seq<real>, y: seq<real>, z: seq<real>) returns (maxNonZero: int)
    ensures 0 <= maxNonZero <= 3
    ensures forall i :: 0 <= i < GearSlots ==> NonZeroCount(x, y, z, i) <= maxNonZero
    ensures maxNonZero == 0 || exists i :: 0 <= i < GearSlots && NonZeroCount(x, y, z, i) == maxNonZero
  {
    maxNonZero := 0;
    var i := 0;
    while i < GearSlots
      invariant 0 <= i <= GearSlots
      invariant 0 <= maxNonZero <= 3
      invariant forall j :: 0 <= j < i ==> NonZeroCount(x, y, z, j) <= maxNonZero
      invariant maxNonZero == 0 || exists j :: 0 <= j < i && NonZeroCount(x, y, z, j) == maxNonZero
    {
      var nonZeroCount := NonZeroCount(x, y, z, i);
      if nonZeroCount > maxNonZero {
        maxNonZero := nonZeroCount;
      }
      i := i + 1;
    }
  }

  /**
   * What `GetNumGear` evidently means to count, and what `GetACDetails` uses as the number of
   * gear entries to send: the slots among the first `n` with at least one non-zero coordinate.
   */
  function GearCount(x: seq<real>, y: seq<real>, z: seq<real>, n: nat): (c: nat)
    ensures c <= n
  {
    if n == 0 then 0
    else GearCount(x, y, z, n - 1) + (if NonZeroCount(x, y, z, n - 1) > 0 then 1 else 0)
  }

  /** With `legs` gear legs in the leading slots and nothing after them, the count is `legs`. */
  lemma GearCountOfLegs(x: seq<real>, y: seq<real>, z: seq<real>, legs: nat)
    requires legs <= GearSlots
    requires forall i :: 0 <= i < legs ==> NonZeroCount(x, y, z, i) > 0
    requires forall i :: legs <= i < GearSlots ==> NonZeroCount(x, y, z, i) == 0
    ensures GearCount(x, y, z, GearSlots) == legs
  {
    GearCountPrefix(x, y, z, legs, GearSlots);
  }

  lemma {:induction false} GearCountPrefix(x: seq<real>, y: seq<real>, z: seq<real>, legs: nat, m: nat)
    requires legs <= GearSlots && m <= GearSlots
    requires forall i :: 0 <= i < legs ==> NonZeroCount(x, y, z, i) > 0
    requires forall i :: legs <= i < GearSlots ==> NonZeroCount(x, y, z, i) == 0
    ensures GearCount(x, y, z, m) == if m <= legs then m else legs
    decreases m
  {
    if m > 0 {
      GearCountPrefix(x, y, z, legs, m - 1);
    }
  }

  /** Four gear legs, each with every coordinate non-zero. */
  const FourLegs: seq<real> := [1.0, 1.0, 1.0, 1.0]

  /**
   * `GetNumGear` as written reports three for an aircraft with four gear legs: a slot has at
   * most three coordinates, so the count never exceeds three, while four slots hold gear.
   */
  method GetNumGearCapsAtThree() returns (reported: int, legs: nat)
    ensures reported == 3 && legs == 4
  {
    reported := GetNumGear(FourLegs, FourLegs, FourLegs);
    assert NonZeroCount(FourLegs, FourLegs, FourLegs, 0) == 3;
    GearCountOfLegs(FourLegs, FourLegs, FourLegs, 4);
    legs := GearCount(FourLegs, FourLegs, FourLegs, GearSlots);
  }

  /**
   * `IsXPlane12OrNewer` as written: the first two characters of the decimal version are `12`.
   * For six-digit internal versions it holds exactly on 120000..129999.
   */
  function IsXPlane12OrNewer(version: int): (r: bool)
    ensures 100000 <= version < 1000000 ==> (r <==> 120000 <= version < 130000)
  {
    var s := IntToString(version);
    SixDigitLeadingTwelve(version);
    s[..if |s| < 2 then |s| else 2] == "12"
  }

  /** A six-digit decimal starts with `12` exactly on 120000..129999. */
  lemma SixDigitLeadingTwelve(version: int)
    ensures 100000 <= version < 1000000 ==>
      |IntToString(version)| >= 2 && (IntToString(version)[..2] == "12" <==> 120000 <= version < 130000)
  {
    if 100000 <= version < 1000000 {
      var v1 := version / 10;
      var v2 := v1 / 10;
      var v3 := v2 / 10;
      var q := v3 / 10;
      DivTen(version);
      DivTen(v1);
      DivTen(v2);
      DivTen(v3);
      DivTen(q);
      var tail := [DigitChar(v3 % 10), DigitChar(v2 % 10), DigitChar(v1 % 10), DigitChar(version % 10)];
      assert NatToString(version) == NatToString(v1) + [DigitChar(version % 10)];
      assert NatToString(v1) == NatToString(v2) + [DigitChar(v1 % 10)];
      assert NatToString(v2) == NatToString(v3) + [DigitChar(v2 % 10)];
      assert NatToString(v3) == NatToString(q) + [DigitChar(v3 % 10)];
      assert NatToString(version) == NatToString(q) + tail;
      assert NatToString(q) == [DigitChar(q / 10), DigitChar(q % 10)];
      var s := IntToString(version);
      assert s[..2] == NatToString(q);
      assert s[..2] == "12" <==> q / 10 == 1 && q % 10 == 2;
    }
  }

  /** Decimal place value: `x` is ten times `x / 10` plus its last digit. */
  lemma DivTen(x: int)
    requires x >= 0
    ensures x == 10 * (x / 10) + x % 10 && 0 <= x % 10 < 10
  {
  }

  /** X-Plane 13's internal version (130000) fails the test as written. */
  lemma IsXPlane12OrNewerMissesThirteen()
    ensures !IsXPlane12OrNewer(130000)
    ensures IsXPlaneAtLeast12(130000)
  {
  }

  /** The version test as intended: internal version 120000 (X-Plane 12.00) or later. */
  function IsXPlaneAtLeast12(version: int): bool {
    version >= 120000
  }

  /** The intended test agrees with the one written on X-Plane 10, 11 and 12, and is monotone. */
  lemma IsXPlaneAtLeast12Agrees(version: int, later: int)
    requires 100000 <= version < 130000
    requires version <= later
    ensures IsXPlaneAtLeast12(version) == IsXPlane12OrNewer(version)
    ensures IsXPlaneAtLeast12(version) ==> IsXPlaneAtLeast12(later)
  {
  }

  /** The dataref `XPluginStart` reads the aircraft name from, by simulator version. */
  function AircraftNameDataRef(version: int): (path: string)
    ensures version >= 120000 ==> path == "sim/aircraft/view/acf_ui_name"
    ensures version < 120000 ==> path == "sim/aircraft/view/acf_descrip"
  {
    if IsXPlaneAtLeast12(version) then "sim/aircraft/view/acf_ui_name" else "sim/aircraft/view/acf_descrip"
  }

  // ---------------------------------------------------------------- received commands

  /** `std::getline(stream, line)` on what is left: the text up to the first newline. */
  function Line(s: string): (r: string)
    ensures '\n' !in r
    ensures '\n' !in s ==> r == s
  {
    if '\n' in s then Before(s, '\n') else s
  }

  /** The receive buffer read as a C string: everything before the first NUL. */
  function CString(s: string): (r: string)
    ensures '\0' !in r
    ensures '\0' !in s ==> r == s
  {
    if '\0' in s then Before(s, '\0') else s
  }

  /**
   * The header split of `ReceiveData`: the data type is the text before the first `:`, the
   * payload the rest of that line; without a `:` the whole text is the type and the payload
   * is empty.
   */
  function SplitHeader(datagram: string): (r: (string, string))
    ensures ':' !in r.0 && '\n' !in r.1
  {
    var s := CString(datagram);
    if ':' in s then (Before(s, ':'), Line(After(s, ':'))) else (s, "")
  }

  /** A datagram `type:payload` splits back into its type and payload. */
  lemma SplitHeaderOf(kind: string, payload: string)
    requires ':' !in kind && '\n' !in payload
    requires '\0' !in kind && '\0' !in payload
    ensures SplitHeader(kind + ":" + payload) == (kind, payload)
  {
    var s := kind + ":" + payload;
    assert s == kind + [':'] + payload;
    assert '\0' !in s by {
      forall i | 0 <= i < |s| ensures s[i] != '\0' {
        if i < |kind| { assert s[i] == kind[i]; }
        else if i > |kind| { assert s[i] == payload[i - |kind| - 1]; }
      }
    }
    FirstIndexAfter(kind, ':', payload);
  }

  /** One AXIS token: `key=value` sets the key to `stof(value)`; None when `stof` throws. */
  function AxisToken(cpp: CppNumbers, m: map<string, real>, token: string): Option<map<string, real>>
  {
    if '=' in token then
      match cpp.stof(After(token, '='))
      case Some(v) => Some(m[Before(token, '=') := v])
      case None => None
    else Some(m)
  }

  /**
   * The AXIS loop over the tokens: the map after the tokens handled so far, and whether no
   * `stof` threw (a throw ends the loop with the earlier tokens applied).
   */
  function ApplyAxis(cpp: CppNumbers, m: map<string, real>, tokens: seq<string>): (r: (map<string, real>, bool))
    ensures m.Keys <= r.0.Keys
    ensures r.1 <==> forall i :: 0 <= i < |tokens| && '=' in tokens[i] ==> cpp.stof(After(tokens[i], '=')).Some?
    decreases |tokens|
  {
    if tokens == [] then (m, true)
    else
      var (m', ok) := ApplyAxis(cpp, m, tokens[..|tokens| - 1]);
      if !ok then (m', false)
      else
        match AxisToken(cpp, m', tokens[|tokens| - 1])
        case Some(m'') => (m'', true)
        case None => (m', false)
  }

  /** One more token on a loop that has not failed applies that token. */
  lemma ApplyAxisStep(cpp: CppNumbers, m: map<string, real>, tokens: seq<string>, i: nat)
    requires i < |tokens| && ApplyAxis(cpp, m, tokens[..i]).1
    ensures ApplyAxis(cpp, m, tokens[..i + 1]) ==
      match AxisToken(cpp, ApplyAxis(cpp, m, tokens[..i]).0, tokens[i])
      case Some(m') => (m', true)
      case None => (ApplyAxis(cpp, m, tokens[..i]).0, false)
  {
    assert tokens[..i + 1][..i] == tokens[..i];
  }

  /** Once a `stof` has thrown, the later tokens change nothing. */
  lemma {:induction false} ApplyAxisStaysFailed(cpp: CppNumbers, m: map<string, real>, tokens: seq<string>, i: nat)
    requires i <= |tokens| && !ApplyAxis(cpp, m, tokens[..i]).1
    ensures ApplyAxis(cpp, m, tokens) == ApplyAxis(cpp, m, tokens[..i])
    decreases |tokens| - i
  {
    if i < |tokens| {
      assert tokens[..i + 1][..i] == tokens[..i];
      ApplyAxisStaysFailed(cpp, m, tokens, i + 1);
    } else {
      assert tokens[..i] == tokens;
    }
  }

  /** A key that no token names keeps its previous value (or stays absent). */
  lemma {:induction false} ApplyAxisKeepsOthers(cpp: CppNumbers, m: map<string, real>, tokens: seq<string>, k: string)
    requires forall i :: 0 <= i < |tokens| && '=' in tokens[i] ==> Before(tokens[i], '=') != k
    ensures k in ApplyAxis(cpp, m, tokens).0 <==> k in m
    ensures k in m ==> ApplyAxis(cpp, m, tokens).0[k] == m[k]
    decreases |tokens|
  {
    if tokens != [] {
      var front := tokens[..|tokens| - 1];
      forall i | 0 <= i < |front| && '=' in front[i] ensures Before(front[i], '=') != k {
        assert front[i] == tokens[i];
      }
      ApplyAxisKeepsOthers(cpp, m, front, k);
    }
  }

  /**
   * When no `stof` throws, every key named by a token ends up holding the value of the last
   * token that names it.
   */
  lemma {:induction false} ApplyAxisSetsLast(cpp: CppNumbers, m: map<string, real>, tokens: seq<string>, i: nat)
    requires i < |tokens| && '=' in tokens[i]
    requires forall j :: i < j < |tokens| && '=' in tokens[j] ==> Before(tokens[j], '=') != Before(tokens[i], '=')
    requires ApplyAxis(cpp, m, tokens).1
    ensures cpp.stof(After(tokens[i], '=')).Some?
    ensures Before(tokens[i], '=') in ApplyAxis(cpp, m, tokens).0
    ensures ApplyAxis(cpp, m, tokens).0[Before(tokens[i], '=')] == cpp.stof(After(tokens[i], '=')).value
    decreases |tokens|
  {
    var front := tokens[..|tokens| - 1];
    if i < |tokens| - 1 {
      assert front[i] == tokens[i];
      ApplyAxisSetsLast(cpp, m, front, i);
    }
  }

  /** The overrides X-Plane offers for the FSFFB axes, and the flags the plugin keeps. */
  const RollOverride: string := "sim/operation/override/override_joystick_roll"
  const PitchOverride: string := "sim/operation/override/override_joystick_pitch"
  const YawOverride: string := "sim/operation/override/override_joystick_heading"
  const CollectiveOverride: string := "sim/operation/override/override_prop_pitch"

  /** The white space `>>` skips. */
  predicate IsSpace(c: char) {
    c == ' ' || c == '\t' || c == '\n' || c == '\r' || c == '\U{000B}' || c == '\U{000C}'
  }

  function SkipSpace(s: string): (r: string)
    ensures r == [] || !IsSpace(r[0])
    decreases |s|
  {
    if s != [] && IsSpace(s[0]) then SkipSpace(s[1..]) else s
  }

  /**
   * `stream >> std::boolalpha >> b`: None when only white space is left, so the extraction
   * stops before it starts and `b` is not assigned; otherwise true exactly when the next word
   * starts with `true` (a failed read stores false).
   */
  function ReadBool(s: string): (r: Option<bool>)
    ensures r.None? <==> SkipSpace(s) == ""
  {
    var t := SkipSpace(s);
    if t == "" then None else Some(StartsWith(t, "true"))
  }

  /**
   * The OVERRIDE payload: the keyword before the first `=` and the boolean after it. None when
   * the payload is empty (the first `getline` extracts nothing). The boolean is None where the
   * source never assigns it: the payload has no `=` (the `getline` reads to the end) or only
   * white space after it.
   */
  function OverrideRequest(payload: string): (r: Option<(string, Option<bool>)>)
    ensures r.None? <==> payload == ""
    ensures r.Some? ==> '=' !in r.value.0
    ensures r.Some? ==> (r.value.1.None? <==> '=' !in payload || SkipSpace(After(payload, '=')) == "")
  {
    if payload == "" then None
    else if '=' in payload then Some((Before(payload, '='), ReadBool(After(payload, '='))))
    else Some((payload, None))
  }

  /** The value of `overrideValue`: what was read, or `unset` when nothing was. */
  function OverrideValue(read: Option<bool>, unset: bool): bool {
    if read.Some? then read.value else unset
  }

  /** A SUBSCRIBE registration. */
  datatype Subscription = Subscription(dataRef: string, key: string, kind: string, precision: int, conversion: real)

  /**
   * `getline(key, '=')` then `getline(value, ',')`, repeated while a key is read, on strings
   * declared once outside the loop. A last segment without `=` is read whole as a key; the
   * `getline` for its value then stops at the end of input before erasing `value`, so that
   * key receives the previous pair's value `prev`.
   */
  function SubscribePairsFrom(s: string, prev: string): (pairs: seq<(string, string)>)
    ensures s == "" <==> pairs == []
    ensures s != "" && '=' !in s ==> pairs == [(s, prev)]
    decreases |s|
  {
    if s == "" then []
    else if '=' !in s then [(s, prev)]
    else
      var rest := After(s, '=');
      var value := if ',' in rest then Before(rest, ',') else rest;
      var more := if ',' in rest then After(rest, ',') else "";
      [(Before(s, '='), value)] + SubscribePairsFrom(more, value)
  }

  /** The pairs of a SUBSCRIBE payload: `value` starts out empty. */
  function SubscribePairs(s: string): (pairs: seq<(string, string)>)
    ensures s == "" <==> pairs == []
  {
    SubscribePairsFrom(s, "")
  }

  /** `parameters[key] = value` for each pair in turn: the later pair wins. */
  function ParamsOf(pairs: seq<(string, string)>): (params: map<string, string>)
    ensures params == map[] <==> pairs == []
    ensures |params| <= |pairs|
    decreases |pairs|
  {
    if pairs == [] then map[]
    else ParamsOf(pairs[..|pairs| - 1])[pairs[|pairs| - 1].0 := pairs[|pairs| - 1].1]
  }

  /** A parameter is present exactly when some pair names it, with the value of the last such pair. */
  lemma {:induction false} ParamsOfLastWins(pairs: seq<(string, string)>, k: string)
    ensures k in ParamsOf(pairs) <==> exists i :: 0 <= i < |pairs| && pairs[i].0 == k
    ensures forall i :: 0 <= i < |pairs| && pairs[i].0 == k && (forall j :: i < j < |pairs| ==> pairs[j].0 != k) ==>
      k in ParamsOf(pairs) && ParamsOf(pairs)[k] == pairs[i].1
    decreases |pairs|
  {
    if pairs != [] {
      var front := pairs[..|pairs| - 1];
      ParamsOfLastWins(front, k);
      assert forall i :: 0 <= i < |front| ==> front[i] == pairs[i];
    }
  }

  /** `parameters[k]` on a `std::map`: the empty string when absent. */
  function Param(params: map<string, string>, k: string): string {
    if k in params then params[k] else ""
  }

  /** The state the received commands act on. */
  datatype PluginState = PluginState(
    axisData: map<string, real>,
    overrideJoystick: bool,
    overridePedals: bool,
    overrideCollective: bool,
    subscriptions: seq<Subscription>,
    datarefWrites: seq<(string, int)>)

  /** `axisDataMap`'s initial entries and all flags off. */
  const InitialState: PluginState :=
    PluginState(map["jx" := 0.0, "jy" := 0.0, "px" := 0.0, "cy" := 0.0], false, false, false, [], [])

  /** `XPLMSetDatai(ref, b ? 1 : 0)`. */
  function IntOf(b: bool): int {
    if b then 1 else 0
  }

  /**
   * OVERRIDE: `joystick` sets the roll and pitch overrides, `pedals` the yaw override and
   * `collective` the prop-pitch override, each with its flag; any other keyword does nothing.
   * `unset` is the value the flag and the datarefs get when no boolean was read.
   */
  function ApplyOverride(st: PluginState, payload: string, unset: bool): (r: PluginState)
    ensures r.axisData == st.axisData && r.subscriptions == st.subscriptions
  {
    match OverrideRequest(payload)
    case None => st
    case Some((keyword, read)) =>
      var on := OverrideValue(read, unset);
      if keyword == "joystick" then
        st.(overrideJoystick := on, datarefWrites := st.datarefWrites + [(RollOverride, IntOf(on)), (PitchOverride, IntOf(on))])
      else if keyword == "pedals" then
        st.(overridePedals := on, datarefWrites := st.datarefWrites + [(YawOverride, IntOf(on))])
      else if keyword == "collective" then
        st.(overrideCollective := on, datarefWrites := st.datarefWrites + [(CollectiveOverride, IntOf(on))])
      else st
  }

  /**
   * SUBSCRIBE: reads the `key=value` parameters; precision defaults to 3 and conversion to
   * 1.0; the subscription is kept when X-Plane knows the dataref. `false` when `stoi` or
   * `stof` throws.
   */
  function ApplySubscribe(cpp: CppNumbers, st: PluginState, payload: string, datarefs: set<string>): (r: (PluginState, bool))
    ensures r.0 == st.(subscriptions := r.0.subscriptions)
    ensures !r.1 ==> r.0 == st
    ensures |r.0.subscriptions| <= |st.subscriptions| + 1
  {
    var params := ParamsOf(SubscribePairs(payload));
    var precision := if "precision" in params then cpp.stoi(params["precision"]) else Some(3);
    var conversion := if "conversion" in params then cpp.stof(params["conversion"]) else Some(1.0);
    if precision.None? || conversion.None? then (st, false)
    else if Param(params, "dataref") in datarefs then
      var sub := Subscription(Param(params, "dataref"), Param(params, "tag"), Param(params, "type"), precision.value, conversion.value);
      (st.(subscriptions := st.subscriptions + [sub]), true)
    else (st, true)
  }

  /** `ProcessReceivedData`: AXIS, OVERRIDE and SUBSCRIBE; any other type changes nothing. */
  function Process(cpp: CppNumbers, st: PluginState, dataType: string, payload: string, datarefs: set<string>): (r: (PluginState, bool))
    ensures dataType !in {"AXIS", "OVERRIDE", "SUBSCRIBE"} ==> r == (st, true)
  {
    if dataType == "AXIS" then
      var (m, ok) := ApplyAxis(cpp, st.axisData, GetlineTokens(payload, ','));
      (st.(axisData := m), ok)
    else if dataType == "OVERRIDE" then (ApplyOverride(st, payload, cpp.unsetBool), true)
    else if dataType == "SUBSCRIBE" then ApplySubscribe(cpp, st, payload, datarefs)
    else (st, true)
  }

  /** The size of `ReceiveData`'s buffer. */
  const ReceiveBufferSize: nat := 1024

  /**
   * What receiving one datagram does: an empty one is ignored (`recvlen` is 0), and so is one
   * longer than the buffer (Winsock's `recvfrom` fails with WSAEMSGSIZE); otherwise its type
   * and payload are processed.
   */
  function Receive(cpp: CppNumbers, st: PluginState, datagram: string, datarefs: set<string>): (r: (PluginState, bool))
    ensures datagram == "" || |datagram| > ReceiveBufferSize ==> r == (st, true)
    ensures datagram != "" && |datagram| <= ReceiveBufferSize ==>
      r == Process(cpp, st, SplitHeader(datagram).0, SplitHeader(datagram).1, datarefs)
  {
    if datagram == "" || |datagram| > ReceiveBufferSize then (st, true)
    else Process(cpp, st, SplitHeader(datagram).0, SplitHeader(datagram).1, datarefs)
  }

  /** Only the three known keywords change a flag, and each changes only its own. */
  lemma OverrideOnlyKnownKeywords(st: PluginState, payload: string, unset: bool)
    ensures var r := ApplyOverride(st, payload, unset); var req := OverrideRequest(payload);
      && (r.overrideJoystick != st.overrideJoystick ==>
            req.Some? && req.value.0 == "joystick" && OverrideValue(req.value.1, unset) == r.overrideJoystick)
      && (r.overridePedals != st.overridePedals ==>
            req.Some? && req.value.0 == "pedals" && OverrideValue(req.value.1, unset) == r.overridePedals)
      && (r.overrideCollective != st.overrideCollective ==>
            req.Some? && req.value.0 == "collective" && OverrideValue(req.value.1, unset) == r.overrideCollective)
      && (req.None? || req.value.0 !in {"joystick", "pedals", "collective"} ==> r == st)
  {
  }

  /**
   * `joystick` and `joystick=` read no boolean: the override takes whatever the uninitialised
   * local holds, so the input alone does not decide it.
   */
  lemma OverrideWithoutValueUnset(st: PluginState)
    ensures ApplyOverride(st, "joystick", true).overrideJoystick
    ensures !ApplyOverride(st, "joystick", false).overrideJoystick
    ensures ApplyOverride(st, "joystick=", true).overrideJoystick
    ensures !ApplyOverride(st, "joystick=", false).overrideJoystick
  {
    assert '=' !in "joystick";
    FirstIndexAfter("joystick", '=', "");
  }

  /**
   * A last segment without `=` takes the previous pair's value: `tag=X,dataref` sets both
   * `tag` and `dataref` to `X`.
   */
  lemma SubscribeBareKeyTakesPreviousValue(key: string, value: string, bare: string)
    requires '=' !in key && ',' !in value && '=' !in bare && bare != ""
    ensures SubscribePairs(key + ['='] + value + [','] + bare) == [(key, value), (bare, value)]
  {
    var s := key + ['='] + value + [','] + bare;
    assert s == key + ['='] + (value + [','] + bare);
    FirstIndexAfter(key, '=', value + [','] + bare);
    FirstIndexAfter(value, ',', bare);
  }

  /**
   * The plugin's globals: the telemetry `std::map`, the datagrams sent, and the state the
   * received commands change.
   */
  class Plugin {
    var telemetryData: Dict<string, string>
    var sentTelemetry: seq<string>
    var axisData: map<string, real>
    var overrideJoystick: bool
    var overridePedals: bool
    var overrideCollective: bool
    var subscriptions: seq<Subscription>
    var datarefWrites: seq<(string, int)>

    /** `telemetryData` is a `std::map`: its entries are in ascending key order. */
    ghost predicate Valid()
      reads this
    {
      Ascending(telemetryData)
    }

    function State(): PluginState
      reads this
    {
      PluginState(axisData, overrideJoystick, overridePedals, overrideCollective, subscriptions, datarefWrites)
    }

    constructor ()
      ensures Valid() && telemetryData == [] && sentTelemetry == []
      ensures State() == InitialState
    {
      telemetryData := [];
      sentTelemetry := [];
      axisData := InitialState.axisData;
      overrideJoystick := false;
      overridePedals := false;
      overrideCollective := false;
      subscriptions := [];
      datarefWrites := [];
    }

    /** `telemetryData[key] = value`, as `CollectTelemetryData` does for every reading. */
    method SetTelemetry(key: string, value: string)
      requires Valid()
      modifies this`telemetryData
      ensures Valid()
      ensures telemetryData == Assign(old(telemetryData), key, value)
      ensures ToMap(telemetryData) == ToMap(old(telemetryData))[key := value]
    {
      AssignAscending(telemetryData, key, value);
      AssignContents(telemetryData, key, value);
      telemetryData := Assign(telemetryData, key, value);
    }

    /** `FormatAndSendTelemetryData`: one datagram of every entry as `key=value;`, in key order. */
    method FormatAndSendTelemetryData()
      modifies this`sentTelemetry
      ensures sentTelemetry == old(sentTelemetry) + [TelemetryText(telemetryData)]
    {
      var dataString := "";
      var i := 0;
      while i < |telemetryData|
        invariant 0 <= i <= |telemetryData|
        invariant dataString == TelemetryText(telemetryData[..i])
      {
        assert telemetryData[..i + 1][..i] == telemetryData[..i];
        dataString := dataString + telemetryData[i].0 + "=" + telemetryData[i].1 + ";";
        i := i + 1;
      }
      assert telemetryData[..i] == telemetryData;
      sentTelemetry := sentTelemetry + [dataString];
    }

    /** `ProcessReceivedData`: dispatch on the data type. */
    method ProcessReceivedData(cpp: CppNumbers, dataType: string, payload: string, datarefs: set<string>)
      returns (ok: bool)
      modifies this`axisData, this`overrideJoystick, this`overridePedals, this`overrideCollective
      modifies this`subscriptions, this`datarefWrites
      ensures (State(), ok) == Process(cpp, old(State()), dataType, payload, datarefs)
    {
      ok := true;
      if dataType == "AXIS" {
        ok := HandleAxis(cpp, payload);
      } else if dataType == "OVERRIDE" {
        HandleOverride(payload, cpp.unsetBool);
      } else if dataType == "SUBSCRIBE" {
        ok := HandleSubscribe(cpp, payload, datarefs);
      }
    }

    /** The AXIS branch: writes `axisDataMap` token by token. */
    method HandleAxis(cpp: CppNumbers, payload: string) returns (ok: bool)
      modifies this`axisData
      ensures (axisData, ok) == ApplyAxis(cpp, old(axisData), GetlineTokens(payload, ','))
    {
      ok := true;
      var tokens := GetlineTokens(payload, ',');
      var i := 0;
      while i < |tokens| && ok
        invariant 0 <= i <= |tokens|
        invariant (axisData, ok) == ApplyAxis(cpp, old(axisData), tokens[..i])
      {
        var token := tokens[i];
        ApplyAxisStep(cpp, old(axisData), tokens, i);
        if '=' in token {
          var key := Before(token, '=');
          var value := cpp.stof(After(token, '='));
          if value.None? {
            ok := false;
          } else {
            axisData := axisData[key := value.value];
          }
        }
        i := i + 1;
      }
      if !ok {
        ApplyAxisStaysFailed(cpp, old(axisData), tokens, i);
      } else {
        assert tokens[..i] == tokens;
      }
    }

    /** The OVERRIDE branch. */
    method HandleOverride(payload: string, unset: bool)
      modifies this`overrideJoystick, this`overridePedals, this`overrideCollective, this`datarefWrites
      ensures State() == ApplyOverride(old(State()), payload, unset)
    {
      var request := OverrideRequest(payload);
      if request.Some? {
        var keyword := request.value.0;
        var on := OverrideValue(request.value.1, unset);
        if keyword == "joystick" {
          datarefWrites := datarefWrites + [(RollOverride, IntOf(on)), (PitchOverride, IntOf(on))];
          overrideJoystick := on;
        } else if keyword == "pedals" {
          datarefWrites := datarefWrites + [(YawOverride, IntOf(on))];
          overridePedals := on;
        } else if keyword == "collective" {
          datarefWrites := datarefWrites + [(CollectiveOverride, IntOf(on))];
          overrideCollective := on;
        }
      }
    }

    /** The SUBSCRIBE branch: `RegisterDataRef` with the parsed or default parameters. */
    method HandleSubscribe(cpp: CppNumbers, payload: string, datarefs: set<string>) returns (ok: bool)
      modifies this`subscriptions
      ensures (State(), ok) == ApplySubscribe(cpp, old(State()), payload, datarefs)
    {
      ok := true;
      var params := ParamsOf(SubscribePairs(payload));
      var precision := if "precision" in params then cpp.stoi(params["precision"]) else Some(3);
      var conversion := if "conversion" in params then cpp.stof(params["conversion"]) else Some(1.0);
      if precision.None? || conversion.None? {
        ok := false;
      } else if Param(params, "dataref") in datarefs {
        subscriptions := subscriptions
          + [Subscription(Param(params, "dataref"), Param(params, "tag"), Param(params, "type"), precision.value, conversion.value)];
      }
    }

    /**
     * `ReceiveData`: a datagram that fits the buffer is split into type and payload and
     * processed; an empty or oversized one is ignored.
     */
    method ReceiveData(cpp: CppNumbers, datagram: string, datarefs: set<string>) returns (ok: bool)
      modifies this`axisData, this`overrideJoystick, this`overridePedals, this`overrideCollective
      modifies this`subscriptions, this`datarefWrites
      ensures (State(), ok) == Receive(cpp, old(State()), datagram, datarefs)
    {
      ok := true;
      if datagram != "" && |datagram| <= ReceiveBufferSize {
        var (dataType, payload) := SplitHeader(datagram);
        ok := ProcessReceivedData(cpp, dataType, payload, datarefs);
      }
    }
  }
}
