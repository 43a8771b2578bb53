/**
 * The two ends of the X-Plane link together: what the plugin sends, the application reads
 * back, and what the application sends, the plugin applies.
 */
module XPlaneLink {
  import opened Wrappers
  import opened Dict
  import opened Text
  import opened XPlaneManager
  import opened XPlanePlugin

  // ---------------------------------------------------------------- telemetry, plugin to app

  /** The `key=value` pieces of the telemetry entries. */
  function EntryPieces(d: Dict<string, string>): (pieces: seq<string>)
    ensures |pieces| == |d|
  {
    seq(|d|, i requires 0 <= i < |d| => d[i].0 + "=" + d[i].1)
  }

  /** Each key with its value as `_convert_value` reads it. */
  function Converted(py: PyNumbers, d: Dict<string, string>): (t: Telemetry)
    ensures |t| == |d|
  {
    seq(|d|, i requires 0 <= i < |d| => (d[i].0, ConvertValue(py, d[i].1)))
  }

  /** The telemetry text is the pieces joined by `;`, with one more `;` at the end. */
  lemma {:induction false} TelemetryTextJoin(d: Dict<string, string>)
    requires d != []
    ensures TelemetryText(d) == Join(EntryPieces(d), ';') + ";"
    decreases |d|
  {
    var n := |d|;
    if n > 1 {
      var front := d[..n - 1];
      TelemetryTextJoin(front);
      PiecesSnoc(d);
    }
  }

  /** Joining the pieces of a dictionary with one more entry appends that entry's text. */
  lemma PiecesSnoc(d: Dict<string, string>)
    requires |d| > 1
    ensures Join(EntryPieces(d), ';') + ";" == (Join(EntryPieces(d[..|d| - 1]), ';') + ";") + Entry(d[|d| - 1])
  {
    var front := EntryPieces(d[..|d| - 1]);
    var piece := EntryPieces(d)[|d| - 1];
    assert EntryPieces(d) == front + [piece];
    JoinSnoc(front, piece, ';');
    assert Entry(d[|d| - 1]) == piece + ";";
    ConcatAssoc(Join(front, ';') + ";", piece, ";");
  }

  /** Dropping the last entry drops the last piece. */
  lemma EntryPiecesFront(d: Dict<string, string>)
    requires d != []
    ensures EntryPieces(d)[..|d| - 1] == EntryPieces(d[..|d| - 1])
    ensures EntryPieces(d)[|d| - 1] == d[|d| - 1].0 + ['='] + d[|d| - 1].1
  {
  }

  /** Dropping the last entry drops the last converted entry. */
  lemma ConvertedSnoc(py: PyNumbers, d: Dict<string, string>)
    requires d != []
    ensures Converted(py, d) == Converted(py, d[..|d| - 1]) + [(d[|d| - 1].0, ConvertValue(py, d[|d| - 1].1))]
  {
  }

  /** With distinct keys, the last key is not among the converted earlier entries. */
  lemma LastKeyFresh(py: PyNumbers, d: Dict<string, string>)
    requires d != [] && Distinct(d)
    ensures !HasKey(Converted(py, d[..|d| - 1]), d[|d| - 1].0)
  {
    var t := Converted(py, d[..|d| - 1]);
  }

  /** Parsing the `key=value` pieces of distinct keys yields each key with its converted value. */
  lemma {:induction false} ParseEntryPieces(py: PyNumbers, d: Dict<string, string>)
    requires Distinct(d)
    requires forall i :: 0 <= i < |d| ==> '=' !in d[i].0
    ensures ParsePairs(py, EntryPieces(d)) == Converted(py, d)
    decreases |d|
  {
    if d != [] {
      var n := |d|;
      var front := d[..n - 1];
      var k, v := d[n - 1].0, d[n - 1].1;
      ParseEntryPieces(py, front);
      EntryPiecesFront(d);
      FirstIndexAfter(k, '=', v);
      LastKeyFresh(py, d);
      ConvertedSnoc(py, d);
    }
  }

  /**
   * What the plugin sends, the application reads back: for keys free of `=` and `;` and values
   * free of `;`, parsing the telemetry datagram gives every key, in the map's order, with its
   * converted value.
   */
  lemma TelemetryRoundTrip(py: PyNumbers, d: Dict<string, string>)
    requires Ascending(d)
    requires forall i :: 0 <= i < |d| ==> '=' !in d[i].0 && ';' !in d[i].0 && ';' !in d[i].1
    ensures ParseTelemetry(py, TelemetryText(d)) == Converted(py, d)
  {
    AscendingDistinct(d);
    if d == [] {
      EmptyTelemetry(py);
    } else {
      calc {
        ParseTelemetry(py, TelemetryText(d));
        ParsePairs(py, Split(Strip(TelemetryText(d), ';'), ';'));
        { TelemetryPieces(d); }
        ParsePairs(py, EntryPieces(d));
        { ParseEntryPieces(py, d); }
        Converted(py, d);
      }
    }
  }

  /** An empty dictionary travels as the empty text, which parses back to no entries. */
  lemma EmptyTelemetry(py: PyNumbers)
    ensures ParseTelemetry(py, TelemetryText([])) == []
  {
    assert Strip("", ';') == "";
    assert Split("", ';') == [""];
    assert ParsePairs(py, [""]) == ParsePairs(py, []);
  }

  /** Stripping and splitting a non-empty telemetry text gives back the entries' pieces. */
  lemma TelemetryPieces(d: Dict<string, string>)
    requires d != []
    requires forall i :: 0 <= i < |d| ==> ';' !in d[i].0 && ';' !in d[i].1
    ensures Split(Strip(TelemetryText(d), ';'), ';') == EntryPieces(d)
  {
    StripTelemetry(d);
    EntryPiecesPlain(d);
    SplitJoin(EntryPieces(d), ';');
  }

  /** Stripping a non-empty telemetry text leaves the entries' pieces joined by `;`. */
  lemma StripTelemetry(d: Dict<string, string>)
    requires d != []
    requires forall i :: 0 <= i < |d| ==> ';' !in d[i].0 && ';' !in d[i].1
    ensures Strip(TelemetryText(d), ';') == Join(EntryPieces(d), ';')
  {
    var j := Join(EntryPieces(d), ';');
    JoinedEntriesEnds(d, j);
    StripTrailingSep(j, ';');
    TelemetryTextJoin(d);
  }

  /** The joined entries of a non-empty dictionary neither start nor end with `;`. */
  lemma JoinedEntriesEnds(d: Dict<string, string>, j: string)
    requires d != []
    requires forall i :: 0 <= i < |d| ==> ';' !in d[i].0 && ';' !in d[i].1
    requires j == Join(EntryPieces(d), ';')
    ensures j != "" && j[0] != ';' && j[|j| - 1] != ';'
  {
    var pieces := EntryPieces(d);
    EntryPiecesPlain(d);
    JoinHead(pieces, ';');
    JoinEndsWithLast(pieces, ';');
    var last := pieces[|pieces| - 1];
    assert last[|last| - 1] in last;
  }

  /** The pieces of entries whose keys and values hold no `;` are non-empty and free of `;`. */
  lemma EntryPiecesPlain(d: Dict<string, string>)
    requires forall i :: 0 <= i < |d| ==> ';' !in d[i].0 && ';' !in d[i].1
    ensures forall i :: 0 <= i < |d| ==> EntryPieces(d)[i] != "" && ';' !in EntryPieces(d)[i]
  {
    var pieces := EntryPieces(d);
    forall i | 0 <= i < |pieces| ensures pieces[i] != "" && ';' !in pieces[i] {
      assert pieces[i] == d[i].0 + ['='] + d[i].1;
    }
  }

  // ---------------------------------------------------------------- commands, app to plugin

  /** GetlineTokens of a join of non-empty pieces free of the separator gives the pieces back. */
  lemma GetlineJoin(parts: seq<string>, sep: char)
    requires forall i :: 0 <= i < |parts| ==> parts[i] != "" && sep !in parts[i]
    ensures GetlineTokens(Join(parts, sep), sep) == parts
  {
    if parts != [] {
      JoinHead(parts, sep);
      SplitJoin(parts, sep);
    }
  }

  /**
   * An AXIS command from the application, with keys free of `,`, `=`, newlines and NULs, and
   * formatted values free of `,`, newlines and NULs that `stof` reads, fitting the plugin's
   * receive buffer, sets every axis it names to the value read and leaves every other axis,
   * flag and subscription alone.
   */
  lemma AxisRoundTrip(py: PyNumbers, cpp: CppNumbers, axes: Dict<string, real>, st: PluginState, datarefs: set<string>)
    requires Distinct(axes)
    requires forall i :: 0 <= i < |axes| ==>
      ',' !in axes[i].0 && '=' !in axes[i].0 && '\n' !in axes[i].0 && '\0' !in axes[i].0
    requires forall i :: 0 <= i < |axes| ==>
      ',' !in py.formatFloat(axes[i].1) && '\n' !in py.formatFloat(axes[i].1) && '\0' !in py.formatFloat(axes[i].1)
    requires forall i :: 0 <= i < |axes| ==> cpp.stof(py.formatFloat(axes[i].1)).Some?
    requires |AxisCommand(py, axes)| <= ReceiveBufferSize
    ensures Receive(cpp, st, AxisCommand(py, axes), datarefs).1
    ensures var r := Receive(cpp, st, AxisCommand(py, axes), datarefs).0; r == st.(axisData := r.axisData)
    ensures var m := Receive(cpp, st, AxisCommand(py, axes), datarefs).0.axisData;
      forall k :: k in m <==> k in st.axisData || HasKey(axes, k)
    ensures var m := Receive(cpp, st, AxisCommand(py, axes), datarefs).0.axisData;
      forall i :: 0 <= i < |axes| ==> axes[i].0 in m && m[axes[i].0] == cpp.stof(py.formatFloat(axes[i].1)).value
    ensures var m := Receive(cpp, st, AxisCommand(py, axes), datarefs).0.axisData;
      forall k :: k in st.axisData && !HasKey(axes, k) ==> m[k] == st.axisData[k]
  {
    var pieces := AxisPieces(py, axes);
    var payload := Join(pieces, ',');
    forall i | 0 <= i < |pieces|
      ensures pieces[i] != "" && ',' !in pieces[i] && '\n' !in pieces[i] && '\0' !in pieces[i]
      ensures '=' in pieces[i] && Before(pieces[i], '=') == axes[i].0
      ensures After(pieces[i], '=') == py.formatFloat(axes[i].1)
    {
      assert pieces[i] == axes[i].0 + ['='] + py.formatFloat(axes[i].1);
      FirstIndexAfter(axes[i].0, '=', py.formatFloat(axes[i].1));
    }
    JoinExcludes(pieces, ',', '\n');
    JoinExcludes(pieces, ',', '\0');
    assert AxisCommand(py, axes) == "AXIS" + ":" + payload;
    SplitHeaderOf("AXIS", payload);
    assert Receive(cpp, st, AxisCommand(py, axes), datarefs) == Process(cpp, st, "AXIS", payload, datarefs);
    GetlineJoin(pieces, ',');
    var m := st.axisData;
    var r := ApplyAxis(cpp, m, pieces).0;
    forall i | 0 <= i < |axes| ensures axes[i].0 in r && r[axes[i].0] == cpp.stof(py.formatFloat(axes[i].1)).value {
      forall j | i < j < |pieces| && '=' in pieces[j] ensures Before(pieces[j], '=') != Before(pieces[i], '=') {
      }
      ApplyAxisSetsLast(cpp, m, pieces, i);
    }
    forall k ensures k in r <==> k in m || HasKey(axes, k) {
      if !HasKey(axes, k) {
        ApplyAxisKeepsOthers(cpp, m, pieces, k);
      }
    }
    forall k | k in m && !HasKey(axes, k) ensures r[k] == m[k] {
      ApplyAxisKeepsOthers(cpp, m, pieces, k);
    }
  }

  /** An OVERRIDE datagram splits into its header and `type=value`. */
  lemma OverrideCommandHeader(kind: string, enabled: bool)
    requires '\n' !in kind && '\0' !in kind
    ensures SplitHeader(OverrideCommand(kind, enabled)) == ("OVERRIDE", kind + "=" + BoolText(enabled))
  {
    var payload := kind + "=" + BoolText(enabled);
    assert OverrideCommand(kind, enabled) == "OVERRIDE" + ":" + payload;
    SplitHeaderOf("OVERRIDE", payload);
  }

  /** The plugin reads back the type and the boolean of an OVERRIDE payload. */
  lemma OverridePayloadReads(kind: string, enabled: bool)
    requires '=' !in kind
    ensures OverrideRequest(kind + "=" + BoolText(enabled)) == Some((kind, Some(enabled)))
  {
    FirstIndexAfter(kind, '=', BoolText(enabled));
    assert SkipSpace(BoolText(enabled)) == BoolText(enabled);
  }

  /**
   * An OVERRIDE command from the application, for a type free of `=`, newlines and NULs and
   * short enough for the receive buffer, sets exactly the named flag to the value sent, and changes nothing for an unknown type.
   */
  lemma OverrideRoundTrip(cpp: CppNumbers, kind: string, enabled: bool, st: PluginState, datarefs: set<string>)
    requires '=' !in kind && '\n' !in kind && '\0' !in kind
    requires |OverrideCommand(kind, enabled)| <= ReceiveBufferSize
    ensures Receive(cpp, st, OverrideCommand(kind, enabled), datarefs).1
    ensures kind == "joystick" ==>
      Receive(cpp, st, OverrideCommand(kind, enabled), datarefs).0
        == st.(overrideJoystick := enabled,
               datarefWrites := st.datarefWrites + [(RollOverride, IntOf(enabled)), (PitchOverride, IntOf(enabled))])
    ensures kind == "pedals" ==>
      Receive(cpp, st, OverrideCommand(kind, enabled), datarefs).0
        == st.(overridePedals := enabled, datarefWrites := st.datarefWrites + [(YawOverride, IntOf(enabled))])
    ensures kind == "collective" ==>
      Receive(cpp, st, OverrideCommand(kind, enabled), datarefs).0
        == st.(overrideCollective := enabled, datarefWrites := st.datarefWrites + [(CollectiveOverride, IntOf(enabled))])
    ensures kind !in {"joystick", "pedals", "collective"} ==> Receive(cpp, st, OverrideCommand(kind, enabled), datarefs).0 == st
  {
    OverrideCommandHeader(kind, enabled);
    OverridePayloadReads(kind, enabled);
  }

  /** Reading one `key=value,` pair off the front of a SUBSCRIBE payload; its value is carried on. */
  lemma SubscribePairsCons(key: string, value: string, more: string, prev: string)
    requires '=' !in key && ',' !in value
    ensures SubscribePairsFrom(key + ['='] + value + [','] + more, prev) == [(key, value)] + SubscribePairsFrom(more, value)
  {
    var s := key + ['='] + value + [','] + more;
    assert s == key + ['='] + (value + [','] + more);
    FirstIndexAfter(key, '=', value + [','] + more);
    FirstIndexAfter(value, ',', more);
  }

  /** Reading the last `key=value` pair of a SUBSCRIBE payload. */
  lemma SubscribePairsLast(key: string, value: string, prev: string)
    requires '=' !in key && ',' !in value
    ensures SubscribePairsFrom(key + ['='] + value, prev) == [(key, value)]
  {
    FirstIndexAfter(key, '=', value);
    assert SubscribePairsFrom("", value) == [];
  }

  /** Each key paired with the value at the same position. */
  function Zip(keys: seq<string>, values: seq<string>): (pairs: seq<(string, string)>)
    requires |keys| == |values|
    ensures |pairs| == |keys|
  {
    seq(|keys|, i requires 0 <= i < |keys| => (keys[i], values[i]))
  }

  lemma ZipCons(keys: seq<string>, values: seq<string>)
    requires |keys| == |values| >= 1
    ensures Zip(keys, values) == [(keys[0], values[0])] + Zip(keys[1..], values[1..])
  {
  }

  /**
   * The SUBSCRIBE reader takes `key=value` pieces joined by `,` apart again, provided no key
   * holds a `=` and no value a `,`, whatever value was read before.
   */
  lemma {:induction false} SubscribePairsJoin(keys: seq<string>, values: seq<string>, pieces: seq<string>, prev: string)
    requires |keys| == |values| == |pieces|
    requires forall i :: 0 <= i < |pieces| ==> pieces[i] == keys[i] + ['='] + values[i]
    requires forall i :: 0 <= i < |keys| ==> '=' !in keys[i]
    requires forall i :: 0 <= i < |values| ==> ',' !in values[i]
    ensures SubscribePairsFrom(Join(pieces, ','), prev) == Zip(keys, values)
    decreases |pieces|
  {
    if pieces != [] {
      ZipCons(keys, values);
      if |pieces| == 1 {
        SubscribePairsLast(keys[0], values[0], prev);
      } else {
        var rest := Join(pieces[1..], ',');
        SubscribePairsJoin(keys[1..], values[1..], pieces[1..], values[0]);
        assert Join(pieces, ',') == keys[0] + ['='] + values[0] + [','] + rest;
        SubscribePairsCons(keys[0], values[0], rest, prev);
      }
    }
  }

  /** `str(int)` writes no `,`, newline or NUL. */
  lemma IntToStringPlain(i: int)
    ensures var s := IntToString(i); ',' !in s && '\n' !in s && '\0' !in s
  {
    var digits := NatToString(if i >= 0 then i else -i);
    assert forall j :: 0 <= j < |digits| ==> digits[j] != ',' && digits[j] != '\n' && digits[j] != '\0';
  }

  /** The pairs a SUBSCRIBE payload carries, in order. */
  lemma SubscribePayloadPairs(py: PyNumbers, dataref: string, kind: string, tag: string, precision: int, conversion: real)
    requires ',' !in dataref && ',' !in kind && ',' !in tag && ',' !in py.formatFloat(conversion)
    ensures var pairs := SubscribePairs(SubscribePayload(py, dataref, kind, tag, precision, conversion));
      && |pairs| == 5
      && pairs[0] == ("dataref", dataref) && pairs[1] == ("type", kind) && pairs[2] == ("tag", tag)
      && pairs[3] == ("precision", IntToString(precision)) && pairs[4] == ("conversion", py.formatFloat(conversion))
  {
    var names := ["dataref", "type", "tag", "precision", "conversion"];
    var values := [dataref, kind, tag, IntToString(precision), py.formatFloat(conversion)];
    var pieces := SubscribePieces(py, dataref, kind, tag, precision, conversion);
    IntToStringPlain(precision);
    assert pieces == seq(5, i requires 0 <= i < 5 => Piece(names[i], values[i]));
    SubscribePairsJoin(names, values, pieces, "");
    var pairs := Zip(names, values);
    assert pairs[0] == (names[0], values[0]) && pairs[1] == (names[1], values[1]) && pairs[2] == (names[2], values[2]);
    assert pairs[3] == (names[3], values[3]) && pairs[4] == (names[4], values[4]);
  }

  /** The parameters the plugin reads from the five pairs the application writes. */
  lemma SubscribeParams(pairs: seq<(string, string)>, dataref: string, kind: string, tag: string, precision: string, conversion: string)
    requires |pairs| == 5
    requires pairs[0] == ("dataref", dataref) && pairs[1] == ("type", kind) && pairs[2] == ("tag", tag)
    requires pairs[3] == ("precision", precision) && pairs[4] == ("conversion", conversion)
    ensures var params := ParamsOf(pairs);
      && Param(params, "dataref") == dataref && Param(params, "type") == kind && Param(params, "tag") == tag
      && "precision" in params && params["precision"] == precision
      && "conversion" in params && params["conversion"] == conversion
  {
    assert ParamsOf(pairs[..1]) == map["dataref" := dataref] by {
      assert pairs[..1][..0] == [];
    }
    assert ParamsOf(pairs[..2]) == map["dataref" := dataref, "type" := kind] by {
      assert pairs[..2][..1] == pairs[..1];
    }
    assert ParamsOf(pairs[..3]) == map["dataref" := dataref, "type" := kind, "tag" := tag] by {
      assert pairs[..3][..2] == pairs[..2];
    }
    assert ParamsOf(pairs[..4]) == map["dataref" := dataref, "type" := kind, "tag" := tag, "precision" := precision] by {
      assert pairs[..4][..3] == pairs[..3];
    }
    assert pairs[..4] == pairs[..5][..4];
    assert pairs[..5] == pairs;
  }

  /**
   * What the plugin does with a SUBSCRIBE datagram whose parameters read as the ones the
   * application writes, and that fits the receive buffer: registers the subscription when the
   * dataref is known.
   */
  lemma ReceiveSubscribe(cpp: CppNumbers, st: PluginState, datagram: string, payload: string, datarefs: set<string>,
                         dataref: string, kind: string, tag: string, precision: string, conversion: string)
    requires datagram != "" && |datagram| <= ReceiveBufferSize && SplitHeader(datagram) == ("SUBSCRIBE", payload)
    requires var params := ParamsOf(SubscribePairs(payload));
      && Param(params, "dataref") == dataref && Param(params, "type") == kind && Param(params, "tag") == tag
      && "precision" in params && params["precision"] == precision
      && "conversion" in params && params["conversion"] == conversion
    requires cpp.stoi(precision).Some? && cpp.stof(conversion).Some?
    ensures Receive(cpp, st, datagram, datarefs).1
    ensures var r := Receive(cpp, st, datagram, datarefs).0; r == st.(subscriptions := r.subscriptions)
    ensures dataref in datarefs ==>
      Receive(cpp, st, datagram, datarefs).0.subscriptions
        == st.subscriptions + [Subscription(dataref, tag, kind, cpp.stoi(precision).value, cpp.stof(conversion).value)]
    ensures dataref !in datarefs ==> Receive(cpp, st, datagram, datarefs).0.subscriptions == st.subscriptions
  {
    ProcessSubscribe(cpp, st, payload, datarefs);
    SubscribeApplied(cpp, st, payload, datarefs, dataref, kind, tag, precision, conversion);
  }

  /** A SUBSCRIBE datagram's payload goes to the subscription handler. */
  lemma ProcessSubscribe(cpp: CppNumbers, st: PluginState, payload: string, datarefs: set<string>)
    ensures Process(cpp, st, "SUBSCRIBE", payload, datarefs) == ApplySubscribe(cpp, st, payload, datarefs)
  {
    assert "SUBSCRIBE" != "AXIS" && "SUBSCRIBE" != "OVERRIDE";
  }

  /** A SUBSCRIBE payload whose numbers parse adds one subscription when its dataref is known. */
  lemma SubscribeApplied(cpp: CppNumbers, st: PluginState, payload: string, datarefs: set<string>,
                         dataref: string, kind: string, tag: string, precision: string, conversion: string)
    requires var params := ParamsOf(SubscribePairs(payload));
      && Param(params, "dataref") == dataref && Param(params, "type") == kind && Param(params, "tag") == tag
      && "precision" in params && params["precision"] == precision
      && "conversion" in params && params["conversion"] == conversion
    requires cpp.stoi(precision).Some? && cpp.stof(conversion).Some?
    ensures var r := ApplySubscribe(cpp, st, payload, datarefs);
      && r.1 && r.0 == st.(subscriptions := r.0.subscriptions)
      && (dataref in datarefs ==>
           r.0.subscriptions
             == st.subscriptions + [Subscription(dataref, tag, kind, cpp.stoi(precision).value, cpp.stof(conversion).value)])
      && (dataref !in datarefs ==> r.0.subscriptions == st.subscriptions)
  {
  }

  /** A field the command text carries unchanged: no `,`, newline or NUL. */
  predicate Plain(f: string) {
    ',' !in f && '\n' !in f && '\0' !in f
  }

  /** A SUBSCRIBE payload of plain fields holds no newline or NUL. */
  lemma SubscribePayloadPlain(py: PyNumbers, dataref: string, kind: string, tag: string, precision: int, conversion: real)
    requires Plain(dataref) && Plain(kind) && Plain(tag) && Plain(py.formatFloat(conversion))
    ensures var payload := SubscribePayload(py, dataref, kind, tag, precision, conversion);
      '\n' !in payload && '\0' !in payload
  {
    SubscribePiecesExclude(py, dataref, kind, tag, precision, conversion, '\n');
    SubscribePiecesExclude(py, dataref, kind, tag, precision, conversion, '\0');
  }

  /** A character absent from every plain field and from `=` and `,` is absent from the payload. */
  lemma SubscribePiecesExclude(py: PyNumbers, dataref: string, kind: string, tag: string, precision: int, conversion: real, c: char)
    requires Plain(dataref) && Plain(kind) && Plain(tag) && Plain(py.formatFloat(conversion))
    requires c == '\n' || c == '\0'
    ensures c !in SubscribePayload(py, dataref, kind, tag, precision, conversion)
  {
    var pieces := SubscribePieces(py, dataref, kind, tag, precision, conversion);
    IntToStringPlain(precision);
    PieceExcludes("dataref", dataref, c);
    PieceExcludes("type", kind, c);
    PieceExcludes("tag", tag, c);
    PieceExcludes("precision", IntToString(precision), c);
    PieceExcludes("conversion", py.formatFloat(conversion), c);
    assert forall i :: 0 <= i < |pieces| ==> c !in pieces[i];
    JoinExcludes(pieces, ',', c);
  }

  /** A `key=value` piece holds a character only if the key, `=` or the value does. */
  lemma PieceExcludes(key: string, value: string, c: char)
    requires c !in key && c !in value && c != '='
    ensures c !in Piece(key, value)
  {
  }

  /** A SUBSCRIBE datagram of plain fields splits into its header and payload. */
  lemma SubscribeCommandHeader(py: PyNumbers, dataref: string, kind: string, tag: string, precision: int, conversion: real)
    requires Plain(dataref) && Plain(kind) && Plain(tag) && Plain(py.formatFloat(conversion))
    ensures SubscribeCommand(py, dataref, kind, tag, precision, conversion) != ""
    ensures SplitHeader(SubscribeCommand(py, dataref, kind, tag, precision, conversion))
      == ("SUBSCRIBE", SubscribePayload(py, dataref, kind, tag, precision, conversion))
  {
    var payload := SubscribePayload(py, dataref, kind, tag, precision, conversion);
    SubscribePayloadPlain(py, dataref, kind, tag, precision, conversion);
    assert SubscribeCommand(py, dataref, kind, tag, precision, conversion) == "SUBSCRIBE" + ":" + payload;
    SplitHeaderOf("SUBSCRIBE", payload);
  }

  /**
   * A SUBSCRIBE command from the application, with plain fields and numbers the plugin reads
   * back, fitting the receive buffer, registers exactly that subscription when X-Plane knows the dataref, and nothing
   * otherwise.
   */
  lemma SubscribeRoundTrip(py: PyNumbers, cpp: CppNumbers, dataref: string, kind: string, tag: string,
                           precision: int, conversion: real, st: PluginState, datarefs: set<string>)
    requires Plain(dataref) && Plain(kind) && Plain(tag) && Plain(py.formatFloat(conversion))
    requires cpp.stoi(IntToString(precision)) == Some(precision)
    requires cpp.stof(py.formatFloat(conversion)).Some?
    requires |SubscribeCommand(py, dataref, kind, tag, precision, conversion)| <= ReceiveBufferSize
    ensures Receive(cpp, st, SubscribeCommand(py, dataref, kind, tag, precision, conversion), datarefs).1
    ensures var r := Receive(cpp, st, SubscribeCommand(py, dataref, kind, tag, precision, conversion), datarefs).0;
      r == st.(subscriptions := r.subscriptions)
    ensures dataref in datarefs ==>
      Receive(cpp, st, SubscribeCommand(py, dataref, kind, tag, precision, conversion), datarefs).0.subscriptions
        == st.subscriptions + [Subscription(dataref, tag, kind, precision, cpp.stof(py.formatFloat(conversion)).value)]
    ensures dataref !in datarefs ==>
      Receive(cpp, st, SubscribeCommand(py, dataref, kind, tag, precision, conversion), datarefs).0.subscriptions
        == st.subscriptions
  {
    SubscribeCommandHeader(py, dataref, kind, tag, precision, conversion);
    var payload := SubscribePayload(py, dataref, kind, tag, precision, conversion);
    var p, c := IntToString(precision), py.formatFloat(conversion);
    assert var params := ParamsOf(SubscribePairs(payload));
      && Param(params, "dataref") == dataref && Param(params, "type") == kind && Param(params, "tag") == tag
      && "precision" in params && params["precision"] == p
      && "conversion" in params && params["conversion"] == c
    by {
      SubscribePayloadPairs(py, dataref, kind, tag, precision, conversion);
      SubscribeParams(SubscribePairs(payload), dataref, kind, tag, p, c);
    }
    ReceiveSubscribe(cpp, st, SubscribeCommand(py, dataref, kind, tag, precision, conversion), payload, datarefs,
                     dataref, kind, tag, p, c);
  }

  // ---------------------------------------------------------------- float arrays

  /**
   * A float array of at least two elements sent with a fixed size reads back as a list with
   * one converted item per element.
   */
  lemma FloatArrayReadsAsList(py: PyNumbers, cpp: CppNumbers, values: seq<real>, conversion: real, fixedSize: int, precision: int)
    requires fixedSize > 0 && ArraySize(values, fixedSize) >= 2
    requires forall v, p :: '~' !in cpp.formatFixed(v, p)
    ensures var texts := ElementTexts(cpp, values, conversion, fixedSize, precision);
      ConvertValue(py, FloatArrayText(cpp, values, conversion, fixedSize, precision))
        == List(seq(|texts|, i requires 0 <= i < |texts| => ConvertValue(py, texts[i])))
  {
    var texts := ElementTexts(cpp, values, conversion, fixedSize, precision);
    var s := FloatArrayText(cpp, values, conversion, fixedSize, precision);
    FixedArraySplits(cpp, values, conversion, fixedSize, precision);
    assert s == texts[0] + ['~'] + Join(texts[1..], '~');
    assert '~' in s by { assert s[|texts[0]|] == '~'; }
  }
}
