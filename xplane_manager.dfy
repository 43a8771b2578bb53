/**
 * The application side of the X-Plane link (fsffb/telemetry/xplane_manager.py): the parser
 * of the plugin's `key=value;` telemetry datagrams, the formatting of the commands sent back,
 * and the FIFO command queue that the receive loop drains before every receive.
 *
 * Sockets and the thread are replaced by the manager's observable effects: the list of
 * datagrams sent and the list of telemetry dictionaries handed to the callback. Python's
 * `float()`, `int()` and float formatting are parameters (`PyNumbers`).
 */
module XPlaneManager {
  import opened Wrappers
  import opened Dict
  import opened Text

  /** Python's `float(s)`, `int(s)` (None where they raise ValueError) and `f"{x}"` for a float. */
  datatype PyNumbers = PyNumbers(
    parseFloat: string -> Option<real>,
    parseInt: string -> Option<int>,
    formatFloat: real -> string)

  /** What `_convert_value` can return: a float, an int, the raw string, or a list of those. */
  datatype Reading = Float(f: real) | Int(i: int) | Raw(text: string) | List(items: seq<Reading>)

  /** A parsed telemetry datagram: a Python dict, in insertion order. */
  type Telemetry = Dict<string, Reading>

  /**
   * `_convert_value`: a `~`-separated string becomes the list of its converted parts; otherwise
   * a string with a `.` is read as a float and any other as an int, and a failed read leaves
   * the raw string.
   */
  function ConvertValue(py: PyNumbers, s: string): (r: Reading)
    ensures r.List? <==> '~' in s
    ensures r.List? ==> |r.items| == |Split(s, '~')|
    ensures r.List? ==> forall i :: 0 <= i < |r.items| ==> !r.items[i].List?
    ensures r.Float? ==> '.' in s && py.parseFloat(s) == Some(r.f)
    ensures r.Int? ==> '.' !in s && py.parseInt(s) == Some(r.i)
    ensures r.Raw? ==> r.text == s && (if '.' in s then py.parseFloat(s) else None) == None
    ensures r.Raw? ==> '.' in s || py.parseInt(s) == None
    decreases |s|
  {
    if '~' in s then
      var parts := Split(s, '~');
      List(seq(|parts|, i requires 0 <= i < |parts| => ConvertValue(py, parts[i])))
    else if '.' in s then
      match py.parseFloat(s)
      case Some(f) => Float(f)
      case None => Raw(s)
    else
      match py.parseInt(s)
      case Some(n) => Int(n)
      case None => Raw(s)
  }

  /** The loop of `_parse_telemetry` over the segments: assigning each `key=value` in turn. */
  function ParsePairs(py: PyNumbers, pairs: seq<string>): (t: Telemetry)
    ensures Distinct(t)
    decreases |pairs|
  {
    if pairs == [] then []
    else
      var t := ParsePairs(py, pairs[..|pairs| - 1]);
      var p := pairs[|pairs| - 1];
      if '=' in p then
        PutDistinct(t, Before(p, '='), ConvertValue(py, After(p, '=')));
        Put(t, Before(p, '='), ConvertValue(py, After(p, '=')))
      else t
  }

  /**
   * `_parse_telemetry`: strips the outer `;`, splits on `;`, skips the segments without `=`
   * and assigns each remaining key its converted value.
   */
  function ParseTelemetry(py: PyNumbers, data: string): (t: Telemetry)
    ensures Distinct(t)
  {
    ParsePairs(py, Split(Strip(data, ';'), ';'))
  }

  /** A key is in the parsed dictionary exactly when some segment with a `=` names it. */
  lemma {:induction false} ParsePairsKeys(py: PyNumbers, pairs: seq<string>, k: string)
    ensures HasKey(ParsePairs(py, pairs), k) <==>
            exists i :: 0 <= i < |pairs| && '=' in pairs[i] && Before(pairs[i], '=') == k
    decreases |pairs|
  {
    if pairs != [] {
      var front := pairs[..|pairs| - 1];
      var p := pairs[|pairs| - 1];
      ParsePairsKeys(py, front, k);
      var t := ParsePairs(py, front);
      if '=' in p {
        PutHasKey(t, Before(p, '='), ConvertValue(py, After(p, '=')), k);
      }
      if exists i :: 0 <= i < |pairs| && '=' in pairs[i] && Before(pairs[i], '=') == k {
        var i :| 0 <= i < |pairs| && '=' in pairs[i] && Before(pairs[i], '=') == k;
        if i < |front| {
          assert front[i] == pairs[i];
        }
      }
      if exists i :: 0 <= i < |front| && '=' in front[i] && Before(front[i], '=') == k {
        var i :| 0 <= i < |front| && '=' in front[i] && Before(front[i], '=') == k;
        assert pairs[i] == front[i];
      }
    }
  }

  /** A key given several times keeps the value of its last segment. */
  lemma {:induction false} ParsePairsLastWins(py: PyNumbers, pairs: seq<string>, i: nat)
    requires i < |pairs| && '=' in pairs[i]
    requires forall j :: i < j < |pairs| && '=' in pairs[j] ==> Before(pairs[j], '=') != Before(pairs[i], '=')
    ensures HasKey(ParsePairs(py, pairs), Before(pairs[i], '='))
    ensures Get(ParsePairs(py, pairs), Before(pairs[i], '=')) == ConvertValue(py, After(pairs[i], '='))
    decreases |pairs|
  {
    var front := pairs[..|pairs| - 1];
    var p := pairs[|pairs| - 1];
    var k := Before(pairs[i], '=');
    var t := ParsePairs(py, front);
    if i == |pairs| - 1 {
      PutDistinct(t, k, ConvertValue(py, After(p, '=')));
    } else {
      assert front[i] == pairs[i];
      ParsePairsLastWins(py, front, i);
      if '=' in p {
        assert Before(p, '=') != k;
        PutDistinct(t, Before(p, '='), ConvertValue(py, After(p, '=')));
      }
    }
  }

  // ---------------------------------------------------------------- commands

  /** The precision and conversion `subscribe_dataref` sends when the caller gives none. */
  const DefaultPrecision: int := 3
  const DefaultConversion: real := 1.0

  /** The `k=v` pieces of an axis dictionary, in dictionary order. */
  function AxisPieces(py: PyNumbers, axes: Dict<string, real>): (pieces: seq<string>)
    ensures |pieces| == |axes|
  {
    seq(|axes|, i requires 0 <= i < |axes| => axes[i].0 + "=" + py.formatFloat(axes[i].1))
  }

  /** The datagram `send_axis_data` queues: `AXIS:` and the `k=v` pieces joined by `,`. */
  function AxisCommand(py: PyNumbers, axes: Dict<string, real>): (s: string)
    ensures |s| >= 5 && s[..5] == "AXIS:"
    ensures s == "AXIS:" <==> axes == []
  {
    "AXIS:" + Join(AxisPieces(py, axes), ',')
  }

  /** Python's `str(enabled).lower()`. */
  function BoolText(b: bool): (s: string)
    ensures s == "true" || s == "false"
  {
    if b then "true" else "false"
  }

  /** The datagram `set_override` queues. */
  function OverrideCommand(kind: string, enabled: bool): string
  {
    "OVERRIDE:" + kind + "=" + BoolText(enabled)
  }

  /** The five `key=value` pairs of a SUBSCRIBE command, in the order they are written. */
  function SubscribePieces(py: PyNumbers, dataref: string, kind: string, tag: string, precision: int, conversion: real): (pieces: seq<string>)
    ensures |pieces| == 5
  {
    [Piece("dataref", dataref), Piece("type", kind), Piece("tag", tag),
     Piece("precision", IntToString(precision)), Piece("conversion", py.formatFloat(conversion))]
  }

  /** One `key=value` piece of a command payload. */
  function Piece(key: string, value: string): string {
    key + "=" + value
  }

  /** The payload of a SUBSCRIBE command: the five pairs joined by `,`. */
  function SubscribePayload(py: PyNumbers, dataref: string, kind: string, tag: string, precision: int, conversion: real): string
  {
    Join(SubscribePieces(py, dataref, kind, tag, precision, conversion), ',')
  }

  /** The datagram `subscribe_dataref` queues. */
  function SubscribeCommand(py: PyNumbers, dataref: string, kind: string, tag: string, precision: int, conversion: real): string
  {
    "SUBSCRIBE:" + SubscribePayload(py, dataref, kind, tag, precision, conversion)
  }

  /**
   * `XPlaneManager`: the command queue, whether the sockets came up, and the observable
   * effects of the loop (datagrams sent to the plugin, telemetry handed to the callback).
   */
  class Manager {
    var commandQueue: seq<string>
    var socketsOpen: bool
    var sent: seq<string>
    var delivered: seq<Telemetry>
    var quitRequested: bool
    /** Whether the `run` thread is still alive. */
    var running: bool

    /** `__init__`: an empty queue; `socketsOpen` is the outcome of `_setup_sockets`. */
    constructor (socketsOpen: bool)
      ensures this.socketsOpen == socketsOpen
      ensures commandQueue == [] && sent == [] && delivered == [] && !quitRequested && running
    {
      this.socketsOpen := socketsOpen;
      commandQueue := [];
      sent := [];
      delivered := [];
      quitRequested := false;
      running := true;
    }

    /** `send_axis_data`: queues exactly one AXIS command. */
    method SendAxisData(py: PyNumbers, axes: Dict<string, real>)
      modifies this`commandQueue
      ensures commandQueue == old(commandQueue) + [AxisCommand(py, axes)]
    {
      var payload := Join(AxisPieces(py, axes), ',');
      commandQueue := commandQueue + ["AXIS:" + payload];
    }

    /** `set_override`: queues exactly one OVERRIDE command. */
    method SetOverride(kind: string, enabled: bool)
      modifies this`commandQueue
      ensures commandQueue == old(commandQueue) + [OverrideCommand(kind, enabled)]
    {
      commandQueue := commandQueue + ["OVERRIDE:" + kind + "=" + BoolText(enabled)];
    }

    /** `subscribe_dataref`: queues exactly one SUBSCRIBE command. */
    method SubscribeDataref(py: PyNumbers, dataref: string, kind: string, tag: string, precision: int, conversion: real)
      modifies this`commandQueue
      ensures commandQueue == old(commandQueue) + [SubscribeCommand(py, dataref, kind, tag, precision, conversion)]
    {
      var payload := Join(SubscribePieces(py, dataref, kind, tag, precision, conversion), ',');
      commandQueue := commandQueue + ["SUBSCRIBE:" + payload];
    }

    /** `_send_command`: the datagram goes out only when the sockets exist. */
    method SendCommand(command: string)
      modifies this`sent
      ensures sent == old(sent) + (if socketsOpen then [command] else [])
    {
      if socketsOpen {
        sent := sent + [command];
      }
    }

    /** The drain at the top of `run`: every queued command is sent, oldest first. */
    method DrainQueue()
      modifies this`commandQueue, this`sent
      ensures commandQueue == []
      ensures sent == old(sent) + (if socketsOpen then old(commandQueue) else [])
    {
      while commandQueue != []
        invariant socketsOpen ==> old(sent) + old(commandQueue) == sent + commandQueue
        invariant !socketsOpen ==> sent == old(sent)
        invariant |commandQueue| <= |old(commandQueue)|
        invariant commandQueue == old(commandQueue)[|old(commandQueue)| - |commandQueue|..]
        decreases |commandQueue|
      {
        var command := commandQueue[0];
        commandQueue := commandQueue[1..];
        SendCommand(command);
      }
    }

    /**
     * One pass of the `run` loop as written. Without sockets the loop calls `time.sleep`, but
     * the module imports `time` only when run as a script, so the NameError ends the thread.
     */
    method RunOnceAsWritten(py: PyNumbers, datagram: Option<string>)
      requires running && !quitRequested
      modifies this`commandQueue, this`sent, this`delivered, this`running
      ensures running <==> socketsOpen
      ensures !socketsOpen ==> commandQueue == old(commandQueue) && sent == old(sent) && delivered == old(delivered)
      ensures socketsOpen ==> commandQueue == [] && sent == old(sent) + old(commandQueue)
      ensures socketsOpen ==>
        delivered == old(delivered) + (if datagram.Some? && ParseTelemetry(py, datagram.value) != [] then [ParseTelemetry(py, datagram.value)] else [])
    {
      if !socketsOpen {
        running := false;
        return;
      }
      RunOnce(py, datagram);
    }

    /**
     * One pass of the `run` loop as intended: without sockets it idles and the thread lives on;
     * otherwise it drains the queue, then receives (`None` is a receive timeout) and hands a
     * non-empty parse to the callback.
     */
    method RunOnce(py: PyNumbers, datagram: Option<string>)
      requires running && !quitRequested
      modifies this`commandQueue, this`sent, this`delivered
      ensures !socketsOpen ==> commandQueue == old(commandQueue) && sent == old(sent) && delivered == old(delivered)
      ensures socketsOpen ==> commandQueue == [] && sent == old(sent) + old(commandQueue)
      ensures socketsOpen ==>
        delivered == old(delivered) + (if datagram.Some? && ParseTelemetry(py, datagram.value) != [] then [ParseTelemetry(py, datagram.value)] else [])
    {
      if !socketsOpen {
        return;
      }
      DrainQueue();
      if datagram.Some? {
        var telemetry := ParseTelemetry(py, datagram.value);
        if telemetry != [] {
          delivered := delivered + [telemetry];
        }
      }
    }

    /** `quit`: the loop ends at its next test. */
    method Quit()
      modifies this`quitRequested
      ensures quitRequested
    {
      quitRequested := true;
    }
  }

  /** A manager whose sockets failed loses its thread on the first pass of the loop as written. */
  method NoSocketsEndsThread(py: PyNumbers) returns (alive: bool)
    ensures !alive
  {
    var m := new Manager(false);
    m.RunOnceAsWritten(py, None);
    alive := m.running;
  }

  /** The intended pass keeps the thread of a manager without sockets alive, sending nothing. */
  method NoSocketsIdles(py: PyNumbers) returns (alive: bool, sent: seq<string>)
    ensures alive && sent == []
  {
    var m := new Manager(false);
    m.SetOverride("joystick", true);
    m.RunOnce(py, None);
    alive := m.running;
    sent := m.sent;
  }
}
