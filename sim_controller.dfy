/**
 * `SimulatorController` (fsffb/hardware/simulator_controller.py): forwards stick positions and
 * override switches to whichever telemetry manager is active. On MSFS the positions become
 * SimConnect events scaled to the range of a signed 16-bit axis and truncated toward zero.
 */
module SimController {
  import opened Wrappers
  import opened Dict
  import MsfsManager
  import XPlaneManager

  /** The manager handed to the controller; `Unsupported` stands for any other object. */
  datatype Active = Msfs(m: MsfsManager.Manager) | XPlane(x: XPlaneManager.Manager) | Unsupported

  /** A controller: it never changes which manager it drives. */
  datatype Controller = Controller(active: Active)

  /** `SimulatorController(active_manager)`: a TypeError unless the manager is one of the two. */
  function NewController(active: Active): (r: Result<Controller>)
    ensures r.Ok? <==> active.Msfs? || active.XPlane?
    ensures r.Ok? ==> r.value.active == active
    ensures r.Err? ==> r.error == "TypeError: active_manager must be an instance of MSFSManager or XPlaneManager"
  {
    if active.Unsupported? then Err("TypeError: active_manager must be an instance of MSFSManager or XPlaneManager")
    else Ok(Controller(active))
  }

  /** The full deflection `send_axis_data` scales a unit axis to. */
  const AxisScale: int := 16383

  /** Python's `int(x)` for a float: truncation toward zero. */
  function Trunc(x: real): (n: int)
    ensures x >= 0.0 ==> n == x.Floor
    ensures x < 0.0 ==> n == -((-x).Floor)
  {
    if x >= 0.0 then x.Floor else -((-x).Floor)
  }

  /** Truncation moves toward zero by less than one and never changes the sign. */
  lemma TruncTowardZero(x: real)
    ensures x >= 0.0 ==> 0 <= Trunc(x) && Trunc(x) as real <= x < Trunc(x) as real + 1.0
    ensures x < 0.0 ==> Trunc(x) <= 0 && Trunc(x) as real - 1.0 < x <= Trunc(x) as real
    ensures Trunc(-x) == -Trunc(x)
  {
  }

  /** The event value for a stick position. */
  function AxisValue(pos: real): int {
    Trunc(pos * AxisScale as real)
  }

  /** A stick position in [-1, 1] gives a value in [-16383, 16383]. */
  lemma AxisValueRange(pos: real)
    requires -1.0 <= pos <= 1.0
    ensures -AxisScale <= AxisValue(pos) <= AxisScale
    ensures pos == 1.0 ==> AxisValue(pos) == AxisScale
    ensures pos == -1.0 ==> AxisValue(pos) == -AxisScale
    ensures pos == 0.0 ==> AxisValue(pos) == 0
  {
    TruncTowardZero(pos * AxisScale as real);
  }

  /**
   * The events MSFS receives for an axes dictionary: the roll axis `jx` as AILERON_SET, then
   * the pitch axis `jy` as ELEVATOR_SET, each only when present; no other axis is sent.
   */
  function AxisEvents(axes: Dict<string, real>): (events: seq<(string, int)>)
    ensures |events| == (if HasKey(axes, "jx") then 1 else 0) + (if HasKey(axes, "jy") then 1 else 0)
    ensures forall i :: 0 <= i < |events| ==> events[i].0 == "AILERON_SET" || events[i].0 == "ELEVATOR_SET"
    ensures HasKey(axes, "jx") ==> events[0] == ("AILERON_SET", AxisValue(Get(axes, "jx")))
    ensures HasKey(axes, "jy") ==> events[|events| - 1] == ("ELEVATOR_SET", AxisValue(Get(axes, "jy")))
  {
    (if HasKey(axes, "jx") then [("AILERON_SET", AxisValue(Get(axes, "jx")))] else []) +
    (if HasKey(axes, "jy") then [("ELEVATOR_SET", AxisValue(Get(axes, "jy")))] else [])
  }

  /** The manager object a controller's calls can change. */
  function Targets(c: Controller): set<object> {
    match c.active
    case Msfs(m) => {m}
    case XPlane(x) => {x}
    case Unsupported => {}
  }

  /**
   * `send_axis_data`: nothing for `None`; X-Plane queues the dictionary as one AXIS command;
   * MSFS queues the aileron and elevator events.
   */
  method SendAxisData(c: Controller, py: XPlaneManager.PyNumbers, axes: Option<Dict<string, real>>)
    modifies Targets(c)
    ensures axes.None? ==> unchanged(Targets(c))
    ensures c.active.XPlane? ==>
      c.active.x.commandQueue == old(c.active.x.commandQueue) + (if axes.Some? then [XPlaneManager.AxisCommand(py, axes.value)] else [])
    ensures c.active.Msfs? ==>
      c.active.m.eventsToSend == old(c.active.m.eventsToSend) + (if axes.Some? then AxisEvents(axes.value) else [])
    ensures c.active.XPlane? ==> unchanged(c.active.x`sent, c.active.x`delivered, c.active.x`socketsOpen)
    ensures c.active.Msfs? ==> unchanged(c.active.m`simdatumsToSend, c.active.m`sentEvents)
  {
    if axes.None? {
      return;
    }
    match c.active
    case XPlane(x) =>
      x.SendAxisData(py, axes.value);
    case Msfs(m) =>
      var a := axes.value;
      if HasKey(a, "jx") {
        m.SendEvent("AILERON_SET", AxisValue(Get(a, "jx")));
      }
      if HasKey(a, "jy") {
        m.SendEvent("ELEVATOR_SET", AxisValue(Get(a, "jy")));
      }
    case Unsupported =>
  }

  /** `set_override`: forwarded to X-Plane; ignored on MSFS. */
  method SetOverride(c: Controller, kind: string, enabled: bool)
    modifies Targets(c)
    ensures c.active.XPlane? ==>
      c.active.x.commandQueue == old(c.active.x.commandQueue) + [XPlaneManager.OverrideCommand(kind, enabled)]
    ensures c.active.Msfs? ==> unchanged(c.active.m)
  {
    match c.active
    case XPlane(x) =>
      x.SetOverride(kind, enabled);
    case Msfs(m) =>
    case Unsupported =>
  }
}
