/** Device executors ("controls"): configuration by `Init`, and `DoTask`, a
    decision table from a task's capability and action to a result
    (UUVControl.cpp, DepthSensorControl.cpp, FlowSensorControl.cpp and the
    wind-sensor control in my_control/demo/wind_sensor/WindSensorDevice.cpp).
    The simulated latency sleep is gone; the random sensor readings are an
    input; the clock readings that stamp a result are inputs. */
module Controls {
  import opened Wrappers
  import opened Json
  import opened Tasks
  import opened TaskResults
  import Error

  datatype ControlKind = UuvControl | DepthSensorControl | FlowSensorControl | WindSensorControl

  /** The configuration keys holding a `double`, read by `Init` and then used
      only to draw random readings. */
  function DoubleKeys(kind: ControlKind): seq<string>
  {
    match kind
    case UuvControl => []
    case DepthSensorControl => ["depth_base_m", "depth_noise_m"]
    case FlowSensorControl => ["flow_base_mps", "flow_noise_mps"]
    case WindSensorControl => ["vx_base", "vy_base", "vz_base", "noise"]
  }

  function DefaultDeviceName(kind: ControlKind): string
  {
    match kind
    case UuvControl => "uuv-demo"
    case DepthSensorControl => "depth-sensor-demo"
    case FlowSensorControl => "flow-sensor-demo"
    case WindSensorControl => "split-speed-sensor-demo"
  }

  function DefaultLatencyMs(kind: ControlKind): Int32
  {
    match kind
    case UuvControl => 200
    case _ => 50
  }

  /** The first of `keys` whose stored value would make `value()` throw. */
  function FirstRejected(cfg: Json, keys: seq<string>): (e: Option<TypeError>)
    ensures e.None? <==> forall i :: 0 <= i < |keys| ==> ValueDoubleAccepted(cfg, keys[i]).None?
    decreases |keys|
  {
    if keys == [] then None
    else match ValueDoubleAccepted(cfg, keys[0])
      case Some(err) => Some(err)
      case None => FirstRejected(cfg, keys[1..])
  }

  /** What `Init` leaves behind: the name and latency it has assigned so far,
      and the type error that stopped it, if any. Assignments made before the
      throwing lookup stay in place. */
  datatype ConfigOutcome = ConfigOutcome(deviceName: string, simulateLatencyMs: Int32, error: Option<TypeError>)

  function Configure(kind: ControlKind, cfg: Json, name: string, latencyMs: Int32): ConfigOutcome
  {
    match ValueString(cfg, "device_name", name)
    case Failure(e) => ConfigOutcome(name, latencyMs, Some(e))
    case Success(n) =>
      match ValueInt(cfg, "simulate_latency_ms", latencyMs)
      case Failure(e) => ConfigOutcome(n, latencyMs, Some(e))
      case Success(l) => ConfigOutcome(n, l, FirstRejected(cfg, DoubleKeys(kind)))
  }

  /** A key's stored value is acceptable to `value()` for the given use. */
  predicate StringOrAbsent(cfg: Json, key: string)
    requires cfg.Obj?
  {
    key !in cfg.fields || cfg.fields[key].Str?
  }

  predicate NumberOrAbsent(cfg: Json, key: string)
    requires cfg.Obj?
  {
    key !in cfg.fields || AsNumber(cfg.fields[key]).Some?
  }

  /** Init succeeds exactly for an object whose present keys all have usable
      types; absent keys keep the current values. */
  lemma ConfigureSucceeds(kind: ControlKind, cfg: Json, name: string, latencyMs: Int32)
    ensures Configure(kind, cfg, name, latencyMs).error.None? <==>
      cfg.Obj? && StringOrAbsent(cfg, "device_name") && NumberOrAbsent(cfg, "simulate_latency_ms") &&
      forall i :: 0 <= i < |DoubleKeys(kind)| ==> NumberOrAbsent(cfg, DoubleKeys(kind)[i])
    ensures cfg.Obj? && "device_name" !in cfg.fields ==> Configure(kind, cfg, name, latencyMs).deviceName == name
    ensures cfg.Obj? && "simulate_latency_ms" !in cfg.fields ==>
      Configure(kind, cfg, name, latencyMs).simulateLatencyMs == latencyMs
  {
    var ks := DoubleKeys(kind);
    if cfg.Obj? {
      assert forall i :: 0 <= i < |ks| ==> (ValueDoubleAccepted(cfg, ks[i]).None? <==> NumberOrAbsent(cfg, ks[i]));
    }
  }

  /** Error text of a caught `type_error` (the library's own wording is not
      modelled, only that there is one). */
  function Describe(e: TypeError): (text: string)
    ensures |text| > 0
  {
    match e
    case NotAnObject => "type_error: cannot use value() with a non-object"
    case WrongType(key) => "type_error: wrong type for key " + key
  }

  /** A control instance: its kind and the two settings it keeps. */
  class Control {
    const kind: ControlKind
    var deviceName: string
    var simulateLatencyMs: Int32

    constructor (kind: ControlKind)
      ensures this.kind == kind
      ensures deviceName == DefaultDeviceName(kind) && simulateLatencyMs == DefaultLatencyMs(kind)
    {
      this.kind := kind;
      deviceName := DefaultDeviceName(kind);
      simulateLatencyMs := DefaultLatencyMs(kind);
    }

    /** `Init(cfg, err)`: reads each key with `value()`; a type error is
        caught and reported as `false` with its text. */
    method Init(cfg: Json) returns (ok: bool, err: string)
      modifies this
      ensures var o := Configure(kind, cfg, old(deviceName), old(simulateLatencyMs));
        deviceName == o.deviceName && simulateLatencyMs == o.simulateLatencyMs &&
        ok == o.error.None? && (!ok ==> err == Describe(o.error.value))
    {
      var o := Configure(kind, cfg, deviceName, simulateLatencyMs);
      deviceName := o.deviceName;
      simulateLatencyMs := o.simulateLatencyMs;
      if o.error.Some? {
        return false, Describe(o.error.value);
      }
      return true, "";
    }
  }

  /** Random readings drawn by the sensor controls, each kept as its value
      truncated toward zero. */
  datatype Readings = Readings(first: int, second: int, third: int)

  /** The UUV executor: empty capability or action is rejected before any
      dispatch; then navigate/set, navigate/stop and sample_water/start
      succeed, estop yields EStop, and everything else is InvalidCommand. */
  function UuvDoTask(t: Task, startedAt: Int64, finishedAt: Int64): (r: TaskResult)
    ensures r.startedAtMs == startedAt && r.finishedAtMs == finishedAt
    ensures t.capability == "" || t.action == "" ==>
      r.code == Error.InvalidCommand && r.message == "capability/action is empty"
    ensures r.code == Error.Ok <==>
      (t.capability == "navigate" && t.action in {"set", "stop"}) || (t.capability == "sample_water" && t.action == "start")
    ensures r.code == Error.EStop <==> t.capability == "estop" && t.action != ""
    ensures r.code in {Error.Ok, Error.InvalidCommand, Error.EStop}
    ensures r.code != Error.Ok ==> r.output == EmptyObject
    ensures t.capability == "navigate" && t.action == "set" ==> r.output == Obj(map["accepted" := Bool(true)])
    ensures t.capability == "navigate" && t.action == "stop" ==> r.output == Obj(map["stopped" := Bool(true)])
    ensures t.capability == "sample_water" && t.action == "start" ==> r.output == Obj(map["sample_id" := Str("demo-001")])
  {
    var r := TaskResults.Default.(startedAtMs := startedAt, finishedAtMs := finishedAt);
    if t.capability == "" || t.action == "" then
      r.(code := Error.InvalidCommand, message := "capability/action is empty")
    else if t.capability == "navigate" then
      if t.action == "set" then
        r.(code := Error.Ok, message := "navigate set ok", output := Obj(map["accepted" := Bool(true)]))
      else if t.action == "stop" then
        r.(code := Error.Ok, message := "navigate stop ok", output := Obj(map["stopped" := Bool(true)]))
      else
        r.(code := Error.InvalidCommand, message := "unknown action for navigate")
    else if t.capability == "sample_water" then
      if t.action == "start" then
        r.(code := Error.Ok, message := "sample start ok", output := Obj(map["sample_id" := Str("demo-001")]))
      else
        r.(code := Error.InvalidCommand, message := "unknown action for sample_water")
    else if t.capability == "estop" then
      r.(code := Error.EStop, message := "estop requested")
    else
      r.(code := Error.InvalidCommand, message := "unknown capability")
  }

  /** The depth executor: only water_depth is served; read and calibrate
      succeed, any other action is rejected with the action in the message. */
  function DepthDoTask(t: Task, startedAt: Int64, finishedAt: Int64, readings: Readings): (r: TaskResult)
    ensures r.startedAtMs == startedAt && r.finishedAtMs == finishedAt
    ensures t.capability != "water_depth" ==>
      r.code == Error.InvalidCommand && r.message == "unsupported capability for depth sensor: " + t.capability
    ensures r.code == Error.Ok <==> t.capability == "water_depth" && t.action in {"read", "calibrate"}
    ensures r.code in {Error.Ok, Error.InvalidCommand}
    ensures t.capability == "water_depth" && t.action == "read" ==>
      r.output.Obj? && r.output.fields.Keys == {"depth_m", "unit"} && r.output.fields["unit"] == Str("m")
    ensures t.capability == "water_depth" && t.action == "calibrate" ==>
      r.output == Obj(map["calibrated" := Bool(true)])
    ensures t.capability == "water_depth" && !(t.action in {"read", "calibrate"}) ==>
      r.message == "unknown action for water_depth: " + t.action && r.output == EmptyObject
  {
    var r := TaskResults.Default.(startedAtMs := startedAt, finishedAtMs := finishedAt);
    if t.capability != "water_depth" then
      r.(code := Error.InvalidCommand, message := "unsupported capability for depth sensor: " + t.capability)
    else if t.action == "read" then
      r.(code := Error.Ok, message := "depth read ok",
         output := Obj(map["depth_m" := Float(readings.first), "unit" := Str("m")]))
    else if t.action == "calibrate" then
      r.(code := Error.Ok, message := "calibrate ok", output := Obj(map["calibrated" := Bool(true)]))
    else
      r.(code := Error.InvalidCommand, message := "unknown action for water_depth: " + t.action)
  }

  /** The flow executor: only flow_speed/read succeeds. */
  function FlowDoTask(t: Task, startedAt: Int64, finishedAt: Int64, readings: Readings): (r: TaskResult)
    ensures r.startedAtMs == startedAt && r.finishedAtMs == finishedAt
    ensures t.capability != "flow_speed" ==>
      r.code == Error.InvalidCommand && r.message == "unsupported capability for flow sensor: " + t.capability
    ensures r.code == Error.Ok <==> t.capability == "flow_speed" && t.action == "read"
    ensures r.code in {Error.Ok, Error.InvalidCommand}
    ensures r.code == Error.Ok ==>
      r.output.Obj? && r.output.fields.Keys == {"flow_mps", "unit"} && r.output.fields["unit"] == Str("m/s")
    ensures t.capability == "flow_speed" && t.action != "read" ==>
      r.message == "unknown action for flow_speed: " + t.action && r.output == EmptyObject
  {
    var r := TaskResults.Default.(startedAtMs := startedAt, finishedAtMs := finishedAt);
    if t.capability != "flow_speed" then
      r.(code := Error.InvalidCommand, message := "unsupported capability for flow sensor: " + t.capability)
    else if t.action == "read" then
      r.(code := Error.Ok, message := "flow read ok",
         output := Obj(map["flow_mps" := Float(readings.first), "unit" := Str("m/s")]))
    else
      r.(code := Error.InvalidCommand, message := "unknown action for flow_speed: " + t.action)
  }

  /** The wind executor: only wind/read succeeds, with three velocity
      components. */
  function WindDoTask(t: Task, startedAt: Int64, finishedAt: Int64, readings: Readings): (r: TaskResult)
    ensures r.startedAtMs == startedAt && r.finishedAtMs == finishedAt
    ensures t.capability != "wind" ==>
      r.code == Error.InvalidCommand && r.message == "unsupported capability for split speed sensor: " + t.capability
    ensures r.code == Error.Ok <==> t.capability == "wind" && t.action == "read"
    ensures r.code in {Error.Ok, Error.InvalidCommand}
    ensures r.code == Error.Ok ==>
      r.output.Obj? && r.output.fields.Keys == {"vx", "vy", "vz", "unit"} && r.output.fields["unit"] == Str("m/s")
    ensures t.capability == "wind" && t.action != "read" ==>
      r.message == "unknown action for wind: " + t.action && r.output == EmptyObject
  {
    var r := TaskResults.Default.(startedAtMs := startedAt, finishedAtMs := finishedAt);
    if t.capability != "wind" then
      r.(code := Error.InvalidCommand, message := "unsupported capability for split speed sensor: " + t.capability)
    else if t.action == "read" then
      r.(code := Error.Ok, message := "split speed read ok",
         output := Obj(map["vx" := Float(readings.first), "vy" := Float(readings.second),
                           "vz" := Float(readings.third), "unit" := Str("m/s")]))
    else
      r.(code := Error.InvalidCommand, message := "unknown action for wind: " + t.action)
  }

  /** `IControl::DoTask` dispatched on the control's kind. */
  function DoTask(kind: ControlKind, t: Task, startedAt: Int64, finishedAt: Int64, readings: Readings): (r: TaskResult)
    ensures r.startedAtMs == startedAt && r.finishedAtMs == finishedAt
    ensures r.output.Obj? && (r.code != Error.Ok ==> r.message != "")
  {
    match kind
    case UuvControl => UuvDoTask(t, startedAt, finishedAt)
    case DepthSensorControl => DepthDoTask(t, startedAt, finishedAt, readings)
    case FlowSensorControl => FlowDoTask(t, startedAt, finishedAt, readings)
    case WindSensorControl => WindDoTask(t, startedAt, finishedAt, readings)
  }

  /** Every executor's result has an object as output, so it survives
      serialisation unchanged, and a failure always carries a message. */
  lemma DoTaskResultSerialisable(kind: ControlKind, t: Task, startedAt: Int64, finishedAt: Int64, readings: Readings)
    ensures var r := DoTask(kind, t, startedAt, finishedAt, readings);
      TaskResults.FromJson(TaskResults.ToJson(r)) == r && (r.code != Error.Ok ==> r.message != "")
  {
    TaskResults.RoundTrip(DoTask(kind, t, startedAt, finishedAt, readings));
  }
}
