/** Device and edge status snapshots, the records the heartbeat publishes
    (Status.h / Status.cpp). */
module Status {
  import opened Wrappers
  import opened Json
  import opened JsonUtil

  /** The three status enumerations are `enum class ... : int`; any int is a
      value of each type. */
  newtype DeviceConnState = s: int | -0x8000_0000 <= s < 0x8000_0000
  newtype DeviceWorkState = s: int | -0x8000_0000 <= s < 0x8000_0000
  newtype EdgeRunState = s: int | -0x8000_0000 <= s < 0x8000_0000

  const Unknown: DeviceConnState := 0
  const Online: DeviceConnState := 1
  const Offline: DeviceConnState := 2

  const Idle: DeviceWorkState := 0
  const Busy: DeviceWorkState := 1
  const Faulted: DeviceWorkState := 2

  const Initializing: EdgeRunState := 0
  const Running: EdgeRunState := 1
  const EStop: EdgeRunState := 2
  const Degraded: EdgeRunState := 3

  function ConnStateToString(s: DeviceConnState): (name: string)
    ensures |name| > 0
  {
    match s
    case 0 => "Unknown"
    case 1 => "Online"
    case 2 => "Offline"
    case _ => "UnknownDeviceConnState"
  }

  function WorkStateToString(s: DeviceWorkState): (name: string)
    ensures |name| > 0
  {
    match s
    case 0 => "Idle"
    case 1 => "Busy"
    case 2 => "Faulted"
    case _ => "UnknownDeviceWorkState"
  }

  function RunStateToString(s: EdgeRunState): (name: string)
    ensures |name| > 0
  {
    match s
    case 0 => "Initializing"
    case 1 => "Running"
    case 2 => "EStop"
    case 3 => "Degraded"
    case _ => "UnknownEdgeRunState"
  }

  /** Each table names its enumerators distinctly, and its "Unknown..."
      fallback belongs to exactly the values outside the enumeration. */
  lemma StateNamesDistinct(c1: DeviceConnState, c2: DeviceConnState, w1: DeviceWorkState, w2: DeviceWorkState,
                           r1: EdgeRunState, r2: EdgeRunState)
    ensures 0 <= c1 <= 2 && 0 <= c2 <= 2 && c1 != c2 ==> ConnStateToString(c1) != ConnStateToString(c2)
    ensures ConnStateToString(c1) == "UnknownDeviceConnState" <==> !(0 <= c1 <= 2)
    ensures 0 <= w1 <= 2 && 0 <= w2 <= 2 && w1 != w2 ==> WorkStateToString(w1) != WorkStateToString(w2)
    ensures WorkStateToString(w1) == "UnknownDeviceWorkState" <==> !(0 <= w1 <= 2)
    ensures 0 <= r1 <= 3 && 0 <= r2 <= 3 && r1 != r2 ==> RunStateToString(r1) != RunStateToString(r2)
    ensures RunStateToString(r1) == "UnknownEdgeRunState" <==> !(0 <= r1 <= 3)
  {
  }

  datatype DeviceStatus = DeviceStatus(
    deviceId: string,
    connState: DeviceConnState,
    workState: DeviceWorkState,
    runningTaskId: string,
    lastTaskAtMs: Int64,
    lastSeenAtMs: Int64,
    lastError: string,
    queueDepth: Int64)

  const DefaultDevice: DeviceStatus := DeviceStatus("", Unknown, Idle, "", 0, 0, "", 0)

  function DeviceToJson(s: DeviceStatus): (j: Json)
    ensures j.Obj?
  {
    Obj(map[
      "device_id" := Str(s.deviceId),
      "conn_state" := Int(s.connState as int),
      "work_state" := Int(s.workState as int),
      "running_task_id" := Str(s.runningTaskId),
      "last_task_at_ms" := Int(s.lastTaskAtMs),
      "last_seen_at_ms" := Int(s.lastSeenAtMs),
      "last_error" := Str(s.lastError),
      "queue_depth" := Int(s.queueDepth)])
  }

  /** Every field defaults when absent or mistyped; the enumerations default
      to 0, that is Unknown and Idle. */
  function DeviceFromJson(j: Json): (s: DeviceStatus)
    ensures !j.Obj? ==> s == DefaultDevice
  {
    DeviceStatus(
      GetStringOr(j, Key("device_id"), ""),
      GetIntOr(j, Key("conn_state"), 0) as DeviceConnState,
      GetIntOr(j, Key("work_state"), 0) as DeviceWorkState,
      GetStringOr(j, Key("running_task_id"), ""),
      GetInt64Or(j, Key("last_task_at_ms"), 0),
      GetInt64Or(j, Key("last_seen_at_ms"), 0),
      GetStringOr(j, Key("last_error"), ""),
      GetInt64Or(j, Key("queue_depth"), 0))
  }

  lemma DeviceStringFieldsRoundTrip(s: DeviceStatus)
    ensures DeviceFromJson(DeviceToJson(s)).deviceId == s.deviceId
    ensures DeviceFromJson(DeviceToJson(s)).runningTaskId == s.runningTaskId
    ensures DeviceFromJson(DeviceToJson(s)).lastError == s.lastError
  {
    var j := DeviceToJson(s);
    ReadString(j, "device_id", s.deviceId, "");
    ReadString(j, "running_task_id", s.runningTaskId, "");
    ReadString(j, "last_error", s.lastError, "");
  }

  lemma DeviceNumberFieldsRoundTrip(s: DeviceStatus)
    ensures DeviceFromJson(DeviceToJson(s)).connState == s.connState
    ensures DeviceFromJson(DeviceToJson(s)).workState == s.workState
    ensures DeviceFromJson(DeviceToJson(s)).lastTaskAtMs == s.lastTaskAtMs
    ensures DeviceFromJson(DeviceToJson(s)).lastSeenAtMs == s.lastSeenAtMs
    ensures DeviceFromJson(DeviceToJson(s)).queueDepth == s.queueDepth
  {
    var j := DeviceToJson(s);
    ReadInt(j, "conn_state", s.connState as int, 0);
    ReadInt(j, "work_state", s.workState as int, 0);
    ReadInt64(j, "last_task_at_ms", s.lastTaskAtMs, 0);
    ReadInt64(j, "last_seen_at_ms", s.lastSeenAtMs, 0);
    ReadInt64(j, "queue_depth", s.queueDepth, 0);
  }

  /** Every device status survives serialisation unchanged. */
  lemma DeviceRoundTrip(s: DeviceStatus)
    ensures DeviceFromJson(DeviceToJson(s)) == s
  {
    DeviceStringFieldsRoundTrip(s);
    DeviceNumberFieldsRoundTrip(s);
  }

  datatype EdgeStatus = EdgeStatus(
    edgeId: string,
    runState: EdgeRunState,
    bootAtMs: Int64,
    lastHeartbeatAtMs: Int64,
    estopActive: bool,
    estopReason: string,
    devices: map<string, DeviceStatus>,
    tasksPendingTotal: Int64,
    tasksRunningTotal: Int64,
    version: string)

  const DefaultVersion: string := "0.1.0"

  const DefaultEdge: EdgeStatus := EdgeStatus("", Initializing, 0, 0, false, "", map[], 0, 0, DefaultVersion)

  /** The devices object: one serialised status per device id. */
  function DevicesToJson(devices: map<string, DeviceStatus>): (j: Json)
    ensures j.Obj? && j.fields.Keys == devices.Keys
    ensures forall id :: id in devices ==> j.fields[id] == DeviceToJson(devices[id])
  {
    Obj(map id | id in devices :: DeviceToJson(devices[id]))
  }

  function EdgeToJson(s: EdgeStatus): (j: Json)
    ensures j.Obj?
  {
    Obj(map[
      "edge_id" := Str(s.edgeId),
      "run_state" := Int(s.runState as int),
      "boot_at_ms" := Int(s.bootAtMs),
      "last_heartbeat_at_ms" := Int(s.lastHeartbeatAtMs),
      "estop_active" := Bool(s.estopActive),
      "estop_reason" := Str(s.estopReason),
      "tasks_pending_total" := Int(s.tasksPendingTotal),
      "tasks_running_total" := Int(s.tasksRunningTotal),
      "version" := Str(s.version),
      "devices" := DevicesToJson(s.devices)])
  }

  /** The devices read back from a stored "devices" value: only object-valued
      entries of an object, keyed by their JSON key. */
  function DevicesFromJson(d: Json): (devices: map<string, DeviceStatus>)
    ensures d.Obj? ==> devices.Keys == set id | id in d.fields && d.fields[id].Obj?
    ensures !d.Obj? ==> devices == map[]
  {
    if d.Obj? then map id | id in d.fields && d.fields[id].Obj? :: DeviceFromJson(d.fields[id])
    else map[]
  }

  /** Defaults for absent or mistyped fields; `estop_active` is taken only
      from a JSON boolean, and `version` defaults to "0.1.0". */
  function EdgeFromJson(j: Json): (s: EdgeStatus)
    ensures !j.Obj? ==> s == DefaultEdge
    ensures s.estopActive <==> Find(j, "estop_active") == Some(Bool(true))
  {
    EdgeStatus(
      GetStringOr(j, Key("edge_id"), ""),
      GetIntOr(j, Key("run_state"), 0) as EdgeRunState,
      GetInt64Or(j, Key("boot_at_ms"), 0),
      GetInt64Or(j, Key("last_heartbeat_at_ms"), 0),
      match Find(j, "estop_active") case Some(v) => v.Bool? && v.b case None => false,
      GetStringOr(j, Key("estop_reason"), ""),
      match Find(j, "devices") case Some(d) => DevicesFromJson(d) case None => map[],
      GetInt64Or(j, Key("tasks_pending_total"), 0),
      GetInt64Or(j, Key("tasks_running_total"), 0),
      GetStringOr(j, Key("version"), DefaultVersion))
  }

  /** Writing a devices map and reading it back gives the same map. */
  lemma DevicesRoundTrip(devices: map<string, DeviceStatus>)
    ensures DevicesFromJson(DevicesToJson(devices)) == devices
  {
    var back := DevicesFromJson(DevicesToJson(devices));
    forall id | id in devices
      ensures back[id] == devices[id]
    {
      DeviceRoundTrip(devices[id]);
    }
  }

  lemma EdgeScalarFieldsRoundTrip(s: EdgeStatus)
    ensures EdgeFromJson(EdgeToJson(s)).edgeId == s.edgeId
    ensures EdgeFromJson(EdgeToJson(s)).runState == s.runState
    ensures EdgeFromJson(EdgeToJson(s)).bootAtMs == s.bootAtMs
    ensures EdgeFromJson(EdgeToJson(s)).lastHeartbeatAtMs == s.lastHeartbeatAtMs
    ensures EdgeFromJson(EdgeToJson(s)).estopActive == s.estopActive
  {
    var j := EdgeToJson(s);
    ReadString(j, "edge_id", s.edgeId, "");
    ReadInt(j, "run_state", s.runState as int, 0);
    ReadInt64(j, "boot_at_ms", s.bootAtMs, 0);
    ReadInt64(j, "last_heartbeat_at_ms", s.lastHeartbeatAtMs, 0);
    assert j.fields["estop_active"] == Bool(s.estopActive);
  }

  lemma EdgeTotalFieldsRoundTrip(s: EdgeStatus)
    ensures EdgeFromJson(EdgeToJson(s)).estopReason == s.estopReason
    ensures EdgeFromJson(EdgeToJson(s)).tasksPendingTotal == s.tasksPendingTotal
    ensures EdgeFromJson(EdgeToJson(s)).tasksRunningTotal == s.tasksRunningTotal
    ensures EdgeFromJson(EdgeToJson(s)).version == s.version
    ensures EdgeFromJson(EdgeToJson(s)).devices == s.devices
  {
    var j := EdgeToJson(s);
    ReadString(j, "estop_reason", s.estopReason, "");
    ReadInt64(j, "tasks_pending_total", s.tasksPendingTotal, 0);
    ReadInt64(j, "tasks_running_total", s.tasksRunningTotal, 0);
    ReadString(j, "version", s.version, DefaultVersion);
    assert j.fields["devices"] == DevicesToJson(s.devices);
    DevicesRoundTrip(s.devices);
  }

  /** Every edge status survives serialisation unchanged, including the
      device map and its keys. */
  lemma EdgeRoundTrip(s: EdgeStatus)
    ensures EdgeFromJson(EdgeToJson(s)) == s
  {
    EdgeScalarFieldsRoundTrip(s);
    EdgeTotalFieldsRoundTrip(s);
  }

  /** Only object-valued entries under "devices" are restored, each keyed by
      its JSON key and parsed from that entry. */
  lemma EdgeFromJsonDevices(j: Json)
    requires Find(j, "devices").Some? && Find(j, "devices").value.Obj?
    ensures var d := Find(j, "devices").value.fields;
      EdgeFromJson(j).devices.Keys == (set id | id in d && d[id].Obj?) &&
      forall id :: id in EdgeFromJson(j).devices ==> EdgeFromJson(j).devices[id] == DeviceFromJson(d[id])
  {
  }
}
