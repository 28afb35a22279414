/** The decision rules of the UUV edge runtime (UUVEdge.cpp), as functions
    over values: the run states and their reported form, the order in which
    Submit rejects a command, the per-item checks Init performs on the
    configured devices, and the sum behind the pending-task total. The
    `UuvEdge` class in module Edges is proved against these. */
module EdgeRules {
  import opened Wrappers
  import opened Json
  import opened JsonUtil
  import opened RawCommands
  import opened Tasks
  import opened Ids
  import MyControl
  import MyDevice
  import Controls
  import Devices
  import Normalizers
  import Status

  datatype RunState = Initializing | Ready | Running | Stopping | Stopped

  function RunStateName(s: RunState): (name: string)
    ensures |name| > 0
  {
    match s
    case Initializing => "Initializing"
    case Ready => "Ready"
    case Running => "Running"
    case Stopping => "Stopping"
    case Stopped => "Stopped"
  }

  /** The run state as the status snapshot reports it: not yet started is
      Initializing, a running edge is EStop while the flag is raised, and a
      stopping or stopped edge is Degraded. */
  function ExternalRunState(rs: RunState, estopActive: bool): Status.EdgeRunState
  {
    match rs
    case Initializing => Status.Initializing
    case Ready => Status.Initializing
    case Running => if estopActive then Status.EStop else Status.Running
    case Stopping => Status.Degraded
    case Stopped => Status.Degraded
  }

  /** Each reported state, read back: which internal states produce it. */
  lemma ExternalRunStateMeaning(rs: RunState, estopActive: bool)
    ensures ExternalRunState(rs, estopActive) == Status.Running <==> rs == Running && !estopActive
    ensures ExternalRunState(rs, estopActive) == Status.EStop <==> rs == Running && estopActive
    ensures ExternalRunState(rs, estopActive) == Status.Initializing <==> rs == Initializing || rs == Ready
    ensures ExternalRunState(rs, estopActive) == Status.Degraded <==> rs == Stopping || rs == Stopped
  {
  }

  // ---------------------------------------------------------------- Submit

  datatype SubmitCode = Ok | NotRunning | EStop | InvalidCommand | UnknownDevice | InternalError | QueueShutdown

  datatype SubmitResult = SubmitResult(
    code: SubmitCode,
    message: string,
    edgeId: string,
    deviceId: string,
    commandId: string,
    taskId: string,
    queueSizeAfter: Int64)

  /** `MakeResult`: the edge's id and the command's id are always copied;
      device id, task id and queue size default to empty and zero. */
  function MakeResult(edgeId: string, code: SubmitCode, message: string, cmd: RawCommand,
                      deviceId: string, taskId: string, queueSizeAfter: Int64): SubmitResult
  {
    SubmitResult(code, message, edgeId, deviceId, cmd.commandId, taskId, queueSizeAfter)
  }

  /** What Submit reads of the edge: its identity, run state and E-Stop
      settings, the device-to-type table, the cached normalisers, which
      devices have a queue and which of those queues are shut down. */
  datatype EdgeView = EdgeView(
    edgeId: string,
    runState: RunState,
    estopActive: bool,
    estopReason: string,
    allowQueueWhenEStop: bool,
    deviceTypeById: map<string, string>,
    normalizers: map<string, MyControl.NormalizerKind>,
    queueIds: set<string>,
    shutdownIds: set<string>)

  /** A rejection with its result, or the device whose queue receives the
      normalised task. */
  datatype Decision = Reject(result: SubmitResult) | Accept(deviceId: string, task: Task)

  function EStopMessage(reason: string): (m: string)
    ensures reason != "" ==> m == "estop active: " + reason
    ensures reason == "" ==> m == "estop active"
  {
    if reason == "" then "estop active" else "estop active: " + reason
  }

  /** Submit's checks in their fixed order; the first that fails decides. */
  function Decide(v: EdgeView, cmd: RawCommand, clock: IdClock): (d: Decision)
    ensures d.Reject? ==>
              && d.result.code != Ok && d.result.queueSizeAfter == 0 && d.result.message != ""
              && d.result.edgeId == v.edgeId && d.result.commandId == cmd.commandId
    ensures d.Accept? ==>
              && v.runState == Running && (!v.estopActive || v.allowQueueWhenEStop)
              && d.deviceId == GetStringOr(cmd.payload, Key("device_id"), "")
              && d.deviceId in v.deviceTypeById && v.deviceTypeById[d.deviceId] in v.normalizers
              && d.deviceId in v.queueIds && d.deviceId !in v.shutdownIds
              && d.task.deviceId == d.deviceId
              && Normalizers.Normalised(d.task, cmd, v.edgeId, clock)
  {
    if v.runState != Running then
      Reject(MakeResult(v.edgeId, NotRunning, "edge is not running, run_state=" + RunStateName(v.runState), cmd, "", "", 0))
    else if v.estopActive && !v.allowQueueWhenEStop then
      Reject(MakeResult(v.edgeId, EStop, EStopMessage(v.estopReason), cmd, "", "", 0))
    else if !cmd.payload.Obj? then
      Reject(MakeResult(v.edgeId, InvalidCommand, "payload must be object", cmd, "", "", 0))
    else if GetStringOr(cmd.payload, Key("device_id"), "") == "" then
      Reject(MakeResult(v.edgeId, InvalidCommand, "missing payload.device_id", cmd, "", "", 0))
    else
      Route(v, cmd, clock, GetStringOr(cmd.payload, Key("device_id"), ""))
  }

  /** The checks after the device id is known: the device, its type's
      normaliser, the normalisation, and the device's queue. */
  function Route(v: EdgeView, cmd: RawCommand, clock: IdClock, id: string): (d: Decision)
    requires id == GetStringOr(cmd.payload, Key("device_id"), "")
    ensures d.Reject? ==>
              && d.result.code != Ok && d.result.queueSizeAfter == 0 && d.result.message != ""
              && d.result.edgeId == v.edgeId && d.result.commandId == cmd.commandId
    ensures d.Accept? ==>
              && d.deviceId == id
              && id in v.deviceTypeById && v.deviceTypeById[id] in v.normalizers
              && id in v.queueIds && id !in v.shutdownIds
              && d.task.deviceId == id
              && Normalizers.Normalised(d.task, cmd, v.edgeId, clock)
  {
    if id !in v.deviceTypeById then
      Reject(MakeResult(v.edgeId, UnknownDevice, "unknown device_id=" + id, cmd, id, "", 0))
    else
      var typeName := v.deviceTypeById[id];
      if typeName !in v.normalizers then
        Reject(MakeResult(v.edgeId, InternalError, "normalizer missing for type=" + typeName, cmd, id, "", 0))
      else match MyControl.Normalize(v.normalizers[typeName], cmd, v.edgeId, clock)
        case Failure(nerr) =>
          Reject(MakeResult(v.edgeId, InvalidCommand,
                            if nerr == "" then "normalize failed" else "normalize failed: " + nerr, cmd, id, "", 0))
        case Success(task) =>
          if id !in v.queueIds then
            Reject(MakeResult(v.edgeId, InternalError, "queue missing for device_id=" + id, cmd, id, task.taskId, 0))
          else if id in v.shutdownIds then
            Reject(MakeResult(v.edgeId, QueueShutdown, "queue already shutdown", cmd, id, task.taskId, 0))
          else
            Accept(id, task)
  }

  /** The code Submit reports for a decision. */
  function CodeOf(d: Decision): SubmitCode
  {
    if d.Reject? then d.result.code else Ok
  }

  /** The first checks, each stated with the checks before it passing:
      not running wins over everything, then E-Stop (unless queueing is
      allowed), then a payload that is not an object or names no device,
      then an unknown device. */
  lemma SubmitCheckOrder(v: EdgeView, cmd: RawCommand, clock: IdClock)
    ensures var c := CodeOf(Decide(v, cmd, clock));
      && (c == NotRunning <==> v.runState != Running)
      && (c == EStop <==> v.runState == Running && v.estopActive && !v.allowQueueWhenEStop)
      && ((v.runState == Running && (!v.estopActive || v.allowQueueWhenEStop) &&
           (!cmd.payload.Obj? || GetStringOr(cmd.payload, Key("device_id"), "") == ""))
          ==> c == InvalidCommand)
      && ((v.runState == Running && (!v.estopActive || v.allowQueueWhenEStop) && cmd.payload.Obj? &&
           GetStringOr(cmd.payload, Key("device_id"), "") != "" &&
           GetStringOr(cmd.payload, Key("device_id"), "") !in v.deviceTypeById)
          ==> c == UnknownDevice)
      && (c == QueueShutdown ==> GetStringOr(cmd.payload, Key("device_id"), "") in v.shutdownIds)
  {
  }

  /** The tables a successful Init leaves: every device has a queue and its
      type a normaliser. */
  predicate Complete(v: EdgeView)
  {
    && v.deviceTypeById.Keys <= v.queueIds
    && forall id :: id in v.deviceTypeById ==> v.deviceTypeById[id] in v.normalizers
  }

  /** With complete tables Submit never reports an internal error, and a
      command is accepted exactly when every check passes. */
  lemma CompleteEdgeNeverInternal(v: EdgeView, cmd: RawCommand, clock: IdClock)
    requires Complete(v)
    ensures CodeOf(Decide(v, cmd, clock)) != InternalError
    ensures var id := GetStringOr(cmd.payload, Key("device_id"), "");
      Decide(v, cmd, clock).Accept? <==>
        && v.runState == Running && (!v.estopActive || v.allowQueueWhenEStop)
        && id in v.deviceTypeById && id !in v.shutdownIds
        && MyControl.Normalize(v.normalizers[v.deviceTypeById[id]], cmd, v.edgeId, clock).Success?
  {
  }

  /** The edge configured by the runtime tests: one UUV "uuv-1" with its
      normaliser and an open queue. */
  function TestView(runState: RunState, estopActive: bool, allowQueueWhenEStop: bool): EdgeView
  {
    EdgeView("edge-1", runState, estopActive, if estopActive then "test estop" else "", allowQueueWhenEStop,
             map["uuv-1" := "uuv"], map["uuv" := MyControl.UuvNormalizer], {"uuv-1"}, {})
  }

  function TestCommand(payload: map<string, Json>): RawCommand
  {
    RawCommands.Default.(commandId := "cmd-1", source := "test", receivedAtMs := 1, payload := Obj(payload))
  }

  /** A navigate/set command for the test device, with the given id entry. */
  function NavigateSet(deviceId: Option<string>): map<string, Json>
  {
    var m := map["capability" := Str("navigate"), "action" := Str("set")];
    if deviceId.Some? then m["device_id" := Str(deviceId.value)] else m
  }

  /** The runtime tests for a well-formed command: not running before
      Start, queued after it, rejected under E-Stop unless queueing is
      allowed. */
  lemma EdgeTestRunStates(clock: IdClock)
    ensures var cmd := TestCommand(NavigateSet(Some("uuv-1")));
      && CodeOf(Decide(TestView(Ready, false, false), cmd, clock)) == NotRunning
      && CodeOf(Decide(TestView(Running, false, false), cmd, clock)) == Ok
      && CodeOf(Decide(TestView(Running, true, false), cmd, clock)) == EStop
      && CodeOf(Decide(TestView(Running, true, true), cmd, clock)) == Ok
  {
    var cmd := TestCommand(NavigateSet(Some("uuv-1")));
    assert GetStringOr(cmd.payload, Key("device_id"), "") == "uuv-1";
    assert GetStringOr(cmd.payload, Key("capability"), "") == "navigate";
    assert GetStringOr(cmd.payload, Key("action"), "") == "set";
  }

  /** The runtime tests for bad device ids: an unknown id and a missing one. */
  lemma EdgeTestBadDeviceIds(clock: IdClock)
    ensures CodeOf(Decide(TestView(Running, false, false), TestCommand(NavigateSet(Some("not-exist"))), clock)) == UnknownDevice
    ensures CodeOf(Decide(TestView(Running, false, false), TestCommand(NavigateSet(None)), clock)) == InvalidCommand
  {
    assert GetStringOr(TestCommand(NavigateSet(Some("not-exist"))).payload, Key("device_id"), "") == "not-exist";
    assert GetStringOr(TestCommand(NavigateSet(None)).payload, Key("device_id"), "") == "";
  }

  // ------------------------------------------------------------------ Init

  const DevicesRequiredError: string := "cfg.devices is required and must be array"
  const MissingIdOrTypeError: string := "device item missing device_id/type"

  /** The edge identity read at the top of Init: three `value()` calls
      with no handler, so a type error escapes Init after the earlier
      reads have been assigned. */
  datatype Header = Header(edgeId: string, version: string, allowQueueWhenEStop: bool, error: Option<TypeError>)

  function ReadHeader(cfg: Json, edgeId: string, version: string): (h: Header)
    ensures h.error.None? <==>
              && cfg.Obj?
              && ("edge_id" in cfg.fields ==> cfg.fields["edge_id"].Str?)
              && ("version" in cfg.fields ==> cfg.fields["version"].Str?)
              && ("allow_queue_when_estop" in cfg.fields ==> cfg.fields["allow_queue_when_estop"].Bool?)
    ensures h.error.None? && "allow_queue_when_estop" !in cfg.fields ==> !h.allowQueueWhenEStop
  {
    match ValueString(cfg, "edge_id", edgeId)
    case Failure(e) => Header(edgeId, version, false, Some(e))
    case Success(id) =>
      match ValueString(cfg, "version", version)
      case Failure(e) => Header(id, version, false, Some(e))
      case Success(ver) =>
        match ValueBool(cfg, "allow_queue_when_estop", false)
        case Failure(e) => Header(id, ver, false, Some(e))
        case Success(allow) => Header(id, ver, allow, None)
  }

  /** The `devices` array, when the configuration has one. */
  function DeviceItems(cfg: Json): Option<seq<Json>>
  {
    if cfg.Obj? && "devices" in cfg.fields && cfg.fields["devices"].Arr? then Some(cfg.fields["devices"].items)
    else None
  }

  /** The error a freshly created UUV device's Init reports for an item's
      configuration, if any. */
  function DeviceInitError(dcfg: Json): Option<string>
  {
    var r := Devices.ReadIdentity(dcfg, MyDevice.UuvDefaultId, MyDevice.UuvDefaultName);
    if r.error.Some? then Some(Controls.Describe(r.error.value))
    else
      var o := Controls.Configure(Controls.UuvControl, Devices.ControlConfig(dcfg), "uuv-demo", 200);
      if o.error.Some? then Some(Controls.Describe(o.error.value)) else None
  }

  /** How Init fares with one `devices` item. */
  datatype ItemCheck = ItemOk(deviceId: string, typeName: string) | ItemThrew(error: TypeError) | ItemRejected(reason: string)

  function CheckItem(dcfg: Json): ItemCheck
  {
    match ValueString(dcfg, "device_id", "")
    case Failure(e) => ItemThrew(e)
    case Success(id) =>
      match ValueString(dcfg, "type", "")
      case Failure(e) => ItemThrew(e)
      case Success(typeName) =>
        if id == "" || typeName == "" then ItemRejected(MissingIdOrTypeError)
        else if MyControl.CreateNormalizer(typeName).None? then ItemRejected("CreateNormalizer failed for type=" + typeName)
        else if !MyDevice.Accepts(typeName) then ItemRejected("CreateDevice failed for type=" + typeName)
        else match DeviceInitError(dcfg)
          case Some(err) => ItemRejected("device.Init failed: " + err)
          case None => ItemOk(id, typeName)
  }

  /** An item is accepted exactly when it is an object with a non-empty
      string id and a UUV type string and the device accepts it. */
  lemma CheckItemMeaning(dcfg: Json)
    ensures CheckItem(dcfg).ItemOk? <==>
              && dcfg.Obj?
              && "device_id" in dcfg.fields && dcfg.fields["device_id"].Str? && dcfg.fields["device_id"].s != ""
              && "type" in dcfg.fields && dcfg.fields["type"].Str? && MyControl.IsUuvType(dcfg.fields["type"].s)
              && DeviceInitError(dcfg).None?
    ensures CheckItem(dcfg).ItemOk? ==>
              CheckItem(dcfg).deviceId == dcfg.fields["device_id"].s && CheckItem(dcfg).typeName == dcfg.fields["type"].s
  {
    match ValueString(dcfg, "device_id", "")
    case Failure(e) =>
    case Success(id) =>
      match ValueString(dcfg, "type", "")
      case Failure(e) =>
      case Success(typeName) =>
        if id != "" && typeName != "" && MyControl.CreateNormalizer(typeName).Some? {
          MyDevice.FactoriesAgree(typeName);
        }
  }

  datatype InitOutcome = InitOk | InitFailed(reason: string) | InitThrew(error: TypeError)

  function ItemOutcome(c: ItemCheck): InitOutcome
  {
    match c
    case ItemOk(_, _) => InitOk
    case ItemThrew(e) => InitThrew(e)
    case ItemRejected(reason) => InitFailed(reason)
  }

  /** The index of the first item Init does not accept, or the length. */
  function FirstFailure(items: seq<Json>): (k: nat)
    ensures k <= |items|
    ensures forall j :: 0 <= j < k ==> CheckItem(items[j]).ItemOk?
    ensures k < |items| ==> !CheckItem(items[k]).ItemOk?
    decreases |items|
  {
    if items == [] then 0
    else if CheckItem(items[0]).ItemOk? then 1 + FirstFailure(items[1..])
    else 0
  }

  /** The device-to-type table the accepted items write, later entries
      replacing earlier ones with the same id. */
  function Configured(items: seq<Json>): map<string, string>
    decreases |items|
  {
    if items == [] then map[]
    else
      var rest := Configured(items[..|items| - 1]);
      match CheckItem(items[|items| - 1])
      case ItemOk(id, typeName) => rest[id := typeName]
      case _ => rest
  }

  /** The types of the accepted items: one cached normaliser each. */
  function ConfiguredTypes(items: seq<Json>): set<string>
    decreases |items|
  {
    if items == [] then {}
    else
      var rest := ConfiguredTypes(items[..|items| - 1]);
      match CheckItem(items[|items| - 1])
      case ItemOk(_, typeName) => rest + {typeName}
      case _ => rest
  }

  /** Every configured id and type comes from an accepted item. */
  lemma {:induction false} ConfiguredFromItems(items: seq<Json>)
    ensures forall id :: id in Configured(items) ==>
              exists j :: 0 <= j < |items| && CheckItem(items[j]) == ItemOk(id, Configured(items)[id])
    ensures forall t :: t in ConfiguredTypes(items) ==> MyControl.IsUuvType(t)
    decreases |items|
  {
    if items != [] {
      var init := items[..|items| - 1];
      ConfiguredFromItems(init);
      forall id | id in Configured(items)
        ensures exists j :: 0 <= j < |items| && CheckItem(items[j]) == ItemOk(id, Configured(items)[id])
      {
        var c := CheckItem(items[|items| - 1]);
        if c.ItemOk? && c.deviceId == id {
          assert CheckItem(items[|items| - 1]) == ItemOk(id, Configured(items)[id]);
        } else {
          var j :| 0 <= j < |init| && CheckItem(init[j]) == ItemOk(id, Configured(init)[id]);
          assert items[j] == init[j];
        }
      }
      forall t | t in ConfiguredTypes(items)
        ensures MyControl.IsUuvType(t)
      {
        var c := CheckItem(items[|items| - 1]);
        if c.ItemOk? && c.typeName == t {
          CheckItemMeaning(items[|items| - 1]);
        }
      }
    }
  }

  /** The outcome of a whole Init: the header's type error, the missing
      array, or the first item's problem. */
  /** An accepted item inside the successful prefix extends it; a
      refused one is the first failure. */
  lemma FirstFailureStep(items: seq<Json>, i: nat)
    requires i <= FirstFailure(items) && i < |items|
    ensures CheckItem(items[i]).ItemOk? ==> i + 1 <= FirstFailure(items)
    ensures !CheckItem(items[i]).ItemOk? ==> FirstFailure(items) == i
  {
  }

  /** The table and type set Init has after one more accepted item. */
  lemma ConfiguredStep(items: seq<Json>, i: nat, id: string, typeName: string)
    requires i < |items| && CheckItem(items[i]) == ItemOk(id, typeName)
    ensures Configured(items[..i + 1]) == Configured(items[..i])[id := typeName]
    ensures ConfiguredTypes(items[..i + 1]) == ConfiguredTypes(items[..i]) + {typeName}
  {
    var p := items[..i + 1];
    assert p[..|p| - 1] == items[..i];
    assert p[|p| - 1] == items[i];
  }

  function InitResult(cfg: Json, edgeId: string, version: string): InitOutcome
  {
    var h := ReadHeader(cfg, edgeId, version);
    if h.error.Some? then InitThrew(h.error.value)
    else match DeviceItems(cfg)
      case None => InitFailed(DevicesRequiredError)
      case Some(items) =>
        var k := FirstFailure(items);
        if k == |items| then InitOk else ItemOutcome(CheckItem(items[k]))
  }

  /** Init succeeds exactly when the header reads, the array is there and
      every item is accepted. */
  lemma InitSucceedsIff(cfg: Json, edgeId: string, version: string)
    ensures InitResult(cfg, edgeId, version) == InitOk <==>
              && ReadHeader(cfg, edgeId, version).error.None?
              && DeviceItems(cfg).Some?
              && forall j :: 0 <= j < |DeviceItems(cfg).value| ==> CheckItem(DeviceItems(cfg).value[j]).ItemOk?
  {
  }

  // -------------------------------------------------------------- Totals

  /** The sum of a map's values, in no particular order. */
  ghost function Total(m: map<string, int>): int
    decreases |m|
  {
    if m == map[] then 0
    else
      var k :| k in m;
      m[k] + Total(m - {k})
  }

  /** The sum does not depend on the order: any key can be taken out first. */
  lemma {:induction false} TotalRemove(m: map<string, int>, k: string)
    requires k in m
    ensures Total(m) == m[k] + Total(m - {k})
    decreases |m|
  {
    var k0 :| k0 in m && Total(m) == m[k0] + Total(m - {k0});
    if k0 != k {
      assert (m - {k0}).Keys == m.Keys - {k0};
      assert (m - {k}).Keys == m.Keys - {k};
      TotalRemove(m - {k0}, k);
      TotalRemove(m - {k}, k0);
      assert m - {k0} - {k} == m - {k} - {k0};
    }
  }

  /** A sum of sizes is never negative. */
  lemma {:induction false} TotalNonNegative(m: map<string, int>)
    requires forall k :: k in m ==> m[k] >= 0
    ensures Total(m) >= 0
    decreases |m|
  {
    if m != map[] {
      var k :| k in m && Total(m) == m[k] + Total(m - {k});
      assert (m - {k}).Keys == m.Keys - {k};
      TotalNonNegative(m - {k});
    }
  }
}
