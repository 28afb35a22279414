/** The demo devices (UUVDevice.cpp and the device-side
    WindSensorDevice.cpp). Both keep an identity, a control created through
    the control factory, a worker created on Start, the injected queue and
    E-Stop flag, and a status cell the worker's callbacks update. They
    differ only in the control type they request, so one class with a kind
    models both. */
module Devices {
  import opened Wrappers
  import opened Json
  import opened Status
  import opened TaskQueues
  import opened Controls
  import opened StatusCells
  import opened Workflows
  import MyControl

  datatype DeviceKind = UuvDevice | WindSensorDevice

  /** Start's error for a device whose Init never created a control. */
  const NoControlError := "device not initialized: control_ is null"

  /** The type string each device passes to `CreateControl`. */
  function ControlType(kind: DeviceKind): string
  {
    match kind
    case UuvDevice => "uuv"
    case WindSensorDevice => "wind_sensor"
  }

  /** The status the constructor writes: the default identity, Unknown,
      Idle, no running task, no error, and the construction time. */
  function InitialStatus(deviceId: string, nowMs: Int64): (s: DeviceStatus)
    ensures s.deviceId == deviceId && s.connState == Unknown && s.workState == Idle
    ensures s.runningTaskId == "" && s.lastError == "" && s.lastSeenAtMs == nowMs
  {
    DefaultDevice.(deviceId := deviceId, lastSeenAtMs := nowMs)
  }

  /** The status Init writes once the identity is read: the identity, Online,
      Idle, and the current time; everything else is kept. */
  function OnlineStatus(s: DeviceStatus, deviceId: string, nowMs: Int64): (s': DeviceStatus)
    ensures s'.deviceId == deviceId && s'.connState == Online && s'.workState == Idle && s'.lastSeenAtMs == nowMs
    ensures s'.runningTaskId == s.runningTaskId && s'.lastError == s.lastError
    ensures s'.lastTaskAtMs == s.lastTaskAtMs && s'.queueDepth == s.queueDepth
  {
    s.(deviceId := deviceId, connState := Online, workState := Idle, lastSeenAtMs := nowMs)
  }

  /** The `control` section of a device configuration, or an empty object. */
  function ControlConfig(cfg: Json): Json
  {
    if cfg.Obj? && "control" in cfg.fields then cfg.fields["control"] else EmptyObject
  }

  /** The identity read at the top of Init: two `value()` calls in a row,
      so a type error in the name still leaves the new id assigned. */
  datatype IdentityRead = IdentityRead(deviceId: string, deviceName: string, error: Option<TypeError>)

  function ReadIdentity(cfg: Json, deviceId: string, deviceName: string): IdentityRead
  {
    match ValueString(cfg, "device_id", deviceId)
    case Failure(e) => IdentityRead(deviceId, deviceName, Some(e))
    case Success(id) =>
      match ValueString(cfg, "device_name", deviceName)
      case Failure(e) => IdentityRead(id, deviceName, Some(e))
      case Success(name) => IdentityRead(id, name, None)
  }

  /** The identity read fails exactly when the configuration is not an
      object or holds a non-string id or name; absent keys keep the
      defaults; a bad name does not undo a good id. */
  lemma ReadIdentityEffect(cfg: Json, deviceId: string, deviceName: string)
    ensures var r := ReadIdentity(cfg, deviceId, deviceName);
      && (r.error.None? <==>
            cfg.Obj? && StringOrAbsent(cfg, "device_id") && StringOrAbsent(cfg, "device_name"))
      && (cfg.Obj? && "device_id" in cfg.fields && cfg.fields["device_id"].Str? ==>
            r.deviceId == cfg.fields["device_id"].s)
      && (r.error.None? && "device_id" !in cfg.fields ==> r.deviceId == deviceId)
      && (r.error.None? && "device_name" !in cfg.fields ==> r.deviceName == deviceName)
  {
  }

  class Device {
    const kind: DeviceKind
    var deviceId: string
    var deviceName: string
    var control: Control?
    var workflow: Workflow?
    var queue: TaskQueue?
    var estop: EStopFlag?
    const cell: StatusCell

    /** The objects a device's own methods may change. */
    ghost function Repr(): set<object>
      reads this
    {
      {this, cell} + (if workflow != null then {workflow} else {})
    }

    /** Construction with the class's default identity and name. */
    constructor (kind: DeviceKind, defaultId: string, defaultName: string, nowMs: Int64)
      ensures this.kind == kind && deviceId == defaultId && deviceName == defaultName
      ensures control == null && workflow == null && queue == null && estop == null
      ensures fresh(cell) && cell.status == InitialStatus(defaultId, nowMs) && cell.runningTask == None
    {
      this.kind := kind;
      deviceId := defaultId;
      deviceName := defaultName;
      control := null;
      workflow := null;
      queue := null;
      estop := null;
      cell := new StatusCell(InitialStatus(defaultId, nowMs));
    }

    /** `Init(cfg, err)`: identity and name from `cfg` (a type error is
        caught and reported), then Online/Idle, then the control from the
        factory and its own configuration. Nothing is rolled back: a
        failure after the identity was read leaves it read and the status
        Online, and a control that rejects its configuration stays set. */
    method Init(cfg: Json, nowMs: Int64) returns (ok: bool, err: string)
      modifies this, cell
      ensures var r := ReadIdentity(cfg, old(deviceId), old(deviceName));
              && deviceId == r.deviceId && deviceName == r.deviceName
              && (r.error.Some? ==>
                    && !ok && err == Describe(r.error.value)
                    && control == old(control) && cell.status == old(cell.status))
              && (r.error.None? ==> cell.status == OnlineStatus(old(cell.status), r.deviceId, nowMs))
              && (r.error.None? && kind == WindSensorDevice ==>
                    !ok && control == null && err == "CreateControl(wind_sensor) failed")
              && (r.error.None? && kind == UuvDevice ==>
                    && control != null && fresh(control) && control.kind == UuvControl
                    && var o := Configure(UuvControl, ControlConfig(cfg), "uuv-demo", 200);
                    && control.deviceName == o.deviceName && control.simulateLatencyMs == o.simulateLatencyMs
                    && (ok <==> o.error.None?) && (!ok ==> err == Describe(o.error.value)))
      ensures ok ==> kind == UuvDevice && control != null
      ensures cell.runningTask == old(cell.runningTask)
      ensures workflow == old(workflow) && queue == old(queue) && estop == old(estop)
    {
      var r := ReadIdentity(cfg, deviceId, deviceName);
      deviceId := r.deviceId;
      deviceName := r.deviceName;
      if r.error.Some? {
        return false, Describe(r.error.value);
      }
      cell.status := cell.status.(deviceId := deviceId, connState := Online, workState := Idle, lastSeenAtMs := nowMs);
      ok, err := AttachControl(cfg);
    }

    /** The second half of Init: the control from the factory, configured
        from the `control` section (an object is guaranteed by then). */
    method AttachControl(cfg: Json) returns (ok: bool, err: string)
      requires cfg.Obj?
      modifies this
      ensures kind == WindSensorDevice ==> !ok && control == null && err == "CreateControl(wind_sensor) failed"
      ensures kind == UuvDevice ==>
                && control != null && fresh(control) && control.kind == UuvControl
                && var o := Configure(UuvControl, ControlConfig(cfg), "uuv-demo", 200);
                && control.deviceName == o.deviceName && control.simulateLatencyMs == o.simulateLatencyMs
                && (ok <==> o.error.None?) && (!ok ==> err == Describe(o.error.value))
      ensures deviceId == old(deviceId) && deviceName == old(deviceName)
      ensures workflow == old(workflow) && queue == old(queue) && estop == old(estop)
    {
      control := MyControl.CreateControl(ControlType(kind));
      if control == null {
        return false, "CreateControl(" + ControlType(kind) + ") failed";
      }
      var controlCfg := ValueJson(cfg, "control", EmptyObject).value;
      var controlOk, controlErr := control.Init(controlCfg);
      if !controlOk {
        return false, controlErr;
      }
      return true, "";
    }

    /** `Start(queue, estop, err)`: refused without a control; otherwise a
        new worker named after the device is bound to the queue and the
        control, given the E-Stop flag and the status callbacks, and
        started. */
    method Start(q: TaskQueue, flag: EStopFlag?) returns (ok: bool, err: string)
      modifies this
      ensures ok <==> old(control) != null
      ensures !ok ==>
                && err == NoControlError
                && workflow == old(workflow) && queue == old(queue) && estop == old(estop)
      ensures ok ==>
                && workflow != null && fresh(workflow)
                && workflow.name == "wf-" + deviceId
                && workflow.queue == q && workflow.control == control
                && workflow.estop == flag && workflow.onStart == cell && workflow.onFinish == cell
                && workflow.running && !workflow.stop
                && queue == q && estop == flag
      ensures deviceId == old(deviceId) && deviceName == old(deviceName) && control == old(control)
    {
      if control == null {
        return false, NoControlError;
      }
      queue := q;
      estop := flag;
      var wf := new Workflow("wf-" + deviceId, q, control);
      wf.SetEStopFlag(flag);
      wf.SetStartCallback(cell);
      wf.SetFinishCallback(cell);
      workflow := wf;
      var started := wf.Start();
      if !started {
        return false, "workflow already running or start failed";
      }
      return true, "";
    }

    /** `Stop`: asks the worker to stop (the queue is the edge's to shut
        down) and refreshes last-seen; nothing else in the status changes. */
    method Stop(nowMs: Int64)
      modifies workflow, cell
      ensures cell.status == old(cell.status).(lastSeenAtMs := nowMs) && cell.runningTask == old(cell.runningTask)
      ensures workflow != null ==>
                workflow.stop && workflow.running == old(workflow.running) && workflow.onFinish == old(workflow.onFinish)
    {
      if workflow != null {
        workflow.Stop();
      }
      cell.status := cell.status.(lastSeenAtMs := nowMs);
    }

    method Join()
      modifies workflow
      ensures workflow != null ==>
                && workflow.running == (old(workflow.running) && !workflow.stop && !workflow.queue.shutdown)
                && workflow.stop == old(workflow.stop)
    {
      if workflow != null {
        workflow.Join();
      }
    }

    method GetStatusSnapshot() returns (s: DeviceStatus)
      ensures s == cell.status
    {
      s := cell.status;
    }
  }
}
