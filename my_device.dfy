/** The device factory (MyDevice.cpp): "uuv" or "UUV" yields a fresh UUV
    device, every other type string nothing. */
module MyDevice {
  import opened Json
  import opened Devices
  import MyControl

  /** The defaults the UUV device class declares for its identity. */
  const UuvDefaultId: string := "uuv-unknown"
  const UuvDefaultName: string := "uuv-demo"

  /** The type strings `Create` accepts. */
  predicate Accepts(typeName: string)
  {
    typeName == "uuv" || typeName == "UUV"
  }

  /** The device factory and the normaliser factory accept the same types,
      so a type that got a normaliser always gets a device. */
  lemma FactoriesAgree(typeName: string)
    ensures Accepts(typeName) <==> MyControl.CreateNormalizer(typeName).Some?
  {
  }

  method Create(typeName: string, nowMs: Int64) returns (d: Device?)
    ensures d != null <==> Accepts(typeName)
    ensures d != null ==>
              && fresh(d) && fresh(d.cell) && d.kind == UuvDevice
              && d.deviceId == UuvDefaultId && d.deviceName == UuvDefaultName
              && d.control == null && d.workflow == null
              && d.cell.status == InitialStatus(UuvDefaultId, nowMs)
  {
    if typeName == "uuv" || typeName == "UUV" {
      d := new Device(UuvDevice, UuvDefaultId, UuvDefaultName, nowMs);
    } else {
      d := null;
    }
  }

  /** A freshly created device has no control, so starting it before a
      successful Init is refused and creates no worker. */
  method StartBeforeInitScenario(q: TaskQueues.TaskQueue, nowMs: Int64) returns (ok: bool, err: string)
    ensures !ok && err == "device not initialized: control_ is null"
  {
    var d := Create("uuv", nowMs);
    ok, err := d.Start(q, null);
  }

  /** The device test's start-up: `uuv-1` configured with a control section
      initialises, starts, and reports its identity and Online. */
  method InitStartScenario(q: TaskQueues.TaskQueue, nowMs: Int64) returns (initOk: bool, startOk: bool, st: Status.DeviceStatus)
    ensures initOk && startOk
    ensures st.deviceId == "uuv-1" && st.connState == Status.Online
  {
    var d := Create("uuv", nowMs);
    var cfg := Obj(map[
      "device_id" := Str("uuv-1"),
      "device_name" := Str("UUV-ONE"),
      "control" := Obj(map["simulate_latency_ms" := Int(1)])]);
    var err;
    assert ValueString(cfg, "device_id", d.deviceId).value == "uuv-1";
    Controls.ConfigureSucceeds(Controls.UuvControl, ControlConfig(cfg), "uuv-demo", 200);
    initOk, err := d.Init(cfg, nowMs);
    var flag := new Workflows.EStopFlag(false);
    startOk, err := d.Start(q, flag);
    st := d.GetStatusSnapshot();
  }
}
