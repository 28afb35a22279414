/** Command normalisers: from a raw command's payload to a Pending task, or a
    rejection with the reason text (UUVCommandNormalizer.cpp,
    FlowSensorCommandNormalizer.cpp). */
module Normalizers {
  import opened Wrappers
  import opened Json
  import opened JsonUtil
  import opened RawCommands
  import opened Tasks
  import opened Ids
  import TaskResults

  const NotAnObjectError: string := "payload is not a json object"
  const UuvMissingFieldsError: string := "missing required fields: device_id/capability/action"
  const FlowMissingDeviceError: string := "missing required field: device_id"

  /** The command id (kept when given, else generated) and the task id
      (always generated, after the command id when both are). */
  function CommandId(cmd: RawCommand, clock: IdClock): string
  {
    if cmd.commandId != "" then cmd.commandId else GenerateId("cmd", clock.nowMs, clock.counter)
  }

  function TaskId(cmd: RawCommand, clock: IdClock): string
  {
    GenerateId("task", clock.nowMs, if cmd.commandId != "" then clock.counter else clock.counter + 1)
  }

  /** The fields both normalisers fill the same way. */
  function Build(cmd: RawCommand, edgeId: string, deviceId: string, capability: string, action: string,
                 clock: IdClock): Task
  {
    var commandId := CommandId(cmd, clock);
    Tasks.Default.(
      edgeId := edgeId,
      deviceId := deviceId,
      capability := capability,
      action := action,
      params := ObjectOrEmpty(cmd.payload, "params"),
      commandId := commandId,
      taskId := TaskId(cmd, clock),
      createdAtMs := clock.nowMs,
      idempotencyKey := if cmd.idempotencyKey != "" then cmd.idempotencyKey else commandId,
      dedupWindowMs := cmd.dedupWindowMs,
      state := Pending)
  }

  /** What every normalised task has in common, whichever normaliser built it:
      command id kept or generated, a fresh task id, the clock as creation
      time, the idempotency key falling back to the command id, the dedup
      window copied, params an object, state Pending and a default result. */
  predicate Normalised(t: Task, cmd: RawCommand, edgeId: string, clock: IdClock)
  {
    && t.edgeId == edgeId
    && t.commandId == (if cmd.commandId != "" then cmd.commandId else GenerateId("cmd", clock.nowMs, clock.counter))
    && |t.taskId| > 5 && t.taskId[..5] == "task-"
    && t.createdAtMs == clock.nowMs
    && t.idempotencyKey == (if cmd.idempotencyKey != "" then cmd.idempotencyKey else t.commandId)
    && t.idempotencyKey != ""
    && t.dedupWindowMs == cmd.dedupWindowMs
    && t.params == (if Find(cmd.payload, "params").Some? && Find(cmd.payload, "params").value.Obj?
                    then Find(cmd.payload, "params").value else EmptyObject)
    && t.state == Pending
    && t.result == TaskResults.Default
    && t.policy == EmptyObject
  }

  /** The UUV normaliser: the payload must be an object naming a device, a
      capability and an action, all non-empty. */
  function NormalizeUuv(cmd: RawCommand, edgeId: string, clock: IdClock): (r: Result<Task, string>)
    ensures r.Failure? <==> (
      || !cmd.payload.Obj?
      || GetStringOr(cmd.payload, Key("device_id"), "") == ""
      || GetStringOr(cmd.payload, Key("capability"), "") == ""
      || GetStringOr(cmd.payload, Key("action"), "") == "")
    ensures r.Failure? ==> r.error == (if !cmd.payload.Obj? then NotAnObjectError else UuvMissingFieldsError)
    ensures r.Success? ==> Normalised(r.value, cmd, edgeId, clock)
    ensures r.Success? ==>
      r.value.deviceId == Find(cmd.payload, "device_id").value.s &&
      r.value.capability == Find(cmd.payload, "capability").value.s &&
      r.value.action == Find(cmd.payload, "action").value.s
  {
    if !cmd.payload.Obj? then Failure(NotAnObjectError)
    else
      var p := cmd.payload;
      var deviceId := GetStringOr(p, Key("device_id"), "");
      var capability := GetStringOr(p, Key("capability"), "");
      var action := GetStringOr(p, Key("action"), "");
      if deviceId == "" || capability == "" || action == "" then Failure(UuvMissingFieldsError)
      else Success(Build(cmd, edgeId, deviceId, capability, action, clock))
  }

  /** The flow-sensor normaliser: only the device id is required; the action
      defaults to "read" and the capability is always "flow_speed". */
  function NormalizeFlowSensor(cmd: RawCommand, edgeId: string, clock: IdClock): (r: Result<Task, string>)
    ensures r.Failure? <==> !cmd.payload.Obj? || GetStringOr(cmd.payload, Key("device_id"), "") == ""
    ensures r.Failure? ==> r.error == (if !cmd.payload.Obj? then NotAnObjectError else FlowMissingDeviceError)
    ensures r.Success? ==> Normalised(r.value, cmd, edgeId, clock)
    ensures r.Success? ==>
      r.value.deviceId == Find(cmd.payload, "device_id").value.s &&
      r.value.capability == "flow_speed" &&
      r.value.action == GetStringOr(cmd.payload, Key("action"), "read")
  {
    if !cmd.payload.Obj? then Failure(NotAnObjectError)
    else
      var p := cmd.payload;
      var deviceId := GetStringOr(p, Key("device_id"), "");
      if deviceId == "" then Failure(FlowMissingDeviceError)
      else Success(Build(cmd, edgeId, deviceId, "flow_speed", GetStringOr(p, Key("action"), "read"), clock))
  }

  /** With no action in the payload the flow-sensor task reads. */
  lemma FlowSensorDefaultsToRead(cmd: RawCommand, edgeId: string, clock: IdClock)
    requires cmd.payload.Obj? && "action" !in cmd.payload.fields
    requires NormalizeFlowSensor(cmd, edgeId, clock).Success?
    ensures NormalizeFlowSensor(cmd, edgeId, clock).value.action == "read"
  {
  }

  /** A normalised task survives serialisation unchanged: the store and the
      heartbeat can carry it without loss. */
  lemma NormalisedTaskRoundTrips(t: Task, cmd: RawCommand, edgeId: string, clock: IdClock)
    requires Normalised(t, cmd, edgeId, clock)
    ensures Tasks.FromJson(Tasks.ToJson(t)) == t
  {
    Tasks.RoundTrip(t);
  }
}
