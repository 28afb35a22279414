/** A normalised, executable task (Task.h / Task.cpp). */
module Tasks {
  import opened Wrappers
  import opened Json
  import opened JsonUtil
  import TaskResults

  /** `enum class TaskState : int`; any int is a value of the type. */
  newtype TaskState = s: int | -0x8000_0000 <= s < 0x8000_0000

  const Pending: TaskState := 0
  const Running: TaskState := 1
  const Succeeded: TaskState := 2
  const Failed: TaskState := 3
  const Cancelled: TaskState := 4

  const UnknownStateName: string := "UnknownTaskState"

  predicate IsNamedState(s: TaskState) { Pending <= s <= Cancelled }

  function StateToString(s: TaskState): (name: string)
    ensures IsNamedState(s) ==> |name| > 0
  {
    match s
    case 0 => "Pending"
    case 1 => "Running"
    case 2 => "Succeeded"
    case 3 => "Failed"
    case 4 => "Cancelled"
    case _ => UnknownStateName
  }

  /** The five states have five different names; the fallback name belongs to
      exactly the values outside the enumeration. */
  lemma StateNamesDistinct(a: TaskState, b: TaskState)
    ensures IsNamedState(a) && IsNamedState(b) && a != b ==> StateToString(a) != StateToString(b)
    ensures StateToString(a) == UnknownStateName <==> !IsNamedState(a)
  {
  }

  datatype Task = Task(
    taskId: string,
    commandId: string,
    traceId: string,
    spanId: string,
    edgeId: string,
    deviceId: string,
    capability: string,
    action: string,
    params: Json,
    idempotencyKey: string,
    dedupWindowMs: Int64,
    priority: Int32,
    createdAtMs: Int64,
    deadlineAtMs: Int64,
    policy: Json,
    state: TaskState,
    result: TaskResults.TaskResult)

  /** A default-constructed task: empty strings, zero numbers, `{}` for
      params and policy, Pending, and a default result. */
  const Default: Task :=
    Task("", "", "", "", "", "", "", "", EmptyObject, "", 0, 0, 0, 0, EmptyObject, Pending, TaskResults.Default)

  const Keys: set<string> := {
    "task_id", "command_id", "trace_id", "span_id", "edge_id", "device_id", "capability", "action",
    "params", "idempotency_key", "dedup_window_ms", "priority", "created_at_ms", "deadline_at_ms",
    "policy", "state", "result"}

  function ToJson(t: Task): (j: Json)
  {
    Obj(map[
      "task_id" := Str(t.taskId),
      "command_id" := Str(t.commandId),
      "trace_id" := Str(t.traceId),
      "span_id" := Str(t.spanId),
      "edge_id" := Str(t.edgeId),
      "device_id" := Str(t.deviceId),
      "capability" := Str(t.capability),
      "action" := Str(t.action),
      "params" := t.params,
      "idempotency_key" := Str(t.idempotencyKey),
      "dedup_window_ms" := Int(t.dedupWindowMs),
      "priority" := Int(t.priority),
      "created_at_ms" := Int(t.createdAtMs),
      "deadline_at_ms" := Int(t.deadlineAtMs),
      "policy" := t.policy,
      "state" := Int(t.state as int),
      "result" := TaskResults.ToJson(t.result)])
  }

  /** A serialised task is an object with exactly the seventeen field keys. */
  lemma ToJsonKeys(t: Task)
    ensures ToJson(t).Obj? && ToJson(t).fields.Keys == Keys
  {
  }

  /** The stored value under `key` when it is an object, else `{}`. */
  function ObjectOrEmpty(j: Json, key: string): (o: Json)
    ensures o.Obj?
  {
    match Find(j, key) case Some(v) => if v.Obj? then v else EmptyObject case None => EmptyObject
  }

  /** Strings default to "", numbers to 0 and the state to Pending; params,
      policy and result are taken only from objects. */
  function FromJson(j: Json): (t: Task)
    ensures t.params.Obj? && t.policy.Obj? && t.result.output.Obj?
    ensures !j.Obj? ==> t == Default
    ensures !(j.Obj? && "result" in j.fields && j.fields["result"].Obj?) ==> t.result == TaskResults.Default
  {
    Task(
      GetStringOr(j, Key("task_id"), ""),
      GetStringOr(j, Key("command_id"), ""),
      GetStringOr(j, Key("trace_id"), ""),
      GetStringOr(j, Key("span_id"), ""),
      GetStringOr(j, Key("edge_id"), ""),
      GetStringOr(j, Key("device_id"), ""),
      GetStringOr(j, Key("capability"), ""),
      GetStringOr(j, Key("action"), ""),
      ObjectOrEmpty(j, "params"),
      GetStringOr(j, Key("idempotency_key"), ""),
      GetInt64Or(j, Key("dedup_window_ms"), 0),
      GetIntOr(j, Key("priority"), 0),
      GetInt64Or(j, Key("created_at_ms"), 0),
      GetInt64Or(j, Key("deadline_at_ms"), 0),
      ObjectOrEmpty(j, "policy"),
      GetIntOr(j, Key("state"), Pending as Int32) as TaskState,
      match Find(j, "result")
      case Some(v) => if v.Obj? then TaskResults.FromJson(v) else TaskResults.Default
      case None => TaskResults.Default)
  }

  /** The identifying string fields read back unchanged. */
  lemma IdFieldsRoundTrip(t: Task)
    ensures FromJson(ToJson(t)).taskId == t.taskId
    ensures FromJson(ToJson(t)).commandId == t.commandId
    ensures FromJson(ToJson(t)).traceId == t.traceId
    ensures FromJson(ToJson(t)).spanId == t.spanId
    ensures FromJson(ToJson(t)).edgeId == t.edgeId
  {
    var j := ToJson(t);
    ReadString(j, "task_id", t.taskId, "");
    ReadString(j, "command_id", t.commandId, "");
    ReadString(j, "trace_id", t.traceId, "");
    ReadString(j, "span_id", t.spanId, "");
    ReadString(j, "edge_id", t.edgeId, "");
  }

  /** The routing string fields read back unchanged. */
  lemma RoutingFieldsRoundTrip(t: Task)
    ensures FromJson(ToJson(t)).deviceId == t.deviceId
    ensures FromJson(ToJson(t)).capability == t.capability
    ensures FromJson(ToJson(t)).action == t.action
    ensures FromJson(ToJson(t)).idempotencyKey == t.idempotencyKey
  {
    var j := ToJson(t);
    ReadString(j, "device_id", t.deviceId, "");
    ReadString(j, "capability", t.capability, "");
    ReadString(j, "action", t.action, "");
    ReadString(j, "idempotency_key", t.idempotencyKey, "");
  }

  /** The integer fields and the state read back unchanged. */
  lemma NumberFieldsRoundTrip(t: Task)
    ensures FromJson(ToJson(t)).dedupWindowMs == t.dedupWindowMs
    ensures FromJson(ToJson(t)).priority == t.priority
    ensures FromJson(ToJson(t)).createdAtMs == t.createdAtMs
    ensures FromJson(ToJson(t)).deadlineAtMs == t.deadlineAtMs
    ensures FromJson(ToJson(t)).state == t.state
  {
    var j := ToJson(t);
    ReadInt64(j, "dedup_window_ms", t.dedupWindowMs, 0);
    ReadInt(j, "priority", t.priority, 0);
    ReadInt64(j, "created_at_ms", t.createdAtMs, 0);
    ReadInt64(j, "deadline_at_ms", t.deadlineAtMs, 0);
    ReadInt(j, "state", t.state as int, 0);
  }

  /** The nested objects read back as far as the parser keeps them. */
  lemma ObjectFieldsRoundTrip(t: Task)
    ensures FromJson(ToJson(t)).params == if t.params.Obj? then t.params else EmptyObject
    ensures FromJson(ToJson(t)).policy == if t.policy.Obj? then t.policy else EmptyObject
    ensures FromJson(ToJson(t)).result == TaskResults.FromJson(TaskResults.ToJson(t.result))
  {
    var j := ToJson(t);
    assert j.fields["params"] == t.params && j.fields["policy"] == t.policy;
    assert j.fields["result"] == TaskResults.ToJson(t.result);
  }

  /** A task survives serialisation exactly when its params, its policy and
      its result's output are objects. */
  lemma RoundTrip(t: Task)
    ensures FromJson(ToJson(t)) == t <==> t.params.Obj? && t.policy.Obj? && t.result.output.Obj?
  {
    IdFieldsRoundTrip(t);
    RoutingFieldsRoundTrip(t);
    NumberFieldsRoundTrip(t);
    ObjectFieldsRoundTrip(t);
    TaskResults.RoundTrip(t.result);
  }
}
