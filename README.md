# fast_cpp_server edge runtime — a Dafny model

This project models the command-dispatch core of the fast_cpp_server edge
runtime, written in Dafny and proved with its verifier.

An edge (`UUVEdge`) owns a set of devices, and each device has its own task
queue. The edge also keeps a command normaliser for every device type. A raw
command (`RawCommand`: command id, source, JSON payload, receive time,
idempotency key and dedup window) goes through these steps:
- It is checked against the edge's run state and its E-Stop flag.
- The device id is read from inside its payload and looked up in the device
  tables.
- It is normalised into a `Task`. The task gets the edge and device ids, the
  capability and action from the payload, the payload's `params` object, a
  command id (kept or generated), a fresh task id, the creation time, the
  idempotency key (falling back to the command id) and the dedup window.
- It is pushed onto the queue of its device.

A device's `Workflow` pops tasks and hands each one to the device's control
(`UUVControl`, `DepthSensorControl`, `FlowSensorControl`, or the wind sensor's
control). The control returns a `TaskResult`. The start and finish callbacks
keep the device's status cell up to date. From those cells and queues the edge
builds a status snapshot (`EdgeStatus` with one `DeviceStatus` per device),
which serialises to JSON and reads back.

Around the edge, the model also covers:
- the process-wide edge registry (`MyEdges`), with its heartbeat object;
- the SQLite configuration and migration layer (`MyDB`), with the engine as a
  parameter;
- the self-check registry (`MyDoctor`);
- the JSON helpers, error codes, ids and enum-to-string tables that these
  components share.

Modules follow the source files:

| module | file | models |
|---|---|---|
| Wrappers | wrappers.dfy | Option and Result |
| Json | json.dfy | the JSON value, nlohmann `value()`/`get<>()` lookups, integer narrowing |
| JsonUtil | json_util.dfy | JsonUtil's never-failing getters |
| Error | error.dfy | ErrorCode and its names |
| TaskResults | task_result.dfy | TaskResult and its JSON form |
| Tasks | task.dfy | Task, TaskState and their JSON forms |
| RawCommands | raw_command.dfy | RawCommand and its JSON form |
| Ids | ids.dfy | GenerateId |
| Normalizers | normalizers.dfy | UUV and flow-sensor command normalisers |
| Status | status.dfy | device/edge status values, names, JSON |
| StatusCells | status_cell.dfy | the device status cell and its start/finish callbacks |
| TaskQueues | task_queue.dfy | the per-device FIFO queue with shutdown |
| Controls | controls.dfy | the device controls' Init and DoTask |
| Workflows | workflow.dfy | the worker: E-Stop flag, start/stop, one loop step |
| MyControl | my_control.dfy | the normaliser and control factories |
| Devices | device.dfy | UUVDevice and the wind-sensor device |
| MyDevice | my_device.dfy | the device factory |
| EdgeRules | edge_rules.dfy | the edge's pure decisions: run states, submit ladder, init checks |
| Edges | edge.dfy | the UUVEdge object |
| EdgeRegistry | edge_registry.dfy | MyEdges |
| Db | db.dfy | MyDB over an SQL engine given as a parameter |
| Doctor | doctor.dfy | MyDoctor |

The code and its tests disagree in one place. The doctor's tests
(test/util/my_doctor/TestMyDoctor.cpp:66,89) expect the report to be wrapped
in a `"results"` key and to be `[]` when empty. `MyDoctor::toJson`
(src/util/my_doctor/MyDoctor.cpp:43-55) writes a bare array instead, and that
array is `null` when nothing was checked. The model follows the code.

## Model

| member | source | states |
|---|---|---|
| Json.Wrap32 | src/util/my_data/JsonUtil.cpp:17 | `get<int>()` keeps any value that fits in 32 bits unchanged; wider values wrap in two's complement |
| Json.Wrap64 | src/util/my_data/JsonUtil.cpp:25 | `get<std::int64_t>()` keeps any value that fits in 64 bits unchanged |
| Json.ValueString | src/util/my_db/MyDB.cpp:15 | `value(key, string default)` throws exactly when the document is not an object or the stored value is not a string; an absent key gives the default |
| Json.ValueInt | src/util/my_db/MyDB.cpp:18 | `value(key, int default)` throws exactly when the document is not an object or the stored value is not a number or boolean; an absent key gives the default |
| Json.ValueBool | src/util/my_db/MyDB.cpp:14 | `value(key, bool default)` throws exactly when the document is not an object or the stored value is not a boolean; an absent key gives the default |
| Json.ValueDoubleAccepted | src/util/my_control/demo/depth_sensor/DepthSensorControl.cpp:13-14 | `value(key, double default)` throws exactly when the document is not an object or the stored value is not a number or boolean |
| Json.ValueJson | src/util/my_device/demo/uuv/UUVDevice.cpp:65 | `value(key, json default)` fails only on a non-object and otherwise returns the stored value or the default |
| JsonUtil.GetStringOr | src/util/my_data/JsonUtil.cpp:5-11 | the stored string when the key is non-null, present, not null and a string; the default otherwise |
| JsonUtil.GetIntOr | src/util/my_data/JsonUtil.cpp:13-19 | a stored JSON integer truncated to 32 bits; the default for a null key, a missing or null value and any non-integer |
| JsonUtil.GetInt64Or | src/util/my_data/JsonUtil.cpp:21-27 | a stored JSON integer truncated to 64 bits; the default otherwise |
| JsonUtil.GettersReadStored | src/util/my_data/JsonUtil.cpp:5-27 | each getter returns the value stored under its key, whatever the default |
| JsonUtil.GettersDefaultWhenAbsent | src/util/my_data/JsonUtil.cpp:6-8 | a null key, a non-object, a missing key or a JSON null gives every getter its default |
| JsonUtil.EmptyStringIsNotAbsent | src/util/my_data/JsonUtil.cpp:8-10 | a stored empty string is returned as "" and not replaced by the default |
| JsonUtil.IntGettersRejectNonIntegers | src/util/my_data/JsonUtil.cpp:17-18 | floats, booleans, strings, arrays and objects give the integer getters their default |
| Error.ToString | src/util/my_data/demo/Error.cpp:5-17 | every code has a non-empty name |
| Error.NamesDistinct | src/util/my_data/demo/Error.cpp:6-16 | the eight codes 0..7 of Error.h:18-27 have pairwise different names, and "UnknownErrorCode" is the name of exactly the other codes |
| TaskResults.ToJson | src/util/my_data/demo/TaskResult.cpp:18-26 | the object has exactly the five keys code, message, started_at_ms, finished_at_ms and output |
| TaskResults.FromJson | src/util/my_data/demo/TaskResult.cpp:28-38 | a non-object parses to the default result of TaskResult.h:13-17; `output` is taken only when it is an object and is `{}` otherwise |
| TaskResults.RoundTrip | src/util/my_data/demo/TaskResult.cpp:18-38 | parsing a serialised result gives it back exactly when its output is an object |
| Tasks.StateToString | src/util/my_data/demo/Task.cpp:7-16 | each of the five states of Task.h:12-18 has a non-empty name |
| Tasks.StateNamesDistinct | src/util/my_data/demo/Task.cpp:7-16 | the five states have pairwise different names, and "UnknownTaskState" is the name of exactly the values outside the enumeration |
| Tasks.ToJsonKeys | src/util/my_data/demo/Task.cpp:39-59 | a serialised task is an object with exactly the seventeen field keys |
| Tasks.FromJson | src/util/my_data/demo/Task.cpp:61-92 | params, policy and the result's output are always objects; a non-object parses to the default task of Task.h:27-57; a missing or non-object `result` leaves the default result |
| Tasks.IdFieldsRoundTrip | src/util/my_data/demo/Task.cpp:41-45 | task_id, command_id, trace_id, span_id and edge_id read back unchanged |
| Tasks.RoutingFieldsRoundTrip | src/util/my_data/demo/Task.cpp:46-50 | device_id, capability, action and idempotency_key read back unchanged |
| Tasks.NumberFieldsRoundTrip | src/util/my_data/demo/Task.cpp:51-56 | dedup_window_ms, priority, created_at_ms, deadline_at_ms and state read back unchanged |
| Tasks.ObjectFieldsRoundTrip | src/util/my_data/demo/Task.cpp:72-89 | params and policy read back when they are objects and as `{}` otherwise; the result reads back as TaskResult's own round trip gives it |
| Tasks.RoundTrip | src/util/my_data/demo/Task.cpp:39-92 | parsing a serialised task gives it back exactly when its params, policy and result output are objects |
| RawCommands.ToJson | src/util/my_data/demo/RawCommand.cpp:19-28 | the object has exactly the six keys command_id, source, received_at_ms, idempotency_key, dedup_window_ms and payload |
| RawCommands.FromJson | src/util/my_data/demo/RawCommand.cpp:30-41 | the payload is always an object, and is the stored one when that is an object; a non-object parses to the default command |
| RawCommands.RoundTrip | src/util/my_data/demo/RawCommand.cpp:19-41 | parsing a serialised command gives it back exactly when its payload is an object |
| Ids.GenerateId | src/util/my_data/demo/IdUtil.cpp:8-13 | the id is longer than its prefix plus the dash, and starts with the prefix and a dash |
| Ids.DecimalInjective | src/util/my_data/demo/IdUtil.cpp:11 | different sequence numbers are written differently |
| Ids.GenerateIdFresh | src/util/my_data/demo/IdUtil.cpp:9-11 | two ids drawn in the same millisecond with the same prefix differ, because each draw takes a new sequence number |
| Normalizers.NormalizeUuv | src/util/my_control/demo/uuv/UUVCommandNormalizer.cpp:9-61 | a task comes back exactly when the payload is an object with non-empty device_id, capability and action; otherwise the matching error text; the task carries those three fields, a kept or generated command id, a fresh "task-" id, the clock, the idempotency key or its command-id fallback, params when an object, and state Pending |
| Normalizers.NormalizeFlowSensor | src/util/my_control/demo/flow_sensor/FlowSensorCommandNormalizer.cpp:10-58 | a task comes back exactly when the payload is an object with a non-empty device_id; otherwise the matching error text; the capability is always flow_speed and the action the payload's or "read", with the same ids, time, idempotency and state as every normalised task |
| Normalizers.FlowSensorDefaultsToRead | src/util/my_control/demo/flow_sensor/FlowSensorCommandNormalizer.cpp:31 | with no action in the payload the flow-sensor task reads |
| Normalizers.NormalisedTaskRoundTrips | src/util/my_control/demo/uuv/UUVCommandNormalizer.cpp:34-57 | every task a normaliser builds survives serialisation and parsing unchanged |
| Status.ConnStateToString | src/util/my_data/demo/Status.cpp:7-14 | every connection state has a non-empty name |
| Status.WorkStateToString | src/util/my_data/demo/Status.cpp:15-22 | every work state has a non-empty name |
| Status.RunStateToString | src/util/my_data/demo/Status.cpp:23-31 | every edge run state has a non-empty name |
| Status.StateNamesDistinct | src/util/my_data/demo/Status.cpp:7-31 | each table gives its named enumerators different names, and falls back to its "Unknown..." name exactly for values outside them |
| Status.DeviceToJson | src/util/my_data/demo/Status.cpp:47-58 | a device status serialises to an object |
| Status.DeviceFromJson | src/util/my_data/demo/Status.cpp:60-71 | a non-object parses to the default device status |
| Status.DeviceStringFieldsRoundTrip | src/util/my_data/demo/Status.cpp:47-71 | the device id, running task id and last error survive serialisation |
| Status.DeviceNumberFieldsRoundTrip | src/util/my_data/demo/Status.cpp:47-71 | both states, both times and the queue depth survive serialisation |
| Status.DeviceRoundTrip | src/util/my_data/demo/Status.cpp:47-71 | every device status survives serialisation unchanged |
| Status.DevicesToJson | src/util/my_data/demo/Status.cpp:101-105 | the devices object has exactly the device ids as keys, each holding that device's serialised status |
| Status.EdgeToJson | src/util/my_data/demo/Status.cpp:89-107 | an edge status serialises to an object |
| Status.DevicesFromJson | src/util/my_data/demo/Status.cpp:124-131 | only object-valued entries of a "devices" object are restored, and nothing from a non-object |
| Status.EdgeFromJson | src/util/my_data/demo/Status.cpp:109-133 | a non-object parses to the default edge status; the E-Stop flag is set exactly when "estop_active" holds the boolean true |
| Status.DevicesRoundTrip | src/util/my_data/demo/Status.cpp:101-105 | writing a devices map and reading it back gives the same map |
| Status.EdgeScalarFieldsRoundTrip | src/util/my_data/demo/Status.cpp:89-118 | edge id, run state, both times and the E-Stop flag survive serialisation |
| Status.EdgeTotalFieldsRoundTrip | src/util/my_data/demo/Status.cpp:96-131 | the E-Stop reason, both task totals, the version and the devices survive serialisation |
| Status.EdgeRoundTrip | src/util/my_data/demo/Status.cpp:89-133 | every edge status survives serialisation unchanged |
| Status.EdgeFromJsonDevices | src/util/my_data/demo/Status.cpp:124-131 | the restored devices are keyed by the object-valued entries of "devices", each parsed from its entry |
| StatusCells.StartedStatus | src/util/my_device/demo/uuv/UUVDevice.cpp:152-157 | a started task makes the device Busy under that task's id with a fresh last-seen time; identity, connection, error, last-task time and depth stay |
| StatusCells.FailureText | src/util/my_device/demo/uuv/UUVDevice.cpp:173 | the recorded error is never empty: the result's message, or the code's name when the message is empty |
| StatusCells.FinishEffect | src/util/my_device/demo/uuv/UUVDevice.cpp:163-178 | after a finish no task runs, last-task and last-seen times equal the finish time, the device is Idle with no error exactly on Ok and Faulted with a non-empty error otherwise |
| StatusCells.FinishForgetsStart | src/util/my_device/demo/uuv/UUVDevice.cpp:152-178 | a finish overwrites everything a start wrote |
| StatusCells.BusyThenIdleScenario | test/util/my_device/demo/TestUUVDevice.cpp:57-90 | a started "task-1" is seen Busy under that id; after its finish the device is Idle or Faulted, with no running id and a positive last-task time |
| StatusCells.CallbacksKeepConsistent | src/util/my_device/demo/uuv/UUVDevice.cpp:152-178 | both callbacks leave a running-task snapshot exactly while the device is Busy, naming the running task |
| StatusCells.StatusCell.constructor | src/util/my_device/demo/uuv/UUVDevice.cpp:7-16 | a new cell holds the given status and no running task |
| StatusCells.StatusCell.OnTaskStart | src/util/my_device/demo/uuv/UUVDevice.cpp:152-161 | the status moves as a start says and the running snapshot is the task, keeping the cell consistent |
| StatusCells.StatusCell.OnTaskFinish | src/util/my_device/demo/uuv/UUVDevice.cpp:163-186 | the status moves as a finish says and the running snapshot is cleared, keeping the cell consistent |
| StatusCells.StatusCell.Snapshot | src/util/my_device/demo/uuv/UUVDevice.cpp:147-150 | the snapshot is the current status |
| TaskQueues.PushEffect | src/util/my_control/TaskQueue.cpp:20-31 | a push on an open queue adds exactly that task at the back and keeps the rest; after shutdown it changes nothing |
| TaskQueues.ShutdownAndClear | src/util/my_control/TaskQueue.cpp:74-89 | shutdown is idempotent and keeps the pending tasks; clear empties the queue and keeps the flag |
| TaskQueues.PopEffect | src/util/my_control/TaskQueue.cpp:50-62 | a pop on an empty queue, open or shut down, yields nothing and changes nothing; otherwise it yields the oldest task and removes only it |
| TaskQueues.DrainIsFifo | src/util/my_control/TaskQueue.cpp:34-67 | successive pops return every pending task, in FIFO order |
| TaskQueues.DrainAfterShutdown | src/util/my_control/TaskQueue.cpp:50-62 | tasks queued before shutdown are still popped afterwards, in order |
| TaskQueues.PushAllEffect | src/util/my_control/TaskQueue.cpp:20-31 | a run of pushes on an open queue appends the tasks in order; on a shut down queue it changes nothing |
| TaskQueues.PushThenDrain | test/util/my_control/demo/TestTaskQueue.cpp:18-35 | what is pushed onto an open queue is popped after what was already there, in push order |
| TaskQueues.TaskQueue.constructor | src/util/my_control/TaskQueue.cpp:10-12 | a new queue has its name, no tasks and is open |
| TaskQueues.TaskQueue.Push | src/util/my_control/TaskQueue.cpp:20-31 | the queue moves as a push says |
| TaskQueues.TaskQueue.PopBlocking | src/util/my_control/TaskQueue.cpp:34-67 | once the wait ends, the outcome and the new queue are those of a pop |
| TaskQueues.TaskQueue.Size | src/util/my_control/TaskQueue.cpp:69-72 | the count of pending tasks |
| TaskQueues.TaskQueue.Clear | src/util/my_control/TaskQueue.cpp:74-79 | the queue moves as a clear says |
| TaskQueues.TaskQueue.Shutdown | src/util/my_control/TaskQueue.cpp:81-89 | the queue moves as a shutdown says |
| TaskQueues.TaskQueue.IsShutdown | src/util/my_control/TaskQueue.cpp:91-94 | whether the queue has been shut down |
| Controls.FirstRejected | src/util/my_control/demo/depth_sensor/DepthSensorControl.cpp:13-14 | no sensor setting is rejected exactly when every listed key is absent or numeric in an object |
| Controls.ConfigureSucceeds | src/util/my_control/demo/depth_sensor/DepthSensorControl.cpp:9-24 | Init succeeds exactly for an object whose present device_name is a string and whose present latency and sensor settings are numbers; absent keys keep the current values |
| Controls.Describe | src/util/my_control/demo/UUVControl.cpp:16-20 | a caught type error is reported with a non-empty text |
| Controls.Control.constructor | src/util/my_control/demo/uuv/UUVControl.h:25-26 | a new control has its kind's default device name and latency |
| Controls.Control.Init | src/util/my_control/demo/UUVControl.cpp:8-21 | the settings read before a type error stay assigned; the answer is true exactly when nothing was rejected, and otherwise the error text is reported |
| Controls.UuvDoTask | src/util/my_control/demo/UUVControl.cpp:23-79 | empty capability or action is rejected first; the task succeeds exactly for navigate/set, navigate/stop and sample_water/start, with their outputs; estop gives EStop; everything else is InvalidCommand with an empty output |
| Controls.DepthDoTask | src/util/my_control/demo/depth_sensor/DepthSensorControl.cpp:26-67 | only water_depth is served; it succeeds exactly for read, with a depth in metres, and calibrate; other actions and capabilities are rejected, naming them |
| Controls.FlowDoTask | src/util/my_control/demo/flow_sensor/FlowSensorControl.cpp:26-62 | it succeeds exactly for flow_speed/read, with a speed in m/s; other actions and capabilities are rejected, naming them |
| Controls.WindDoTask | src/util/my_control/demo/wind_sensor/WindSensorDevice.cpp:28-69 | it succeeds exactly for wind/read, with three velocity components in m/s; other actions and capabilities are rejected, naming them |
| Controls.DoTask | src/util/my_control/IControl.h:27-30 | every executor stamps both times, answers with an object, and gives a message with every failure |
| Controls.DoTaskResultSerialisable | src/util/my_data/demo/TaskResult.cpp:18-38 | every executor's result survives serialisation unchanged, and a failure carries a message |
| Workflows.EStopFlag.constructor | src/util/my_control/demo/Workflow.h:66-67 | a new flag holds the given value |
| Workflows.EStopFlag.Set | src/util/my_control/demo/Workflow.h:66-67 | the flag holds the new value |
| Workflows.Workflow.constructor | src/util/my_control/demo/Workflow.h:28 | a new worker is bound to its queue and control, not running, with no flag and no callbacks |
| Workflows.Workflow.SetEStopFlag | src/util/my_control/demo/Workflow.h:35 | the injected flag is replaced and nothing else changes |
| Workflows.Workflow.SetStartCallback | src/util/my_control/demo/Workflow.h:37-40 | the start callback is replaced and nothing else changes |
| Workflows.Workflow.SetFinishCallback | src/util/my_control/demo/Workflow.h:42-45 | the finish callback is replaced and nothing else changes |
| Workflows.Workflow.Start | src/util/my_control/demo/Workflow.h:47 | refused exactly while running; otherwise the worker runs with its stop request cleared |
| Workflows.Workflow.Stop | src/util/my_control/demo/Workflow.h:48 | a stop is requested and nothing else changes |
| Workflows.Workflow.Join | src/util/my_control/demo/Workflow.h:49 | once a stop was requested or the queue shut down, the worker no longer runs |
| Workflows.Workflow.IsRunning | src/util/my_control/demo/Workflow.h:51 | whether the worker runs |
| Workflows.Workflow.RunOnce | src/util/my_control/demo/Workflow.h:15-22 | a stopped or stopping worker exits and an E-Stop pauses it, touching nothing; otherwise it pops as the queue says, runs the popped task on its control, and leaves the start and finish callbacks' cells as a start and a finish say, in that order |
| Workflows.StepRunsPushedTask | src/util/my_control/demo/Workflow.h:20 | a task pushed into an empty open queue is the next one popped |
| Workflows.ExecuteOneTaskScenario | test/util/my_control/demo/TestWorkflow.cpp:15-46 | one navigate/set task pushed into a started UUV worker with a cleared E-Stop is executed with an Ok result |
| Workflows.ShutdownStopJoinScenario | test/util/my_control/demo/TestWorkflow.cpp:48-50 | after queue shutdown, Stop and Join the worker no longer runs and takes nothing more |
| MyControl.CreateNormalizer | src/util/my_control/MyControl.cpp:13-22 | a normaliser is created exactly for "uuv" or "UUV", and it is the UUV one |
| MyControl.Normalize | src/util/my_control/ICommandNormalizer.h:25-34 | whichever normaliser runs, a task it returns is normalised and names the payload's non-empty device id, and a refusal carries a non-empty reason |
| MyControl.CreateControl | src/util/my_control/MyControl.cpp:24-33 | a control is created exactly for "uuv" or "UUV": a new UUV control with its default name and a 200 ms latency |
| MyControl.FactoriesRejectOtherSpellings | src/util/my_control/MyControl.cpp:16 | the type match is case-sensitive: other spellings and the sensor type names create nothing |
| Devices.InitialStatus | src/util/my_device/demo/uuv/UUVDevice.cpp:7-16 | a new device reports its default id, Unknown, Idle, no running task, no error, and the construction time as last seen |
| Devices.OnlineStatus | src/util/my_device/demo/uuv/UUVDevice.cpp:48-54 | once the identity is read the device reports it, Online, Idle and a fresh last-seen time; running task, error, last-task time and depth stay |
| Devices.ReadIdentityEffect | src/util/my_device/demo/uuv/UUVDevice.cpp:45-46 | reading the identity fails exactly when the configuration is not an object or holds a non-string id or name; absent keys keep the defaults; a bad name does not undo a good id |
| Devices.Device.constructor | src/util/my_device/demo/uuv/UUVDevice.cpp:7-18 | a new device has its default identity, no control, worker, queue or flag, and a fresh status cell holding the initial status and no running task |
| Devices.Device.Init | src/util/my_device/demo/uuv/UUVDevice.cpp:40-82 | identity read first (a type error is reported and stops there), then Online/Idle, then the control from the factory: the UUV device gets a configured UUV control and succeeds exactly when its configuration is accepted; the wind device gets none and fails with the factory error; nothing is rolled back |
| Devices.Device.AttachControl | src/util/my_device/demo/uuv/UUVDevice.cpp:56-75 | the control requested by type: none for the wind device, with its error; a UUV control configured from the control section for the UUV device, succeeding exactly when that configuration is accepted |
| Devices.Device.Start | src/util/my_device/demo/uuv/UUVDevice.cpp:84-123 | refused without a control; otherwise a new running worker named "wf-" plus the device id, bound to the queue and the control, with the flag and both status callbacks installed |
| Devices.Device.Stop | src/util/my_device/demo/uuv/UUVDevice.cpp:125-137 | the worker is asked to stop and only the last-seen time changes in the status |
| Devices.Device.Join | src/util/my_device/demo/uuv/UUVDevice.cpp:139-145 | the worker no longer runs once it was asked to stop or its queue was shut down |
| Devices.Device.GetStatusSnapshot | src/util/my_device/demo/uuv/UUVDevice.cpp:147-150 | the snapshot is the cell's current status |
| MyDevice.FactoriesAgree | src/util/my_device/MyDevice.cpp:15 | the device factory accepts exactly the types the normaliser factory accepts |
| MyDevice.Create | src/util/my_device/MyDevice.cpp:12-21 | a device is created exactly for "uuv" or "UUV": a new UUV device with its declared default identity, no control, no worker and its initial status |
| MyDevice.StartBeforeInitScenario | src/util/my_device/demo/uuv/UUVDevice.cpp:88-92 | a created device started before Init is refused with the "not initialized" error |
| MyDevice.InitStartScenario | test/util/my_device/demo/TestUUVDevice.cpp:14-34 | uuv-1 configured with a control section initialises, starts, and reports its id and Online |
| EdgeRules.RunStateName | src/util/my_edge/demo/UUVEdge.cpp:20-29 | every run state has a non-empty name |
| EdgeRules.ExternalRunStateMeaning | src/util/my_edge/demo/UUVEdge.cpp:301-311 | a snapshot reports Running exactly for a running edge without E-Stop, EStop exactly for a running edge with it, Initializing exactly before Start, and Degraded exactly while stopping or stopped |
| EdgeRules.EStopMessage | src/util/my_edge/demo/UUVEdge.cpp:219-220 | the E-Stop rejection text carries the reason when there is one |
| EdgeRules.Decide | src/util/my_edge/demo/UUVEdge.cpp:195-291 | a rejection is never Ok, has a message, queue size zero, and the edge's and command's ids; an acceptance needs a running edge whose E-Stop allows queueing, a known device with a normaliser and an open queue, and carries a normalised task for that device |
| EdgeRules.Route | src/util/my_edge/demo/UUVEdge.cpp:240-283 | once the device id is known: unknown device, missing normaliser, failed normalisation, missing or shut-down queue each reject; otherwise the normalised task goes to that device |
| EdgeRules.SubmitCheckOrder | src/util/my_edge/demo/UUVEdge.cpp:202-246 | NotRunning exactly when the edge is not running; EStop exactly when it runs with the flag raised and queueing not allowed; then a non-object payload or a missing device id is InvalidCommand, then an unknown id UnknownDevice; QueueShutdown only for a shut-down device queue |
| EdgeRules.CompleteEdgeNeverInternal | src/util/my_edge/demo/UUVEdge.cpp:250-277 | with every device queued and every type normalised, Submit never reports InternalError, and accepts exactly when the edge runs, E-Stop allows it, the device is known with an open queue, and normalisation succeeds |
| EdgeRules.EdgeTestRunStates | test/util/my_edge/demo/TestUUVEdge.cpp:38-162 | a well-formed command is NotRunning before Start, Ok after it, EStop under E-Stop, and Ok under E-Stop when queueing is allowed |
| EdgeRules.EdgeTestBadDeviceIds | test/util/my_edge/demo/TestUUVEdge.cpp:90-121 | an unknown device id is UnknownDevice and a missing one InvalidCommand |
| EdgeRules.ReadHeader | src/util/my_edge/demo/UUVEdge.cpp:73-75 | the header reads exactly from an object whose present edge id and version are strings and whose present queueing policy is a boolean; an absent policy means no queueing under E-Stop |
| EdgeRules.CheckItemMeaning | src/util/my_edge/demo/UUVEdge.cpp:97-145 | a devices item is accepted exactly when it is an object with a non-empty string id, a "uuv"/"UUV" type and a configuration the device accepts; it is then filed under that id and type |
| EdgeRules.FirstFailure | src/util/my_edge/demo/UUVEdge.cpp:97-146 | the items before the first refused one are all accepted, and that one is not |
| EdgeRules.ConfiguredFromItems | src/util/my_edge/demo/UUVEdge.cpp:110 | every configured id maps to the type of an accepted item with that id, and every cached normaliser type is a UUV type |
| EdgeRules.FirstFailureStep | src/util/my_edge/demo/UUVEdge.cpp:97-146 | inside the accepted prefix an accepted item extends it and a refused one ends it |
| EdgeRules.ConfiguredStep | src/util/my_edge/demo/UUVEdge.cpp:110-145 | one more accepted item adds its id and type to the table and its type to the normalisers |
| EdgeRules.InitSucceedsIff | src/util/my_edge/demo/UUVEdge.cpp:68-152 | Init succeeds exactly when the header reads, the devices array is present and every item is accepted |
| EdgeRules.TotalRemove | src/util/my_edge/demo/UUVEdge.cpp:320-333 | the pending total does not depend on the order the devices are visited |
| EdgeRules.TotalNonNegative | src/util/my_edge/demo/UUVEdge.cpp:342 | a sum of queue sizes is never negative |
| Edges.UuvEdge.constructor | src/util/my_edge/demo/UUVEdge.h:76-97 | a new edge has the default identity and version, is Initializing with E-Stop cleared and no tables |
| Edges.UuvEdge.Init | src/util/my_edge/demo/UUVEdge.cpp:68-152 | the outcome is the one the rules give; a header type error keeps the old tables, boot time and run state with the part of the header read; otherwise the boot time is stamped, the tables rebuilt from the accepted items, and the edge is Ready on success, Initializing on a refused item, unchanged on a throwing item |
| Edges.UuvEdge.Install | src/util/my_edge/demo/UUVEdge.cpp:73-152 | the header's values, the boot time, the tables and the run state are installed |
| Edges.UuvEdge.SetIdentity | src/util/my_edge/demo/UUVEdge.cpp:73-74 | only the edge id and version change |
| Edges.UuvEdge.SetHeader | src/util/my_edge/demo/UUVEdge.cpp:73-76 | only the header's values and the boot time change |
| Edges.UuvEdge.SetTables | src/util/my_edge/demo/UUVEdge.cpp:82-85 | only the tables and the run state change |
| Edges.UuvEdge.Start | src/util/my_edge/demo/UUVEdge.cpp:154-193 | a non-Ready edge is rejected with its run state named and no device touched; a Ready edge becomes Running, with every device's worker running on its own queue and the edge's flag, exactly when every device has a control, and otherwise goes back to Ready with an error naming a device without a control; the identity, header and tables are kept |
| Edges.UuvEdge.SetRunState | src/util/my_edge/demo/UUVEdge.cpp:173-190 | only the run state changes |
| Edges.UuvEdge.Submit | src/util/my_edge/demo/UUVEdge.cpp:195-291 | a rejection returns the rules' result and leaves every queue as it was; an acceptance appends the normalised task to that device's open queue only and reports Ok with the queue's new size |
| Edges.UuvEdge.SetEStop | src/util/my_edge/demo/UUVEdge.cpp:350-360 | the flag and reason are set; the identity, boot time, version, queueing policy, run state and tables are kept |
| Edges.UuvEdge.GetStatusSnapshot | src/util/my_edge/demo/UUVEdge.cpp:293-348 | the snapshot reports the identity, the external run state, the E-Stop flag and reason, each device's status with its queue depth, the sum of the depths and the number of Busy devices |
| Edges.UuvEdge.Shutdown | src/util/my_edge/demo/UUVEdge.cpp:362-401 | nothing happens once stopping or stopped (run state, tables, status cells, workers and queues are kept); otherwise every queue is shut down, every device stopped and joined with a fresh last-seen time, the tables are cleared and the edge is Stopped; the identity, boot time, E-Stop reason and queueing policy are kept either way |
| Edges.TypedRefused | src/util/my_edge/demo/UUVEdge.cpp:110-131 | an item refused after its type and queue were recorded leaves no new device |
| Edges.RecordKeepsShape | src/util/my_edge/demo/UUVEdge.cpp:110-145 | an accepted item keeps every device queued, typed and normalised |
| Edges.RecordKeepsFiled | src/util/my_edge/demo/UUVEdge.cpp:145 | the added device is filed under its own id |
| Edges.RecordKeepsKeys | src/util/my_edge/demo/UUVEdge.cpp:110-145 | an accepted item adds its id to the type, queue and device tables and its type to the normalisers |
| Edges.FiledInjective | src/util/my_edge/demo/UUVEdge.cpp:145 | no device is filed under two ids |
| Edges.RefuseKeepsShape | src/util/my_edge/demo/UUVEdge.cpp:101-142 | a refused item keeps the tables' shape |
| Edges.AddDevices | src/util/my_edge/demo/UUVEdge.cpp:97-146 | the outcome is that of the first refused item, or success; the tables hold a device for every item before it, and on success exactly the configured ids and types |
| Edges.EnsureNormalizer | src/util/my_edge/demo/UUVEdge.cpp:47-66 | a normaliser is cached exactly for a UUV type, reusing one already cached |
| Edges.AddDevice | src/util/my_edge/demo/UUVEdge.cpp:98-107 | one item's outcome is the rules' check; a throwing item changes nothing, a refused one adds no device, an accepted one records its new device |
| Edges.RecordItem | src/util/my_edge/demo/UUVEdge.cpp:109-145 | the type is recorded first, then the normaliser, queue and device; a failure keeps what was recorded before it |
| Edges.AttachDevice | src/util/my_edge/demo/UUVEdge.cpp:118-142 | a fresh open queue is always created; a device is kept only when the factory makes it and it initialises |
| Edges.StartDevices | src/util/my_edge/demo/UUVEdge.cpp:166-188 | every device is started on its own queue with the flag exactly when all have controls; otherwise a device without a control is named in the error |
| Edges.DepthsStep | src/util/my_edge/demo/UUVEdge.cpp:329-333 | one more device adds its queue depth to the pending total |
| Edges.EntriesStep | src/util/my_edge/demo/UUVEdge.cpp:339 | one more device adds its entry |
| Edges.BusyStep | src/util/my_edge/demo/UUVEdge.cpp:335-337 | one more device adds one to the running total exactly when it is Busy |
| Edges.MoveOne | src/util/my_edge/demo/UUVEdge.cpp:323 | the visited and remaining devices stay apart and together cover all devices |
| Edges.SnapshotDevices | src/util/my_edge/demo/UUVEdge.cpp:319-343 | the entries, the pending sum and the Busy count are those of all the devices |
| Edges.HaltAll | src/util/my_edge/demo/UUVEdge.cpp:373-392 | every queue is shut down and every device stopped and joined |
| Edges.StopDevices | src/util/my_edge/demo/UUVEdge.cpp:373-378 | every device's worker is told to stop and its last-seen time is fresh |
| Edges.ShutdownQueues | src/util/my_edge/demo/UUVEdge.cpp:380-385 | every queue is shut down and keeps its items |
| Edges.JoinDevices | src/util/my_edge/demo/UUVEdge.cpp:387-392 | every worker told to stop has finished |
| EdgeRegistry.AfterStart | src/util/my_edge/MyEdges.cpp:92-115 | startAllEdges changes only a Ready edge, and an edge runs afterwards exactly when it ran already or was Ready with every device controlled |
| EdgeRegistry.Lookup | src/util/my_edge/MyEdges.cpp:117-132 | the edge filed under the id, and EdgeNotFoundException exactly when there is none |
| EdgeRegistry.Registry.constructor | src/util/my_edge/MyEdges.h:103 | a new registry files no edge |
| EdgeRegistry.Registry.Append | src/util/my_edge/MyEdges.cpp:17-41 | a null edge is refused and an id already filed throws, both leaving the table as it was; otherwise the edge is filed under its own id and ownership stays exclusive |
| EdgeRegistry.Registry.Delete | src/util/my_edge/MyEdges.cpp:75-90 | true exactly when the id was filed; the table afterwards is the old one without that id |
| EdgeRegistry.Registry.EdgeIds | src/util/my_edge/MyEdges.cpp:59-73 | every filed id, each once |
| EdgeRegistry.Registry.EdgeList | src/util/my_edge/MyEdges.cpp:43-57 | every filed edge, each once |
| EdgeRegistry.Registry.StartAll | src/util/my_edge/MyEdges.cpp:92-115 | every edge is started whatever the others did; each run state moves as AfterStart says, and the answer is true exactly when every edge was Ready with every device controlled |
| EdgeRegistry.Registry.HeartbeatInfo | src/util/my_edge/MyEdges.cpp:134-145 | one entry per filed edge id, holding that edge's status snapshot as JSON, which reads back as the snapshot |
| EdgeRegistry.SnapshotKept | src/util/my_edge/demo/UUVEdge.cpp:293-348 | an edge whose own fields, flag, status cells and queues did not change reports the same snapshot |
| EdgeRegistry.StartOne | src/util/my_edge/MyEdges.cpp:95-110 | starting one edge moves only its run state, as AfterStart says, and leaves the other edges alone |
| EdgeRegistry.Untouched | src/util/my_edge/MyEdges.cpp:95-110 | an edge whose fields and devices did not change keeps its run state and whether its devices are controlled |
| EdgeRegistry.StartEdges | src/util/my_edge/MyEdges.cpp:95-110 | every edge's run state moves as AfterStart says, and the answer is true exactly when all were Ready with every device controlled |
| Db.FromJson | src/util/my_db/MyDB.cpp:10-28 | a non-object gives the defaults; an object is read exactly when every present key has the right type, and then each setting is the stored value or its default |
| Db.FromJsonReadsBack | src/util/my_db/MyDB.cpp:10-28 | every configuration written as an object reads back unchanged |
| Db.SyncMode | src/util/my_db/MyDB.cpp:134-138 | the level sent is always OFF, NORMAL or FULL: the configured one when it is one of those, NORMAL otherwise |
| Db.Run | src/util/my_db/MyDB.cpp:113-120 | a chain of statements sends a prefix of them, stops at the first refused one with its error, and sends them all exactly when none is refused |
| Db.TxCommitsOnlyOnSuccess | src/util/my_db/MyDB.cpp:184-216 | a transaction starts with BEGIN IMMEDIATE and succeeds exactly when BEGIN, the callback and COMMIT all succeed, ending with COMMIT; past BEGIN, any failure ends with ROLLBACK and carries an error, the callback's own or "transaction aborted" |
| Db.MigrationCommitsWhenAccepted | src/util/my_db/MyDB.cpp:237-292 | with every statement accepted the migration sends all its steps between BEGIN and COMMIT and succeeds |
| Db.MigrationStopsAtRefusal | src/util/my_db/MyDB.cpp:237-298 | a refused migration step is rolled back with its error, and no later step is sent |
| Db.Database.constructor | src/util/my_db/MyDB.h:18-33 | a new database has the default configuration, is not initialised and has sent nothing |
| Db.Database.ExecLocked | src/util/my_db/MyDB.cpp:157-171 | the statement is sent and SQLite's answer to it returned |
| Db.Database.RunLocked | src/util/my_db/MyDB.cpp:127-144 | the statements sent and the error are those of the chain |
| Db.Database.CallLocked | src/util/my_db/MyDB.cpp:186-205 | the callback's statements, verdict and error are those the transaction model gives |
| Db.Database.ApplyPragmasLocked | src/util/my_db/MyDB.cpp:127-144 | the journal mode, synchronous level and foreign-key pragmas are sent in order, stopping at the first refusal |
| Db.Database.Init | src/util/my_db/MyDB.cpp:66-125 | an initialised database ignores the call; otherwise the configuration is stored, a disabled one succeeds, a non-SQLite type, a directory error, an open error or a refused pragma fail with their texts, and the database is initialised exactly when it succeeds enabled |
| Db.Database.Exec | src/util/my_db/MyDB.cpp:146-155 | refused with "db not initialized" before Init succeeded; otherwise the statement is sent and its answer returned |
| Db.Database.TransactionLocked | src/util/my_db/MyDB.cpp:184-216 | the statements sent, the answer and the error are those of the transaction model |
| Db.Database.Transaction | src/util/my_db/MyDB.cpp:173-182 | refused with "db not initialized" before Init succeeded; otherwise a transaction around the callback |
| Db.Database.Migrate | src/util/my_db/MyDB.cpp:218-302 | a disabled database succeeds without sending anything; an enabled one before Init is refused; otherwise the version table is created, and on success the steps run in one transaction |
| Db.Database.Close | src/util/my_db/MyDB.cpp:304-312 | the connection is closed and the database no longer initialised; the configuration and the statements sent stay |
| Doctor.RunCheck | src/util/my_doctor/MyDoctor.cpp:33-41 | every item passes under its own module name with the "check passed" message |
| Doctor.RunCheckIgnoresTarget | src/util/my_doctor/MyDoctor.cpp:33-41 | the check result depends only on the module name, not on the target or expectation |
| Doctor.Checked | src/util/my_doctor/MyDoctor.cpp:22-31 | one result per item, in item order, each under that item's module name and successful |
| Doctor.ReportReadsBack | src/util/my_doctor/MyDoctor.cpp:43-55 | the report keeps every result in order and is null exactly when there are none |
| Doctor.ReportNamesCheckedModules | src/util/my_doctor/MyDoctor.cpp:22-55 | after a run the report names a module exactly when some item has that module name |
| Doctor.MyDoctor.constructor | src/util/my_doctor/MyDoctor.h:70-71 | a new doctor has no items and no results |
| Doctor.MyDoctor.Init | src/util/my_doctor/MyDoctor.cpp:14-20 | the items are replaced, earlier results dropped, and the answer is true |
| Doctor.MyDoctor.StartAll | src/util/my_doctor/MyDoctor.cpp:22-31 | the results are those of checking every item, in order; the items stay |
| Doctor.MyDoctor.ToJson | src/util/my_doctor/MyDoctor.cpp:43-55 | the JSON is the report of the results |
| Doctor.MultipleInit | test/util/my_doctor/TestMyDoctor.cpp:95-118 | a doctor initialised and run twice reports, each time, exactly the modules of the items it was last given |

## Left out

- Threads, mutexes, condition variables and atomics are not modelled. Each public operation is one atomic step. A blocking or timed wait (`TaskQueue::pop` with a timeout, the Workflow worker's wait) becomes "returns no item when the queue is empty". Wake-up latency and deadlock freedom cannot be stated.
- Workflow.cpp is not part of this model. The worker is modelled from Workflow.h's declarations and its test: one `RunOnce` step stands for one iteration of the worker loop.
- The wall clock (`NowMs`) and the id sequence counter are parameters (an id clock of time and counter). Sleeps (`simulate_latency_ms`) and the sensors' random readings are not modelled. Only codes, messages and output keys are modelled, not the numeric values.
- Ids.GenerateId: the branch that uses "id" for a null prefix is not modelled, because every caller passes a string literal. The 64-bit wrap of the sequence counter is not modelled either; the counter is unbounded.
- SQLite and the filesystem are parameters. The engine's answer to each statement, the directory-creation error and the open error are given as inputs. `sqlite3_busy_timeout` is not modelled, and the column lists of the CREATE TABLE statements are left out of the statement texts.
- TaskRepository, StatusRepository and the snapshot-thread test are not part of this model.
- Floating-point values: a JSON float is kept only as its value truncated toward zero, which is all that `get<int>()` reads of it.
- The wording of nlohmann's `type_error` messages is not modelled. A failed conversion is a plain failure.
- The `GetInstance` singletons, destructors, log output, `toString`/`ostringstream` formats and `json::dump` text are not modelled. The structured `toJson`/`fromJson` mappings are modelled instead.
- MyEdges: the `catch` branches that only log are not modelled. The `thread_local` buffers returned by `getEdges`/`getEdgeIds` become fresh sequences. The exclusive ownership that a `unique_ptr` gives is a precondition of `Append`: the edge shares no device with a filed edge.
- Edges.StartDevices: the source's branch for a device without a queue is kept, but Init never leaves a device without one, so the precondition `devices.Keys <= queues.Keys` makes that branch unreachable and no contract describes its error text.
- Edges.UuvEdge.Shutdown: one clock value stands for every device's Stop in a shutdown, while the source reads the clock again in each `UUVDevice::Stop`.
- WindSensorCommandNormalizer is header-only and its body is not part of this model. DepthSensorDevice.h and FlowSensorDevice.h are not part of this model either. The control factory has no wind-sensor entry, so the wind-sensor device's Init always fails; the model keeps that.
- Networking and processes are not modelled: the MQTT client, manager and server, the HTTP controllers and DTOs, the heartbeat manager's sleep loop, InitTools and the MyEdge bootstrap factory.
