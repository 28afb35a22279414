/** The status cell a device keeps (`status_` plus the running-task
    snapshot in UUVDevice.cpp and the device-side WindSensorDevice.cpp),
    and the two worker callbacks that overwrite it. Both devices use the
    same update rules, so the cell is modelled once. */
module StatusCells {
  import opened Wrappers
  import opened Json
  import opened Tasks
  import opened TaskResults
  import opened Status
  import Error

  /** `UpdateOnTaskStart`: Busy, the task's id, and a fresh last-seen time. */
  function StartedStatus(s: DeviceStatus, t: Task, nowMs: Int64): (s': DeviceStatus)
    ensures s'.workState == Busy && s'.runningTaskId == t.taskId && s'.lastSeenAtMs == nowMs
    ensures s'.deviceId == s.deviceId && s'.connState == s.connState && s'.lastError == s.lastError
    ensures s'.lastTaskAtMs == s.lastTaskAtMs && s'.queueDepth == s.queueDepth
  {
    s.(workState := Busy, runningTaskId := t.taskId, lastSeenAtMs := nowMs)
  }

  /** The text recorded for a failed task: its message, or the code's name
      when the message is empty. */
  function FailureText(r: TaskResult): (text: string)
    ensures |text| > 0
    ensures r.message != "" ==> text == r.message
  {
    if r.message == "" then Error.ToString(r.code) else r.message
  }

  /** `UpdateOnTaskFinish`: the finish time is both last-task and last-seen
      time; Ok gives Idle with no error, anything else Faulted with the
      failure text; the running id is cleared. */
  function FinishedStatus(s: DeviceStatus, r: TaskResult, nowMs: Int64): DeviceStatus
  {
    if r.code == Error.Ok then
      s.(lastTaskAtMs := nowMs, lastSeenAtMs := nowMs, lastError := "", workState := Idle, runningTaskId := "")
    else
      s.(lastTaskAtMs := nowMs, lastSeenAtMs := nowMs, lastError := FailureText(r), workState := Faulted, runningTaskId := "")
  }

  /** What a finish leaves behind, stated as observations: no running task,
      equal last-task and last-seen times, Idle exactly on Ok, Faulted with a
      non-empty error exactly otherwise; identity, connection and depth are
      untouched. */
  lemma FinishEffect(s: DeviceStatus, r: TaskResult, nowMs: Int64)
    ensures var s' := FinishedStatus(s, r, nowMs);
      && s'.runningTaskId == ""
      && s'.lastTaskAtMs == nowMs && s'.lastSeenAtMs == s'.lastTaskAtMs
      && (s'.workState == Idle <==> r.code == Error.Ok)
      && (s'.workState == Faulted <==> r.code != Error.Ok)
      && (s'.lastError == "" <==> r.code == Error.Ok)
      && (r.code != Error.Ok && r.message == "" ==> s'.lastError == Error.ToString(r.code))
      && s'.deviceId == s.deviceId && s'.connState == s.connState && s'.queueDepth == s.queueDepth
  {
    var s' := FinishedStatus(s, r, nowMs);
    if r.code != Error.Ok {
      assert s'.lastError == FailureText(r);
    }
  }

  /** A finish overwrites every field a start wrote, so a completed task
      leaves the same status as if only the finish had happened. */
  lemma FinishForgetsStart(s: DeviceStatus, t: Task, r: TaskResult, startMs: Int64, finishMs: Int64)
    ensures FinishedStatus(StartedStatus(s, t, startMs), r, finishMs) == FinishedStatus(s, r, finishMs)
  {
  }

  /** The device test's observation: a started "task-1" is seen Busy with
      that id; after finishing at a positive time it is Idle or Faulted, the
      running id is empty and the last-task time is positive. */
  lemma BusyThenIdleScenario(s: DeviceStatus, t: Task, r: TaskResult, startMs: Int64, finishMs: Int64)
    requires t.taskId == "task-1" && finishMs > 0
    ensures StartedStatus(s, t, startMs).workState == Busy
    ensures StartedStatus(s, t, startMs).runningTaskId == "task-1"
    ensures var f := FinishedStatus(StartedStatus(s, t, startMs), r, finishMs);
      f.lastTaskAtMs > 0 && f.workState in {Idle, Faulted} && f.runningTaskId == ""
  {
    FinishEffect(StartedStatus(s, t, startMs), r, finishMs);
  }

  /** The cell's consistency: a snapshot of a running task exists exactly
      while the state is Busy, and then the status names that task. */
  predicate Consistent(status: DeviceStatus, running: Option<Task>)
  {
    && (running.Some? <==> status.workState == Busy)
    && (running.Some? ==> status.runningTaskId == running.value.taskId)
  }

  /** Both callbacks keep the cell consistent, whatever state they meet. */
  lemma CallbacksKeepConsistent(s: DeviceStatus, t: Task, r: TaskResult, nowMs: Int64)
    ensures Consistent(StartedStatus(s, t, nowMs), Some(t))
    ensures Consistent(FinishedStatus(s, r, nowMs), None)
  {
    FinishEffect(s, r, nowMs);
  }

  class StatusCell {
    var status: DeviceStatus
    var runningTask: Option<Task>

    constructor (status: DeviceStatus)
      ensures this.status == status && runningTask == None
    {
      this.status := status;
      runningTask := None;
    }

    method OnTaskStart(t: Task, nowMs: Int64)
      modifies this
      ensures status == StartedStatus(old(status), t, nowMs) && runningTask == Some(t)
      ensures Consistent(status, runningTask)
    {
      status := status.(workState := Busy, runningTaskId := t.taskId, lastSeenAtMs := nowMs);
      runningTask := Some(t);
      CallbacksKeepConsistent(old(status), t, TaskResults.Default, nowMs);
    }

    method OnTaskFinish(t: Task, r: TaskResult, nowMs: Int64)
      modifies this
      ensures status == FinishedStatus(old(status), r, nowMs) && runningTask == None
      ensures Consistent(status, runningTask)
    {
      status := status.(lastTaskAtMs := nowMs, lastSeenAtMs := nowMs);
      if r.code == Error.Ok {
        status := status.(lastError := "", workState := Idle);
      } else {
        var text := if r.message == "" then Error.ToString(r.code) else r.message;
        status := status.(lastError := text, workState := Faulted);
      }
      status := status.(runningTaskId := "");
      runningTask := None;
      CallbacksKeepConsistent(old(status), t, r, nowMs);
    }

    method Snapshot() returns (s: DeviceStatus)
      ensures s == status
    {
      s := status;
    }
  }
}
