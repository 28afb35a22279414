/** The per-device worker (Workflow.h): it is bound to one task queue and
    one control, carries running/stop flags and an injected E-Stop flag,
    and each iteration pops a task, fires the start callback, runs the
    control, and fires the finish callback. The thread is replaced by an
    explicit step, `RunOnce`; the callbacks the devices install are
    updates of their status cell, so a callback is a `StatusCell`. */
module Workflows {
  import opened Wrappers
  import opened Json
  import opened Tasks
  import opened TaskResults
  import opened TaskQueues
  import opened Controls
  import opened StatusCells
  import Error

  /** The shared `std::atomic<bool>` E-Stop flag an edge owns. */
  class EStopFlag {
    var active: bool

    constructor (active: bool)
      ensures this.active == active
    {
      this.active := active;
    }

    method Set(on: bool)
      modifies this
      ensures active == on
    {
      active := on;
    }
  }

  /** What one worker iteration did. */
  datatype StepOutcome =
    | Exited                                // not running, or asked to stop
    | Paused                                // E-Stop active: nothing taken
    | NoTask                                // the wait ended without a task
    | Ran(task: Task, result: TaskResult)   // one task executed

  /** The item a step took from the queue. */
  function Taken(o: StepOutcome): Option<Task>
  {
    if o.Ran? then Some(o.task) else None
  }

  /** Whether a step may take a task: the worker runs, is not stopping, and
      no E-Stop flag is raised. */
  predicate MayTake(running: bool, stop: bool, estopRaised: bool)
  {
    running && !stop && !estopRaised
  }

  class Workflow {
    const name: string
    const queue: TaskQueue
    const control: Control
    var running: bool
    var stop: bool
    var estop: EStopFlag?
    var onStart: StatusCell?
    var onFinish: StatusCell?

    constructor (name: string, queue: TaskQueue, control: Control)
      ensures this.name == name && this.queue == queue && this.control == control
      ensures !running && !stop && estop == null && onStart == null && onFinish == null
    {
      this.name := name;
      this.queue := queue;
      this.control := control;
      running := false;
      stop := false;
      estop := null;
      onStart := null;
      onFinish := null;
    }

    method SetEStopFlag(flag: EStopFlag?)
      modifies this
      ensures estop == flag
      ensures running == old(running) && stop == old(stop) && onStart == old(onStart) && onFinish == old(onFinish)
    {
      estop := flag;
    }

    method SetStartCallback(cell: StatusCell?)
      modifies this
      ensures onStart == cell
      ensures running == old(running) && stop == old(stop) && estop == old(estop) && onFinish == old(onFinish)
    {
      onStart := cell;
    }

    method SetFinishCallback(cell: StatusCell?)
      modifies this
      ensures onFinish == cell
      ensures running == old(running) && stop == old(stop) && estop == old(estop) && onStart == old(onStart)
    {
      onFinish := cell;
    }

    /** `Start`: refused while already running; otherwise the worker runs
        with its stop request cleared. */
    method Start() returns (ok: bool)
      modifies this
      ensures ok <==> !old(running)
      ensures running && (ok ==> !stop) && (!ok ==> stop == old(stop))
      ensures estop == old(estop) && onStart == old(onStart) && onFinish == old(onFinish)
    {
      if running {
        return false;
      }
      running := true;
      stop := false;
      return true;
    }

    /** `Stop`: a request; the worker notices it at its next iteration. */
    method Stop()
      modifies this
      ensures stop && running == old(running)
      ensures estop == old(estop) && onStart == old(onStart) && onFinish == old(onFinish)
    {
      stop := true;
    }

    /** `Join`: the worker has exited once a stop was requested or the queue
        was shut down; otherwise the source keeps waiting, and the model
        leaves the worker as it is. */
    method Join()
      modifies this
      ensures running == (old(running) && !stop && !queue.shutdown)
      ensures stop == old(stop) && estop == old(estop) && onStart == old(onStart) && onFinish == old(onFinish)
    {
      if stop || queue.shutdown {
        running := false;
      }
    }

    method IsRunning() returns (b: bool)
      ensures b == running
    {
      b := running;
    }

    /** One worker iteration. `startMs`/`finishMs` are the clock readings at
        the start and finish callbacks, `readings` the sensor values. */
    method RunOnce(startMs: Int64, finishMs: Int64, readings: Readings) returns (o: StepOutcome)
      modifies queue, onStart, onFinish
      ensures !MayTake(running, stop, estop != null && old(estop.active)) ==>
                && o == (if running && !stop then Paused else Exited)
                && unchanged(queue)
                && (onStart != null ==> unchanged(onStart))
                && (onFinish != null ==> unchanged(onFinish))
      ensures MayTake(running, stop, estop != null && old(estop.active)) ==>
                && (o.Ran? || o.NoTask?)
                && PopOutcome(Taken(o), queue.State()) == AfterPop(old(queue.State()))
      ensures o.NoTask? ==>
                && (onStart != null ==> unchanged(onStart))
                && (onFinish != null ==> unchanged(onFinish))
      ensures o.Ran? ==> o.result == DoTask(control.kind, o.task, startMs, finishMs, readings)
      ensures o.Ran? && onFinish != null ==>
                onFinish.status == FinishedStatus(
                  if onStart == onFinish then StartedStatus(old(onFinish.status), o.task, startMs) else old(onFinish.status),
                  o.result, finishMs)
                && onFinish.runningTask == None
      ensures o.Ran? && onStart != null && onStart != onFinish ==>
                onStart.status == StartedStatus(old(onStart.status), o.task, startMs)
                && onStart.runningTask == Some(o.task)
    {
      if !running || stop {
        return Exited;
      }
      if estop != null && estop.active {
        return Paused;
      }
      var popped := queue.PopBlocking(100);
      if popped.None? {
        return NoTask;
      }
      var t := popped.value;
      if onStart != null {
        onStart.OnTaskStart(t, startMs);
      }
      var r := DoTask(control.kind, t, startMs, finishMs, readings);
      if onFinish != null {
        onFinish.OnTaskFinish(t, r, finishMs);
      }
      return Ran(t, r);
    }
  }

  /** One task pushed into a running worker's empty queue is the next one
      executed, and its result reaches the finish callback. */
  lemma StepRunsPushedTask(q: QueueState, t: Task)
    requires !q.shutdown && q.items == []
    ensures AfterPop(AfterPush(q, t)).item == Some(t)
    ensures AfterPop(AfterPush(q, t)).next.items == []
  {
  }

  /** The worker test: a UUV control configured with a 1 ms latency, a
      started worker with a finish callback and a cleared E-Stop flag; one
      pushed navigate/set task yields exactly one Ok result. */
  method ExecuteOneTaskScenario(t: Task) returns (o: StepOutcome)
    requires t.capability == "navigate" && t.action == "set"
    ensures o.Ran? && o.task == t && o.result.code == Error.Ok
  {
    var q := new TaskQueue("workflow-queue");
    var ctrl := new Control(UuvControl);
    var ok, err := ctrl.Init(Obj(map["simulate_latency_ms" := Int(1)]));
    assert ctrl.kind == UuvControl;
    var wf := new Workflow("wf-1", q, ctrl);
    var flag := new EStopFlag(false);
    wf.SetEStopFlag(flag);
    var cell := new StatusCell(Status.DefaultDevice);
    wf.SetFinishCallback(cell);
    var started := wf.Start();
    q.Push(t);
    o := wf.RunOnce(1, 2, Readings(0, 0, 0));
    assert Taken(o) == Some(t);
    assert o.result == UuvDoTask(t, 1, 2);
  }

  /** The end of that test: after queue shutdown, Stop and Join the worker
      no longer runs and takes nothing more. */
  method ShutdownStopJoinScenario(wf: Workflow) returns (next: StepOutcome, stillRunning: bool)
    modifies wf, wf.queue, wf.onStart, wf.onFinish
    ensures next.Exited? && !stillRunning
    ensures wf.queue.State() == AfterShutdown(old(wf.queue.State()))
  {
    wf.queue.Shutdown();
    wf.Stop();
    wf.Join();
    next := wf.RunOnce(3, 4, Readings(0, 0, 0));
    stillRunning := wf.IsRunning();
  }
}
