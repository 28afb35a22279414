/** The per-device FIFO of pending tasks with a one-way shutdown flag
    (TaskQueue.cpp). Locks and condition variables are gone: each operation is
    one atomic step, and a wait that would block on an empty queue returns no
    item instead. */
module TaskQueues {
  import opened Wrappers
  import opened Tasks

  /** What a queue holds: the pending tasks, oldest first, and the flag. */
  datatype QueueState = QueueState(items: seq<Task>, shutdown: bool)

  const Fresh: QueueState := QueueState([], false)

  /** Push: appended at the back, or silently dropped after shutdown. */
  function AfterPush(q: QueueState, t: Task): QueueState
  {
    if q.shutdown then q else q.(items := q.items + [t])
  }

  datatype PopOutcome = PopOutcome(item: Option<Task>, next: QueueState)

  /** PopBlocking once its wait is over: the front task when there is one,
      whether or not the queue is shut down; otherwise no item. */
  function AfterPop(q: QueueState): PopOutcome
  {
    if q.items == [] then PopOutcome(None, q)
    else PopOutcome(Some(q.items[0]), q.(items := q.items[1..]))
  }

  function AfterShutdown(q: QueueState): QueueState
  {
    q.(shutdown := true)
  }

  function AfterClear(q: QueueState): QueueState
  {
    q.(items := [])
  }

  /** Push on an open queue grows it by exactly one, at the back; after
      shutdown the queue is unchanged. */
  lemma PushEffect(q: QueueState, t: Task)
    ensures !q.shutdown ==> |AfterPush(q, t).items| == |q.items| + 1 && AfterPush(q, t).items[|q.items|] == t
    ensures !q.shutdown ==> AfterPush(q, t).items[..|q.items|] == q.items
    ensures q.shutdown ==> AfterPush(q, t) == q
  {
  }

  /** Shutdown is idempotent and keeps the pending tasks; Clear keeps the flag. */
  lemma ShutdownAndClear(q: QueueState)
    ensures AfterShutdown(AfterShutdown(q)) == AfterShutdown(q) && AfterShutdown(q).items == q.items
    ensures AfterClear(q).items == [] && AfterClear(q).shutdown == q.shutdown
  {
  }

  /** A pop on an empty queue, open or shut down, yields no item and leaves
      the queue as it was; otherwise it yields the oldest task and removes
      only that one. */
  lemma PopEffect(q: QueueState)
    ensures q.items == [] ==> AfterPop(q) == PopOutcome(None, q)
    ensures q.items != [] ==>
              AfterPop(q).item == Some(q.items[0]) &&
              AfterPop(q).next.items == q.items[1..] && AfterPop(q).next.shutdown == q.shutdown
  {
  }

  /** Everything successive pops return, until one returns no item. */
  function Drain(q: QueueState): seq<Task>
    decreases |q.items|
  {
    match AfterPop(q)
    case PopOutcome(None, _) => []
    case PopOutcome(Some(t), next) => [t] + Drain(next)
  }

  /** Pops return the pending tasks in FIFO order, and all of them. */
  lemma {:induction false} DrainIsFifo(q: QueueState)
    ensures Drain(q) == q.items
    decreases |q.items|
  {
    if q.items != [] {
      DrainIsFifo(AfterPop(q).next);
    }
  }

  /** Tasks queued before Shutdown remain poppable afterwards, in order. */
  lemma DrainAfterShutdown(q: QueueState)
    ensures Drain(AfterShutdown(q)) == q.items
  {
    DrainIsFifo(AfterShutdown(q));
  }

  function PushAll(q: QueueState, ts: seq<Task>): QueueState
    decreases |ts|
  {
    if ts == [] then q else PushAll(AfterPush(q, ts[0]), ts[1..])
  }

  /** A run of pushes on an open queue appends the tasks in order; on a shut
      down queue it changes nothing. */
  lemma {:induction false} PushAllEffect(q: QueueState, ts: seq<Task>)
    ensures !q.shutdown ==> PushAll(q, ts) == QueueState(q.items + ts, false)
    ensures q.shutdown ==> PushAll(q, ts) == q
    decreases |ts|
  {
    if ts != [] {
      PushAllEffect(AfterPush(q, ts[0]), ts[1..]);
      if !q.shutdown {
        assert q.items + [ts[0]] + ts[1..] == q.items + ts;
      }
    }
  }

  /** FIFO end to end: what is pushed onto an open queue is popped, after
      what was already there, in push order. */
  lemma PushThenDrain(q: QueueState, ts: seq<Task>)
    requires !q.shutdown
    ensures Drain(PushAll(q, ts)) == q.items + ts
  {
    PushAllEffect(q, ts);
    DrainIsFifo(PushAll(q, ts));
  }

  class TaskQueue {
    const name: string
    var items: seq<Task>
    var shutdown: bool

    function State(): QueueState
      reads this
    {
      QueueState(items, shutdown)
    }

    constructor (name: string)
      ensures this.name == name && State() == Fresh
    {
      this.name := name;
      items := [];
      shutdown := false;
    }

    method Push(t: Task)
      modifies this
      ensures State() == AfterPush(old(State()), t)
    {
      if shutdown {
        return;
      }
      items := items + [t];
    }

    /** PopBlocking: `timeoutMs` < 0 waits without limit, otherwise up to the
        deadline; either way, once the wait ends the outcome is the front task
        or no item. */
    method PopBlocking(timeoutMs: int) returns (r: Option<Task>)
      modifies this
      ensures PopOutcome(r, State()) == AfterPop(old(State()))
    {
      if items == [] {
        return None;
      }
      r := Some(items[0]);
      items := items[1..];
    }

    method Size() returns (n: nat)
      ensures n == |State().items|
    {
      n := |items|;
    }

    method Clear()
      modifies this
      ensures State() == AfterClear(old(State()))
    {
      items := [];
    }

    method Shutdown()
      modifies this
      ensures State() == AfterShutdown(old(State()))
    {
      if shutdown {
        return;
      }
      shutdown := true;
    }

    method IsShutdown() returns (b: bool)
      ensures b == State().shutdown
    {
      b := shutdown;
    }
  }
}
