/** The single FIFO task queue that defers promise reaction dispatch (src/async.js).
    The host backend (MutationObserver or setTimeout) is reduced to a flag saying that a
    drain of the queue has been requested and has not finished yet, and to a counter of
    the calls made to the backend hook. */
module Async {

  /** The module-level state of src/async.js: `queue`, plus the abstract backend. */
  datatype TaskQueue<T> = TaskQueue(
    tasks: seq<T>,           // `queue`, head first
    drainRequested: bool,    // a drain has been requested and has not yet finished
    requests: nat)           // how many times the backend hook was called

  /** The queue as the module starts: empty, nothing requested. */
  function Initial<T>(): TaskQueue<T> {
    TaskQueue([], false, 0)
  }

  /** `lang.async(cb)`: push `cb`; call the backend hook only when the push makes
      the queue one element long. */
  function Enqueued<T>(q: TaskQueue<T>, cb: T): TaskQueue<T> {
    var tasks := q.tasks + [cb];
    if |tasks| == 1 then TaskQueue(tasks, true, q.requests + 1)
    else q.(tasks := tasks)
  }

  /** `queue.shift()` after the head has returned (a no-op on an empty queue). */
  function Shifted<T>(q: TaskQueue<T>): TaskQueue<T> {
    if q.tasks == [] then q else q.(tasks := q.tasks[1..])
  }

  /** The drain that the backend started is over (run returned or threw). */
  function DrainEnded<T>(q: TaskQueue<T>): TaskQueue<T> {
    q.(drainRequested := false)
  }

  /** Nothing is stranded: a non-empty queue always has a drain on its way. */
  predicate Armed<T>(q: TaskQueue<T>) {
    q.tasks != [] ==> q.drainRequested
  }

  /** How a queue may change while tasks other than a drain run: tasks are only ever
      appended, and while the queue is non-empty no new drain is requested. */
  ghost predicate Grows<T>(q: TaskQueue<T>, q': TaskQueue<T>) {
    && q.tasks <= q'.tasks
    && q.requests <= q'.requests
    && (q.tasks != [] ==> q'.requests == q.requests && q'.drainRequested == q.drainRequested)
    && (Armed(q) ==> Armed(q'))
  }

  /** `lang.async(cb)` appends `cb` behind every queued task, does not run or drop any
      task, and requests a drain exactly when the queue was empty. */
  lemma PushAppends<T>(q: TaskQueue<T>, cb: T)
    ensures Enqueued(q, cb).tasks == q.tasks + [cb]
    ensures Enqueued(q, cb).tasks[|q.tasks|] == cb
    ensures Enqueued(q, cb).requests == if q.tasks == [] then q.requests + 1 else q.requests
    ensures q.tasks != [] ==> Enqueued(q, cb).drainRequested == q.drainRequested
    ensures Grows(q, Enqueued(q, cb))
  {
  }

  /** Pushing never strands a task: after a push the queue is armed, whatever it was. */
  lemma PushArms<T>(q: TaskQueue<T>, cb: T)
    requires Armed(q)
    ensures Armed(Enqueued(q, cb)) && Enqueued(q, cb).drainRequested
  {
  }

  /** A non-empty queue whose drain has ended is stranded for good: pushing onto it
      never calls the backend hook again, because the queue never becomes one long. */
  lemma {:induction false} StrandedStaysStranded<T>(q: TaskQueue<T>, cbs: seq<T>)
    requires q.tasks != [] && !q.drainRequested
    ensures var q' := EnqueuedAll(q, cbs);
      q'.tasks == q.tasks + cbs && !q'.drainRequested && q'.requests == q.requests
    decreases |cbs|
  {
    if cbs != [] {
      StrandedStaysStranded(Enqueued(q, cbs[0]), cbs[1..]);
      assert q.tasks + [cbs[0]] + cbs[1..] == q.tasks + cbs;
    }
  }

  /** `lang.async(cb)` for each callback in turn. */
  function EnqueuedAll<T>(q: TaskQueue<T>, cbs: seq<T>): TaskQueue<T>
    decreases |cbs|
  {
    if cbs == [] then q else EnqueuedAll(Enqueued(q, cbs[0]), cbs[1..])
  }

  /** Growth composes. */
  lemma GrowsTrans<T>(q1: TaskQueue<T>, q2: TaskQueue<T>, q3: TaskQueue<T>)
    requires Grows(q1, q2) && Grows(q2, q3)
    ensures Grows(q1, q3)
  {
  }

  /** Shifting the head after it ran keeps the original queue a prefix of what has run
      followed by what is still queued. */
  lemma ShiftedPrefix<T>(q0: seq<T>, q1: seq<T>, ran: seq<T>, rest: seq<T>)
    requires q0 != [] && q0 <= q1 && q1[1..] <= ran + rest
    ensures q0 <= [q0[0]] + ran + rest
  {
    assert q1 == [q0[0]] + q1[1..];
  }

  /** The module-level queue of src/async.js, updated in place. */
  class Scheduler<T> {
    var queue: seq<T>
    var drainRequested: bool
    var requests: nat

    function Snapshot(): TaskQueue<T>
      reads this
    {
      TaskQueue(queue, drainRequested, requests)
    }

    constructor ()
      ensures Snapshot() == Initial()
    {
      queue := [];
      drainRequested := false;
      requests := 0;
    }

    /** `lang.async(callback)`. */
    method Push(callback: T)
      modifies this
      ensures Snapshot() == Enqueued(old(Snapshot()), callback)
      ensures queue == old(queue) + [callback]
    {
      queue := queue + [callback];
      if |queue| == 1 {
        // lang.async.async(): the backend will call run later
        requests := requests + 1;
        drainRequested := true;
      }
    }

    /** `queue[0]`, read by run's loop only while the queue is non-empty. */
    method Head() returns (t: T)
      requires queue != []
      ensures t == queue[0]
    {
      t := queue[0];
    }

    /** `queue.shift()`. */
    method Shift()
      modifies this
      ensures Snapshot() == Shifted(old(Snapshot()))
    {
      if queue != [] {
        queue := queue[1..];
      }
    }

    /** The backend's drain is over. */
    method EndDrain()
      modifies this
      ensures Snapshot() == DrainEnded(old(Snapshot()))
    {
      drainRequested := false;
    }
  }
}
