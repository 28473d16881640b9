/** The worker (`OperationThread`): a private FIFO of tasks and a running
    flag. Its loop takes the head task, runs it if it is armed and puts it
    back at the tail otherwise, and stops once the queue is empty. Each
    loop pass is modelled as one atomic step; thread scheduling is not. */
module Workers {
  import opened Values
  import opened Tasks

  class Worker {
    var queue: seq<Task>       // `_os_queue`
    var running: bool          // `_started`
    ghost var executed: seq<Task>  // tasks whose `do_task` this worker called, in order

    constructor ()
      ensures queue == [] && running && executed == []
    {
      queue := [];
      running := true;
      executed := [];
    }

    /** A worker is free exactly when its queue is empty. */
    predicate IsFree()
      reads this
    {
      queue == []
    }

    /** Hands `op` to the worker: appended at the tail, worker running. */
    method Add(op: Task)
      modifies this`queue, this`running
      ensures queue == old(queue) + [op]
      ensures running
    {
      running := true;
      queue := queue + [op];
    }

    /** Disposes of every queued task, empties the queue and stops. */
    method StopTasks()
      modifies this`queue, this`running, queue`disposed
      ensures queue == [] && !running
      ensures forall t :: t in old(queue) ==> t.disposed
    {
      var i := 0;
      while i < |queue|
        invariant 0 <= i <= |queue|
        invariant queue == old(queue)
        invariant forall j :: 0 <= j < i ==> queue[j].disposed
      {
        queue[i].Dispose();
        i := i + 1;
      }
      queue := [];
      running := false;
    }

    /** `exit` clears an attribute that is not the worker's queue, so the
      queued tasks stay where they are; only the running flag drops. */
    method Exit()
      modifies this`running
      ensures !running
      ensures queue == old(queue)
    {
      running := false;
    }

    /** The task at the head of the queue, if any. */
    ghost function Head(): set<Task>
      reads this
    {
      if queue == [] then {} else {queue[0]}
    }

    /** One pass of the run loop. With an empty queue the loop's `else`
      stops the worker. Otherwise the head is popped: an armed head is run
      (with `outcome` as what its callable does) and leaves the queue; an
      unarmed head goes back to the tail and nothing runs. */
    method Step(outcome: Outcome)
      modifies this`queue, this`running, this`executed
      modifies Head()`events, Head()`result, Head()`calls, Head()`disposed
      ensures old(queue) == [] ==> queue == [] && !running && executed == old(executed)
      ensures old(queue) != [] ==> running == old(running)
      ensures old(queue) != [] && old(queue[0].armed) ==>
        var op := old(queue[0]);
        && queue == old(queue[1..])
        && executed == old(executed) + [op]
        && RanWith(op, outcome)
        && op.disposed
      ensures old(queue) != [] && !old(queue[0].armed) ==>
        && queue == old(queue[1..]) + [old(queue[0])]
        && executed == old(executed)
        && unchanged(old(queue[0]))
    {
      if queue != [] {
        var op := queue[0];
        queue := queue[1..];
        if op.armed {
          op.DoTask(outcome);
          executed := executed + [op];
        } else {
          queue := queue + [op];
        }
      } else {
        running := false;
      }
    }

    /** The inner loop of `run` on a queue of distinct armed tasks: each
      one runs exactly once, in queue order, `outcomes[i]` being what the
      i-th callable does, and is disposed; the queue ends empty. */
    method Drain(outcomes: seq<Outcome>)
      requires forall t :: t in queue ==> t.armed
      requires forall i, j :: 0 <= i < j < |queue| ==> queue[i] != queue[j]
      requires |outcomes| == |queue|
      modifies this`queue, this`running, this`executed
      modifies queue`events, queue`result, queue`calls, queue`disposed
      ensures queue == [] && executed == old(executed) + old(queue) && running == old(running)
      ensures forall k :: 0 <= k < |old(queue)| ==> RanWith(old(queue)[k], outcomes[k]) && old(queue)[k].disposed
    {
      ghost var q0 := queue;
      ghost var e0 := executed;
      var k := 0;
      while queue != []
        invariant 0 <= k <= |q0| && running == old(running)
        invariant queue == q0[k..] && executed == e0 + q0[..k]
        invariant forall j :: 0 <= j < k ==> RanWith(q0[j], outcomes[j]) && q0[j].disposed
        invariant forall j :: k <= j < |q0| ==> unchanged(q0[j])
        decreases |queue|
      {
        Step(outcomes[k]);
        k := k + 1;
        assert q0[..k] == q0[..k - 1] + [q0[k - 1]];
      }
    }

    /** The whole run loop: a running worker drains its queue of distinct
      armed tasks (see `Drain`) and stops; a worker that is not running
      runs nothing and leaves its tasks untouched. */
    method Run(outcomes: seq<Outcome>)
      requires forall t :: t in queue ==> t.armed
      requires forall i, j :: 0 <= i < j < |queue| ==> queue[i] != queue[j]
      requires |outcomes| == |queue|
      modifies this`queue, this`running, this`executed
      modifies queue`events, queue`result, queue`calls, queue`disposed
      ensures old(running) ==> queue == [] && executed == old(executed) + old(queue)
      ensures old(running) ==> forall k :: 0 <= k < |old(queue)| ==>
        RanWith(old(queue)[k], outcomes[k]) && old(queue)[k].disposed
      ensures !old(running) ==> queue == old(queue) && executed == old(executed)
      ensures !old(running) ==> forall t :: t in old(queue) ==> unchanged(t)
      ensures !running
      ensures forall t :: t in old(queue) ==> t.armed
    {
      if running {
        Drain(outcomes);
        // the pass that finds the queue empty clears the flag
        running := false;
      }
    }
  }
}
