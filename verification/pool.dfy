/** The dispatcher (`ThreadsPool`): a started flag, a FIFO of pending tasks,
    a fixed list of workers and a tally of free workers. Its poll loop
    repeatedly matches free workers to the head of the FIFO; one pass of
    that loop is modelled as one atomic step, `Tick`. */
module Pools {
  import opened Values
  import opened Tasks
  import opened Workers
  import opened Dispatching

  /** No worker is registered twice. */
  ghost predicate Distinct(ws: seq<Worker>) {
    forall i, j :: 0 <= i < j < |ws| ==> ws[i] != ws[j]
  }

  /** Every task sitting in the queue of one of the workers `ws`. */
  ghost function Queued(ws: seq<Worker>): set<Task>
    reads ws
  {
    set w, t | w in ws && t in w.queue :: t
  }

  /** The worker loop of the pool's `exit`: every worker in `ws` disposes
      of its queued tasks, empties its queue and stops. */
  method StopAll(ws: seq<Worker>)
    requires Distinct(ws)
    modifies ws`queue, ws`running, Queued(ws)`disposed
    ensures forall w :: w in ws ==> w.queue == [] && !w.running
    ensures forall t :: t in old(Queued(ws)) ==> t.disposed
  {
    var i := 0;
    while i < |ws|
      invariant 0 <= i <= |ws|
      invariant forall j :: 0 <= j < i ==> ws[j].queue == [] && !ws[j].running
      invariant forall j :: i <= j < |ws| ==> ws[j].queue == old(ws[j].queue)
      invariant forall j, t :: 0 <= j < i && t in old(ws[j].queue) ==> t.disposed
    {
      assert forall t :: t in ws[i].queue ==> t in old(Queued(ws));
      ws[i].StopTasks();
      ws[i].Exit();
      i := i + 1;
    }
  }

  class Pool {
    var maxThreads: int
    var pollTime: int
    var opQueue: seq<Task>     // `_op_queue`
    var threads: seq<Worker>   // `_threads`
    var threadFree: int        // `_thread_free`
    var started: bool          // `_started`
    var finishedEmitted: nat   // times the pool's `finished` signal was emitted

    /** The workers' queues, in registration order. */
    ghost function Queues(): (qs: seq<seq<Task>>)
      reads this`threads, threads
      ensures |qs| == |threads|
      ensures forall i :: 0 <= i < |threads| ==> qs[i] == threads[i].queue
    {
      var ws := threads;
      seq(|ws|, i requires 0 <= i < |ws| reads ws => ws[i].queue)
    }

    /** The workers' running flags, in registration order. */
    ghost function Running(): (rs: seq<bool>)
      reads this`threads, threads
      ensures |rs| == |threads|
      ensures forall i :: 0 <= i < |threads| ==> rs[i] == threads[i].running
    {
      var ws := threads;
      seq(|ws|, i requires 0 <= i < |ws| reads ws => ws[i].running)
    }

    /** The tasks each worker has run, in registration order. */
    ghost function Executed(): (es: seq<seq<Task>>)
      reads this`threads, threads
      ensures |es| == |threads|
      ensures forall i :: 0 <= i < |threads| ==> es[i] == threads[i].executed
    {
      var ws := threads;
      seq(|ws|, i requires 0 <= i < |ws| reads ws => ws[i].executed)
    }

    constructor (maxThreads: int := 1)
      ensures this.maxThreads == maxThreads && pollTime == 10
      ensures opQueue == [] && threads == [] && threadFree == 0 && !started
      ensures finishedEmitted == 0 && Distinct(threads)
    {
      this.maxThreads := maxThreads;
      pollTime := 10;
      opQueue := [];
      threads := [];
      threadFree := 0;
      started := false;
      finishedEmitted := 0;
    }

    predicate IsStarted()
      reads this
    {
      started
    }

    predicate IsStopped()
      reads this
    {
      !started
    }

    /** While started, wraps the callable in a new unarmed task, appends it
      to the pending FIFO and returns it; while stopped, returns nothing
      and leaves the FIFO alone. */
    method AddTask(func: Callable, args: seq<Value>, kwargs: map<string, Value>) returns (op: Task?)
      modifies this`opQueue
      ensures started ==> op != null && fresh(op) && opQueue == old(opQueue) + [op]
      ensures started ==> op != null && op.func == func && op.args == args && op.kwargs == kwargs
      ensures started ==> op != null && !op.armed && op.signalsEnabled && op.events == [] && !op.disposed
      ensures started ==> op != null && op.result == NoneValue && op.data == NoneValue && op.calls == 0 && op.progressHandlers == []
      ensures !started ==> op == null && opQueue == old(opQueue)
    {
      op := null;
      if started {
        op := new Task(func, args, kwargs);
        opQueue := opQueue + [op];
      }
    }

    /** Marks the pool started and registers `max_threads` new workers (none
      for a negative count), each with an empty queue and so free. The
      tally grows by one per worker from wherever it was; the pending FIFO
      is kept. */
    method Start()
      modifies this`started, this`threads, this`threadFree
      ensures started && Distinct(threads)
      ensures |threads| == if maxThreads < 0 then 0 else maxThreads
      ensures forall i :: 0 <= i < |threads| ==>
        fresh(threads[i]) && threads[i].queue == [] && threads[i].running && threads[i].executed == []
      ensures threadFree == old(threadFree) + |threads|
      ensures opQueue == old(opQueue)
    {
      started := true;
      threads := [];
      var i := 0;
      while i < maxThreads
        invariant 0 <= i && (maxThreads >= 0 ==> i <= maxThreads) && (maxThreads < 0 ==> i == 0)
        invariant |threads| == i && started
        invariant forall j :: 0 <= j < i ==>
          fresh(threads[j]) && threads[j].queue == [] && threads[j].running && threads[j].executed == []
        invariant Distinct(threads)
        invariant threadFree == old(threadFree) + i
      {
        var w := new Worker();
        threads := threads + [w];
        threadFree := threadFree + 1;
        i := i + 1;
      }
    }

    /** Stops the pool: pending tasks are dropped (not disposed), every
      worker's queued tasks are disposed and its queue emptied, every
      worker stops, the tally is reset and the worker list is emptied. */
    method Exit()
      requires Distinct(threads)
      modifies this`started, this`opQueue, this`threadFree, this`threads
      modifies threads`queue, threads`running, Queued(threads)`disposed
      ensures !started && opQueue == [] && threadFree == 0 && threads == [] && Distinct(threads)
      ensures forall w :: w in old(threads) ==> w.queue == [] && !w.running
      ensures forall t :: t in old(Queued(threads)) ==> t.disposed
    {
      started := false;
      opQueue := [];
      threadFree := 0;
      StopAll(threads);
      threads := [];
    }

    /** The state after the poll loop has visited the first `i` workers
      with pass `d` so far, starting from queues `q0`, running flags `r0`,
      executed logs `e0`, tally `f0` and `b0` emitted `finished` signals:
      visited workers hold `d`'s queues, the others their old ones. */
    ghost predicate SweptUpTo(i: nat, d: Pass<Task>, q0: seq<seq<Task>>, r0: seq<bool>, e0: seq<seq<Task>>, f0: int, b0: nat)
      reads this, threads
    {
      && i <= |threads| == |q0| == |r0| == |e0|
      && |d.queues| == i
      && opQueue == d.pending
      && threadFree == f0 + d.freeDelta
      && finishedEmitted == b0 + d.busy
      && forall j :: 0 <= j < |threads| ==>
        && threads[j].queue == (if j < i then d.queues[j] else q0[j])
        && threads[j].running == (r0[j] || threads[j].queue != q0[j])
        && threads[j].executed == e0[j]
    }

    /** The body of the poll loop for the `i`-th worker, which follows
      `Visit`: a free worker takes the head of the pending FIFO if there is
      one, otherwise the tally rises; a busy worker makes the pool emit
      `finished`. */
    method Serve(i: nat, ghost d: Pass<Task>, ghost q0: seq<seq<Task>>, ghost r0: seq<bool>,
                 ghost e0: seq<seq<Task>>, ghost f0: int, ghost b0: nat)
      requires Distinct(threads) && i < |threads| && SweptUpTo(i, d, q0, r0, e0, f0, b0)
      modifies this`opQueue, this`threadFree, this`finishedEmitted, threads`queue, threads`running
      ensures SweptUpTo(i + 1, Visit(d, q0[i]), q0, r0, e0, f0, b0)
    {
      var w := threads[i];
      if w.IsFree() {
        if opQueue != [] {
          var op := opQueue[0];
          opQueue := opQueue[1..];
          w.Add(op);
          threadFree := threadFree - 1;
        } else {
          threadFree := threadFree + 1;
        }
      } else {
        finishedEmitted := finishedEmitted + 1;
      }
    }

    /** The state `Dispatch` prescribes after a whole pass that started
      from queues `q0`, running flags `r0`, executed logs `e0`, pending FIFO
      `p0`, tally `f0` and `b0` emitted `finished` signals: the queues,
      FIFO and counters are `Dispatch`'s, a worker is running if it was or
      was just handed a task, and no worker ran anything. */
    ghost predicate Dispatched(q0: seq<seq<Task>>, r0: seq<bool>, e0: seq<seq<Task>>, p0: seq<Task>, f0: int, b0: nat)
      reads this, threads
    {
      var d := Dispatch(q0, p0);
      && Queues() == d.queues
      && opQueue == d.pending
      && threadFree == f0 + d.freeDelta
      && finishedEmitted == b0 + d.busy
      && |r0| == |e0| == |threads|
      && forall i :: 0 <= i < |threads| ==>
        threads[i].running == (r0[i] || threads[i].queue != q0[i]) && threads[i].executed == e0[i]
    }

    /** Before any worker is visited, the state is the starting one. */
    lemma SweptNone(q0: seq<seq<Task>>, r0: seq<bool>, e0: seq<seq<Task>>, p0: seq<Task>, f0: int, b0: nat)
      requires q0 == Queues() && r0 == Running() && e0 == Executed()
      requires p0 == opQueue && f0 == threadFree && b0 == finishedEmitted
      ensures SweptUpTo(0, Dispatch(q0[..0], p0), q0, r0, e0, f0, b0)
    {
      assert q0[..0] == [];
    }

    /** Once every worker has been visited, the state is `Dispatch`'s. */
    lemma SweptAll(q0: seq<seq<Task>>, r0: seq<bool>, e0: seq<seq<Task>>, p0: seq<Task>, f0: int, b0: nat)
      requires |q0| == |threads|
      requires SweptUpTo(|threads|, Dispatch(q0[..|threads|], p0), q0, r0, e0, f0, b0)
      ensures Dispatched(q0, r0, e0, p0, f0, b0)
    {
      assert q0[..|threads|] == q0;
    }

    /** After a pass, no task was lost or handed out twice, and busy
      workers kept their queues. */
    lemma DispatchedConserves(q0: seq<seq<Task>>, r0: seq<bool>, e0: seq<seq<Task>>, p0: seq<Task>, f0: int, b0: nat)
      requires Dispatched(q0, r0, e0, p0, f0, b0)
      ensures multiset(opQueue) + Held(Queues()) == multiset(p0) + Held(q0)
      ensures forall i :: 0 <= i < |threads| && q0[i] != [] ==> threads[i].queue == q0[i]
    {
      DispatchConserves(q0, p0);
      DispatchKeepsBusy(q0, p0);
    }

    /** One pass of the poll loop (`Dispatch` is its reference). In
      registration order, each free worker takes the head of the pending
      FIFO if there is one (the tally drops) or finds it empty (the tally
      rises); each busy worker is passed over and the pool emits
      `finished`. No task runs. */
    method Tick()
      requires Distinct(threads)
      modifies this`opQueue, this`threadFree, this`finishedEmitted, threads`queue, threads`running
      ensures Distinct(threads)
      ensures Dispatched(old(Queues()), old(Running()), old(Executed()), old(opQueue), old(threadFree), old(finishedEmitted))
    {
      ghost var q0, r0, e0 := Queues(), Running(), Executed();
      ghost var p0, f0, b0 := opQueue, threadFree, finishedEmitted;
      SweptNone(q0, r0, e0, p0, f0, b0);
      var i := 0;
      while i < |threads|
        invariant i <= |q0| == |threads|
        invariant SweptUpTo(i, Dispatch(q0[..i], p0), q0, r0, e0, f0, b0)
      {
        Serve(i, Dispatch(q0[..i], p0), q0, r0, e0, f0, b0);
        DispatchNext(q0, p0, i);
        i := i + 1;
      }
      SweptAll(q0, r0, e0, p0, f0, b0);
    }
  }
}
