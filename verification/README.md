# Task pool model

This project models the task pool in `thlib/pool.py` as a sequential state
machine. The pool has three parts:

- **The dispatcher (`ThreadsPool`, class `Pools.Pool`).** It holds a
  started flag, a FIFO of pending tasks, a fixed list of workers and a
  tally of free workers. One pass of its poll loop walks the workers in
  registration order. Each free worker, meaning one with an empty queue,
  gets the head of the FIFO.
- **The worker (`OperationThread`, class `Workers.Worker`).** It holds a
  private task queue and a running flag. Each pass of its loop pops the
  head task. An armed task is run. An unarmed task goes back to the tail.
  When the queue is empty, the worker stops.
- **The task (`OperationWorker`, class `Tasks.Task`).** It wraps a
  callable and its arguments, and carries an arming flag and optional
  extra result data. `do_task` turns what the callable did into a
  sequence of signals, then disposes of the task.

Some parts are modelled abstractly:

- **Signals** are appended to the task's `events` log. The pool's
  `finished` signal is a counter.
- **`deleteLater`** sets a `disposed` flag.
- **What the callable does** (returns a value or raises) is a parameter of
  type `Outcome`.
- **Calls of the callable** are counted in the task's `calls` field, which
  has no counterpart in the source and exists only to state that a task
  ran once.
- **One pass of the poll loop** has a reference definition on values,
  `Dispatching.Dispatch`. The FIFO-prefix, counting and conservation
  lemmas are proved about it. `Pools.Pool.Tick` is the imperative loop,
  and its postcondition ties the new state to `Dispatch`.

Python semantics kept as written:

- **Extra data** is appended only when it is truthy.
- **Appending the data** to a result that is not a tuple raises
  `TypeError` inside the `try`. A normal return is then reported as an
  `error` signal, and `_result` holds the raw returned value. The comment
  on `add_result_data` (`thlib/pool.py:170-171`) limits extra data to
  tuple output, but nothing enforces it. The model keeps the raise
  (`Tasks.ExecuteConcatFails`).
- **`OperationThread.exit`** clears an attribute that is not the worker's
  queue, so it leaves the queue as it is. Only `stop_tasks` empties it.
- **`start`** adds one to the free tally per worker, without resetting the
  tally first.
- **`add_task`** returns `None` (here `null`) while the pool is stopped.

## Model

| member | source | states |
|---|---|---|
| Tasks.Execute | thlib/pool.py:189-215 | The trace is `started` alone, `started` then one `error`, or `started`, `result`, `finished`. The callable is invoked iff signals are enabled. When disabled, the trace is just `started` and `_result` is unchanged. The trace ends in `finished` iff signals are enabled and the call returned with a reportable result. It ends in `error` exactly otherwise, and that `error` carries the task itself. |
| Tasks.ExecuteReturns | thlib/pool.py:192-202 | A normal return with no truthy data gives `started`, `result(v)`, `finished`. With truthy data and a tuple result, the reported value is the tuple with the data appended as its last element. |
| Tasks.ExecuteRaises | thlib/pool.py:204-215 | A raising callable gives `started` and exactly one `error` with the exception, its traceback and the task. `_result` keeps its previous value. |
| Tasks.ExecuteConcatFails | thlib/pool.py:195-199 | Truthy data and a non-tuple result: the concatenation raises, so the trace is `started` then a `TypeError` `error`, and `_result` is the raw returned value. |
| Tasks.Task.constructor | thlib/pool.py:154-163 | A new task keeps its callable, arguments and keyword arguments. It has signals enabled, is not armed, and has `None` as its result and data. |
| Tasks.Task.Start | thlib/pool.py:183-184 | Arms the task and changes nothing else, so arming twice equals arming once. |
| Tasks.Task.AddResultData | thlib/pool.py:169-172 | The attached data becomes `d`. Nothing else changes. |
| Tasks.Task.GetResultData | thlib/pool.py:180-181 | Returns the attached data, or `None` if none was attached. Nothing changes. |
| Tasks.Task.ConnectProgress | thlib/pool.py:174-178 | The handler is appended to the progress slots, and `progress_signal` maps to the progress signal in the keyword arguments. Every other keyword argument is kept. |
| Tasks.Task.Dispose | thlib/pool.py:215 | The task is marked for deletion. |
| Tasks.Task.DoTask | thlib/pool.py:189-215 | The emitted signals, the new `_result` and the number of calls are exactly those given by `Execute`. The task is disposed in every case. |
| Workers.Worker.constructor | thlib/pool.py:95-99 | A new worker has an empty queue, is running and has run nothing. |
| Workers.Worker.Add | thlib/pool.py:109-113 | The task is appended at the tail and the worker is running. |
| Workers.Worker.StopTasks | thlib/pool.py:115-120 | Every queued task is disposed, the queue is empty and the worker is stopped. |
| Workers.Worker.Exit | thlib/pool.py:122-126 | The worker is stopped and its queue is left as it was. |
| Workers.Worker.Step | thlib/pool.py:130-142 | Empty queue: the worker stops. Armed head: exactly that head leaves the queue, runs as `DoTask` prescribes and is disposed, and the rest keeps its order. Unarmed head: the queue becomes tail plus head, that task is untouched and nothing runs. No task's arming changes. |
| Workers.Worker.Drain | thlib/pool.py:130-140 | On a queue of distinct armed tasks, the i-th task is run exactly once on the i-th outcome: its signals, `_result` and call count move as `Execute` prescribes (`RanWith`), and it is disposed. The tasks run in queue order, the queue ends empty and the running flag is kept. |
| Workers.Worker.Run | thlib/pool.py:128-142 | A running worker whose queue holds distinct armed tasks runs each one exactly once, in queue order, on its own outcome, as `Execute` prescribes. Its queue ends empty, every task is disposed and the worker stops. A worker that is not running runs nothing, keeps its queue and leaves every queued task untouched. |
| Dispatching.Dispatch | thlib/pool.py:81-91 | One pass yields one new queue per worker. The per-worker rule it folds (`Visit`): a free worker with pending tasks gets the FIFO head as its only task, and the tally drops by one. A free worker with an empty FIFO adds one to the tally. A busy worker adds one to the `finished` count. |
| Dispatching.DispatchNext | thlib/pool.py:81-91 | Visiting the next worker extends the pass by one application of the per-worker rule. |
| Dispatching.FreeSlotsExact | thlib/pool.py:101-107 | The free-worker list holds exactly the workers with an empty queue, in increasing registration order, each once. |
| Dispatching.DispatchAssignsPrefix | thlib/pool.py:81-89 | Let n be the smaller of the free-worker count and the pending count. The j-th free worker gets exactly the j-th pending task for j < n. The other free workers get nothing, and the FIFO becomes its suffix from n. |
| Dispatching.DispatchCounts | thlib/pool.py:82-91 | The free tally drops by one per assignment and rises by one per free worker that found the FIFO empty. Every other worker is counted as busy and emits `finished`. |
| Dispatching.DispatchKeepsBusy | thlib/pool.py:82-91 | Busy workers' queues are unchanged, and a free worker ends with at most one task. |
| Dispatching.VisitConserves | thlib/pool.py:82-91 | Visiting one worker moves at most the head of the FIFO into that worker's queue: the pending tasks plus all queues keep their multiset. |
| Dispatching.DispatchConserves | thlib/pool.py:81-91 | Pending tasks plus all worker queues form the same multiset before and after a pass, so no task is lost or handed out twice. |
| Pools.Pool.constructor | thlib/pool.py:21-30 | A new pool keeps `max_threads` (1 by default), has poll time 10, an empty FIFO, no workers and a zero tally, and is stopped. |
| Pools.Pool.AddTask | thlib/pool.py:43-48 | While started, returns a new unarmed task, with signals enabled, `None` as its result and data, no progress slots, no signals emitted and no calls yet, appended at the tail of the FIFO, with earlier entries unchanged. While stopped, returns nothing and leaves the FIFO unchanged. |
| Pools.Pool.Start | thlib/pool.py:50-59 | The pool is started and has exactly `max_threads` new workers, none for a negative count. Each worker is running with an empty, hence free, queue. The tally grows by the number of workers, and the FIFO is kept. |
| Pools.StopAll | thlib/pool.py:68-71 | Every given worker ends with an empty queue and stopped, and every task that was queued on one of them is disposed. |
| Pools.Pool.Exit | thlib/pool.py:61-75 | The pool is stopped, with an empty FIFO, a zero tally and no workers. Every former worker has an empty queue and is stopped, and every task that was queued on a worker is disposed. |
| Pools.Pool.Serve | thlib/pool.py:82-91 | Visiting the i-th worker changes the pool and that worker exactly as one more `Visit` of the reference pass does. |
| Pools.Pool.SweptNone | thlib/pool.py:81 | Before any worker is visited, the state is the reference pass over no workers. |
| Pools.Pool.SweptAll | thlib/pool.py:81-91 | After all workers are visited, the state is the reference pass over all of them. |
| Pools.Pool.DispatchedConserves | thlib/pool.py:81-91 | In any state a pass leads to, the pending tasks plus all worker queues form the same multiset as before, and busy workers kept their queues. |
| Pools.Pool.Tick | thlib/pool.py:81-91 | The queues, FIFO, tally and `finished` count are those `Dispatch` gives for the old state. A worker runs iff it was running or just got a task, and no task runs. With `DispatchedConserves`, busy queues are unchanged and no task is lost or duplicated. |

## Left out

- Qt thread machinery is not modelled: `QThread.start`, `exit`, `wait`, `moveToThread` and `msleep`. Neither are the pool's own `started` signal, emitted when its thread begins, or the poll-time sleep.
- Signals are not delivered to connected slots. Emission is recorded in the task's event log, or counted for the pool's `finished`.
- `deleteLater` is not modelled as object destruction, only as the `disposed` flag.
- Real concurrency is not modelled. Each dispatcher pass and each worker loop pass is one atomic step, so the window between `pop(0)` and the re-append in the worker loop, where the queue looks free, does not exist here.
- Workers.Worker.Run covers only queues of armed tasks. A worker whose queue holds a task that is never armed spins forever; only its single steps (`Step`) are modelled.
- Workers.Worker.Run and Workers.Worker.Drain require the queued tasks to be distinct objects. `add_task` always creates a new task, so the pool never queues one task twice.
- Tasks.Execute: only `Exception` is caught (`thlib/pool.py:204`). An exception outside that class, such as `SystemExit` or `KeyboardInterrupt`, escapes `do_task` with no `error` signal, skips `deleteLater` and ends the worker's run. The model treats every raise as caught.
- Tasks.Execute: truthiness and `+` are modelled for the built-in value shapes only. Floats are not modelled. Objects that define `__bool__`, `__len__` or `__add__` are not modelled either: an `Opaque` value is always truthy and never supports `+` with a tuple.
- The pool's run loop is modelled one pass at a time (`Tick`), not as the unbounded `while` around it.
- Traceback text is opaque: `FormattedTraceback(e)` stands for `format_exc()`. The `print_exc` output and the logging configuration are not modelled.
- The wrapped callable's body is not modelled: its effect is the `Outcome` parameter.
- `reset_poll_timer` is not modelled: it reads an attribute that is never set.
- The `retry` stub, which only prints, is not modelled.
- The signal object that `connect_progress` passes is a fixed opaque value, `ProgressSignal`.
- Workers.Worker.Exit: the stray `_op_queue` attribute that `exit` sets on the worker is not modelled, since nothing reads it.
- `is_started`, `is_stopped` and `is_free` are plain predicates (`IsStarted`, `IsStopped`, `IsFree`) with no contract of their own. `IsFree` is what `Dispatch` and `Tick` test.
- The chat client window in `thlib/side/appconnector/tests/chat/test_client.py` is not part of this model: it is GUI, timer and socket code with no logic of its own.
