/** The task wrapper (`OperationWorker`): a callable with its arguments, an
    arming flag that a worker checks before running it, optional extra
    result data, and `do_task`, which turns what the callable did into a
    sequence of emitted signals and then disposes of the task. */
module Tasks {
  import opened Values

  /** One emitted signal of a task. `Error` carries the exception, its
      formatted traceback and the task that raised it. */
  datatype Event =
    | Started
    | Result(value: Value)
    | Finished
    | Error(exception: Exception, stacktrace: Traceback, task: Task)

  /** The effect of one `do_task`: the signals in emission order, the new
      value of the task's `_result`, and whether the callable was called. */
  datatype Run = Run(events: seq<Event>, result: Value, invoked: bool)

  /** The only traces `do_task` can produce: `started` alone, `started`
      then one `error`, or `started`, one `result` and `finished`. */
  predicate WellFormedTrace(es: seq<Event>) {
    || es == [Started]
    || (|es| == 2 && es[0] == Started && es[1].Error?)
    || (|es| == 3 && es[0] == Started && es[1].Result? && es[2] == Finished)
  }

  /** The callable's outcome ends in a `result` signal: it returned, and
      either no truthy data is attached or what it returned is a tuple. */
  predicate Reports(outcome: Outcome, data: Value) {
    outcome.Returned? && (Truthy(data) ==> outcome.value.Tuple?)
  }

  const ProgressKey: string := "progress_signal"
  const ProgressSignal: Value := Opaque("progress")

  /** The specification of `do_task`, given what the callable does when
      called, the task's `signals_enabled` flag, its extra data, its
      `_result` before the call and the task itself. */
  function Execute(outcome: Outcome, signalsEnabled: bool, data: Value, prior: Value, task: Task): (r: Run)
    ensures WellFormedTrace(r.events)
    ensures r.invoked == signalsEnabled
    ensures !signalsEnabled ==> r.events == [Started] && r.result == prior
    ensures r.events[|r.events| - 1] == Finished <==> signalsEnabled && Reports(outcome, data)
    ensures r.events[|r.events| - 1].Error? <==> signalsEnabled && !Reports(outcome, data)
    ensures r.events[|r.events| - 1].Error? ==> r.events[|r.events| - 1].task == task
  {
    if !signalsEnabled then Run([Started], prior, false)
    else
      match outcome
      case Raised(e) => Run([Started, Error(e, FormattedTraceback(e), task)], prior, true)
      case Returned(v) =>
        if !Truthy(data) then Run([Started, Result(v), Finished], v, true)
        else if v.Tuple? then
          var t := Tuple(v.items + [data]);
          Run([Started, Result(t), Finished], t, true)
        else
          var e := TupleConcatTypeError(v);
          Run([Started, Error(e, FormattedTraceback(e), task)], v, true)
  }

  /** A callable that returns normally, with no truthy data attached or a
      tuple result, yields `started`, `result`, `finished`; the reported
      value is the returned one with the data appended when it is truthy. */
  lemma ExecuteReturns(v: Value, data: Value, prior: Value, task: Task)
    requires Truthy(data) ==> v.Tuple?
    ensures var r := Execute(Returned(v), true, data, prior, task);
      && r.events == [Started, Result(r.result), Finished]
      && (!Truthy(data) ==> r.result == v)
      && (Truthy(data) ==>
            && r.result.Tuple?
            && |r.result.items| == |v.items| + 1
            && r.result.items[..|v.items|] == v.items
            && r.result.items[|v.items|] == data)
  {
  }

  /** A callable that raises yields `started` and one `error` carrying the
      exception, its traceback and the task; `_result` keeps its value. */
  lemma ExecuteRaises(e: Exception, data: Value, prior: Value, task: Task)
    ensures var r := Execute(Raised(e), true, data, prior, task);
      && r.events == [Started, Error(e, FormattedTraceback(e), task)]
      && r.result == prior
      && r.invoked
  {
  }

  /** Truthy data and a non-tuple result: the concatenation raises inside
      the `try`, so a normal return is reported as an `error`, and `_result`
      holds the raw returned value. */
  lemma ExecuteConcatFails(v: Value, data: Value, prior: Value, task: Task)
    requires Truthy(data) && !v.Tuple?
    ensures var r := Execute(Returned(v), true, data, prior, task);
      && r.events == [Started, Error(TupleConcatTypeError(v), FormattedTraceback(TupleConcatTypeError(v)), task)]
      && r.result == v
  {
  }

  /** Between the earlier and the current state, `t` was run once on
      `outcome`: its signals, `_result` and call count moved exactly as
      `Execute` prescribes. */
  twostate predicate RanWith(t: Task, outcome: Outcome)
    reads t
  {
    var r := Execute(outcome, t.signalsEnabled, t.data, old(t.result), t);
    && t.events == old(t.events) + r.events
    && t.result == r.result
    && t.calls == old(t.calls) + (if r.invoked then 1 else 0)
  }

  class Task {
    const func: Callable
    const args: seq<Value>
    var kwargs: map<string, Value>
    var signalsEnabled: bool
    var armed: bool                      // `_started`
    var result: Value                    // `_result`
    var data: Value                      // `_data`
    var progressHandlers: seq<Callable>  // slots connected to `progress`
    var events: seq<Event>               // every signal emitted so far
    var calls: nat                       // times the callable was called
    var disposed: bool                   // `deleteLater` was requested

    /** A new task is enabled, not armed, with no result and no data. */
    constructor (func: Callable, args: seq<Value>, kwargs: map<string, Value>)
      ensures this.func == func && this.args == args && this.kwargs == kwargs
      ensures signalsEnabled && !armed
      ensures result == NoneValue && data == NoneValue
      ensures progressHandlers == [] && events == [] && calls == 0 && !disposed
    {
      this.func := func;
      this.args := args;
      this.kwargs := kwargs;
      signalsEnabled := true;
      armed := false;
      result := NoneValue;
      data := NoneValue;
      progressHandlers := [];
      events := [];
      calls := 0;
      disposed := false;
    }

    predicate IsStarted()
      reads this
    {
      armed
    }

    /** Arms the task; nothing else changes, so arming twice is arming once. */
    method Start()
      modifies this`armed
      ensures armed
    {
      armed := true;
    }

    method AddResultData(d: Value)
      modifies this`data
      ensures data == d
    {
      data := d;
    }

    /** The data last attached, or `None` if none was. */
    method GetResultData() returns (d: Value)
      ensures d == data
    {
      d := data;
    }

    /** Connects `handler` to the progress signal and passes that signal to
      the callable as the keyword argument `progress_signal`. */
    method ConnectProgress(handler: Callable)
      modifies this`progressHandlers, this`kwargs
      ensures progressHandlers == old(progressHandlers) + [handler]
      ensures kwargs == old(kwargs)[ProgressKey := ProgressSignal]
      ensures ProgressKey in kwargs && kwargs[ProgressKey] == ProgressSignal
      ensures forall k :: k in old(kwargs) && k != ProgressKey ==> k in kwargs && kwargs[k] == old(kwargs)[k]
    {
      progressHandlers := progressHandlers + [handler];
      kwargs := kwargs[ProgressKey := ProgressSignal];
    }

    /** `deleteLater`: the task is marked for destruction. */
    method Dispose()
      modifies this`disposed
      ensures disposed
    {
      disposed := true;
    }

    /** Runs the task once. `outcome` is what calling `func(*args, **kwargs)`
      does; it is used only if signals are enabled. */
    method DoTask(outcome: Outcome)
      modifies this`events, this`result, this`calls, this`disposed
      ensures var r := Execute(outcome, signalsEnabled, data, old(result), this);
        && events == old(events) + r.events
        && result == r.result
        && calls == old(calls) + (if r.invoked then 1 else 0)
      ensures disposed
    {
      events := events + [Started];
      if signalsEnabled {
        calls := calls + 1;
        match outcome
        case Raised(e) =>
          events := events + [Error(e, FormattedTraceback(e), this)];
        case Returned(v) =>
          result := v;
          if Truthy(data) && !v.Tuple? {
            var e := TupleConcatTypeError(v);
            events := events + [Error(e, FormattedTraceback(e), this)];
          } else {
            if Truthy(data) {
              result := Tuple(v.items + [data]);
            }
            events := events + [Result(result)];
            events := events + [Finished];
          }
      }
      Dispose();
    }
  }
}
