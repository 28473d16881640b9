/** The matching rule of one pass of the pool's poll loop, on values: the
    workers' queues in registration order and the pending FIFO. Every
    worker with an empty queue takes the head of the pending FIFO while
    there is one; busy workers are passed over. */
module Dispatching {

  /** The outcome of one pass: the workers' new queues, the pending tasks
      left, the change to the free-worker tally, and how many busy workers
      were seen (each one emits the pool's `finished` signal). */
  datatype Pass<T> = Pass(queues: seq<seq<T>>, pending: seq<T>, freeDelta: int, busy: nat)

  /** The rule for one worker with queue `q`, given the state `d` left by
      the workers before it. */
  function Visit<T>(d: Pass<T>, q: seq<T>): Pass<T> {
    if q != [] then Pass(d.queues + [q], d.pending, d.freeDelta, d.busy + 1)
    else if d.pending != [] then Pass(d.queues + [[d.pending[0]]], d.pending[1..], d.freeDelta - 1, d.busy)
    else Pass(d.queues + [[]], d.pending, d.freeDelta + 1, d.busy)
  }

  /** One pass over `queues`, worker by worker from the first. */
  function Dispatch<T>(queues: seq<seq<T>>, pending: seq<T>): (d: Pass<T>)
    ensures |d.queues| == |queues|
    decreases |queues|
  {
    if queues == [] then Pass([], pending, 0, 0)
    else Visit(Dispatch(queues[..|queues| - 1], pending), queues[|queues| - 1])
  }

  /** Extending the pass by the next worker is one more `Visit`. */
  lemma DispatchNext<T>(queues: seq<seq<T>>, pending: seq<T>, i: nat)
    requires i < |queues|
    ensures Dispatch(queues[..i + 1], pending) == Visit(Dispatch(queues[..i], pending), queues[i])
  {
    assert queues[..i + 1][..i] == queues[..i];
  }

  /** The indices of the workers whose queue is empty, in registration order. */
  function FreeSlots<T>(queues: seq<seq<T>>): seq<nat>
    decreases |queues|
  {
    if queues == [] then []
    else FreeSlots(queues[..|queues| - 1]) + (if queues[|queues| - 1] == [] then [|queues| - 1] else [])
  }

  function Min(a: int, b: int): int { if a <= b then a else b }

  /** Every task held by some worker, counted with multiplicity. */
  function Held<T>(queues: seq<seq<T>>): multiset<T>
    decreases |queues|
  {
    if queues == [] then multiset{}
    else Held(queues[..|queues| - 1]) + multiset(queues[|queues| - 1])
  }

  /** `FreeSlots` lists exactly the free workers, each once, in increasing order. */
  lemma {:induction false} FreeSlotsExact<T>(queues: seq<seq<T>>)
    ensures forall j :: 0 <= j < |FreeSlots(queues)| ==>
      FreeSlots(queues)[j] < |queues| && queues[FreeSlots(queues)[j]] == []
    ensures forall j, k :: 0 <= j < k < |FreeSlots(queues)| ==> FreeSlots(queues)[j] < FreeSlots(queues)[k]
    ensures forall i :: 0 <= i < |queues| && queues[i] == [] ==> i in FreeSlots(queues)
    decreases |queues|
  {
    if queues != [] {
      var front := queues[..|queues| - 1];
      FreeSlotsExact(front);
      assert forall i :: 0 <= i < |front| ==> front[i] == queues[i];
    }
  }

  /** Busy workers keep their queues; a free worker ends with an empty queue
      or with exactly one task. */
  lemma {:induction false} DispatchKeepsBusy<T>(queues: seq<seq<T>>, pending: seq<T>)
    ensures var d := Dispatch(queues, pending);
      && (forall i :: 0 <= i < |queues| && queues[i] != [] ==> d.queues[i] == queues[i])
      && (forall i :: 0 <= i < |queues| && queues[i] == [] ==> |d.queues[i]| <= 1)
    decreases |queues|
  {
    if queues != [] {
      var front := queues[..|queues| - 1];
      DispatchKeepsBusy(front, pending);
      assert forall i :: 0 <= i < |front| ==> front[i] == queues[i];
    }
  }

  /** FIFO prefix assignment. With n the smaller of the number of free
      workers and the number of pending tasks, the j-th free worker (j < n)
      receives exactly the j-th pending task, the other free workers
      receive nothing, and the first n pending tasks leave the FIFO. */
  lemma {:induction false} DispatchAssignsPrefix<T>(queues: seq<seq<T>>, pending: seq<T>)
    ensures var d := Dispatch(queues, pending);
      var free := FreeSlots(queues);
      var n := Min(|free|, |pending|);
      && (forall j :: 0 <= j < |free| ==> free[j] < |queues|)
      && d.pending == pending[n..]
      && (forall j :: 0 <= j < n ==> d.queues[free[j]] == [pending[j]])
      && (forall j :: n <= j < |free| ==> d.queues[free[j]] == [])
    decreases |queues|
  {
    if queues != [] {
      var front := queues[..|queues| - 1];
      var last := |queues| - 1;
      DispatchAssignsPrefix(front, pending);
      var d0 := Dispatch(front, pending);
      var f0 := FreeSlots(front);
      var n0 := Min(|f0|, |pending|);
      var d := Dispatch(queues, pending);
      assert forall k :: 0 <= k < last ==> d.queues[k] == d0.queues[k];
      if queues[last] != [] {
        assert FreeSlots(queues) == f0;
      } else {
        assert FreeSlots(queues) == f0 + [last];
        if d0.pending != [] {
          assert n0 == |f0| && d0.pending[0] == pending[n0];
        }
      }
    }
  }

  /** The tally of free workers drops by one per assignment and rises by
      one per free worker that found the FIFO empty; every other worker is
      counted as busy. */
  lemma {:induction false} DispatchCounts<T>(queues: seq<seq<T>>, pending: seq<T>)
    ensures var d := Dispatch(queues, pending);
      var free := |FreeSlots(queues)|;
      var n := Min(free, |pending|);
      && d.freeDelta == (free - n) - n
      && d.busy == |queues| - free
    decreases |queues|
  {
    if queues != [] {
      DispatchCounts(queues[..|queues| - 1], pending);
      DispatchAssignsPrefix(queues[..|queues| - 1], pending);
    }
  }

  /** `Held` of one more queue adds that queue's tasks. */
  lemma HeldSnoc<T>(queues: seq<seq<T>>, q: seq<T>)
    ensures Held(queues + [q]) == Held(queues) + multiset(q)
  {
    assert (queues + [q])[..|queues|] == queues;
  }

  /** One worker's visit moves at most one task from the FIFO to that
      worker and loses none. */
  lemma VisitConserves<T>(d: Pass<T>, q: seq<T>)
    ensures var e := Visit(d, q);
      multiset(e.pending) + Held(e.queues) == multiset(d.pending) + Held(d.queues) + multiset(q)
  {
    if q != [] {
      HeldSnoc(d.queues, q);
    } else if d.pending != [] {
      HeldSnoc(d.queues, [d.pending[0]]);
      assert d.pending == [d.pending[0]] + d.pending[1..];
      assert multiset(d.pending) == multiset{d.pending[0]} + multiset(d.pending[1..]);
    } else {
      HeldSnoc(d.queues, q);
    }
  }

  /** No task is lost or duplicated: the pending tasks together with every
      worker's queue form the same multiset before and after the pass. */
  lemma {:induction false} DispatchConserves<T>(queues: seq<seq<T>>, pending: seq<T>)
    ensures var d := Dispatch(queues, pending);
      multiset(d.pending) + Held(d.queues) == multiset(pending) + Held(queues)
    decreases |queues|
  {
    if queues != [] {
      var front := queues[..|queues| - 1];
      DispatchConserves(front, pending);
      VisitConserves(Dispatch(front, pending), queues[|queues| - 1]);
    }
  }
}
