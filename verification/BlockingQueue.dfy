/** The closable FIFO shared by the Lua thread and the worker (pg/src/BlockingQueue.h).
    Each method is one critical section of the queue's mutex. */
module BlockingQueues {
  import opened Sequences

  /** What `take` finds: an element, a queue that is closed and drained,
      or nothing yet, in which case the caller stays blocked. */
  datatype Take<+T> = Taken(value: T) | Finished | Blocked

  class BlockingQueue<T(==)> {
    var backingQueue: seq<T>
    var closed: bool

    constructor ()
      ensures backingQueue == [] && !closed
    {
      backingQueue, closed := [], false;
    }

    method Put(elem: T) returns (ok: bool)
      modifies this
      ensures ok == !old(closed) && closed == old(closed)
      ensures backingQueue == if ok then old(backingQueue) + [elem] else old(backingQueue)
    {
      if closed { return false; }
      backingQueue := backingQueue + [elem];
      return true;
    }

    /** `std::find_if` followed by `std::iter_swap` with the front. */
    method SwapToFrontIf(func: T -> bool) returns (swapped: bool)
      modifies this`backingQueue
      ensures backingQueue == SwappedToFront(old(backingQueue), func)
      ensures swapped <==> 0 < FirstIndex(old(backingQueue), func) < |old(backingQueue)|
    {
      var pos := 0;
      while pos < |backingQueue| && !func(backingQueue[pos])
        invariant pos <= |backingQueue|
        invariant forall k :: 0 <= k < pos ==> !func(backingQueue[k])
      {
        pos := pos + 1;
      }
      assert pos == FirstIndex(backingQueue, func);
      if pos != 0 && pos != |backingQueue| {
        backingQueue := Swap(backingQueue, 0, pos);
        return true;
      }
      return false;
    }

    /** `std::remove_if` followed by `erase` of the tail it leaves. */
    method RemoveIf(func: T -> bool) returns (removed: bool)
      modifies this`backingQueue
      ensures backingQueue == Filter(old(backingQueue), Not(func))
      ensures removed <==> exists i :: 0 <= i < |old(backingQueue)| && func(old(backingQueue)[i])
    {
      var keep, kept := Not(func), [];
      var i := 0;
      while i < |backingQueue|
        invariant i <= |backingQueue| && backingQueue == old(backingQueue)
        invariant kept == Filter(backingQueue[..i], keep)
      {
        FilterAppend(backingQueue[..i], [backingQueue[i]], keep);
        assert backingQueue[..i + 1] == backingQueue[..i] + [backingQueue[i]];
        if !func(backingQueue[i]) { kept := kept + [backingQueue[i]]; }
        i := i + 1;
      }
      assert backingQueue[..i] == backingQueue;
      FilterLength(backingQueue, keep);
      removed := |kept| != |backingQueue|;
      backingQueue := kept;
    }

    method Take() returns (out: Take<T>)
      modifies this`backingQueue
      ensures out == match (old(backingQueue), old(closed))
                     case (q, c) => if q != [] then Taken(q[0]) else if c then Finished else Blocked
      ensures backingQueue == if out.Taken? then old(backingQueue)[1..] else old(backingQueue)
    {
      if backingQueue == [] {
        return if closed then Finished else Blocked;
      }
      out := Taken(backingQueue[0]);
      backingQueue := backingQueue[1..];
    }

    method Clear() returns (all: seq<T>)
      modifies this`backingQueue
      ensures all == old(backingQueue) && backingQueue == []
    {
      all := backingQueue;
      backingQueue := [];
    }

    method CloseAndClear() returns (all: seq<T>)
      modifies this
      ensures all == old(backingQueue) && backingQueue == [] && closed
    {
      closed := true;
      all := backingQueue;
      backingQueue := [];
    }

    method Close()
      modifies this`closed
      ensures closed
    {
      closed := true;
    }
  }

  /** A queue's whole life, as the sequence of its critical sections. */
  datatype Operation<!T> =
    | DoPut(elem: T)
    | DoTake
    | DoRemove(keep: T -> bool)
    | DoSwap(want: T -> bool)
    | DoClear
    | DoClose

  /** Contents, the closed flag, and the history of what was let in, taken out and dropped. */
  datatype Life<T> = Life(contents: seq<T>, closed: bool, admitted: seq<T>, taken: seq<T>, dropped: multiset<T>)

  ghost function After<T(!new)>(l: Life<T>, op: Operation<T>): Life<T> {
    match op
    case DoPut(x) => if l.closed then l else l.(contents := l.contents + [x], admitted := l.admitted + [x])
    case DoTake => if l.contents == [] then l
                   else l.(contents := l.contents[1..], taken := l.taken + [l.contents[0]])
    case DoRemove(keep) => l.(contents := Filter(l.contents, keep),
                              dropped := l.dropped + (multiset(l.contents) - multiset(Filter(l.contents, keep))))
    case DoSwap(want) => l.(contents := SwappedToFront(l.contents, want))
    case DoClear => l.(contents := [], dropped := l.dropped + multiset(l.contents))
    case DoClose => l.(closed := true)
  }

  ghost function Lived<T(!new)>(ops: seq<Operation<T>>): Life<T> {
    if ops == [] then Life([], false, [], [], multiset{})
    else After(Lived(ops[..|ops| - 1]), ops[|ops| - 1])
  }

  ghost predicate InOrder<T>(op: Operation<T>) {
    op.DoPut? || op.DoTake? || op.DoClose?
  }

  ghost predicate Conserved<T(!new)>(l: Life<T>) {
    multiset(l.admitted) == multiset(l.contents) + multiset(l.taken) + l.dropped
  }

  lemma RemovalConserves<T(!new)>(l: Life<T>, keep: T -> bool)
    requires Conserved(l)
    ensures Conserved(After(l, DoRemove(keep)))
  {
    FilterMultiplicity(l.contents, keep);
    assert multiset(Filter(l.contents, keep)) <= multiset(l.contents);
  }

  lemma StepConserves<T(!new)>(l: Life<T>, op: Operation<T>)
    requires Conserved(l)
    ensures Conserved(After(l, op))
  {
    match op {
      case DoRemove(keep) => RemovalConserves(l, keep);
      case DoSwap(want) => SwappedToFrontKeeps(l.contents, want);
      case DoTake =>
        if l.contents != [] { assert l.contents == [l.contents[0]] + l.contents[1..]; }
      case _ =>
    }
  }

  /** Over any life nothing is lost or invented: what was admitted is in the queue, was taken, or was dropped. */
  lemma {:induction false} QueueConserves<T(!new)>(ops: seq<Operation<T>>)
    ensures Conserved(Lived(ops))
  {
    if ops != [] {
      QueueConserves(ops[..|ops| - 1]);
      StepConserves(Lived(ops[..|ops| - 1]), ops[|ops| - 1]);
    }
  }

  /** Without swaps and removals the queue is FIFO: what was taken followed by what is
      still queued is what was admitted, in that order. */
  lemma {:induction false} TakesAreFifo<T(!new)>(ops: seq<Operation<T>>)
    requires forall i :: 0 <= i < |ops| ==> InOrder(ops[i])
    ensures var l := Lived(ops); l.admitted == l.taken + l.contents
  {
    if ops != [] {
      var rest, op := ops[..|ops| - 1], ops[|ops| - 1];
      TakesAreFifo(rest);
      assert InOrder(op);
      var before := Lived(rest);
      if op.DoTake? && before.contents != [] {
        assert before.contents == [before.contents[0]] + before.contents[1..];
      }
    }
  }

  /** A closed queue stays closed and admits nothing more, whatever is done to it. */
  lemma {:induction false} ClosedAdmitsNothing<T(!new)>(ops: seq<Operation<T>>, more: seq<Operation<T>>)
    requires Lived(ops).closed
    ensures Lived(ops + more).closed && Lived(ops + more).admitted == Lived(ops).admitted
  {
    if more == [] {
      assert ops + more == ops;
    } else {
      var fewer := more[..|more| - 1];
      ClosedAdmitsNothing(ops, fewer);
      assert (ops + more)[..|ops + more| - 1] == ops + fewer;
    }
  }
}
