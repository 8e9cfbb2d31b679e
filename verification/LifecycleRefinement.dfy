/** The steps of the lifecycle are what the classes do: every step that touches the queue or the finished
    list is a method of QueryWorker, and what a step writes into an execution is what that method or
    Database.RunQuery writes, with executions seen as numbers. */
module LifecycleRefinement {
  import opened QueryTypes
  import opened Sequences
  import opened QueryDatas
  import LibpqExecutor
  import Databases
  import opened BlockingQueues
  import opened QueryWorkers
  import opened QueryLifecycle

  // ---------------------------------------------------------------- the queue

  /** The executions of a list of pairs. */
  function Ids(pairs: seq<QueryPair>, id: QueryPair -> Id): seq<Id> {
    if pairs == [] then [] else [id(pairs[0])] + Ids(pairs[1..], id)
  }

  /** In the list no other pair stands for the same execution. */
  predicate Identifies(pairs: seq<QueryPair>, id: QueryPair -> Id, pair: QueryPair) {
    forall i :: 0 <= i < |pairs| && id(pairs[i]) == id(pair) ==> pairs[i] == pair
  }

  lemma {:induction false} IdsMember(pairs: seq<QueryPair>, id: QueryPair -> Id, pair: QueryPair)
    requires Identifies(pairs, id, pair)
    ensures id(pair) in Ids(pairs, id) <==> pair in pairs
  {
    if pairs != [] {
      Identified(pairs, id, pair);
      IdsMember(pairs[1..], id, pair);
      assert pairs == [pairs[0]] + pairs[1..];
    }
  }

  lemma Identified(pairs: seq<QueryPair>, id: QueryPair -> Id, pair: QueryPair)
    requires pairs != [] && Identifies(pairs, id, pair)
    ensures Identifies(pairs[1..], id, pair) && (id(pairs[0]) == id(pair) <==> pairs[0] == pair)
  {
    forall i | 0 <= i < |pairs[1..]| && id(pairs[1..][i]) == id(pair) ensures pairs[1..][i] == pair {
      assert pairs[1..][i] == pairs[i + 1];
    }
  }

  /** removeQueued takes one execution out of the queue, as AbortOne and CompleteQueued do. */
  lemma {:induction false} RemovalRefined(pairs: seq<QueryPair>, id: QueryPair -> Id, pair: QueryPair)
    requires Identifies(pairs, id, pair)
    ensures Ids(Filter(pairs, Not(QueryWorker.Same(pair.query, pair.data))), id) == Without(Ids(pairs, id), id(pair))
  {
    if pairs != [] {
      Identified(pairs, id, pair);
      RemovalRefined(pairs[1..], id, pair);
      IdsAppend(if pairs[0] == pair then [] else [pairs[0]],
                Filter(pairs[1..], Not(QueryWorker.Same(pair.query, pair.data))), id);
    }
  }

  lemma {:induction false} IdsAppend(a: seq<QueryPair>, b: seq<QueryPair>, id: QueryPair -> Id)
    ensures Ids(a + b, id) == Ids(a, id) + Ids(b, id)
  {
    if a == [] {
      assert a + b == b;
    } else {
      assert (a + b)[1..] == a[1..] + b;
      IdsAppend(a[1..], b, id);
    }
  }

  lemma {:induction false} IdsAt(pairs: seq<QueryPair>, id: QueryPair -> Id)
    ensures |Ids(pairs, id)| == |pairs| && forall i :: 0 <= i < |pairs| ==> Ids(pairs, id)[i] == id(pairs[i])
  {
    if pairs != [] { IdsAt(pairs[1..], id); }
  }

  lemma {:induction false} SameFirst(pairs: seq<QueryPair>, id: QueryPair -> Id, pair: QueryPair)
    requires Identifies(pairs, id, pair)
    ensures FirstIndex(Ids(pairs, id), Is(id(pair))) == FirstIndex(pairs, QueryWorker.Same(pair.query, pair.data))
  {
    if pairs != [] {
      Identified(pairs, id, pair);
      SameFirst(pairs[1..], id, pair);
      assert Ids(pairs, id)[1..] == Ids(pairs[1..], id);
    }
  }

  /** swapToFront exchanges the same two places as SwapFront does. */
  lemma SwapRefined(pairs: seq<QueryPair>, id: QueryPair -> Id, pair: QueryPair)
    requires Identifies(pairs, id, pair)
    ensures Ids(SwappedToFront(pairs, QueryWorker.Same(pair.query, pair.data)), id)
         == SwappedToFront(Ids(pairs, id), Is(id(pair)))
  {
    SameFirst(pairs, id, pair);
    IdsAt(pairs, id);
    IdsAt(SwappedToFront(pairs, QueryWorker.Same(pair.query, pair.data)), id);
  }

  // ---------------------------------------------------------------- a worker and a state

  function ExecOf(data: Snapshot): Exec {
    Exec(data.status, data.resultStatus, data.finished, data.cancellationRequested)
  }

  /** Different pairs stand for different executions and have their own data. */
  predicate Separate(pairs: seq<QueryPair>, id: QueryPair -> Id) {
    forall i, j :: 0 <= i < |pairs| && 0 <= j < |pairs| && (id(pairs[i]) == id(pairs[j]) || pairs[i].data == pairs[j].data)
      ==> pairs[i] == pairs[j]
  }

  /** The state has the worker's lists and flag, and the data of what is queued. */
  predicate Shows(w: QueryWorker, id: QueryPair -> Id, s: State)
    reads w, w.queryQueue, w.finishedQueries, w.QueuedData()
  {
    && w.Valid() && s.p.queue == Ids(w.Queued(), id) && s.p.finished == Ids(w.Finished(), id)
    && s.f.closed == w.queryQueue.closed
    && forall i :: 0 <= i < |w.Queued()| ==> ShowsData(w.Queued()[i], id, s)
  }

  predicate ShowsData(pair: QueryPair, id: QueryPair -> Id, s: State)
    reads pair.data
  {
    Of(s, id(pair)) == ExecOf(pair.data.State())
  }

  lemma SeparateIdentifies(pairs: seq<QueryPair>, id: QueryPair -> Id, pair: QueryPair)
    requires Separate(pairs + [pair], id)
    ensures Identifies(pairs, id, pair)
    ensures forall i :: 0 <= i < |pairs| && pairs[i].data == pair.data ==> pairs[i] == pair
  {
    forall i | 0 <= i < |pairs| && (id(pairs[i]) == id(pair) || pairs[i].data == pair.data) ensures pairs[i] == pair {
      assert (pairs + [pair])[i] == pairs[i] && (pairs + [pair])[|pairs|] == pair;
    }
  }

  lemma IdsFront(q: seq<QueryPair>, id: QueryPair -> Id)
    requires q != []
    ensures Ids(q, id) != [] && Ids(q, id)[0] == id(q[0]) && Ids(q, id)[1..] == Ids(q[1..], id)
  {
  }

  lemma {:induction false} IdsContains(q: seq<QueryPair>, id: QueryPair -> Id, pair: QueryPair)
    requires pair in q
    ensures id(pair) in Ids(q, id)
  {
    if q[0] != pair { IdsContains(q[1..], id, pair); }
  }

  // ---------------------------------------------------------------- the Lua thread's steps

  /** EnqueuePut is QueryWorker::enqueue. */
  method PutStep(w: QueryWorker, id: QueryPair -> Id, pair: QueryPair, ghost s: State, ghost ok: bool)
    requires Shows(w, id, s) && pair.data !in w.QueuedData()
    requires id(pair) !in s.p.queue
    requires s.lua != [] && s.lua[0] == EnqueuePut(id(pair)) && Of(s, id(pair)) == ExecOf(pair.data.State()).(status := Waiting)
    modifies w.queryQueue, pair.data
    ensures Shows(w, id, LuaStep(s, ok)) && ShowsData(pair, id, LuaStep(s, ok))
  {
    ghost var before := w.Queued();
    IdsAppend(before, [pair], id);
    IdsAt(before, id);
    var accepted := w.Enqueue(pair.query, pair.data);
    assert forall i :: 0 <= i < |before| ==> before[i] in before && before[i].data != pair.data && id(before[i]) != id(pair);
  }

  /** A removal, on both sides. */
  lemma RemovedList(before: seq<QueryPair>, id: QueryPair -> Id, pair: QueryPair)
    requires Separate(before + [pair], id)
    ensures id(pair) in Ids(before, id) <==> pair in before
    ensures var left := Filter(before, Not(QueryWorker.Same(pair.query, pair.data)));
      && Ids(left, id) == (if pair in before then Without(Ids(before, id), id(pair)) else Ids(before, id))
      && forall i :: 0 <= i < |left| ==> left[i] in before && id(left[i]) != id(pair) && left[i].data != pair.data
  {
    SeparateIdentifies(before, id, pair);
    IdsMember(before, id, pair);
    RemovalRefined(before, id, pair);
    if pair !in before { WithoutAbsent(Ids(before, id), id(pair)); }
    var left := Filter(before, Not(QueryWorker.Same(pair.query, pair.data)));
    forall i | 0 <= i < |left| ensures left[i] in before && id(left[i]) != id(pair) && left[i].data != pair.data {
      FilterMember(before, Not(QueryWorker.Same(pair.query, pair.data)), i);
    }
  }

  /** What a removal leaves in the queue, seen as executions. */
  twostate predicate Removed(w: QueryWorker, id: QueryPair -> Id, pair: QueryPair)
    reads w, w.queryQueue, w.QueuedData()
  {
    && Ids(w.Queued(), id) == (if pair in old(w.Queued()) then Without(old(Ids(w.Queued(), id)), id(pair)) else old(Ids(w.Queued(), id)))
    && forall i :: 0 <= i < |w.Queued()| ==>
         var x := w.Queued()[i];
         x in old(w.Queued()) && id(x) != id(pair) && x.data != pair.data && x.data.State() == old(x.data.State())
  }

  method Remove(w: QueryWorker, id: QueryPair -> Id, pair: QueryPair) returns (removed: bool)
    requires w.Valid() && Separate(w.Queued() + [pair], id)
    modifies w.queryQueue`backingQueue, pair.data`status, pair.data`finished
    ensures w.Valid() && Removed(w, id, pair)
    ensures removed <==> id(pair) in old(Ids(w.Queued(), id))
    ensures removed <==> pair in old(w.Queued())
    ensures pair.data.State() == if removed then Dropped(old(pair.data.State())) else old(pair.data.State())
  {
    RemovedList(w.Queued(), id, pair);
    removed := w.RemoveQueued(pair.query, pair.data);
    if removed { pair.data.status, pair.data.finished := Aborted, true; }
  }

  method Complete(w: QueryWorker, id: QueryPair -> Id, pair: QueryPair, reason: string) returns (removed: bool)
    requires w.Valid() && Separate(w.Queued() + [pair], id)
    modifies w.queryQueue`backingQueue, w.finishedQueries, pair.data
    ensures w.Valid() && Removed(w, id, pair)
    ensures removed <==> id(pair) in old(Ids(w.Queued(), id))
    ensures removed <==> pair in old(w.Queued())
    ensures Ids(w.Finished(), id) == old(Ids(w.Finished(), id)) + if removed then [id(pair)] else []
    ensures pair.data.State() == if removed then Failed(old(pair.data.State()), reason) else old(pair.data.State())
  {
    RemovedList(w.Queued(), id, pair);
    IdsAppend(w.Finished(), [pair], id);
    removed := w.CompleteQueued(pair.query, pair.data, reason);
  }

  lemma AbortRemoveEffect(s: State, ok: bool, d: Id)
    requires s.lua != [] && s.lua[0] == AbortRemove(d)
    ensures var t := LuaStep(s, ok);
      && t.p.queue == (if d in s.p.queue then Without(s.p.queue, d) else s.p.queue)
      && t.p.finished == s.p.finished && t.f.closed == s.f.closed
      && t.p.toDeliver == s.p.toDeliver + (if d in s.p.queue then [d] else [])
      && forall x :: Of(t, x) == if x == d && d in s.p.queue then Of(s, d).(status := Aborted, finished := true) else Of(s, x)
  {
  }

  lemma WaitRemoveEffect(s: State, ok: bool, d: Id)
    requires s.lua != [] && s.lua[0] == WaitRemove(d)
    ensures var t := LuaStep(s, ok);
      && t.p.queue == (if d in s.p.queue then Without(s.p.queue, d) else s.p.queue)
      && t.p.finished == s.p.finished + (if d in s.p.queue then [d] else []) && t.f.closed == s.f.closed
      && forall x :: Of(t, x) == if x == d && d in s.p.queue then CompletedWithError(Of(s, d)).(finished := true) else Of(s, x)
  {
  }

  /** AbortRemove is the queued half of Database::abortQuery. */
  method RemoveStep(w: QueryWorker, id: QueryPair -> Id, pair: QueryPair, ghost s: State, ghost ok: bool) returns (removed: bool)
    requires Shows(w, id, s) && Separate(w.Queued() + [pair], id) && ShowsData(pair, id, s)
    requires s.lua != [] && s.lua[0] == AbortRemove(id(pair))
    modifies w.queryQueue`backingQueue, pair.data
    ensures Shows(w, id, LuaStep(s, ok)) && ShowsData(pair, id, LuaStep(s, ok))
    ensures removed <==> id(pair) in s.p.queue
    ensures LuaStep(s, ok).p.toDeliver == s.p.toDeliver + if removed then [id(pair)] else []
  {
    AbortRemoveEffect(s, ok, id(pair));
    removed := Remove(w, id, pair);
  }

  /** WaitRemove is QueryWorker::completeQueuedWithError for one execution. */
  method CompleteStep(w: QueryWorker, id: QueryPair -> Id, pair: QueryPair, reason: string, ghost s: State, ghost ok: bool)
    requires Shows(w, id, s) && Separate(w.Queued() + [pair], id) && ShowsData(pair, id, s)
    requires s.lua != [] && s.lua[0] == WaitRemove(id(pair))
    modifies w.queryQueue`backingQueue, w.finishedQueries, pair.data
    ensures Shows(w, id, LuaStep(s, ok)) && ShowsData(pair, id, LuaStep(s, ok))
  {
    WaitRemoveEffect(s, ok, id(pair));
    var removed := Complete(w, id, pair, reason);
  }

  /** ClearQueued is QueryWorker::abortQueued; what it returns is what the caller will deliver. */
  method ClearStep(w: QueryWorker, id: QueryPair -> Id, ghost s: State, ghost ok: bool) returns (result: AbortResult)
    requires Shows(w, id, s) && s.lua != [] && s.lua[0] == ClearQueued
    modifies w.queryQueue`backingQueue, w.QueuedData()
    ensures Shows(w, id, LuaStep(s, ok)) && forall pair :: pair in result.completed ==> ShowsData(pair, id, LuaStep(s, ok))
    ensures LuaStep(s, ok).p.toDeliver == s.p.toDeliver + Ids(result.completed, id)
  {
    forall pair | pair in w.Queued() ensures id(pair) in s.p.queue { IdsContains(w.Queued(), id, pair); }
    result := w.AbortQueued();
  }

  /** CloseAndClear is QueryWorker::abortQueuedAndClose. */
  method CloseAndClearStep(w: QueryWorker, id: QueryPair -> Id, ghost s: State, ghost ok: bool) returns (result: AbortResult)
    requires Shows(w, id, s) && s.lua != [] && s.lua[0] == CloseAndClear
    modifies w.queryQueue, w.QueuedData()
    ensures Shows(w, id, LuaStep(s, ok)) && forall pair :: pair in result.completed ==> ShowsData(pair, id, LuaStep(s, ok))
    ensures LuaStep(s, ok).p.holding == s.p.holding + Ids(result.completed, id)
  {
    forall pair | pair in w.Queued() ensures id(pair) in s.p.queue { IdsContains(w.Queued(), id, pair); }
    result := w.AbortQueuedAndClose();
  }

  /** FinishHolding is QueryWorker::finish on the first execution that shutdown still holds. */
  method FinishHeldStep(w: QueryWorker, id: QueryPair -> Id, pair: QueryPair, ghost s: State, ghost ok: bool)
    requires Shows(w, id, s) && s.lua != [] && s.lua[0] == FinishHolding
    requires s.p.holding != [] && s.p.holding[0] == id(pair)
    modifies w.finishedQueries
    ensures Shows(w, id, LuaStep(s, ok))
  {
    IdsAppend(w.Finished(), [pair], id);
    w.Finish(pair);
  }

  /** Think begins with QueryWorker::takeFinished. */
  method CollectStep(w: QueryWorker, id: QueryPair -> Id, ghost s: State) returns (all: seq<QueryPair>)
    requires Shows(w, id, s)
    modifies w.finishedQueries`backingQueue
    ensures Shows(w, id, CallStep(s, Think)) && CallStep(s, Think).p.toDeliver == s.p.toDeliver + Ids(all, id)
  {
    all := w.TakeFinished();
  }

  method SwapStep(w: QueryWorker, id: QueryPair -> Id, pair: QueryPair, ghost s: State)
    requires Shows(w, id, s) && Separate(w.Queued() + [pair], id)
    modifies w.queryQueue`backingQueue
    ensures Shows(w, id, CallStep(s, Call.SwapToFront(id(pair))))
  {
    SeparateIdentifies(w.Queued(), id, pair);
    SwapRefined(w.Queued(), id, pair);
    var swapped := w.SwapToFront(pair.query, pair.data);
  }

  // ---------------------------------------------------------------- the worker's steps

  /** Top is QueryWorker::takeNext; it is enabled exactly when the call would not block. */
  method TakeStep(w: QueryWorker, id: QueryPair -> Id, ghost s: State, ghost ok: bool, ghost e: Ending, ghost open: bool)
      returns (out: Take<QueryPair>)
    requires Shows(w, id, s) && s.worker.phase.Top?
    modifies w.queryQueue`backingQueue
    ensures out.Blocked? <==> !WorkerEnabled(s)
    ensures var t := WorkerStep(s, ok, e, open);
      && (!out.Blocked? ==> Shows(w, id, t))
      && (out.Taken? ==> t.worker.phase == Took && t.worker.d == id(out.value) && t.p.hands == s.p.hands + [id(out.value)])
      && (out.Finished? ==> t.worker.phase == Leaving)
  {
    IdsAt(w.Queued(), id);
    if w.Queued() != [] { IdsFront(w.Queued(), id); }
    ghost var before := w.Queued();
    out := w.TakeNext();
    if out.Taken? { assert before[1..] == w.Queued() && before[0] == out.value; }
  }

  /** Finishing is QueryWorker::finish. */
  method FinishStep(w: QueryWorker, id: QueryPair -> Id, pair: QueryPair, ghost s: State, ghost ok: bool, ghost e: Ending, ghost open: bool)
    requires Shows(w, id, s) && s.worker.phase.Finishing? && s.p.hands == [id(pair)]
    modifies w.finishedQueries
    ensures Shows(w, id, WorkerStep(s, ok, e, open)) && WorkerStep(s, ok, e, open).p.hands == []
  {
    IdsAppend(w.Finished(), [pair], id);
    w.Finish(pair);
  }

  // ---------------------------------------------------------------- a failed connect

  /** One turn of the loop: completed, put into the finished list, then flagged finished. */
  ghost function Turn(s: State, e: Ending): (t: State)
    requires s.worker.phase.Failing? && s.p.hands != []
    ensures t.worker.phase.Failing? && t.p.hands == s.p.hands[1..] && t.p.finished == s.p.finished + [s.p.hands[0]]
    ensures t.p.queue == s.p.queue && t.f.closed == s.f.closed
    ensures forall d :: Of(t, d) == if d == s.p.hands[0] then CompletedWithError(Of(s, d)).(finished := true) else Of(s, d)
  {
    FailFirst(s, e);
    var a := WorkerStep(s, true, e, true);
    FailSecond(a, e);
    var b := WorkerStep(a, true, e, true);
    FailThird(b, e);
    WorkerStep(b, true, e, true)
  }

  lemma FailFirst(s: State, e: Ending)
    requires s.worker.phase.Failing? && s.p.hands != []
    ensures var a := WorkerStep(s, true, e, true);
      && a.worker.phase.FailPut? && a.worker.d == s.p.hands[0] && a.p == s.p && a.f == s.f
      && forall d :: Of(a, d) == if d == s.p.hands[0] then CompletedWithError(Of(s, d)) else Of(s, d)
  {
  }

  lemma FailSecond(s: State, e: Ending)
    requires s.worker.phase.FailPut? && s.p.hands != []
    ensures var a := WorkerStep(s, true, e, true);
      && a.worker.phase.FailFinish? && a.worker.d == s.worker.d && a.execs == s.execs && a.f == s.f
      && a.p.hands == s.p.hands[1..] && a.p.finished == s.p.finished + [s.p.hands[0]] && a.p.queue == s.p.queue
  {
  }

  lemma FailThird(s: State, e: Ending)
    requires s.worker.phase.FailFinish?
    ensures var a := WorkerStep(s, true, e, true);
      && a.worker.phase.Failing? && a.p == s.p && a.f == s.f
      && forall d :: Of(a, d) == if d == s.worker.d then Of(s, d).(finished := true) else Of(s, d)
  {
  }

  lemma FailLast(s: State, e: Ending)
    requires s.worker.phase.Failing? && s.p.hands == []
    ensures var t := WorkerStep(s, true, e, true);
      t.worker.phase.Exited? && t.p == s.p && t.f == s.f && t.execs == s.execs
  {
  }

  function FailedExec(s: State, d: Id): Exec {
    if d in s.p.hands then CompletedWithError(Of(s, d)).(finished := true) else Of(s, d)
  }

  lemma TurnLeaves(s: State, e: Ending, d: Id)
    requires s.worker.phase.Failing? && s.p.hands != []
    ensures FailedExec(Turn(s, e), d) == FailedExec(s, d)
  {
    var t := Turn(s, e);
    assert s.p.hands == [s.p.hands[0]] + t.p.hands;
  }

  /** The worker's steps from Failing on, to the end of the loop. */
  ghost function FailedAll(s: State, e: Ending): State
    requires s.worker.phase.Failing?
    decreases |s.p.hands|
  {
    if s.p.hands == [] then WorkerStep(s, true, e, true) else FailedAll(Turn(s, e), e)
  }

  lemma {:induction false} FailedAllLeaves(s: State, e: Ending)
    requires s.worker.phase.Failing?
    ensures var t := FailedAll(s, e);
      && t.worker.phase.Exited? && t.p.finished == s.p.finished + s.p.hands
      && t.p.queue == s.p.queue && t.f.closed == s.f.closed
      && forall d :: Of(t, d) == FailedExec(s, d)
    decreases |s.p.hands|
  {
    if s.p.hands == [] {
      FailLast(s, e);
    } else {
      var t := Turn(s, e);
      assert s.p.finished + s.p.hands == t.p.finished + t.p.hands;
      forall d ensures FailedExec(t, d) == FailedExec(s, d) { TurnLeaves(s, e, d); }
      FailedAllLeaves(t, e);
    }
  }

  /** The worker's steps from ConnectFailed on are QueryWorker::completeQueuedWithErrorAndClose. */
  method FailAllSteps(w: QueryWorker, id: QueryPair -> Id, reason: string, ghost s: State, ghost e: Ending)
    requires Shows(w, id, s) && s.worker.phase.ConnectFailed? && s.p.hands == []
    modifies w.queryQueue, w.finishedQueries, w.QueuedData()
    ensures WorkerStep(s, true, e, true).worker.phase.Failing?
    ensures var t := FailedAll(WorkerStep(s, true, e, true), e);
      Shows(w, id, t) && forall pair :: pair in old(w.Queued()) ==> ShowsData(pair, id, t)
  {
    ghost var queued := w.Queued();
    Emptied(s, e);
    IdsAt(queued, id);
    IdsAppend(w.Finished(), queued, id);
    forall pair | pair in queued ensures id(pair) in s.p.queue { IdsContains(queued, id, pair); }
    FailedAllLeaves(WorkerStep(s, true, e, true), e);
    assert s.p.hands + s.p.queue == s.p.queue;
    w.CompleteQueuedWithErrorAndClose(reason);
  }

  lemma Emptied(s: State, e: Ending)
    requires s.worker.phase.ConnectFailed?
    ensures var t := WorkerStep(s, true, e, true);
      && t.worker.phase.Failing? && t.p.hands == s.p.hands + s.p.queue && t.p.queue == [] && t.p.finished == s.p.finished
      && t.f.closed && t.execs == s.execs
  {
  }

  // ---------------------------------------------------------------- the end of the try block, and the handler

  /** Succeeding is the end of the try block. */
  lemma SuccessRefined(s: State, outcome: LibpqExecutor.Outcome, data: Snapshot, ok: bool, e: Ending, open: bool)
    requires s.worker.phase.Succeeding? && outcome.Returned? && Of(s, s.worker.d) == ExecOf(data)
    ensures Of(WorkerStep(s, ok, e, open), s.worker.d) == ExecOf(Databases.Left(true, data, []))
  {
  }

  function EndingOf(outcome: LibpqExecutor.Outcome): Ending {
    match outcome
    case Returned => Ending.Ok
    case Threw(e) =>
      if e.connection then ConnectionError(Databases.IsUserCancellation(e), Databases.IsRetriable(e))
      else OtherError(Databases.IsUserCancellation(e))
  }

  /** The statement threw, and the Guard is gone. */
  predicate AtHandler(s: State, outcome: LibpqExecutor.Outcome, data: Snapshot) {
    s.worker.phase.Handling? && outcome.Threw? && s.worker.ending == EndingOf(outcome) && Of(s, s.worker.d) == ExecOf(data)
  }

  lemma SameCases(s: State, outcome: LibpqExecutor.Outcome, data: Snapshot)
    requires AtHandler(s, outcome, data)
    ensures TakenAsCancelled(s) <==> Databases.TakenAsCancelled(outcome, data)
    ensures Retries(s) <==> Databases.Reconnects(outcome, data, s.f.autoReconnect) && !s.f.shuttingDown
  {
  }

  lemma WrittenAtOnce(s: State, outcome: LibpqExecutor.Outcome, data: Snapshot, ok: bool, e: Ending, open: bool)
    requires AtHandler(s, outcome, data) && !Retries(s)
    ensures Of(WorkerStep(s, ok, e, open), s.worker.d) == ExecOf(Databases.Reported(outcome, data))
  {
    SameCases(s, outcome, data);
  }

  lemma WrittenAfterReconnect(s: State, outcome: LibpqExecutor.Outcome, data: Snapshot, ok: bool, e: Ending, open: bool)
    requires AtHandler(s, outcome, data) && Retries(s)
    ensures var t := WorkerStep(WorkerStep(s, ok, e, open), ok, e, open);
      t.worker.phase == PostRun && Of(t, s.worker.d) == ExecOf(Databases.Reported(outcome, data))
  {
    SameCases(s, outcome, data);
    FirstHalf(s, ok, e, open);
    SecondHalf(WorkerStep(s, ok, e, open), ok, e, open);
  }

  lemma FirstHalf(s: State, ok: bool, e: Ending, open: bool)
    requires s.worker.phase.Handling? && Retries(s)
    ensures var t := WorkerStep(s, ok, e, open);
      t.worker.phase == Recovering && t.worker.d == s.worker.d && Of(t, s.worker.d) == Of(s, s.worker.d).(cancelRequested := false)
  {
  }

  lemma SecondHalf(t: State, ok: bool, e: Ending, open: bool)
    requires t.worker.phase == Recovering
    ensures var u := WorkerStep(t, ok, e, open); u.worker.phase == PostRun && Of(u, t.worker.d) == Of(t, t.worker.d).(result := Error)
  {
  }

  /** The handler of the lifecycle writes what the catch blocks of runQuery leave, and reconnects in the
      same cases; when it does, the rest is written once the attempt is over. */
  lemma HandlerRefined(s: State, outcome: LibpqExecutor.Outcome, data: Snapshot, ok: bool, e: Ending, open: bool)
    requires AtHandler(s, outcome, data)
    ensures Retries(s) <==> Databases.Reconnects(outcome, data, s.f.autoReconnect) && !s.f.shuttingDown
    ensures var t := WorkerStep(s, ok, e, open);
      Of(if Retries(s) then WorkerStep(t, ok, e, open) else t, s.worker.d) == ExecOf(Databases.Reported(outcome, data))
  {
    SameCases(s, outcome, data);
    if Retries(s) {
      WrittenAfterReconnect(s, outcome, data, ok, e, open);
    } else {
      WrittenAtOnce(s, outcome, data, ok, e, open);
    }
  }
}
