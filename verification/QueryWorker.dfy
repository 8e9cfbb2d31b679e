/** The queue and the finished list of a database worker (pg/src/postgres/QueryWorker.cpp). */
module QueryWorkers {
  import opened QueryTypes
  import opened Sequences
  import opened BlockingQueues
  import opened QueryDatas

  /** A query object is only compared here, so its identity stands for it. */
  datatype QueryPair = QueryPair(query: nat, data: QueryData)

  datatype AbortResult = AbortResult(requested: bool, requestedCount: nat, completed: seq<QueryPair>)

  class QueryWorker {
    const finishedQueries: BlockingQueue<QueryPair>
    const queryQueue: BlockingQueue<QueryPair>

    /** The finished list is never closed. */
    predicate Valid()
      reads this, finishedQueries, queryQueue
    {
      finishedQueries != queryQueue && !finishedQueries.closed
    }

    function Queued(): seq<QueryPair>
      reads queryQueue
    {
      queryQueue.backingQueue
    }

    function Finished(): seq<QueryPair>
      reads finishedQueries
    {
      finishedQueries.backingQueue
    }

    function QueuedData(): set<QueryData>
      reads queryQueue
    {
      set pair | pair in queryQueue.backingQueue :: pair.data
    }

    constructor ()
      ensures Valid() && fresh(finishedQueries) && fresh(queryQueue)
      ensures Queued() == [] && Finished() == [] && !queryQueue.closed
    {
      finishedQueries := new BlockingQueue();
      queryQueue := new BlockingQueue();
    }

    /** `false` stands for the exception "Database is disconnected." */
    method Enqueue(query: nat, data: QueryData) returns (accepted: bool)
      requires Valid()
      modifies queryQueue, data`status, data`finished
      ensures Valid() && queryQueue.closed == old(queryQueue.closed)
      ensures accepted <==> !old(queryQueue.closed)
      ensures Queued() == if accepted then old(Queued()) + [QueryPair(query, data)] else old(Queued())
      ensures data.State() == if accepted then old(data.State()).(status := Waiting) else Dropped(old(data.State()))
    {
      data.status := Waiting;
      accepted := queryQueue.Put(QueryPair(query, data));
      if !accepted {
        data.status, data.finished := Aborted, true;
      }
    }

    static function Same(query: nat, data: QueryData): QueryPair -> bool {
      (pair: QueryPair) => pair == QueryPair(query, data)
    }

    method SwapToFront(query: nat, data: QueryData) returns (swapped: bool)
      requires Valid()
      modifies queryQueue`backingQueue
      ensures Valid() && Queued() == SwappedToFront(old(Queued()), Same(query, data))
      ensures swapped <==> 0 < FirstIndex(old(Queued()), Same(query, data)) < |old(Queued())|
    {
      swapped := queryQueue.SwapToFrontIf(Same(query, data));
    }

    method RemoveQueued(query: nat, data: QueryData) returns (removed: bool)
      requires Valid()
      modifies queryQueue`backingQueue
      ensures Valid()
      ensures Queued() == Filter(old(Queued()), Not(Same(query, data)))
      ensures removed <==> QueryPair(query, data) in old(Queued())
    {
      removed := queryQueue.RemoveIf(Same(query, data));
    }

    /** Takes one pair out of the queue and completes it; the finished list gets it before the flag is set. */
    method CompleteQueued(query: nat, data: QueryData, reason: string) returns (removed: bool)
      requires Valid()
      modifies queryQueue`backingQueue, finishedQueries, data
      ensures Valid()
      ensures removed <==> QueryPair(query, data) in old(Queued())
      ensures Queued() == Filter(old(Queued()), Not(Same(query, data)))
      ensures Finished() == if removed then old(Finished()) + [QueryPair(query, data)] else old(Finished())
      ensures data.State() == if removed then Failed(old(data.State()), reason) else old(data.State())
    {
      removed := RemoveQueued(query, data);
      if removed { Fail(QueryPair(query, data), reason); }
    }

    /** The finished list gets the pair before the flag is set. */
    method Fail(pair: QueryPair, reason: string)
      requires Valid()
      modifies finishedQueries, pair.data
      ensures Valid() && Finished() == old(Finished()) + [pair]
      ensures pair.data.State() == Failed(old(pair.data.State()), reason)
    {
      pair.data.error, pair.data.resultStatus, pair.data.status := reason, Error, Complete;
      var ok := finishedQueries.Put(pair);
      pair.data.finished := true;
    }

    /** Empties the queue and marks what was in it aborted. */
    method AbortQueued() returns (result: AbortResult)
      requires Valid()
      modifies queryQueue`backingQueue, QueuedData()
      ensures Valid() && Queued() == [] && Finished() == old(Finished())
      ensures result == AbortResult(old(Queued()) != [], |old(Queued())|, old(Queued()))
      ensures forall pair :: pair in old(Queued()) ==> pair.data.State() == Dropped(old(pair.data.State()))
    {
      var cancelled := queryQueue.Clear();
      result := AbortEach(cancelled);
    }

    method AbortQueuedAndClose() returns (result: AbortResult)
      requires Valid()
      modifies queryQueue, QueuedData()
      ensures Valid() && Queued() == [] && queryQueue.closed && Finished() == old(Finished())
      ensures result == AbortResult(old(Queued()) != [], |old(Queued())|, old(Queued()))
      ensures forall pair :: pair in old(Queued()) ==> pair.data.State() == Dropped(old(pair.data.State()))
    {
      var cancelled := queryQueue.CloseAndClear();
      result := AbortEach(cancelled);
    }

    /** The loop abortQueued and abortQueuedAndClose share. */
    static method AbortEach(cancelled: seq<QueryPair>) returns (result: AbortResult)
      modifies set pair | pair in cancelled :: pair.data
      ensures result == AbortResult(cancelled != [], |cancelled|, cancelled)
      ensures forall pair :: pair in cancelled ==> pair.data.State() == Dropped(old(pair.data.State()))
    {
      result := AbortResult(false, 0, []);
      for i := 0 to |cancelled|
        invariant result == AbortResult(i != 0, i, cancelled[..i])
        invariant forall k :: 0 <= k < i ==> cancelled[k].data.State() == Dropped(old(cancelled[k].data.State()))
        invariant forall k :: 0 <= k < |cancelled| ==>
          cancelled[k].data.State() in {old(cancelled[k].data.State()), Dropped(old(cancelled[k].data.State()))}
      {
        cancelled[i].data.status, cancelled[i].data.finished := Aborted, true;
        result := AbortResult(true, result.requestedCount + 1, result.completed + [cancelled[i]]);
      }
    }

    /** Closes the queue and completes what was in it with an error, in queue order. */
    method CompleteQueuedWithErrorAndClose(reason: string)
      requires Valid()
      modifies queryQueue, finishedQueries, QueuedData()
      ensures Valid() && Queued() == [] && queryQueue.closed
      ensures Finished() == old(Finished()) + old(Queued())
      ensures forall pair :: pair in old(Queued()) ==> pair.data.State() == Failed(old(pair.data.State()), reason)
    {
      var queued := queryQueue.CloseAndClear();
      for i := 0 to |queued|
        invariant Valid() && Queued() == [] && queryQueue.closed
        invariant Finished() == old(Finished()) + queued[..i]
        invariant forall k :: 0 <= k < i ==> queued[k].data.State() == Failed(old(queued[k].data.State()), reason)
        invariant forall k :: 0 <= k < |queued| ==>
          queued[k].data.State() in {old(queued[k].data.State()), Failed(old(queued[k].data.State()), reason)}
      {
        Fail(queued[i], reason);
      }
    }

    method TakeNext() returns (out: Take<QueryPair>)
      requires Valid()
      modifies queryQueue`backingQueue
      ensures Valid()
      ensures out.Taken? <==> old(Queued()) != []
      ensures out.Taken? ==> old(Queued()) == [out.value] + Queued()
      ensures !out.Taken? ==> Queued() == [] && out.Finished? == queryQueue.closed
    {
      out := queryQueue.Take();
    }

    method Finish(pair: QueryPair)
      requires Valid()
      modifies finishedQueries
      ensures Valid() && Finished() == old(Finished()) + [pair]
    {
      var ok := finishedQueries.Put(pair);
    }

    method TakeFinished() returns (all: seq<QueryPair>)
      requires Valid()
      modifies finishedQueries`backingQueue
      ensures Valid() && all == old(Finished()) && Finished() == []
    {
      all := finishedQueries.Clear();
    }
  }

  /** Completed without having run, with an error. */
  function Failed(data: Snapshot, reason: string): Snapshot {
    data.(error := reason, resultStatus := Error, status := Complete, finished := true)
  }

  /** Aborted without having run. */
  function Dropped(data: Snapshot): Snapshot {
    data.(status := Aborted, finished := true)
  }
}
