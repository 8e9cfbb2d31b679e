/** What finishQueryData does to a list of running executions. */
module RunningLists {
  import opened Sequences

  /** What finishQueryData leaves: the front is popped, and only otherwise every copy is erased. */
  function FinishList<T(==)>(running: seq<T>, data: T): seq<T> {
    if running == [] then []
    else if running[0] == data then running[1..]
    else Without(running, data)
  }

  /** Finishing takes out all copies exactly when the front is not followed by another copy of itself. */
  lemma FinishTakesAllExactly<T(!new)>(running: seq<T>, data: T)
    ensures FinishList(running, data) == Without(running, data) <==> !(running != [] && running[0] == data && data in running[1..])
  {
    if running != [] && running[0] == data {
      WithoutAbsent(running[1..], data);
      WithoutShrinks(running[1..], data);
    }
  }
}

/** A query object's list of running executions (pg/src/postgres/IQuery.cpp). */
module IQueries {
  import opened Sequences
  import opened RunningLists
  import opened QueryTypes
  import opened QueryDatas
  import opened QueryWorkers

  class IQuery {
    var runningQueryData: seq<QueryData>
    var hasBeenStarted: bool
    const isTransaction: bool
    const identity: nat
    const worker: QueryWorker

    constructor (isTransaction: bool, identity: nat, worker: QueryWorker)
      ensures runningQueryData == [] && !hasBeenStarted && this.isTransaction == isTransaction
      ensures this.identity == identity && this.worker == worker
    {
      runningQueryData, hasBeenStarted, this.isTransaction := [], false, isTransaction;
      this.identity, this.worker := identity, worker;
    }

    method AddQueryData(data: QueryData)
      modifies this`runningQueryData, data`wasFirstData
      ensures runningQueryData == old(runningQueryData) + [data]
      ensures data.wasFirstData == (old(data.wasFirstData) || !hasBeenStarted)
    {
      if !hasBeenStarted { data.wasFirstData := true; }
      runningQueryData := runningQueryData + [data];
    }

    method FinishQueryData(data: QueryData)
      modifies this`runningQueryData
      ensures runningQueryData == FinishList(old(runningQueryData), data)
    {
      if runningQueryData == [] { return; }
      if runningQueryData[0] == data {
        runningQueryData := runningQueryData[1..];
        return;
      }
      var kept := [];
      for i := 0 to |runningQueryData|
        invariant runningQueryData == old(runningQueryData)
        invariant kept == Without(runningQueryData[..i], data)
      {
        WithoutAppend(runningQueryData[..i], [runningQueryData[i]], data);
        assert runningQueryData[..i + 1] == runningQueryData[..i] + [runningQueryData[i]];
        if runningQueryData[i] != data { kept := kept + [runningQueryData[i]]; }
      }
      assert runningQueryData[..|runningQueryData|] == runningQueryData;
      runningQueryData := kept;
    }

    /** Transaction::validateStart; other queries may always be started. */
    method ValidateStart() returns (ok: bool)
      ensures ok <==> !(isTransaction && hasBeenStarted)
    {
      ok := !(isTransaction && hasBeenStarted);
    }

    /** Database::enqueueQuery; `false` stands for the exception "Database is disconnected." */
    method EnqueueQuery(data: QueryData, shuttingDown: bool) returns (accepted: bool)
      requires worker.Valid()
      modifies worker.queryQueue, data`status, data`finished
      ensures worker.Valid() && worker.queryQueue.closed == old(worker.queryQueue.closed)
      ensures accepted <==> !shuttingDown && !old(worker.queryQueue.closed)
      ensures worker.Queued() == if accepted then old(worker.Queued()) + [QueryPair(identity, data)] else old(worker.Queued())
      ensures data.State() == if accepted then old(data.State()).(status := Waiting) else Dropped(old(data.State()))
    {
      if shuttingDown || worker.queryQueue.closed {
        data.status, data.finished := Aborted, true;
        return false;
      }
      accepted := worker.Enqueue(identity, data);
    }

    /** A transaction started before is refused and nothing changes. Any other start puts the execution on
        the list; a start refused by the database leaves it there, finished, for the caller to take off. */
    method Start(data: QueryData, shuttingDown: bool) returns (ok: bool)
      requires worker.Valid()
      modifies this`runningQueryData, this`hasBeenStarted, worker.queryQueue, data
      ensures worker.Valid() && worker.queryQueue.closed == old(worker.queryQueue.closed)
      ensures var invalid := isTransaction && old(hasBeenStarted);
        && (ok <==> !invalid && !shuttingDown && !old(worker.queryQueue.closed))
        && runningQueryData == (if invalid then old(runningQueryData) else old(runningQueryData) + [data])
        && data.wasFirstData == (old(data.wasFirstData) || !old(hasBeenStarted))
        && data.State() == (if invalid then old(data.State()) else if ok then old(data.State()).(status := Waiting) else Dropped(old(data.State())))
      ensures hasBeenStarted == (ok || old(hasBeenStarted))
      ensures worker.Queued() == if ok then old(worker.Queued()) + [QueryPair(identity, data)] else old(worker.Queued())
    {
      var valid := ValidateStart();
      if !valid { return false; }
      AddQueryData(data);
      ok := EnqueueQuery(data, shuttingDown);
      if ok { hasBeenStarted := true; }
    }
  }
}
