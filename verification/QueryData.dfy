/** One execution of a query: its status flags and its chain of statement results
    (IQueryData in pg/src/postgres/IQuery.h, QueryData in Query.h). */
module QueryDatas {
  import opened QueryTypes

  /** One protocol result of a statement, with the row payload left abstract. */
  datatype StatementResult = StatementResult(rows: string, cmdTuples: string, oid: nat, commandStatus: string)

  /** The fields of an execution that its run may change, as a value. */
  datatype Snapshot = Snapshot(status: QueryStatus, resultStatus: ResultStatus, error: string, finished: bool,
                         cancellationRequested: bool, results: seq<StatementResult>, currentResult: nat)

  class QueryData {
    var status: QueryStatus
    var resultStatus: ResultStatus
    var error: string
    var finished: bool
    var cancellationRequested: bool
    var results: seq<StatementResult>
    var currentResult: nat
    var wasFirstData: bool

    constructor ()
      ensures State() == Snapshot(NotRunning, NoResult, "", false, false, [], 0) && !wasFirstData
    {
      status, resultStatus, error := NotRunning, NoResult, "";
      finished, cancellationRequested, results, currentResult, wasFirstData := false, false, [], 0, false;
    }

    function State(): Snapshot
      reads this
    {
      Snapshot(status, resultStatus, error, finished, cancellationRequested, results, currentResult)
    }

    /** The cursor names a result whenever there is one. */
    predicate CursorValid()
      reads this
    {
      results == [] || currentResult < |results|
    }

    method AddStatementResult(result: StatementResult)
      modifies this`results
      ensures results == old(results) + [result]
      ensures old(CursorValid()) && (old(results) == [] ==> currentResult == 0) ==> CursorValid()
    {
      results := results + [result];
    }

    method HasMoreResults() returns (more: bool)
      requires CursorValid()
      ensures more <==> CanAdvance(currentResult, |results|)
    {
      more := results != [] && currentResult + 1 < |results|;
    }

    method AdvanceResult() returns (advanced: bool)
      requires CursorValid()
      modifies this`currentResult
      ensures CursorValid()
      ensures advanced <==> CanAdvance(old(currentResult), |results|)
      ensures currentResult == Advanced(old(currentResult), |results|)
    {
      var more := HasMoreResults();
      if !more { return false; }
      currentResult := currentResult + 1;
      return true;
    }

    /** The current result; `None` stands for the exception on an empty chain. */
    method GetResult() returns (result: Option<StatementResult>)
      requires CursorValid()
      ensures result == if results == [] then None else Some(results[currentResult])
    {
      if results == [] { return None; }
      return Some(results[currentResult]);
    }
  }

  // ---------------------------------------------------------------- walking the chain

  predicate CanAdvance(cursor: nat, n: nat) { cursor + 1 < n }

  function Advanced(cursor: nat, n: nat): nat { if CanAdvance(cursor, n) then cursor + 1 else cursor }

  /** The results seen by reading the current one and advancing while more are announced. */
  function Visited(results: seq<StatementResult>, cursor: nat): seq<StatementResult>
    requires cursor < |results|
    decreases |results| - cursor
  {
    [results[cursor]] +
    if CanAdvance(cursor, |results|) then Visited(results, Advanced(cursor, |results|)) else []
  }

  /** Advancing visits every result from the cursor on once, in order, and then stops. */
  lemma {:induction false} ChainVisitedOnce(results: seq<StatementResult>, cursor: nat)
    requires cursor < |results|
    ensures Visited(results, cursor) == results[cursor..]
    decreases |results| - cursor
  {
    if CanAdvance(cursor, |results|) {
      ChainVisitedOnce(results, cursor + 1);
    }
  }

  function AdvancedTimes(cursor: nat, n: nat, k: nat): nat {
    if k == 0 then cursor else Advanced(AdvancedTimes(cursor, n, k - 1), n)
  }

  /** After k advances from the first of n results the cursor is at min(k, n - 1), and another
      result is announced exactly while k < n - 1. */
  lemma {:induction false} AdvancesExactly(n: nat, k: nat)
    requires n > 0
    ensures AdvancedTimes(0, n, k) == if k < n then k else n - 1
    ensures CanAdvance(AdvancedTimes(0, n, k), n) <==> k < n - 1
  {
    if k > 0 { AdvancesExactly(n, k - 1); }
  }
}
