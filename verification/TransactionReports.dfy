/** What a transaction tells its caller and its children, by where it failed, and when a cancel counts. */
module TransactionReports {
  import opened QueryTypes
  import opened QueryDatas
  import opened SqlScanner
  import opened Libpq
  import opened LibpqExecutor
  import opened ActiveQueryStates
  import opened Transactions
  import opened TransactionTheorems
  import opened Databases
  import opened DatabaseTheorems
  import opened QueryTheorems

  // ---------------------------------------------------------------- a child

  /** A child is one statement: control is refused, then a NUL, both before anything is sent. */
  lemma ChildExactly(c: Conn, q: Statement)
    ensures ExecuteChild(c, q) ==
      if IsTransactionControl(q.sql) then
        Executed(c, Threw(Thrown("pg: transaction control SQL is not allowed inside transaction child queries", "", false)), [])
      else if '\0' in q.sql then
        Executed(c, Threw(Thrown("pg: SQL strings cannot contain embedded NUL bytes", "", false)), [])
      else Execute(c, Single(q))
  {
  }

  lemma {:induction false} RanAt(c: Conn, qs: seq<Statement>, n: nat, i: nat)
    requires n <= |qs| && i < |RunChildren(c, qs, n).ran|
    ensures RunChildren(c, qs, i).stop.AllRan?
    ensures RunChildren(c, qs, n).ran[i] == ExecuteChild(RunChildren(c, qs, i).conn, qs[i]).appended
  {
    if n > 0 {
      var run := RunChildren(c, qs, n - 1);
      assert RunChildren(c, qs, n) == if run.stop.AllRan? then WithChild(run, qs[n - 1]) else run;
      if i < |run.ran| {
        RanAt(c, qs, n - 1, i);
        assert RunChildren(c, qs, n).ran[i] == run.ran[i];
      } else {
        LastRan(run, qs[n - 1]);
      }
    }
  }

  lemma LastRan(run: ChildrenRun, q: Statement)
    ensures WithChild(run, q).ran[|run.ran|] == ExecuteChild(run.conn, q).appended
  {
  }

  /** Whatever becomes of the transaction, a child that was reached keeps the results of its own statement, and one
      that was not is given none. */
  lemma ChildResults(c: Conn, qs: seq<Statement>, kids: seq<Snapshot>, cancels: Cancels, flag: bool, i: nat)
    requires |kids| == |qs| && i < |qs| && Execute(c, Begin).outcome.Returned?
    ensures var tx := RunTransaction(c, qs);
      var run := RunChildren(Execute(c, Begin).conn, qs, i);
      var kid := AllSettled(RanStates(kids, tx.ran, cancels), tx.verdict, flag)[i];
      if i < |tx.ran| then run.stop.AllRan? && kid.results == kids[i].results + ExecuteChild(run.conn, qs[i]).appended
      else kid.results == kids[i].results
  {
    var tx, begun := RunTransaction(c, qs), Execute(c, Begin).conn;
    RanStatesAt(kids, tx.ran, cancels, i);
    assert tx.ran == RunChildren(begun, qs, |qs|).ran;
    if i < |tx.ran| { RanAt(begun, qs, |qs|, i); }
  }

  // ---------------------------------------------------------------- what is told

  /** `thrown` goes on to runQuery, the transaction's error is `parent`, and its children, unless they are aborted, are
      told `child`. */
  predicate Tells(tx: TxRun, base: Snapshot, kids: seq<Snapshot>, flag: bool, thrown: Thrown, parent: string, child: string, unknown: bool) {
    var p, s := ParentSettled(base, tx.verdict, flag), AllSettled(kids, tx.verdict, flag);
    && OutcomeOf(tx.verdict) == Threw(thrown) && p.error == parent
    && forall i :: 0 <= i < |s| ==>
         && s[i].finished
         && s[i].status == (if flag then Aborted else Complete)
         && s[i].resultStatus == (if flag then NoResult else Error)
         && s[i].error == (if flag && !unknown then "" else child)
  }

  /** All ended well. */
  predicate Settled(tx: TxRun, base: Snapshot, kids: seq<Snapshot>, flag: bool) {
    var p, s := ParentSettled(base, tx.verdict, flag), AllSettled(kids, tx.verdict, flag);
    && OutcomeOf(tx.verdict) == Returned && p.error == "" && p.resultStatus == Success
    && forall i :: 0 <= i < |s| ==> s[i].finished && s[i].status == Complete && s[i].resultStatus == Success && s[i].error == ""
  }

  /** ... where something failed with `e`: the same text for all. */
  predicate TellsAll(tx: TxRun, base: Snapshot, kids: seq<Snapshot>, flag: bool, e: Thrown, text: string, unknown: bool) {
    Tells(tx, base, kids, flag, e, text + e.message, text + e.message, unknown)
  }

  lemma RolledBackReports(tx: TxRun, base: Snapshot, kids: seq<Snapshot>, flag: bool)
    requires tx.verdict.BeginFailed? || tx.verdict.ChildFailed? || tx.verdict.CommitFailed?
    ensures TellsAll(tx, base, kids, flag, tx.verdict.error, "Transaction rolled back: ", false)
  {
  }

  lemma UnknownReports(tx: TxRun, base: Snapshot, kids: seq<Snapshot>, flag: bool)
    requires tx.verdict.ChildLost? || tx.verdict.CommitLost?
    ensures TellsAll(tx, base, kids, flag, tx.verdict.error,
      (if tx.verdict.ChildLost? then "Transaction outcome unknown" else "Transaction commit outcome unknown") + ": ", true)
  {
  }

  lemma EndedReports(tx: TxRun, base: Snapshot, kids: seq<Snapshot>, flag: bool)
    requires tx.verdict.ChildEnded?
    ensures EndedTells(tx, base, kids, flag)
  {
  }

  predicate EndedTells(tx: TxRun, base: Snapshot, kids: seq<Snapshot>, flag: bool) {
    var e := Thrown("pg: transaction child query " + "ended the surrounding transaction", "", false);
    Tells(tx, base, kids, flag, e, "Transaction outcome unknown" + ": child query ended the surrounding transaction",
          "Transaction rolled back: " + e.message, false)
  }

  /** The exception and the texts, by the command that failed. */
  lemma FailureReports(c: Conn, qs: seq<Statement>, base: Snapshot, kids: seq<Snapshot>, flag: bool)
    ensures var tx, begun := RunTransaction(c, qs), Execute(c, Begin);
      if begun.outcome.Threw? then TellsAll(tx, base, kids, flag, begun.outcome.error, "Transaction rolled back: ", false)
      else
        var run := RunChildren(begun.conn, qs, |qs|);
        match run.stop
        case ChildThrew(e) =>
          if e.connection then TellsAll(tx, base, kids, flag, e, "Transaction outcome unknown" + ": ", true)
          else TellsAll(tx, base, kids, flag, e, "Transaction rolled back: ", false)
        case ChildEndedIt => EndedTells(tx, base, kids, flag)
        case AllRan =>
          var done := Execute(run.conn, Commit).outcome;
          if done.Returned? then Settled(tx, base, kids, flag)
          else if done.error.connection then TellsAll(tx, base, kids, flag, done.error, "Transaction commit outcome unknown" + ": ", true)
          else TellsAll(tx, base, kids, flag, done.error, "Transaction rolled back: ", false)
  {
    var tx, begun := RunTransaction(c, qs), Execute(c, Begin);
    if begun.outcome.Threw? {
      RolledBackReports(tx, base, kids, flag);
    } else {
      BodyReports(tx, RunChildren(begun.conn, qs, |qs|), base, kids, flag);
    }
  }

  lemma BodyReports(tx: TxRun, run: ChildrenRun, base: Snapshot, kids: seq<Snapshot>, flag: bool)
    requires tx == AfterChildren(run)
    ensures match run.stop
            case ChildThrew(e) =>
              if e.connection then TellsAll(tx, base, kids, flag, e, "Transaction outcome unknown" + ": ", true)
              else TellsAll(tx, base, kids, flag, e, "Transaction rolled back: ", false)
            case ChildEndedIt => EndedTells(tx, base, kids, flag)
            case AllRan =>
              var done := Execute(run.conn, Commit).outcome;
              if done.Returned? then Settled(tx, base, kids, flag)
              else if done.error.connection then TellsAll(tx, base, kids, flag, done.error, "Transaction commit outcome unknown" + ": ", true)
              else TellsAll(tx, base, kids, flag, done.error, "Transaction rolled back: ", false)
  {
    match tx.verdict {
      case Committed => CommittedReports(tx, base, kids, flag);
      case ChildEnded => EndedReports(tx, base, kids, flag);
      case ChildLost(_) => UnknownReports(tx, base, kids, flag);
      case CommitLost(_) => UnknownReports(tx, base, kids, flag);
      case _ => RolledBackReports(tx, base, kids, flag);
    }
  }

  lemma CommittedReports(tx: TxRun, base: Snapshot, kids: seq<Snapshot>, flag: bool)
    requires tx.verdict.Committed?
    ensures Settled(tx, base, kids, flag)
  {
  }

  // ---------------------------------------------------------------- when a cancel counts

  /** The attempts on the transaction itself until `n` children have run. */
  function OwnAttempts(cancels: Cancels, n: nat): seq<Attempt> {
    if n == 0 then cancels.beginning
    else OwnAttempts(cancels, n - 1) + if n <= |cancels.children| then cancels.children[n - 1] else []
  }

  lemma {:induction false} ParentFlagIs(cancels: Cancels, n: nat)
    ensures ParentFlag(cancels, n, false) == FlagAfter(OwnAttempts(cancels, n), false, false)
  {
    if n > 0 {
      ParentFlagIs(cancels, n - 1);
      FlagAfterBoth(OwnAttempts(cancels, n - 1), DuringChild(cancels, n - 1), false);
    }
  }

  /** The last attempt on the published child had a handle and has not failed. */
  ghost predicate ChildCancelStands(attempts: seq<Attempt>) {
    exists i: nat :: LastOn(attempts, true, i) && attempts[i].handle && attempts[i].fate != Failed
  }

  lemma ChildStandsExactly(attempts: seq<Attempt>)
    ensures FlagAfter(attempts, true, false) <==> ChildCancelStands(attempts)
  {
    FlaggedExactly(attempts, true);
    if ChildCancelStands(attempts) {
      var i: nat :| LastOn(attempts, true, i) && attempts[i].handle && attempts[i].fate != Failed;
      assert Flagged(attempts[i]);
    }
  }

  /** A cancel of one of the children that have run stands. */
  ghost predicate SomeChildCancelled(cancels: Cancels, ran: nat) {
    exists i :: 0 <= i < ran && i < |cancels.children| && ChildCancelStands(cancels.children[i])
  }

  /** Every attempt on the transaction itself that the protocol waited for. */
  function AllOwnAttempts(cancels: Cancels, tx: TxRun): seq<Attempt> {
    OwnAttempts(cancels, |tx.ran|) + if tx.verdict.BeginFailed? || tx.verdict.ChildLost? then [] else cancels.closing
  }

  lemma OwnFlagExactly(cancels: Cancels, tx: TxRun)
    ensures FlagAtEnd(cancels, tx, false) <==> CancelStands(AllOwnAttempts(cancels, tx))
  {
    var own := OwnAttempts(cancels, |tx.ran|);
    ParentFlagIs(cancels, |tx.ran|);
    FlagAfterBoth(own, cancels.closing, false);
    assert own + [] == own;
    StandsExactly(AllOwnAttempts(cancels, tx));
  }

  lemma RanChildFlag(kids: seq<Snapshot>, ran: seq<seq<StatementResult>>, cancels: Cancels, i: nat)
    requires |ran| <= |kids| && i < |kids| && !kids[i].cancellationRequested
    ensures RanStates(kids, ran, cancels)[i].cancellationRequested <==>
      i < |ran| && i < |cancels.children| && ChildCancelStands(cancels.children[i])
  {
    RanStatesAt(kids, ran, cancels, i);
    if i < |cancels.children| { ChildStandsExactly(cancels.children[i]); }
  }

  lemma SomeChildFlagged(kids: seq<Snapshot>, ran: seq<seq<StatementResult>>, cancels: Cancels)
    requires |ran| <= |kids| && !AnyFlag(kids)
    ensures AnyFlag(RanStates(kids, ran, cancels)) <==> SomeChildCancelled(cancels, |ran|)
  {
    var s := RanStates(kids, ran, cancels);
    forall i | 0 <= i < |kids|
      ensures s[i].cancellationRequested <==> i < |ran| && i < |cancels.children| && ChildCancelStands(cancels.children[i])
    {
      RanChildFlag(kids, ran, cancels, i);
    }
  }

  /** The flag a transaction ends with is up exactly when a cancel of its own stands, or it has failed and
      a cancel of one of the children that ran does. */
  lemma FlagUpExactly(c: Conn, qs: seq<Statement>, data: Snapshot, kids: seq<Snapshot>, cancels: Cancels)
    requires |kids| == |qs| && !data.cancellationRequested && !AnyFlag(kids)
    ensures var tx := RunTransaction(c, qs);
      TxFlag(qs, c, data, kids, cancels) <==>
        CancelStands(AllOwnAttempts(cancels, tx)) || (!tx.verdict.Committed? && SomeChildCancelled(cancels, |tx.ran|))
  {
    var tx := RunTransaction(c, qs);
    OwnFlagExactly(cancels, tx);
    SomeChildFlagged(kids, tx.ran, cancels);
  }

  /** Where a child's statement is stopped by a failed result the transaction stops with that exception. */
  lemma ChildStops(c: Conn, qs: seq<Statement>, i: nat)
    requires i < |qs| && Execute(c, Begin).outcome.Returned?
    requires var run := RunChildren(Execute(c, Begin).conn, qs, i);
      run.stop.AllRan? && ExecuteChild(run.conn, qs[i]).outcome.Threw?
    ensures var run := RunChildren(Execute(c, Begin).conn, qs, i);
      var e, tx := ExecuteChild(run.conn, qs[i]).outcome.error, RunTransaction(c, qs);
      tx.verdict == (if e.connection then ChildLost(e) else ChildFailed(e)) && |tx.ran| == i + 1
  {
    var begun := Execute(c, Begin).conn;
    var run := RunChildren(begun, qs, i);
    var stopped := RunChildren(begun, qs, i + 1);
    assert stopped == WithChild(run, qs[i]);
    StoppedStays(begun, qs, i + 1, |qs|);
    assert RunTransaction(c, qs) == AfterChildren(stopped);
  }

  /** A cancel of a child while it runs: when the server answers with SQLSTATE 57014, the transaction and all its
      children end ABORTED. */
  lemma CancelledChildAborts(s: SessionState, ptr: TransactionData, data: Snapshot, kids: seq<Snapshot>, cancels: Cancels, i: nat, k: nat)
    requires |kids| == |ptr.statements| && i < |kids| && s.IsOpen() && Undecided(data)
    requires !data.cancellationRequested && !AnyFlag(kids) && cancels.leaving == []
    requires Execute(s.conn, Begin).outcome.Returned?
    requires var run := RunChildren(Execute(s.conn, Begin).conn, ptr.statements, i);
      var q := ptr.statements[i];
      var reply := NextReply(run.conn, Single(q));
      && run.stop.AllRan? && !IsTransactionControl(q.sql) && '\0' !in q.sql && reply.accepted && FailsFirstAt(reply, k)
      && reply.results[k].status !in {CopyIn, CopyOut, CopyBoth}
      && reply.results[k].sqlstate == Some("57014") && !reply.results[k].bad
    requires i < |cancels.children| && ChildCancelStands(cancels.children[i])
    ensures var e := Ended(s, Transacting(ptr), data, kids, cancels);
      e.status == Aborted && e.resultStatus == NoResult
    ensures forall j :: 0 <= j < |kids| ==>
      var kid := KidsAfter(ptr.statements, s.conn, data, kids, cancels)[j]; kid.status == Aborted && kid.resultStatus == NoResult
  {
    var run := RunChildren(Execute(s.conn, Begin).conn, ptr.statements, i);
    StopsExactly(run.conn, Single(ptr.statements[i]), k);
    ChildExactly(run.conn, ptr.statements[i]);
    ChildStops(s.conn, ptr.statements, i);
    FlagUpExactly(s.conn, ptr.statements, data, kids, cancels);
    AbortedTogether(s, ptr, data, kids, cancels);
    CancelledReports(s, ptr, data, kids, cancels);
  }

  lemma CancelledReports(s: SessionState, ptr: TransactionData, data: Snapshot, kids: seq<Snapshot>, cancels: Cancels)
    requires |kids| == |ptr.statements| && s.IsOpen() && data.status == Running
    requires Ended(s, Transacting(ptr), data, kids, cancels).status == Aborted && cancels.leaving == []
    ensures Ended(s, Transacting(ptr), data, kids, cancels).resultStatus == NoResult
    ensures forall j :: 0 <= j < |kids| ==> KidsAfter(ptr.statements, s.conn, data, kids, cancels)[j].resultStatus == NoResult
  {
    AbortedTogether(s, ptr, data, kids, cancels);
    var tx := RunTransaction(s.conn, ptr.statements);
    UniformChildren(RanStates(kids, tx.ran, cancels), tx.verdict, TxFlag(ptr.statements, s.conn, data, kids, cancels));
    var a := Perform(Transacting(ptr), s.conn, data, kids, cancels);
    assert AttemptOn(s, Transacting(ptr), data, kids, cancels) == Leaving(a, cancels.leaving);
  }
}
