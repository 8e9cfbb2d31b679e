/** What runQuery guarantees about the reported outcome and the session it leaves. */
module DatabaseTheorems {
  import opened QueryTypes
  import opened QueryDatas
  import opened Libpq
  import opened ActiveQueryStates
  import opened Transactions
  import opened TransactionTheorems
  import opened Databases

  /** The data of an execution after runQuery, on the session it found or dialled (`Dialled`). */
  function Ended(s: SessionState, work: Work, data: Snapshot, kids: seq<Snapshot>, cancels: Cancels): Snapshot
    requires |kids| == KidCount(work)
  {
    var a := AttemptOn(s, work, data, kids, cancels);
    Reported(a.outcome, a.data)
  }

  // ---------------------------------------------------------------- no false abort

  /** Some attempt, on the execution or on one of its children while published, has not failed. */
  predicate Standing(attempts: seq<Attempt>) { exists i :: 0 <= i < |attempts| && Flagged(attempts[i]) }

  predicate AnyStanding(cancels: Cancels) {
    || Standing(cancels.beginning) || Standing(cancels.closing) || Standing(cancels.leaving)
    || exists i :: 0 <= i < |cancels.children| && Standing(cancels.children[i])
  }

  lemma FailedKeeps(attempts: seq<Attempt>, onAlias: bool)
    requires !Standing(attempts)
    ensures !FlagAfter(attempts, onAlias, false)
  {
    FlaggedExactly(attempts, onAlias);
  }

  lemma {:induction false} ParentUnflagged(cancels: Cancels, n: nat)
    requires !AnyStanding(cancels)
    ensures !ParentFlag(cancels, n, false)
  {
    if n == 0 {
      FailedKeeps(cancels.beginning, false);
    } else {
      ParentUnflagged(cancels, n - 1);
      FailedKeeps(DuringChild(cancels, n - 1), false);
    }
  }

  lemma TxUnflagged(qs: seq<Statement>, c: Conn, data: Snapshot, kids: seq<Snapshot>, cancels: Cancels)
    requires |kids| == |qs| && !AnyStanding(cancels) && !data.cancellationRequested && !AnyFlag(kids)
    ensures !TxFlag(qs, c, data, kids, cancels)
  {
    var tx := RunTransaction(c, qs);
    ParentUnflagged(cancels, |tx.ran|);
    FailedKeeps(cancels.closing, false);
    forall i | 0 <= i < |kids| ensures !RanStates(kids, tx.ran, cancels)[i].cancellationRequested {
      assert !kids[i].cancellationRequested;
      RanStatesAt(kids, tx.ran, cancels, i);
      FailedKeeps(DuringChild(cancels, i), true);
    }
  }

  lemma PerformUnflagged(work: Work, c: Conn, data: Snapshot, kids: seq<Snapshot>, cancels: Cancels)
    requires |kids| == KidCount(work) && !AnyStanding(cancels) && !data.cancellationRequested && !AnyFlag(kids)
    ensures !Perform(work, c, data, kids, cancels).data.cancellationRequested
    ensures Perform(work, c, data, kids, cancels).data.status == data.status
  {
    if work.Transacting? {
      TxUnflagged(work.ptr.statements, c, data, kids, cancels);
    } else {
      FailedKeeps(cancels.beginning, false);
    }
  }

  /** An execution ends ABORTED only if a cancel request for it, or for one of its children, was made while it
      was active and had not failed when the flags were read; without one even a 57014 error is an error. */
  lemma NoFalseAbort(s: SessionState, work: Work, data: Snapshot, kids: seq<Snapshot>, cancels: Cancels)
    requires |kids| == KidCount(work) && !data.cancellationRequested && !AnyFlag(kids) && data.status != Aborted
    ensures Ended(s, work, data, kids, cancels).status == Aborted ==> AnyStanding(cancels)
  {
    if !AnyStanding(cancels) && s.IsOpen() {
      PerformUnflagged(work, s.conn, data, kids, cancels);
      FailedKeeps(cancels.leaving, false);
    }
  }

  // ---------------------------------------------------------------- transactions

  /** The flag of a transaction when the handlers read it. */
  function HandlerFlag(qs: seq<Statement>, c: Conn, data: Snapshot, kids: seq<Snapshot>, cancels: Cancels): bool
    requires |kids| == |qs|
  {
    FlagAfter(cancels.leaving, false, !RunTransaction(c, qs).verdict.Committed? && TxFlag(qs, c, data, kids, cancels))
  }

  lemma TxEnds(s: SessionState, ptr: TransactionData, data: Snapshot, kids: seq<Snapshot>, cancels: Cancels)
    requires |kids| == |ptr.statements| && s.IsOpen() && data.status == Running
    ensures var v := RunTransaction(s.conn, ptr.statements).verdict;
      var e := Ended(s, Transacting(ptr), data, kids, cancels);
      && (e.resultStatus == Success <==> v.Committed?)
      && (e.status == Aborted <==> !v.Committed? && HandlerFlag(ptr.statements, s.conn, data, kids, cancels) && IsUserCancellation(Cause(v)))
  {
    var a := Perform(Transacting(ptr), s.conn, data, kids, cancels);
    assert a.data.status == Running;
    assert AttemptOn(s, Transacting(ptr), data, kids, cancels) == Leaving(a, cancels.leaving);
  }

  /** How the outcomes of a transaction and of its children go together. Success is reported exactly for a
      transaction that committed. It is aborted exactly when it failed with the cancellation and a flag
      was up when that was handled; its children are aborted exactly when a flag was up already when they were settled.
      So they are aborted together unless a cancel came in between, or the exception is another one. */
  lemma AbortedTogether(s: SessionState, ptr: TransactionData, data: Snapshot, kids: seq<Snapshot>, cancels: Cancels)
    requires |kids| == |ptr.statements| && data.status == Running && s.IsOpen()
    ensures var v := RunTransaction(s.conn, ptr.statements).verdict;
      var flag := TxFlag(ptr.statements, s.conn, data, kids, cancels);
      var parent := Ended(s, Transacting(ptr), data, kids, cancels);
      var after := KidsAfter(ptr.statements, s.conn, data, kids, cancels);
      && (parent.resultStatus == Success <==> v.Committed?)
      && (parent.status == Aborted <==>
            !v.Committed? && HandlerFlag(ptr.statements, s.conn, data, kids, cancels) && IsUserCancellation(Cause(v)))
      && (forall i :: 0 <= i < |after| ==> (after[i].status == Aborted <==> !v.Committed? && flag))
      && (parent.status == Aborted && cancels.leaving == [] ==> forall i :: 0 <= i < |after| ==> after[i].status == Aborted)
  {
    TxEnds(s, ptr, data, kids, cancels);
    var tx := RunTransaction(s.conn, ptr.statements);
    UniformChildren(RanStates(kids, tx.ran, cancels), tx.verdict, TxFlag(ptr.statements, s.conn, data, kids, cancels));
  }

  /** An aborted transaction left nothing durable, unless it was COMMIT that lost its connection. */
  lemma AbortedLeavesNothing(s: SessionState, ptr: TransactionData, data: Snapshot, kids: seq<Snapshot>, cancels: Cancels)
    requires |kids| == |ptr.statements| && data.status == Running
    requires s.IsOpen() && s.conn.Ready() && !s.conn.hidden
    requires Ended(s, Transacting(ptr), data, kids, cancels).status == Aborted
    ensures var c := s.conn;
      var tx := RunTransaction(c, ptr.statements);
      tx.conn.server.committed == c.server.committed || tx.verdict.CommitLost?
  {
    var c := s.conn;
    RolledBackMeansNothing(c, ptr.statements);
    if RunTransaction(c, ptr.statements).verdict.ChildEnded? { EndedErrorIsNoCancellation(); }
  }

  const EndedHead := "pg: transaction child query "

  /** No 'c' in it that is followed by an 'a'. */
  lemma NoStart(i: nat)
    requires i <= 22 && EndedHead[i] == 'c'
    ensures EndedHead[i + 1] != 'a'
  {
    var m := EndedHead;
    assert m[0] == 'p' && m[1] == 'g' && m[2] == ':' && m[3] == ' ' && m[4] == 't' && m[5] == 'r' && m[6] == 'a';
    assert m[7] == 'n' && m[8] == 's' && m[9] == 'a' && m[11] == 't' && m[12] == 'i' && m[13] == 'o' && m[14] == 'n';
    assert m[15] == ' ' && m[17] == 'h' && m[18] == 'i' && m[19] == 'l' && m[20] == 'd' && m[21] == ' ' && m[22] == 'q';
    assert i == 10 || i == 16;
    assert m[11] == 't' && m[17] == 'h';
  }

  lemma EndedErrorIsNoCancellation()
    ensures !IsUserCancellation(EndedError)
  {
    var m, t := EndedError.message, "canceling statement due to user request";
    assert |m| == 61 && |t| == 39 && t[0] == 'c' && t[1] == 'a';
    forall i: nat | i <= |m| && OccursAt(m, t, i) ensures false {
      assert m[i] == m[i..i + |t|][0] == EndedHead[i] && m[i + 1] == m[i..i + |t|][1] == EndedHead[i + 1];
      NoStart(i);
    }
  }

  // ---------------------------------------------------------------- the session afterwards

  /** Exactly when the session is still inside a transaction after runQuery: the protocol met a branch that
      leaves it open, and runQuery does not reconnect. It reconnects for a retriable connection
      exception, which SQLSTATE 08007 is not, that is not taken as a cancellation, when automatic
      reconnection is on and the database is not shutting down. */
  lemma LeftInsideExactly(s: SessionState, ptr: TransactionData, data: Snapshot, kids: seq<Snapshot>, cancels: Cancels, auto: bool, shuttingDown: bool)
    requires |kids| == |ptr.statements| && s.IsOpen() && s.conn.Ready()
    ensures var a := AttemptOn(s, Transacting(ptr), data, kids, cancels);
      LeftOpen(SessionAfter(s, a, auto, shuttingDown).conn) <==>
        NobodyEnds(s.conn, ptr.statements) && !(Reconnects(a.outcome, a.data, auto) && !shuttingDown)
  {
    LeftOpenExactly(s.conn, ptr.statements);
  }
}
