/** What the transaction protocol guarantees, for every server that keeps to the rules of
    `Libpq.Follows`, any number of children and any point of failure. */
module TransactionTheorems {
  import opened QueryTypes
  import opened QueryDatas
  import opened SqlScanner
  import opened Libpq
  import opened LibpqExecutor
  import opened Transactions

  function Singles(qs: seq<Statement>): seq<Command> {
    seq(|qs|, i requires 0 <= i < |qs| => Single(qs[i]))
  }

  // ---------------------------------------------------------------- one command

  lemma ExecuteKeeps(c: Conn, cmd: Command)
    requires c.Ready()
    ensures var d := Execute(c, cmd).conn;
      && d.Ready() && d.hidden == c.hidden && c.server.committed <= d.server.committed
      && d.server.committed == NextReply(c, cmd).after.committed
      && d.sent == if NextReply(c, cmd).accepted then c.sent + [cmd] else c.sent
  {
    NextReplyPlausible(c, cmd);
  }

  lemma BeginEffect(c: Conn)
    requires c.Ready()
    ensures var e := Execute(c, Begin);
      && e.conn.server.committed == c.server.committed
      && (e.outcome.Returned? ==> !c.server.txn.InError? && e.conn.server == c.server.(txn := InTrans)
                                  && e.conn.sent == c.sent + [Begin])
      && (e.outcome.Threw? && c.server.txn.Idle? && e.conn.server.alive ==> e.conn.server.txn.Idle?)
  {
    NextReplyPlausible(c, Begin);
    ReturnsExactly(c, Begin);
  }

  lemma ChildEffect(c: Conn, q: Statement)
    requires c.Ready() && c.server.txn.InTrans? && !c.hidden
    ensures var e := ExecuteChild(c, q);
      && e.conn.Ready() && e.conn.hidden == c.hidden
      && (e.outcome.Threw? ==> e.conn.server.committed == c.server.committed)
      && (e.outcome.Returned? && e.conn.server.txn.InTrans? ==>
            e.conn.server == c.server.(pending := c.server.pending + [q]) && e.conn.sent == c.sent + [Single(q)])
  {
    if !IsTransactionControl(q.sql) && !ContainsNul(q.sql) {
      NextReplyPlausible(c, Single(q));
      ReturnsExactly(c, Single(q));
    }
  }

  lemma CommitEffect(c: Conn)
    requires c.Ready() && c.server.txn.InTrans?
    ensures var e := Execute(c, Commit);
      && (e.outcome.Returned? ==> e.conn.server == Server(true, Idle, c.server.committed + c.server.pending, [])
                                  && e.conn.sent == c.sent + [Commit])
      && (e.outcome.Threw? && !e.outcome.error.connection ==> e.conn.server.committed == c.server.committed)
      && (e.outcome.Threw? ==> e.conn.server.committed == c.server.committed
                               || e.conn.server.committed == c.server.committed + c.server.pending)
  {
    NextReplyPlausible(c, Commit);
    ReturnsExactly(c, Commit);
    var reply := NextReply(c, Commit);
    var k := FirstFailure(reply.results);
    if k < |reply.results| && !reply.results[k].bad {
      assert Refused(reply.results);
    }
  }

  lemma RollbackEffect(c: Conn)
    requires c.Ready()
    ensures var e := Execute(c, Rollback);
      && e.conn.server.committed == c.server.committed
      && (NextReply(c, Rollback).accepted && e.conn.server.alive ==> e.conn.server.txn.Idle?)
  {
    NextReplyPlausible(c, Rollback);
  }

  // ---------------------------------------------------------------- the children

  /** `d` is `c` after the statements `done` in the open transaction. */
  predicate Inside(c: Conn, d: Conn, done: seq<Statement>) {
    && d.server == c.server.(pending := c.server.pending + done)
    && d.sent == c.sent + Singles(done)
  }

  lemma InsideGrows(c: Conn, d: Conn, done: seq<Statement>, q: Statement, e: Conn)
    requires Inside(c, d, done)
    requires e.server == d.server.(pending := d.server.pending + [q]) && e.sent == d.sent + [Single(q)]
    ensures Inside(c, e, done + [q])
  {
    assert Singles(done + [q]) == Singles(done) + [Single(q)];
    assert c.server.pending + done + [q] == c.server.pending + (done + [q]);
  }

  /** As long as every child returns and leaves the transaction open, nothing is committed and
      the open transaction holds exactly the children so far, in order. */
  predicate RunsInside(c: Conn, run: ChildrenRun, done: seq<Statement>) {
    && run.conn.Ready() && run.conn.hidden == c.hidden
    && (run.stop.AllRan? ==> Inside(c, run.conn, done))
    && (run.stop.ChildThrew? ==> run.conn.server.committed == c.server.committed)
  }

  lemma NextChild(c: Conn, run: ChildrenRun, qs: seq<Statement>, m: nat)
    requires m < |qs| && c.server.txn.InTrans? && !c.hidden
    requires RunsInside(c, run, qs[..m]) && run.stop.AllRan?
    ensures RunsInside(c, WithChild(run, qs[m]), qs[..m + 1])
  {
    ChildEffect(run.conn, qs[m]);
    assert qs[..m + 1] == qs[..m] + [qs[m]];
    var e := ExecuteChild(run.conn, qs[m]);
    if e.outcome.Returned? && e.conn.server.txn.InTrans? {
      InsideGrows(c, run.conn, qs[..m], qs[m], e.conn);
    }
  }

  lemma InsideStarts(c: Conn)
    ensures Inside(c, c, [])
  {
  }

  lemma {:induction false} ChildrenEffect(c: Conn, qs: seq<Statement>, n: nat)
    requires n <= |qs| && c.Ready() && c.server.txn.InTrans? && !c.hidden
    ensures RunsInside(c, RunChildren(c, qs, n), qs[..n])
  {
    if n == 0 {
      InsideStarts(c);
      assert qs[..0] == [];
    } else {
      ChildrenEffect(c, qs, n - 1);
      var run := RunChildren(c, qs, n - 1);
      if run.stop.AllRan? { NextChild(c, run, qs, n - 1); } else { StoppedInside(c, run, qs[..n - 1], qs[..n]); }
    }
  }

  lemma StoppedInside(c: Conn, run: ChildrenRun, done: seq<Statement>, more: seq<Statement>)
    requires RunsInside(c, run, done) && !run.stop.AllRan?
    ensures RunsInside(c, run, more)
  {
  }

  /** The same without any assumption on hidden commits: what was committed stays committed. */
  lemma {:induction false} ChildrenKeep(c: Conn, qs: seq<Statement>, n: nat)
    requires n <= |qs| && c.Ready()
    ensures var run := RunChildren(c, qs, n);
      && run.conn.Ready() && run.conn.hidden == c.hidden && c.server.committed <= run.conn.server.committed
      && (run.stop.AllRan? && n > 0 ==> run.conn.server.txn.InTrans?)
  {
    if n > 0 {
      ChildrenKeep(c, qs, n - 1);
      ChildKeeps(RunChildren(c, qs, n - 1).conn, qs[n - 1]);
    }
  }

  lemma ChildKeeps(c: Conn, q: Statement)
    requires c.Ready()
    ensures var d := ExecuteChild(c, q).conn; d.Ready() && d.hidden == c.hidden && c.server.committed <= d.server.committed
  {
    ExecuteKeeps(c, Single(q));
  }

  // ---------------------------------------------------------------- atomicity

  /** A normal return means that BEGIN, every child in order and COMMIT went out and nothing else,
      and that exactly the children (after what an already open transaction held) became durable. */
  lemma CommittedMeansAll(c: Conn, qs: seq<Statement>)
    requires c.Ready() && !c.hidden
    ensures var tx := RunTransaction(c, qs);
      tx.verdict.Committed? ==>
      && tx.conn.server == Server(true, Idle, c.server.committed + (c.server.pending + qs), [])
      && tx.conn.sent == c.sent + [Begin] + Singles(qs) + [Commit]
  {
    if RunTransaction(c, qs).verdict.Committed? {
      BeginEffect(c);
      var begun := Execute(c, Begin).conn;
      ExecuteKeeps(c, Begin);
      ChildrenEffect(begun, qs, |qs|);
      assert qs[..|qs|] == qs;
      CommitEffect(RunChildren(begun, qs, |qs|).conn);
    }
  }

  /** Every other end that reports "rolled back" to the caller left nothing durable. */
  lemma RolledBackMeansNothing(c: Conn, qs: seq<Statement>)
    requires c.Ready() && !c.hidden
    ensures var tx := RunTransaction(c, qs);
      tx.verdict.BeginFailed? || tx.verdict.ChildFailed? || tx.verdict.ChildLost? || tx.verdict.CommitFailed? ==>
        tx.conn.server.committed == c.server.committed
  {
    var begun := Execute(c, Begin);
    BeginEffect(c);
    ExecuteKeeps(c, Begin);
    if begun.outcome.Returned? {
      ChildrenEffect(begun.conn, qs, |qs|);
      var run := RunChildren(begun.conn, qs, |qs|);
      if run.stop.AllRan? {
        CommitEffect(run.conn);
      } else {
        RollbackEffect(run.conn);
      }
    }
  }

  /** All or nothing, also when COMMIT's own fate is unknown: only a child that ended the
      transaction itself can leave a part of it durable. */
  lemma AllOrNothing(c: Conn, qs: seq<Statement>)
    requires c.Ready() && !c.hidden
    ensures var tx := RunTransaction(c, qs);
      || tx.verdict.ChildEnded?
      || tx.conn.server.committed == c.server.committed
      || tx.conn.server.committed == c.server.committed + (c.server.pending + qs)
  {
    RolledBackMeansNothing(c, qs);
    if RunTransaction(c, qs).verdict.Committed? {
      CommittedMeansAll(c, qs);
    } else if RunTransaction(c, qs).verdict.CommitLost? {
      BeginEffect(c);
      ExecuteKeeps(c, Begin);
      var begun := Execute(c, Begin).conn;
      ChildrenEffect(begun, qs, |qs|);
      assert qs[..|qs|] == qs;
      CommitEffect(RunChildren(begun, qs, |qs|).conn);
    }
  }

  lemma OpeningsDiffer(v: Verdict)
    ensures v.Committed? || v.ChildEnded? || v.CommitLost? ==> !(RolledBack <= ParentError(v))
    ensures v.ChildEnded? ==> OutcomeUnknown <= ParentError(v)
    ensures v.CommitLost? ==> CommitUnknown <= ParentError(v)
  {
    assert RolledBack[12] == 'r';
    if v.ChildEnded? { assert ParentError(v)[12] == OutcomeUnknown[12] == 'o'; }
    if v.CommitLost? { assert ParentError(v)[12] == CommitUnknown[12] == 'c'; }
  }

  /** The parent's error is honest: unless the run committed, a change of the durable state is always
      reported as an unknown outcome, and "rolled back" is never said of one. */
  lemma HonestParent(c: Conn, qs: seq<Statement>)
    requires c.Ready() && !c.hidden
    ensures var tx := RunTransaction(c, qs);
      && (tx.conn.server.committed != c.server.committed && !tx.verdict.Committed? ==>
            OutcomeUnknown <= ParentError(tx.verdict) || CommitUnknown <= ParentError(tx.verdict))
      && (RolledBack <= ParentError(tx.verdict) ==> tx.conn.server.committed == c.server.committed)
  {
    RolledBackMeansNothing(c, qs);
    OpeningsDiffer(RunTransaction(c, qs).verdict);
  }

  /** A child made something durable before the transaction was ended. */
  predicate ChildrenCommit(c: Conn, qs: seq<Statement>) {
    var begun := Execute(c, Begin);
    begun.outcome.Returned? && RunChildren(begun.conn, qs, |qs|).conn.server.committed != c.server.committed
  }

  /** Without that assumption: the parent is told either "unknown" or "rolled back" of everything that did not
      commit, and "rolled back" is false exactly when a child made something durable itself. */
  lemma HonestParentExactly(c: Conn, qs: seq<Statement>)
    requires c.Ready()
    ensures var tx := RunTransaction(c, qs);
      var changed := tx.conn.server.committed != c.server.committed;
      var rolledBack := RolledBack <= ParentError(tx.verdict);
      && (rolledBack && changed <==> rolledBack && ChildrenCommit(c, qs))
      && (tx.verdict.Committed? || rolledBack || OutcomeUnknown <= ParentError(tx.verdict) || CommitUnknown <= ParentError(tx.verdict))
  {
    var v := RunTransaction(c, qs).verdict;
    OpeningsDiffer(v);
    UnknownOpens(v);
    BeginEffect(c);
    ExecuteKeeps(c, Begin);
    var begun := Execute(c, Begin);
    if begun.outcome.Returned? {
      ChildrenKeep(begun.conn, qs, |qs|);
      var run := RunChildren(begun.conn, qs, |qs|);
      RollbackEffect(run.conn);
      if run.stop.AllRan? {
        CommitOnlyWhileOpen(c, qs);
        CommitEffect(run.conn);
      }
    }
  }

  lemma UnknownOpens(v: Verdict)
    ensures v.ChildLost? ==> OutcomeUnknown <= ParentError(v) && !(RolledBack <= ParentError(v))
  {
    if v.ChildLost? { assert ParentError(v)[12] == OutcomeUnknown[12] == 'o' && RolledBack[12] == 'r'; }
  }

  /** COMMIT goes out only while the transaction is still open, never to one that has failed,
      where the server would answer with success and roll back. */
  lemma CommitOnlyWhileOpen(c: Conn, qs: seq<Statement>)
    requires c.Ready()
    ensures var begun := Execute(c, Begin);
      begun.outcome.Returned? ==> (var run := RunChildren(begun.conn, qs, |qs|);
        run.stop.AllRan? ==> run.conn.server.alive && run.conn.server.txn.InTrans?)
  {
    BeginEffect(c);
    ExecuteKeeps(c, Begin);
    ChildrenKeep(Execute(c, Begin).conn, qs, |qs|);
  }

  // ---------------------------------------------------------------- what is left behind

  /** A live session with a transaction nobody will finish. */
  predicate LeftOpen(c: Conn) { c.server.alive && !c.server.txn.Idle? }

  /** ROLLBACK could not be sent, and the connection survived the attempt. */
  predicate RollbackUnsent(c: Conn) {
    !NextReply(c, Rollback).accepted && NextReply(c, Rollback).after.alive
  }

  /** The branches that leave a transaction open: a BEGIN that failed on a session that is open already; COMMIT was
      sent and failed, and the server is still inside; a child left it open, and its exception is a connection
      exception on a connection that is still good, or ROLLBACK could not be sent. */
  predicate NobodyEnds(c: Conn, qs: seq<Statement>) {
    var begun := Execute(c, Begin);
    if begun.outcome.Threw? then LeftOpen(begun.conn)
    else
      var run := RunChildren(begun.conn, qs, |qs|);
      match run.stop
      case AllRan => (var done := Execute(run.conn, Commit); done.outcome.Threw? && LeftOpen(done.conn))
      case ChildThrew(e) => LeftOpen(run.conn) && (e.connection || RollbackUnsent(run.conn))
      case ChildEndedIt => LeftOpen(run.conn) && RollbackUnsent(run.conn)
  }

  lemma RollbackEnds(c: Conn)
    requires c.Ready()
    ensures LeftOpen(Execute(c, Rollback).conn) <==> LeftOpen(c) && RollbackUnsent(c)
  {
    NextReplyPlausible(c, Rollback);
  }

  lemma CommitEnds(c: Conn)
    requires c.Ready() && c.server.txn.InTrans?
    ensures Execute(c, Commit).outcome.Returned? ==> !LeftOpen(Execute(c, Commit).conn)
  {
    CommitEffect(c);
  }

  /** Exactly when a transaction is left open. From an idle session a failed BEGIN never does it,
      and nothing is ever left unread. */
  lemma LeftOpenExactly(c: Conn, qs: seq<Statement>)
    requires c.Ready()
    ensures RunTransaction(c, qs).conn.Ready()
    ensures LeftOpen(RunTransaction(c, qs).conn) <==> NobodyEnds(c, qs)
    ensures c.server.txn.Idle? && NobodyEnds(c, qs) ==> Execute(c, Begin).outcome.Returned?
  {
    BeginEffect(c);
    ExecuteKeeps(c, Begin);
    var begun := Execute(c, Begin);
    if begun.outcome.Returned? {
      ChildrenKeep(begun.conn, qs, |qs|);
      var run := RunChildren(begun.conn, qs, |qs|);
      ExecuteKeeps(run.conn, Commit);
      ExecuteKeeps(run.conn, Rollback);
      RollbackEnds(run.conn);
      if run.stop.AllRan? {
        CommitOnlyWhileOpen(c, qs);
        CommitEnds(run.conn);
      }
    }
  }

  // ---------------------------------------------------------------- the children's outcomes

  /** Whatever happens, all children end alike: all succeeded, all failed, or all aborted, the last
      exactly when the transaction failed with a flag set on it or on any child. */
  lemma UniformChildren(kids: seq<Snapshot>, v: Verdict, flag: bool)
    ensures var s := AllSettled(kids, v, flag);
      forall i :: 0 <= i < |s| ==>
        && s[i].finished
        && (s[i].status == Complete || s[i].status == Aborted)
        && (s[i].status == Aborted <==> flag && !v.Committed?)
        && s[i].resultStatus == (if v.Committed? then Success else if flag then NoResult else Error)
        && s[i].error == s[0].error && s[i].results == kids[i].results
  {
  }

  lemma ChildOpenings(v: Verdict)
    requires !v.Committed?
    ensures RolledBack <= ChildError(v) <==> !v.ChildLost? && !v.CommitLost?
  {
    assert RolledBack[12] == 'r';
    if v.ChildLost? { assert ChildError(v)[12] == OutcomeUnknown[12] == 'o'; }
    if v.CommitLost? { assert ChildError(v)[12] == CommitUnknown[12] == 'c'; }
  }

  /** When the children's report is not honest. A child is told "rolled back" although something became
      durable exactly when a child ended the transaction itself (the guard on PQtransactionStatus) and
      no flag was up; with a flag up the children end ABORTED although something became durable exactly
      then, or when it was COMMIT that lost its connection. */
  lemma ChildrenHonestExactly(c: Conn, qs: seq<Statement>, kids: seq<Snapshot>, flag: bool, i: nat)
    requires c.Ready() && !c.hidden && i < |kids|
    ensures var tx := RunTransaction(c, qs);
      var changed := tx.conn.server.committed != c.server.committed;
      var kid := AllSettled(kids, tx.verdict, flag)[i];
      && (RolledBack <= kid.error && changed <==> tx.verdict.ChildEnded? && changed && !flag)
      && (kid.status == Aborted && changed <==> (tx.verdict.ChildEnded? || tx.verdict.CommitLost?) && changed && flag)
  {
    var v := RunTransaction(c, qs).verdict;
    RolledBackMeansNothing(c, qs);
    if !v.Committed? { ChildOpenings(v); }
  }

  // ---------------------------------------------------------------- three runs that go wrong

  /** Neither refused as transaction control nor for a NUL. */
  predicate Allowed(q: Statement) { !IsTransactionControl(q.sql) && !ContainsNul(q.sql) }

  const Row := StatementResult("", "", 0, "")
  const Done := PGresult(CommandOk, Row, None, "", false)

  function Failing(state: string): PGresult { PGresult(FatalError, Row, Some(state), "failed", false) }

  function Answer(result: PGresult, after: Server): Reply { Reply(true, [result], after, "") }

  const Fresh := Server(true, Idle, [], [])
  const Opened := Server(true, InTrans, [], [])

  function Facing(script: seq<Reply>, hidden: bool): Conn { Conn(Fresh, [], "", [], script, [], hidden) }

  lemma Answered(c: Conn, cmd: Command)
    requires c.Ready() && c.script != [] && Plausible(c.hidden, cmd, c.server, c.script[0])
    requires c.script[0].accepted && |c.script[0].results| == 1 && !IsCopy(c.script[0].results[0])
    ensures var e, reply := Execute(c, cmd), c.script[0];
      && e.conn == c.(server := reply.after, message := reply.message, sent := c.sent + [cmd], script := c.script[1..])
      && e.outcome == (if !IsSuccess(reply.results[0]) then Threw(ResultError(reply.results[0], reply.message))
                       else if reply.after.alive then Returned else Threw(Thrown(reply.message, "", true)))
  {
    var sent := Sending(c, cmd);
    assert sent.unread == c.script[0].results;
    assert FirstFailure(sent.unread) == (if IsSuccess(sent.unread[0]) then 1 else 0) by {
      assert sent.unread[1..] == [];
    }
  }

  lemma OneChild(c: Conn, q: Statement)
    ensures var e := ExecuteChild(c, q);
      RunChildren(c, [q], 1) == ChildrenRun(e.conn, [e.appended], StopAfter(e))
  {
    assert RunChildren(c, [q], 0) == ChildrenRun(c, [], AllRan);
    assert [] + [ExecuteChild(c, q).appended] == [ExecuteChild(c, q).appended];
  }

  /** A child may report SQLSTATE 08P01 although the connection is good. The transaction is then
      left open: no ROLLBACK is sent, and the error reads "outcome unknown". */
  lemma LiveConnectionLeftOpen(q: Statement) returns (c: Conn)
    requires Allowed(q)
    ensures c.Ready() && c.server.txn.Idle? && !c.hidden
    ensures var tx := RunTransaction(c, [q]); tx.verdict.ChildLost? && LeftOpen(tx.conn) && Rollback !in tx.conn.sent
  {
    var failed := Answer(Failing("08P01"), Server(true, InError, [], []));
    c := Facing([Answer(Done, Opened), failed], false);
    Answered(c, Begin);
    var d := Execute(c, Begin).conn;
    assert d.script == [failed];
    Answered(d, Single(q));
    OneChild(d, q);
    assert "08" <= "08P01";
  }

  /** A child that ends the transaction with success: the parent says that the outcome is
      unknown, but the child is told that it was rolled back, although it is durable. */
  lemma EndedChildIsToldRolledBack(q: Statement) returns (c: Conn)
    requires Allowed(q)
    ensures c.Ready() && c.server.txn.Idle? && !c.hidden
    ensures var tx := RunTransaction(c, [q]);
      && tx.verdict == ChildEnded && tx.conn.server.committed == [q] != c.server.committed
      && RolledBack <= ChildError(tx.verdict) && OutcomeUnknown <= ParentError(tx.verdict)
  {
    var over := Answer(Done, Server(true, Idle, [q], []));
    c := Facing([Answer(Done, Opened), over, over], false);
    Answered(c, Begin);
    var d := Execute(c, Begin).conn;
    assert d.script == [over, over];
    ChildEnds(d, q, over);
    Answered(RunChildren(d, [q], 1).conn, Rollback);
    EndedOpenings();
  }

  lemma EndedOpenings()
    ensures RolledBack <= ChildError(ChildEnded) && OutcomeUnknown <= ParentError(ChildEnded)
  {
    ChildOpenings(ChildEnded);
    OpeningsDiffer(ChildEnded);
  }

  lemma ChildEnds(d: Conn, q: Statement, over: Reply)
    requires Allowed(q) && d.Ready() && d.server == Opened && !d.hidden && d.script == [over, over]
    requires over == Answer(Done, Server(true, Idle, [q], []))
    ensures var run := RunChildren(d, [q], 1);
      run.stop.ChildEndedIt? && run.conn.Ready() && run.conn.server == over.after && run.conn.script == [over] && !run.conn.hidden
  {
    Answered(d, Single(q));
    OneChild(d, q);
  }

  /** Such a child passes the scanner: a COMMIT behind a nested comment. */
  lemma EndingChildExists() returns (c: Conn, q: Statement)
    ensures RunTransaction(c, [q]).verdict == ChildEnded
    ensures c.Ready() && !c.hidden && q.sql == "/*" + "/**/*/commit"
  {
    q := HiddenCommit;
    HiddenCommitAllowed();
    c := EndedChildIsToldRolledBack(q);
  }

  const HiddenCommit := Statement("/*" + "/**/*/commit", [])

  lemma HiddenCommitAllowed()
    ensures Allowed(HiddenCommit)
  {
    NestedCommentHidesCommit();
    NoNulInIt();
  }

  lemma NoNulInIt()
    ensures !ContainsNul(HiddenCommit.sql)
  {
  }

  lemma TwoChildren(c: Conn, p: Statement, q: Statement)
    requires ExecuteChild(c, p).outcome.Returned? && ExecuteChild(c, p).conn.server.txn.InTrans?
    ensures var e := ExecuteChild(c, p); var f := ExecuteChild(e.conn, q);
      RunChildren(c, [p, q], 2) == ChildrenRun(f.conn, [e.appended, f.appended], StopAfter(f))
  {
    assert RunChildren(c, [p, q], 0) == ChildrenRun(c, [], AllRan);
    var e := ExecuteChild(c, p);
    var run := RunChildren(c, [p, q], 1);
    assert run.conn == e.conn && run.stop == AllRan && run.ran == [e.appended];
  }

  function Chained(p: Statement): seq<Reply> {
    [Answer(Done, Server(true, InTrans, [p], [])),
     Answer(Failing("22012"), Server(true, InError, [p], [])),
     Answer(Done, Server(true, Idle, [p], []))]
  }

  lemma ChainedFirst(d: Conn, p: Statement)
    requires Allowed(p) && d.Ready() && d.server == Opened && d.hidden && d.script == Chained(p)
    ensures var e := ExecuteChild(d, p);
      && e.outcome.Returned? && e.conn.Ready() && e.conn.hidden
      && e.conn.server == Server(true, InTrans, [p], []) && e.conn.script == Chained(p)[1..]
  {
    Answered(d, Single(p));
  }

  lemma ChainedSecond(e: Conn, p: Statement, q: Statement)
    requires Allowed(q) && e.Ready() && e.hidden
    requires e.server == Server(true, InTrans, [p], []) && e.script == Chained(p)[1..]
    ensures var f := ExecuteChild(e, q);
      && f.outcome.Threw? && !f.outcome.error.connection && f.conn.Ready()
      && f.conn.server == Server(true, InError, [p], []) && f.conn.script == Chained(p)[2..]
  {
    Answered(e, Single(q));
    assert "22012"[0] != "08"[0];
    assert Chained(p)[1..][1..] == Chained(p)[2..];
  }

  lemma ChainedChildren(d: Conn, p: Statement, q: Statement)
    requires Allowed(p) && Allowed(q) && d.Ready() && d.server == Opened && d.hidden && d.script == Chained(p)
    ensures var run := RunChildren(d, [p, q], 2);
      && run.stop.ChildThrew? && !run.stop.error.connection
      && run.conn.Ready() && run.conn.server == Server(true, InError, [p], []) && run.conn.script == Chained(p)[2..]
  {
    ChainedFirst(d, p);
    ChainedSecond(ExecuteChild(d, p).conn, p, q);
    TwoChildren(d, p, q);
  }

  /** Without the assumption that no child commits behind the transaction's back the report is not
      honest: after a COMMIT AND CHAIN the transaction still looks open, and the failure of a later
      child is reported as rolled back. */
  lemma HiddenCommitIsReportedRolledBack(p: Statement, q: Statement) returns (c: Conn)
    requires Allowed(p) && Allowed(q)
    ensures c.Ready() && c.server.txn.Idle? && c.hidden
    ensures var tx := RunTransaction(c, [p, q]);
      tx.verdict.ChildFailed? && RolledBack <= ParentError(tx.verdict) && tx.conn.server.committed == [p] != c.server.committed
  {
    c := Facing([Answer(Done, Opened)] + Chained(p), true);
    Answered(c, Begin);
    var d := Execute(c, Begin).conn;
    assert d.script == Chained(p);
    ChainedChildren(d, p, q);
    var run := RunChildren(d, [p, q], 2);
    FailedRollsBack(run);
    FailedOpens(run.stop.error);
    assert RunTransaction(c, [p, q]) == AfterChildren(run);
  }

  lemma FailedRollsBack(run: ChildrenRun)
    requires run.conn.Ready() && run.stop.ChildThrew? && !run.stop.error.connection
    ensures AfterChildren(run).verdict == ChildFailed(run.stop.error)
    ensures AfterChildren(run).conn.server.committed == run.conn.server.committed
  {
    RollbackEffect(run.conn);
  }

  lemma FailedOpens(e: Thrown)
    ensures RolledBack <= ParentError(ChildFailed(e))
  {
  }
}
