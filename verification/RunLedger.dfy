/** What a sequence of runQuery calls sends and makes durable, across any reconnects. */
module RunLedger {
  import opened QueryTypes
  import opened QueryDatas
  import opened Libpq
  import opened LibpqExecutor
  import opened Transactions
  import opened TransactionTheorems
  import opened Databases
  import opened DatabaseTheorems

  /** One call of runQuery, with the settings it meets. */
  datatype Job = Job(work: Work, data: Snapshot, kids: seq<Snapshot>, cancels: Cancels, auto: bool, shuttingDown: bool) {
    predicate Valid() { |kids| == KidCount(work) && data.error == "" }
  }

  /** The session the query runs on, and the one runQuery leaves. */
  function Before(s: SessionState, j: Job): SessionState { Dialled(s, j.auto, j.shuttingDown) }

  function After(s: SessionState, j: Job): SessionState
    requires j.Valid()
  {
    SessionAfter(Before(s, j), AttemptOn(Before(s, j), j.work, j.data, j.kids, j.cancels), j.auto, j.shuttingDown)
  }

  /** What the caller reads of it. */
  function Report(s: SessionState, j: Job): Snapshot
    requires j.Valid()
  {
    Ended(Before(s, j), j.work, j.data, j.kids, j.cancels)
  }

  predicate AllValid(jobs: seq<Job>) { forall i :: 0 <= i < |jobs| ==> jobs[i].Valid() }

  /** The session after the jobs, one after the other. */
  function AfterAll(s: SessionState, jobs: seq<Job>): SessionState
    requires AllValid(jobs)
  {
    if jobs == [] then s else After(AfterAll(s, jobs[..|jobs| - 1]), jobs[|jobs| - 1])
  }

  function Joined<T>(parts: seq<seq<T>>): seq<T> {
    if parts == [] then [] else Joined(parts[..|parts| - 1]) + parts[|parts| - 1]
  }

  lemma JoinedAppend<T>(parts: seq<seq<T>>, part: seq<T>)
    ensures Joined(parts + [part]) == Joined(parts) + part
  {
    assert (parts + [part])[..|parts|] == parts;
  }

  // ---------------------------------------------------------------- what is sent

  /** The commands of one execution that went out: each of its own at most once and in order. A transaction
      sends BEGIN, then a number of its children, then nothing, ROLLBACK, or after all of them COMMIT. */
  ghost predicate OwnPart(work: Work, part: seq<Command>) {
    match work
    case Plain(sql, multi) => part == [] || part == [if multi then Simple(sql) else Single(Statement(sql, []))]
    case Prepared(s) => part == [] || part == [Single(s)]
    case Transacting(ptr) => part == [] || exists k, tail :: TransactionPart(ptr.statements, part, k, tail)
  }

  /** All of its own commands. */
  predicate WholePart(work: Work, part: seq<Command>) {
    match work
    case Plain(sql, multi) => part == [if multi then Simple(sql) else Single(Statement(sql, []))]
    case Prepared(s) => part == [Single(s)]
    case Transacting(ptr) => part == [Begin] + Singles(ptr.statements) + [Commit]
  }

  predicate TransactionPart(qs: seq<Statement>, part: seq<Command>, k: nat, tail: seq<Command>) {
    k <= |qs| && part == [Begin] + Singles(qs[..k]) + tail
    && (tail == [] || tail == [Rollback] || (tail == [Commit] && k == |qs|))
  }

  lemma Sends(c: Conn, cmd: Command)
    ensures var e := Execute(c, cmd);
      && (e.conn.sent == c.sent || e.conn.sent == c.sent + [cmd])
      && (e.outcome.Returned? ==> e.conn.sent == c.sent + [cmd])
  {
  }

  /** The first `k` of the statements went out after `c`. */
  predicate SentFirst(c: Conn, d: Conn, qs: seq<Statement>, k: nat) {
    k <= |qs| && d.sent == c.sent + Singles(qs[..k])
  }

  lemma SentNext(c: Conn, d: Conn, qs: seq<Statement>, k: nat, e: Conn)
    requires k < |qs| && SentFirst(c, d, qs, k) && e.sent == d.sent + [Single(qs[k])]
    ensures SentFirst(c, e, qs, k + 1)
  {
    assert qs[..k + 1] == qs[..k] + [qs[k]];
    assert Singles(qs[..k + 1]) == Singles(qs[..k]) + [Single(qs[k])];
  }

  lemma {:induction false} ChildrenSend(c: Conn, qs: seq<Statement>, n: nat) returns (k: nat)
    requires n <= |qs|
    ensures k <= n && SentFirst(c, RunChildren(c, qs, n).conn, qs, k)
    ensures RunChildren(c, qs, n).stop.AllRan? ==> k == n
  {
    k := 0;
    if n == 0 {
      assert Singles(qs[..0]) == [];
    } else {
      k := ChildrenSend(c, qs, n - 1);
      var run := RunChildren(c, qs, n - 1);
      if run.stop.AllRan? { k := ChildSendsNext(c, run.conn, qs, n - 1); }
    }
  }

  lemma ChildSendsNext(c: Conn, d: Conn, qs: seq<Statement>, n: nat) returns (k: nat)
    requires n < |qs| && SentFirst(c, d, qs, n)
    ensures var e := ExecuteChild(d, qs[n]);
      k <= n + 1 && SentFirst(c, e.conn, qs, k) && (e.outcome.Returned? ==> k == n + 1)
  {
    ChildSends(d, qs[n]);
    var e := ExecuteChild(d, qs[n]);
    k := n;
    if e.conn.sent != d.sent {
      SentNext(c, d, qs, n, e.conn);
      k := n + 1;
    }
    assert |d.sent + [Single(qs[n])]| == |d.sent| + 1;
  }

  lemma ChildSends(c: Conn, q: Statement)
    ensures var e := ExecuteChild(c, q);
      && (e.conn.sent == c.sent || e.conn.sent == c.sent + [Single(q)])
      && (e.outcome.Returned? ==> e.conn.sent == c.sent + [Single(q)])
  {
    Sends(c, Single(q));
  }

  /** A transaction sends a part of its own commands. */
  lemma TransactionSends(c: Conn, qs: seq<Statement>) returns (part: seq<Command>)
    ensures RunTransaction(c, qs).conn.sent == c.sent + part
    ensures part == [] || exists k, tail :: TransactionPart(qs, part, k, tail)
    ensures RunTransaction(c, qs).verdict.Committed? ==> part == [Begin] + Singles(qs) + [Commit]
  {
    Sends(c, Begin);
    var begun := Execute(c, Begin);
    if begun.outcome.Returned? {
      part := BodySends(c, begun.conn, qs);
    } else if begun.conn.sent == c.sent {
      part := [];
      assert c.sent + [] == c.sent;
    } else {
      part := [Begin];
      assert qs[..0] == [] && Singles([]) == [];
      assert TransactionPart(qs, part, 0, []);
    }
  }

  lemma FourParts<T>(a: seq<T>, b: seq<T>, c: seq<T>, d: seq<T>)
    ensures a + b + c + d == a + (b + c + d)
  {
  }

  /** The last command, if it went out. */
  lemma BodyEnds(begun: Conn, qs: seq<Statement>) returns (tail: seq<Command>)
    ensures var run := RunChildren(begun, qs, |qs|);
      && RunBody(begun, qs).conn.sent == run.conn.sent + tail
      && (tail == [] || tail == [Rollback] || (tail == [Commit] && run.stop.AllRan?))
      && (RunBody(begun, qs).verdict.Committed? ==> run.stop.AllRan? && tail == [Commit])
  {
    var run := RunChildren(begun, qs, |qs|);
    Sends(run.conn, if run.stop.AllRan? then Commit else Rollback);
    var sent := RunBody(begun, qs).conn.sent;
    tail := [];
    if sent == run.conn.sent {
      assert run.conn.sent + [] == run.conn.sent;
    } else {
      tail := [if run.stop.AllRan? then Commit else Rollback];
    }
  }

  lemma BodySends(c: Conn, begun: Conn, qs: seq<Statement>) returns (part: seq<Command>)
    requires begun.sent == c.sent + [Begin]
    ensures RunBody(begun, qs).conn.sent == c.sent + part
    ensures exists k, tail :: TransactionPart(qs, part, k, tail)
    ensures RunBody(begun, qs).verdict.Committed? ==> part == [Begin] + Singles(qs) + [Commit]
  {
    assert qs[..|qs|] == qs;
    var k := ChildrenSend(begun, qs, |qs|);
    var tail := BodyEnds(begun, qs);
    part := [Begin] + Singles(qs[..k]) + tail;
    assert TransactionPart(qs, part, k, tail);
    FourParts(c.sent, [Begin], Singles(qs[..k]), tail);
  }

  lemma ReconnectSends(s: SessionState)
    ensures Reconnected(s).conn.sent == s.conn.sent
  {
  }

  lemma JobSends(s: SessionState, j: Job) returns (part: seq<Command>)
    requires j.Valid()
    ensures After(s, j).conn.sent == s.conn.sent + part && OwnPart(j.work, part)
    ensures Report(s, j).resultStatus == Success && j.data.resultStatus != Success ==> WholePart(j.work, part)
  {
    var o := Before(s, j);
    ReconnectSends(s);
    var a := AttemptOn(o, j.work, j.data, j.kids, j.cancels);
    ReconnectSends(o.(conn := a.conn));
    part := [];
    if o.IsOpen() {
      part := WorkSends(j.work, o.conn, j.data, j.kids, j.cancels);
    } else {
      assert o.conn.sent + [] == o.conn.sent;
    }
  }

  lemma WorkSends(work: Work, c: Conn, data: Snapshot, kids: seq<Snapshot>, cancels: Cancels) returns (part: seq<Command>)
    requires |kids| == KidCount(work)
    ensures Perform(work, c, data, kids, cancels).conn.sent == c.sent + part && OwnPart(work, part)
    ensures Perform(work, c, data, kids, cancels).outcome.Returned? ==> WholePart(work, part)
  {
    if work.Transacting? {
      part := TransactionSends(c, work.ptr.statements);
    } else {
      var d := Executing(work, c).conn;
      var cmd := match work case Plain(sql, multi) => (if multi then Simple(sql) else Single(Statement(sql, []))) case Prepared(q) => Single(q);
      Sends(c, cmd);
      assert |c.sent + [cmd]| == |c.sent| + 1;
      part := if d.sent == c.sent then [] else [cmd];
      assert c.sent + [] == c.sent;
    }
  }

  lemma {:induction false} OneMorePart(sent: seq<Command>, parts: seq<seq<Command>>, part: seq<Command>)
    ensures sent + Joined(parts) + part == sent + Joined(parts + [part])
  {
    JoinedAppend(parts, part);
  }

  /** Each execution's part is made of its own commands, and is all of them when it reports SUCCESS. */
  ghost predicate Explains(s: SessionState, jobs: seq<Job>, parts: seq<seq<Command>>)
    requires AllValid(jobs)
  {
    |parts| == |jobs| &&
    (jobs == [] ||
      var n := |jobs| - 1;
      && Explains(s, jobs[..n], parts[..n]) && OwnPart(jobs[n].work, parts[n])
      && (Report(AfterAll(s, jobs[..n]), jobs[n]).resultStatus == Success && jobs[n].data.resultStatus != Success ==>
            WholePart(jobs[n].work, parts[n])))
  }

  /** No replay: over any sequence of executions and any number of connection losses and reconnects, what went
      out is, execution by execution, a part of its own commands, none of them twice, and all of them for a success. */
  lemma {:induction false} NothingIsReplayed(s: SessionState, jobs: seq<Job>) returns (parts: seq<seq<Command>>)
    requires AllValid(jobs)
    ensures Explains(s, jobs, parts) && AfterAll(s, jobs).conn.sent == s.conn.sent + Joined(parts)
  {
    parts := [];
    if jobs == [] {
      assert s.conn.sent + [] == s.conn.sent;
    } else {
      var n := |jobs| - 1;
      var rest := NothingIsReplayed(s, jobs[..n]);
      var part := JobSends(AfterAll(s, jobs[..n]), jobs[n]);
      OneMorePart(s.conn.sent, rest, part);
      parts := rest + [part];
      assert parts[..n] == rest;
    }
  }

  // ---------------------------------------------------------------- what becomes durable

  predicate SaysUnknown(report: Snapshot) { OutcomeUnknown <= report.error || CommitUnknown <= report.error }

  /** An execution that met the closed session `o` made nothing durable. How the report of a transaction accounts
      for what it made durable: on success all of it, behind what an open transaction it was started in already
      held; when the fate of COMMIT is unknown, that or nothing; and nothing unless the report says that the
      outcome is unknown. */
  predicate Contributes(o: SessionState, j: Job, part: seq<Statement>)
    requires j.Valid()
  {
    && (!o.IsOpen() ==> part == [])
    && (j.work.Transacting? ==>
      var report := Ended(o, j.work, j.data, j.kids, j.cancels);
      var all := o.conn.server.pending + j.work.ptr.statements;
      if report.resultStatus == Success then part == all
      else if CommitUnknown <= report.error then part == [] || part == all
      else part == [] || OutcomeUnknown <= report.error)
  }

  predicate Accounts(s: SessionState, jobs: seq<Job>, parts: seq<seq<Statement>>)
    requires AllValid(jobs)
  {
    |parts| == |jobs| &&
    (jobs == [] ||
      var n := |jobs| - 1;
      Accounts(s, jobs[..n], parts[..n]) && Contributes(Before(AfterAll(s, jobs[..n]), jobs[n]), jobs[n], parts[n]))
  }

  lemma TransactionExtends(c: Conn, qs: seq<Statement>)
    requires c.Ready()
    ensures var d := RunTransaction(c, qs).conn; d.Ready() && d.hidden == c.hidden && c.server.committed <= d.server.committed
  {
    ExecuteKeeps(c, Begin);
    var begun := Execute(c, Begin).conn;
    ChildrenKeep(begun, qs, |qs|);
    var run := RunChildren(begun, qs, |qs|);
    ExecuteKeeps(run.conn, Commit);
    ExecuteKeeps(run.conn, Rollback);
  }

  lemma WorkExtends(work: Work, c: Conn, data: Snapshot, kids: seq<Snapshot>, cancels: Cancels)
    requires c.Ready() && |kids| == KidCount(work)
    ensures var d := Perform(work, c, data, kids, cancels).conn;
      d.Ready() && d.hidden == c.hidden && c.server.committed <= d.server.committed
  {
    match work {
      case Plain(sql, multi) => ExecuteKeeps(c, if multi then Simple(sql) else Single(Statement(sql, [])));
      case Prepared(q) => ExecuteKeeps(c, Single(q));
      case Transacting(ptr) => TransactionExtends(c, ptr.statements);
    }
  }

  lemma Suffix<T>(a: seq<T>, b: seq<T>) returns (part: seq<T>)
    requires a <= b
    ensures b == a + part
  {
    part := b[|a|..];
  }

  /** What the caller reads after each end of a transaction. */
  lemma ReportOf(o: SessionState, j: Job)
    requires j.Valid() && j.work.Transacting? && o.IsOpen()
    ensures var v := RunTransaction(o.conn, j.work.ptr.statements).verdict;
      var report := Ended(o, j.work, j.data, j.kids, j.cancels);
      && (report.resultStatus == Success <==> v.Committed?)
      && (v.ChildLost? || v.ChildEnded? || v.CommitLost? ==> report.error == ParentError(v))
  {
    var v := RunTransaction(o.conn, j.work.ptr.statements).verdict;
    var a := Perform(j.work, o.conn, j.data, j.kids, j.cancels);
    assert a.outcome == OutcomeOf(v) && a.data.error == ParentError(v);
    if v.ChildLost? || v.ChildEnded? || v.CommitLost? { ErrorNotEmpty(v); }
  }

  lemma ErrorNotEmpty(v: Verdict)
    requires v.ChildLost? || v.ChildEnded? || v.CommitLost?
    ensures ParentError(v) != ""
  {
  }

  /** What a transaction makes durable, by how it ends. */
  lemma EndContributes(c: Conn, qs: seq<Statement>) returns (part: seq<Statement>)
    requires c.Ready() && !c.hidden
    ensures var tx := RunTransaction(c, qs);
      var all := c.server.pending + qs;
      && tx.conn.server.committed == c.server.committed + part
      && (tx.verdict.Committed? ==> part == all) && (tx.verdict.CommitLost? ==> part == [] || part == all)
      && (part == [] || tx.verdict.Committed? || tx.verdict.CommitLost? || tx.verdict.ChildEnded?)
  {
    TransactionExtends(c, qs);
    CommittedMeansAll(c, qs);
    RolledBackMeansNothing(c, qs);
    AllOrNothing(c, qs);
    part := Suffix(c.server.committed, RunTransaction(c, qs).conn.server.committed);
    SamePart(c.server.committed, part, c.server.pending + qs);
    SamePart(c.server.committed, part, []);
    assert c.server.committed + [] == c.server.committed;
  }

  lemma SamePart<T>(a: seq<T>, b: seq<T>, c: seq<T>)
    ensures a + b == a + c ==> b == c
  {
    assert (a + b)[|a|..] == b && (a + c)[|a|..] == c;
  }

  lemma TransactionContributes(o: SessionState, j: Job) returns (part: seq<Statement>)
    requires j.Valid() && j.work.Transacting? && o.IsOpen() && o.conn.Ready() && !o.conn.hidden
    ensures RunTransaction(o.conn, j.work.ptr.statements).conn.server.committed == o.conn.server.committed + part
    ensures Contributes(o, j, part)
  {
    part := EndContributes(o.conn, j.work.ptr.statements);
    ReportOf(o, j);
    var v := RunTransaction(o.conn, j.work.ptr.statements).verdict;
    OpeningsDiffer(v);
    if v.ChildEnded? { UnknownsDiffer(v); }
  }

  lemma UnknownsDiffer(v: Verdict)
    requires v.ChildEnded?
    ensures !(CommitUnknown <= ParentError(v))
  {
    assert ParentError(v)[12] == OutcomeUnknown[12] == 'o' && CommitUnknown[12] == 'c';
  }

  /** Dialling, before or after, leaves what is durable. */
  lemma DiallingKeeps(s: SessionState, j: Job)
    requires s.conn.Ready() && !s.conn.hidden
    ensures var o := Before(s, j);
      o.conn.server.committed == s.conn.server.committed && o.conn.Ready() && !o.conn.hidden
  {
  }

  lemma AfterKeeps(o: SessionState, a: Attempted, auto: bool, shuttingDown: bool)
    requires a.conn.Ready() && !a.conn.hidden
    ensures var t := SessionAfter(o, a, auto, shuttingDown);
      t.conn.server.committed == a.conn.server.committed && t.conn.Ready() && !t.conn.hidden
  {
  }

  lemma AttemptContributes(o: SessionState, j: Job) returns (part: seq<Statement>)
    requires j.Valid() && o.conn.Ready() && !o.conn.hidden
    ensures var d := AttemptOn(o, j.work, j.data, j.kids, j.cancels).conn;
      d.server.committed == o.conn.server.committed + part && d.Ready() && !d.hidden
    ensures Contributes(o, j, part)
  {
    part := [];
    if o.IsOpen() {
      WorkExtends(j.work, o.conn, j.data, j.kids, j.cancels);
      if j.work.Transacting? {
        part := TransactionContributes(o, j);
      } else {
        part := Suffix(o.conn.server.committed, Perform(j.work, o.conn, j.data, j.kids, j.cancels).conn.server.committed);
      }
    } else {
      assert o.conn.server.committed + [] == o.conn.server.committed;
    }
  }

  lemma JobContributes(s: SessionState, j: Job) returns (part: seq<Statement>)
    requires j.Valid() && s.conn.Ready() && !s.conn.hidden
    ensures var t := After(s, j);
      t.conn.server.committed == s.conn.server.committed + part && t.conn.Ready() && !t.conn.hidden
    ensures Contributes(Before(s, j), j, part)
  {
    DiallingKeeps(s, j);
    var o := Before(s, j);
    part := AttemptContributes(o, j);
    AfterKeeps(o, AttemptOn(o, j.work, j.data, j.kids, j.cancels), j.auto, j.shuttingDown);
  }

  /** The durable state is, over any sequence of executions and reconnects, what was durable before and then,
      execution by execution, what the reports account for. */
  lemma {:induction false} DurableLedger(s: SessionState, jobs: seq<Job>) returns (parts: seq<seq<Statement>>)
    requires AllValid(jobs) && s.conn.Ready() && !s.conn.hidden
    ensures var t := AfterAll(s, jobs);
      t.conn.server.committed == s.conn.server.committed + Joined(parts) && t.conn.Ready() && !t.conn.hidden
    ensures Accounts(s, jobs, parts)
  {
    parts := [];
    if jobs == [] {
      assert s.conn.server.committed + [] == s.conn.server.committed;
    } else {
      var n := |jobs| - 1;
      var rest := DurableLedger(s, jobs[..n]);
      var part := JobContributes(AfterAll(s, jobs[..n]), jobs[n]);
      OneMoreStatement(s.conn.server.committed, rest, part);
      parts := rest + [part];
      assert parts[..n] == rest;
    }
  }

  lemma OneMoreStatement(durable: seq<Statement>, parts: seq<seq<Statement>>, part: seq<Statement>)
    ensures durable + Joined(parts) + part == durable + Joined(parts + [part])
  {
    JoinedAppend(parts, part);
  }

  // ---------------------------------------------------------------- when the reports are enough

  /** The statements of the transactions reported as successful, in order. */
  function Succeeded(s: SessionState, jobs: seq<Job>): seq<Statement>
    requires AllValid(jobs)
  {
    if jobs == [] then []
    else
      var n := |jobs| - 1;
      Succeeded(s, jobs[..n]) + if Succeeds(AfterAll(s, jobs[..n]), jobs[n]) then jobs[n].work.ptr.statements else []
  }

  predicate Succeeds(s: SessionState, j: Job)
    requires j.Valid()
  {
    j.work.Transacting? && Report(s, j).resultStatus == Success
  }

  /** Every job is a transaction, and no report says "unknown". */
  predicate Definite(s: SessionState, jobs: seq<Job>)
    requires AllValid(jobs)
  {
    jobs == [] ||
      var n := |jobs| - 1;
      jobs[n].work.Transacting? && Definite(s, jobs[..n]) && !SaysUnknown(Report(AfterAll(s, jobs[..n]), jobs[n]))
  }

  /** Every transaction reported as successful began on a session without statements pending in an open transaction. */
  predicate SuccessStartsClean(s: SessionState, jobs: seq<Job>)
    requires AllValid(jobs)
  {
    jobs == [] ||
      var n := |jobs| - 1;
      var t := AfterAll(s, jobs[..n]);
      SuccessStartsClean(s, jobs[..n]) && (Succeeds(t, jobs[n]) ==> Before(t, jobs[n]).conn.server.pending == [])
  }

  /** The durable state is exactly what was reported, the initial state followed by the transactions reported
      as successful, in order, and nothing of the others, if and only if each of these found nothing pending. */
  lemma DurableIsWhatSucceeded(s: SessionState, jobs: seq<Job>)
    requires AllValid(jobs) && s.conn.Ready() && !s.conn.hidden && Definite(s, jobs)
    ensures AfterAll(s, jobs).conn.server.committed == s.conn.server.committed + Succeeded(s, jobs) <==> SuccessStartsClean(s, jobs)
  {
    var part := Excess(s, jobs);
    SamePart(s.conn.server.committed, part, Succeeded(s, jobs));
  }

  /** What has become durable is at least as long as what was reported, and longer unless every success started clean. */
  lemma {:induction false} Excess(s: SessionState, jobs: seq<Job>) returns (part: seq<Statement>)
    requires AllValid(jobs) && s.conn.Ready() && !s.conn.hidden && Definite(s, jobs)
    ensures var t := AfterAll(s, jobs).conn;
      t.server.committed == s.conn.server.committed + part && t.Ready() && !t.hidden
    ensures if SuccessStartsClean(s, jobs) then part == Succeeded(s, jobs) else |part| > |Succeeded(s, jobs)|
  {
    part := [];
    if jobs == [] {
      assert s.conn.server.committed + [] == s.conn.server.committed;
    } else {
      var n := |jobs| - 1;
      var rest := Excess(s, jobs[..n]);
      var t := AfterAll(s, jobs[..n]);
      var last := JobContributes(t, jobs[n]);
      part := rest + last;
      OneMore(s.conn.server.committed, rest, last);
      DefiniteShare(t, jobs[n], last);
    }
  }

  lemma DefiniteShare(s: SessionState, j: Job, part: seq<Statement>)
    requires j.Valid() && j.work.Transacting? && Contributes(Before(s, j), j, part) && !SaysUnknown(Report(s, j))
    ensures part == if Succeeds(s, j) then Before(s, j).conn.server.pending + j.work.ptr.statements else []
    ensures Succeeds(s, j) && Before(s, j).conn.server.pending == [] ==> part == j.work.ptr.statements
  {
    assert [] + j.work.ptr.statements == j.work.ptr.statements;
  }

  lemma OneMore<T>(a: seq<T>, b: seq<T>, c: seq<T>)
    ensures a + b + c == a + (b + c)
  {
  }

  // ---------------------------------------------------------------- why the session must not be left inside

  lemma Unanswered(c: Conn, cmd: Command)
    requires c.Ready() && c.server.alive && c.script != [] && !c.script[0].accepted && c.script[0].results == []
    requires c.script[0].after == c.server
    ensures Execute(c, cmd).conn == c.(message := c.script[0].message, script := c.script[1..])
  {
  }

  function NotSent(server: Server): Reply { Reply(false, [], server, "") }

  function Holding(qs: seq<Statement>): Server { Server(true, InTrans, [], qs) }

  lemma ChildRunsThenRefused(d: Conn, p: Statement, bad: Statement, more: seq<Reply>)
    requires Allowed(p) && SqlScanner.IsTransactionControl(bad.sql) && d.Ready() && d.server == Opened && !d.hidden
    requires d.script == [Answer(Done, Holding([p]))] + more
    ensures var run := RunChildren(d, [p, bad], 2);
      && run.stop.ChildThrew? && !run.stop.error.connection
      && run.conn.Ready() && run.conn.server == Holding([p]) && !run.conn.hidden && run.conn.script == more
  {
    Answered(d, Single(p));
    TwoChildren(d, p, bad);
  }

  /** The first transaction: its child `p` runs, `bad` is refused by the scanner, ROLLBACK cannot be sent. */
  lemma LeftInside(c: Conn, p: Statement, bad: Statement, more: seq<Reply>)
    requires Allowed(p) && SqlScanner.IsTransactionControl(bad.sql) && c.Ready() && c.server == Fresh && !c.hidden
    requires c.script == [Answer(Done, Opened), Answer(Done, Holding([p])), NotSent(Holding([p]))] + more
    ensures var tx := RunTransaction(c, [p, bad]);
      && tx.verdict.ChildFailed? && tx.conn.server == Holding([p]) && tx.conn.Ready() && !tx.conn.hidden
      && tx.conn.script == more
  {
    Answered(c, Begin);
    var d := Execute(c, Begin).conn;
    var rest := [NotSent(Holding([p]))] + more;
    assert d.script == [Answer(Done, Holding([p]))] + rest;
    ChildRunsThenRefused(d, p, bad, rest);
    Unanswered(RunChildren(d, [p, bad], 2).conn, Rollback);
    assert rest[1..] == more;
  }

  /** The next transaction commits what it finds open. */
  lemma CommitsBoth(c: Conn, p: Statement, q: Statement)
    requires Allowed(q) && c.Ready() && c.server == Holding([p]) && !c.hidden
    requires c.script == [Answer(Done, Holding([p])), Answer(Done, Holding([p, q])), Answer(Done, Server(true, Idle, [p, q], []))]
    ensures RunTransaction(c, [q]).verdict == Committed && RunTransaction(c, [q]).conn.server.committed == [p, q]
  {
    Answered(c, Begin);
    var d := Execute(c, Begin).conn;
    assert d.script == [Answer(Done, Holding([p, q])), Answer(Done, Server(true, Idle, [p, q], []))];
    Answered(d, Single(q));
    OneChild(d, q);
    var e := ExecuteChild(d, q).conn;
    assert e.script == [Answer(Done, Server(true, Idle, [p, q], []))];
    Answered(e, Commit);
  }

  /** A transaction reported as rolled back becomes durable with the next one, when its ROLLBACK could
      not be sent on a connection that is still good. */
  lemma RolledBackComesBack(p: Statement, bad: Statement, q: Statement) returns (c: Conn)
    requires Allowed(p) && Allowed(q) && SqlScanner.IsTransactionControl(bad.sql)
    ensures c.Ready() && c.server == Fresh && !c.hidden
    ensures var tx := RunTransaction(c, [p, bad]);
      var next := RunTransaction(tx.conn, [q]);
      && RolledBack <= ParentError(tx.verdict) && tx.conn.server.committed == []
      && next.verdict == Committed && next.conn.server.committed == [p, q]
  {
    var more := [Answer(Done, Holding([p])), Answer(Done, Holding([p, q])), Answer(Done, Server(true, Idle, [p, q], []))];
    c := Facing([Answer(Done, Opened), Answer(Done, Holding([p])), NotSent(Holding([p]))] + more, false);
    LeftInside(c, p, bad, more);
    CommitsBoth(RunTransaction(c, [p, bad]).conn, p, q);
  }
}
