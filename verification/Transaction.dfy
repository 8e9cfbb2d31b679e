/** The transaction protocol: BEGIN, the children in order, COMMIT, and what each exception path
    makes of it (pg/src/postgres/Transaction.cpp). */
module Transactions {
  import opened QueryTypes
  import opened QueryDatas
  import opened SqlScanner
  import opened Libpq
  import opened LibpqExecutor
  import opened ActiveQueryStates

  /** The deque of pairs in m_queries, as the statements and the data of the children side by side. */
  datatype TransactionData = TransactionData(base: QueryData, statements: seq<Statement>, kids: seq<QueryData>) {
    /** Every execution has data of its own. */
    ghost predicate Distinct() {
      && |kids| == |statements| && base !in kids
      && forall i, j :: 0 <= i < j < |kids| ==> kids[i] != kids[j]
    }

    /** The data were built for this execution and carry no outcome yet. */
    ghost predicate Untouched()
      reads base, kids
    {
      && Distinct() && base.error == ""
      && forall i :: 0 <= i < |kids| ==> kids[i].error == "" && kids[i].resultStatus == NoResult
    }

    ghost predicate Holds(states: seq<Snapshot>)
      reads kids
    {
      |states| == |kids| && forall i :: 0 <= i < |kids| ==> kids[i].State() == states[i]
    }

    ghost function States(): seq<Snapshot>
      reads kids
    {
      seq(|kids|, i requires 0 <= i < |kids| reads kids => kids[i].State())
    }
  }

  // ---------------------------------------------------------------- what a run amounts to

  const ControlError := Thrown("pg: transaction control SQL is not allowed inside transaction child queries", "", false)

  const EndedError := Thrown("pg: transaction child query " + "ended the surrounding transaction", "", false)

  /** Query::executeInTransaction and PreparedQuery::executeInTransaction. */
  function ExecuteChild(c: Conn, q: Statement): Executed {
    if IsTransactionControl(q.sql) then Executed(c, Threw(ControlError), []) else RunStatement(c, q)
  }

  datatype Stop = AllRan | ChildThrew(error: Thrown) | ChildEndedIt

  datatype ChildrenRun = ChildrenRun(conn: Conn, ran: seq<seq<StatementResult>>, stop: Stop)

  function StopAfter(e: Executed): Stop {
    if e.outcome.Threw? then ChildThrew(e.outcome.error)
    else if e.conn.server.txn != InTrans then ChildEndedIt
    else AllRan
  }

  /** The first `n` children, stopping at the first that does not leave the transaction open. */
  function RunChildren(c: Conn, qs: seq<Statement>, n: nat): (run: ChildrenRun)
    requires n <= |qs|
    ensures |run.ran| <= n
    ensures run.stop.AllRan? ==> |run.ran| == n
  {
    if n == 0 then ChildrenRun(c, [], AllRan)
    else
      var run := RunChildren(c, qs, n - 1);
      if run.stop.AllRan? then WithChild(run, qs[n - 1]) else run
  }

  function WithChild(run: ChildrenRun, q: Statement): ChildrenRun {
    var e := ExecuteChild(run.conn, q);
    ChildrenRun(e.conn, run.ran + [e.appended], StopAfter(e))
  }

  lemma {:induction false} StoppedStays(c: Conn, qs: seq<Statement>, m: nat, n: nat)
    requires m <= n <= |qs| && !RunChildren(c, qs, m).stop.AllRan?
    ensures RunChildren(c, qs, n) == RunChildren(c, qs, m)
    decreases n
  {
    if m < n { StoppedStays(c, qs, m, n - 1); }
  }

  datatype Verdict =
    | Committed
    | BeginFailed(error: Thrown)
    | ChildFailed(error: Thrown)
    | ChildLost(error: Thrown)
    | ChildEnded
    | CommitFailed(error: Thrown)
    | CommitLost(error: Thrown)

  datatype TxRun = TxRun(conn: Conn, ran: seq<seq<StatementResult>>, verdict: Verdict)

  function CommitVerdict(outcome: Outcome): Verdict {
    if outcome.Returned? then Committed
    else if outcome.error.connection then CommitLost(outcome.error)
    else CommitFailed(outcome.error)
  }

  /** What an exception out of the child loop means; all but a lost connection are rolled back. */
  function StopVerdict(stop: Stop): Verdict
    requires !stop.AllRan?
  {
    if stop.ChildEndedIt? then ChildEnded
    else if stop.error.connection then ChildLost(stop.error)
    else ChildFailed(stop.error)
  }

  /** After the children: COMMIT, ROLLBACK, or nothing on a lost connection. */
  function AfterChildren(run: ChildrenRun): TxRun {
    if run.stop.AllRan? then
      var done := Execute(run.conn, Commit);
      TxRun(done.conn, run.ran, CommitVerdict(done.outcome))
    else
      var v := StopVerdict(run.stop);
      TxRun(if v.ChildLost? then run.conn else Execute(run.conn, Rollback).conn, run.ran, v)
  }

  /** After BEGIN. */
  function RunBody(c: Conn, qs: seq<Statement>): (tx: TxRun)
    ensures |tx.ran| <= |qs|
  {
    AfterChildren(RunChildren(c, qs, |qs|))
  }

  function RunTransaction(c: Conn, qs: seq<Statement>): (tx: TxRun)
    ensures |tx.ran| <= |qs|
  {
    var begun := Execute(c, Begin);
    if begun.outcome.Threw? then TxRun(begun.conn, [], BeginFailed(begun.outcome.error)) else RunBody(begun.conn, qs)
  }

  /** What executeStatement throws. */
  function Cause(v: Verdict): Thrown
    requires !v.Committed?
  {
    match v
    case ChildEnded => EndedError
    case BeginFailed(e) => e
    case ChildFailed(e) => e
    case ChildLost(e) => e
    case CommitFailed(e) => e
    case CommitLost(e) => e
  }

  function OutcomeOf(v: Verdict): Outcome { if v.Committed? then Returned else Threw(Cause(v)) }

  const OutcomeUnknown := "Transaction outcome unknown"
  const CommitUnknown := "Transaction commit outcome unknown"
  const RolledBack := "Transaction rolled back: "

  function ParentError(v: Verdict): string {
    match v
    case Committed => ""
    case ChildLost(e) => OutcomeUnknown + ": " + e.message
    case ChildEnded => OutcomeUnknown + ": child query ended the surrounding transaction"
    case CommitLost(e) => CommitUnknown + ": " + e.message
    case _ => RolledBack + Cause(v).message
  }

  /** What a child is told: note that ChildEnded reads "rolled back" here. */
  function ChildError(v: Verdict): string
    requires !v.Committed?
  {
    match v
    case ChildLost(_) => ParentError(v)
    case CommitLost(_) => ParentError(v)
    case _ => RolledBack + Cause(v).message
  }

  function Settle(kid: Snapshot, status: QueryStatus, resultStatus: ResultStatus, error: string): Snapshot {
    kid.(status := status, resultStatus := resultStatus, error := error, finished := true)
  }

  /** What a child ends as. */
  function ChildSettled(kid: Snapshot, v: Verdict, cancelled: bool): Snapshot {
    if v.Committed? then Settle(kid, Complete, Success, "")
    else if cancelled then Settle(kid, Aborted, NoResult, if v.ChildLost? || v.CommitLost? then ChildError(v) else "")
    else Settle(kid, Complete, Error, ChildError(v))
  }

  function AllSettled(kids: seq<Snapshot>, v: Verdict, cancelled: bool): seq<Snapshot> {
    seq(|kids|, i requires 0 <= i < |kids| => ChildSettled(kids[i], v, cancelled))
  }

  predicate AnyFlag(kids: seq<Snapshot>) { exists i :: 0 <= i < |kids| && kids[i].cancellationRequested }

  /** What the transaction's own data end as; runQuery has the last word on its status. */
  function ParentSettled(base: Snapshot, v: Verdict, flag: bool): Snapshot {
    base.(resultStatus := if v.Committed? then Success else if v.ChildEnded? then base.resultStatus else Error,
          error := ParentError(v), cancellationRequested := flag)
  }

  // ---------------------------------------------------------------- cancellation

  /** The Lua thread's attempts during BEGIN or the only command, during each child, during COMMIT or
      ROLLBACK, and from then on until the Guard is destroyed. */
  datatype Cancels = Cancels(beginning: seq<Attempt>, children: seq<seq<Attempt>>, closing: seq<Attempt>, leaving: seq<Attempt>)

  function DuringChild(cancels: Cancels, i: nat): seq<Attempt> {
    if i < |cancels.children| then cancels.children[i] else []
  }

  /** The transaction's own flag after BEGIN and `n` children. */
  function ParentFlag(cancels: Cancels, n: nat, flag: bool): bool {
    if n == 0 then FlagAfter(cancels.beginning, false, flag)
    else FlagAfter(DuringChild(cancels, n - 1), false, ParentFlag(cancels, n - 1, flag))
  }

  function FlagAtEnd(cancels: Cancels, tx: TxRun, flag: bool): bool {
    var ran := ParentFlag(cancels, |tx.ran|, flag);
    if tx.verdict.BeginFailed? || tx.verdict.ChildLost? then ran else FlagAfter(cancels.closing, false, ran)
  }

  // ---------------------------------------------------------------- the protocol

  predicate OccursAt(s: string, t: string, i: nat) { i + |t| <= |s| && s[i..i + |t|] == t }

  /** `std::string::find` finds something. */
  predicate Contains(s: string, t: string) { exists i: nat :: i <= |s| && OccursAt(s, t, i) }

  lemma StartsContains(s: string, t: string)
    requires t <= s
    ensures Contains(s, t)
  {
    assert OccursAt(s, t, 0);
  }

  function Flagging(base: Snapshot, flag: bool): Snapshot { base.(cancellationRequested := flag) }

  /** A child that ran. */
  function Ran(before: Snapshot, appended: seq<StatementResult>, attempts: seq<Attempt>): Snapshot {
    before.(status := Running, results := before.results + appended,
            cancellationRequested := FlagAfter(attempts, true, before.cancellationRequested))
  }

  /** The children's data when the loop has stopped: those reached have run, the others are as before. */
  function RanStates(before: seq<Snapshot>, ran: seq<seq<StatementResult>>, cancels: Cancels): (s: seq<Snapshot>)
    requires |ran| <= |before|
    ensures |s| == |before|
  {
    if ran == [] then before
    else
      var i := |ran| - 1;
      var s := RanStates(before, ran[..i], cancels);
      s[i := Ran(s[i], ran[i], DuringChild(cancels, i))]
  }

  /** Query::executeInTransaction, which PreparedQuery repeats. */
  method ExecuteQuery(conn: Connection, q: Statement, kid: QueryData) returns (outcome: Outcome)
    requires conn.state.Ready()
    modifies conn, kid`results
    ensures var e := ExecuteChild(old(conn.state), q);
      conn.state == e.conn && outcome == e.outcome && kid.results == old(kid.results) + e.appended
    ensures conn.state.Ready()
  {
    if IsTransactionControl(q.sql) { return Threw(ControlError); }
    outcome := ExecuteParams(conn, q.sql, q.parameters, kid);
  }

  /** The child is marked as running and published, and the attempts at cancelling come in. */
  method PublishChild(active: ActiveQueryState, base: QueryData, kid: QueryData, attempts: seq<Attempt>)
    requires active.Open(base) && base != kid
    modifies active, base, kid
    ensures active.Valid() && active.guarded && active.activeData == base && active.activeAliases == [kid]
    ensures active.mostAliases == AtLeastOne(old(active.mostAliases))
    ensures kid.State() == Ran(old(kid.State()), [], attempts)
    ensures base.State() == Flagging(old(base.State()), FlagAfter(attempts, false, old(base.cancellationRequested)))
  {
    kid.status := Running;
    active.AddAlias(kid);
    assert active.activeAliases == [kid];
    active.Window(attempts);
    assert kid.results + [] == kid.results;
  }

  method RetractChild(active: ActiveQueryState, base: QueryData, kid: QueryData)
    requires active.Valid() && active.guarded && active.activeData == base && active.activeAliases == [kid]
    modifies active`activeAliases
    ensures active.Open(base)
  {
    active.RemoveAlias(kid);
    assert WithoutData([], kid) == [];
  }

  method RunChild(conn: Connection, active: ActiveQueryState, base: QueryData, q: Statement, kid: QueryData,
                  attempts: seq<Attempt>)
    returns (outcome: Outcome)
    requires conn.state.Ready() && active.Open(base) && base != kid
    modifies conn, active, base, kid
    ensures active.Open(base)
    ensures active.mostAliases == AtLeastOne(old(active.mostAliases))
    ensures conn.state.Ready()
    ensures var e := ExecuteChild(old(conn.state), q);
      && conn.state == e.conn && outcome == e.outcome
      && kid.State() == Ran(old(kid.State()), e.appended, attempts)
    ensures base.State() == Flagging(old(base.State()), FlagAfter(attempts, false, old(base.cancellationRequested)))
  {
    ghost var before := kid.State();
    PublishChild(active, base, kid, attempts);
    outcome := ExecuteQuery(conn, q, kid);
    RanAppends(before, ExecuteChild(old(conn.state), q).appended, attempts);
    RetractChild(active, base, kid);
  }

  lemma RanAppends(before: Snapshot, appended: seq<StatementResult>, attempts: seq<Attempt>)
    ensures var ran := Ran(before, [], attempts); ran.(results := ran.results + appended) == Ran(before, appended, attempts)
  {
    assert before.results + [] == before.results;
  }

  /** One turn of the loop in executeInTransaction. */
  method Turn(conn: Connection, active: ActiveQueryState, ptr: TransactionData, i: nat, attempts: seq<Attempt>,
              ghost before: seq<Snapshot>)
    returns (outcome: Outcome)
    requires conn.state.Ready() && active.Open(ptr.base) && ptr.Distinct() && i < |ptr.kids| && ptr.Holds(before)
    modifies conn, active, ptr.base
    modifies ptr.kids[i]
    ensures active.Open(ptr.base)
    ensures active.mostAliases == AtLeastOne(old(active.mostAliases))
    ensures conn.state.Ready()
    ensures var e := ExecuteChild(old(conn.state), ptr.statements[i]);
      && conn.state == e.conn && outcome == OutcomeOfStop(StopAfter(e))
      && ptr.Holds(before[i := Ran(before[i], e.appended, attempts)])
      && ptr.base.State() == AfterLoop(old(ptr.base.State()), StopAfter(e),
                                       FlagAfter(attempts, false, old(ptr.base.cancellationRequested)))
  {
    outcome := RunChild(conn, active, ptr.base, ptr.statements[i], ptr.kids[i], attempts);
    if outcome.Returned? && conn.state.server.txn != InTrans {
      ptr.base.error := ParentError(ChildEnded);
      outcome := Threw(EndedError);
    }
    forall j | 0 <= j < |ptr.kids| && j != i ensures ptr.kids[j].State() == before[j] {
      assert ptr.kids[j] != ptr.kids[i];
    }
  }

  /** Where the loop stands: the children that have run, and all data accordingly. */
  ghost predicate Stands(conn: Connection, ptr: TransactionData, cancels: Cancels, start: Conn, base: Snapshot,
                         before: seq<Snapshot>, run: ChildrenRun, ran: seq<Snapshot>)
    reads conn, ptr.base, ptr.kids
  {
    && |run.ran| <= |ptr.statements| && |before| == |ptr.statements|
    && run == RunChildren(start, ptr.statements, |run.ran|) && conn.state == run.conn && run.conn.Ready()
    && ptr.base.State() == AfterLoop(base, run.stop, ParentFlag(cancels, |run.ran|, base.cancellationRequested))
    && ran == RanStates(before, run.ran, cancels) && ptr.Holds(ran)
  }

  method NextTurn(conn: Connection, active: ActiveQueryState, ptr: TransactionData, cancels: Cancels, i: nat,
                  ghost start: Conn, ghost base: Snapshot, ghost before: seq<Snapshot>, ghost was: ChildrenRun, ghost states: seq<Snapshot>)
    returns (outcome: Outcome, ghost run: ChildrenRun, ghost ran: seq<Snapshot>)
    requires active.Open(ptr.base) && ptr.Distinct() && i == |was.ran| < |ptr.kids| && was.stop.AllRan?
    requires Stands(conn, ptr, cancels, start, base, before, was, states)
    modifies conn, active, ptr.base, ptr.kids
    ensures active.Open(ptr.base) && active.mostAliases == AtLeastOne(old(active.mostAliases))
    ensures |run.ran| == i + 1 && outcome == OutcomeOfStop(run.stop)
    ensures Stands(conn, ptr, cancels, start, base, before, run, ran)
  {
    ghost var appended := ExecuteChild(conn.state, ptr.statements[i]).appended;
    RanStatesStep(before, was.ran, appended, cancels);
    run, ran := RunChildren(start, ptr.statements, i + 1), states[i := Ran(states[i], appended, DuringChild(cancels, i))];
    outcome := Turn(conn, active, ptr, i, DuringChild(cancels, i), states);
  }

  lemma StandsAtStart(conn: Connection, ptr: TransactionData, cancels: Cancels, base: Snapshot, before: seq<Snapshot>)
    requires conn.state.Ready() && ptr.Distinct() && ptr.Holds(before)
    requires ptr.base.State() == Flagging(base, ParentFlag(cancels, 0, base.cancellationRequested))
    ensures Stands(conn, ptr, cancels, conn.state, base, before, RunChildren(conn.state, ptr.statements, 0), before)
  {
  }

  method ExecuteInTransaction(conn: Connection, active: ActiveQueryState, ptr: TransactionData, cancels: Cancels,
                              ghost base: Snapshot, ghost before: seq<Snapshot>)
    returns (outcome: Outcome, ghost run: ChildrenRun, ghost ran: seq<Snapshot>)
    requires conn.state.Ready() && active.Open(ptr.base) && ptr.Distinct() && ptr.Holds(before)
    requires ptr.base.State() == Flagging(base, ParentFlag(cancels, 0, base.cancellationRequested))
    modifies conn, active, ptr.base, ptr.kids
    ensures active.Open(ptr.base)
    ensures active.mostAliases <= AtLeastOne(old(active.mostAliases))
    ensures Stands(conn, ptr, cancels, old(conn.state), base, before, run, ran)
    ensures run == RunChildren(old(conn.state), ptr.statements, |ptr.kids|) && outcome == OutcomeOfStop(run.stop)
  {
    ghost var start := conn.state;
    run, ran, outcome := RunChildren(start, ptr.statements, 0), before, Returned;
    StandsAtStart(conn, ptr, cancels, base, before);
    var i := 0;
    while i < |ptr.kids| && outcome.Returned?
      invariant active.Open(ptr.base) && active.mostAliases <= AtLeastOne(old(active.mostAliases))
      invariant i == |run.ran| && outcome == OutcomeOfStop(run.stop)
      invariant Stands(conn, ptr, cancels, start, base, before, run, ran)
    {
      outcome, run, ran := NextTurn(conn, active, ptr, cancels, i, start, base, before, run, ran);
      i := i + 1;
    }
    if outcome.Threw? {
      StoppedStays(start, ptr.statements, i, |ptr.kids|);
    } else {
      assert i == |ptr.kids|;
    }
  }

  /** The transaction's own data when the child loop has stopped. */
  function AfterLoop(base: Snapshot, stop: Stop, flag: bool): Snapshot {
    base.(error := if stop.ChildEndedIt? then ParentError(ChildEnded) else base.error, cancellationRequested := flag)
  }

  function AtLeastOne(n: nat): nat { if n > 1 then n else 1 }

  function OutcomeOfStop(stop: Stop): Outcome {
    match stop
    case AllRan => Returned
    case ChildThrew(e) => Threw(e)
    case ChildEndedIt => Threw(EndedError)
  }

  lemma RanStatesStep(before: seq<Snapshot>, ran: seq<seq<StatementResult>>, appended: seq<StatementResult>, cancels: Cancels)
    requires |ran| < |before|
    ensures RanStates(before, ran + [appended], cancels) ==
      var s, i := RanStates(before, ran, cancels), |ran|; s[i := Ran(s[i], appended, DuringChild(cancels, i))]
  {
    assert (ran + [appended])[..|ran|] == ran;
  }

  lemma {:induction false} RanStatesAt(before: seq<Snapshot>, ran: seq<seq<StatementResult>>, cancels: Cancels, i: nat)
    requires |ran| <= |before| && i < |before|
    ensures RanStates(before, ran, cancels)[i] ==
      if i < |ran| then Ran(before[i], ran[i], DuringChild(cancels, i)) else before[i]
  {
    if ran != [] { RanStatesAt(before, ran[..|ran| - 1], cancels, i); }
  }

  // ---------------------------------------------------------------- settling the outcome

  /** A child's data and the transaction's when the inner blocks are done. */
  function ChildMarked(kid: Snapshot, v: Verdict): Snapshot {
    if v.Committed? then Settle(kid, Complete, Success, kid.error)
    else if v.ChildLost? || v.CommitLost? then Settle(kid, Complete, Error, ParentError(v))
    else kid
  }

  function ParentMarked(base: Snapshot, v: Verdict, flag: bool): Snapshot {
    base.(resultStatus := if v.Committed? then Success else if v.ChildLost? || v.CommitLost? then Error else base.resultStatus,
          error := if v.ChildLost? || v.CommitLost? || v.ChildEnded? then ParentError(v) else base.error,
          cancellationRequested := flag)
  }

  ghost predicate Marked(ptr: TransactionData, ran: seq<Snapshot>, v: Verdict)
    reads ptr.kids
  {
    |ran| == |ptr.kids| && forall i :: 0 <= i < |ran| ==> ptr.kids[i].State() == ChildMarked(ran[i], v)
  }

  /** The loop of both "outcome unknown" paths. */
  method MarkUnknown(ptr: TransactionData, message: string, ghost v: Verdict, ghost ran: seq<Snapshot>)
    requires ptr.Distinct() && ptr.Holds(ran)
    requires (v.ChildLost? || v.CommitLost?) && message == ParentError(v)
    modifies ptr.kids, ptr.base
    ensures ptr.base.State() == ParentMarked(old(ptr.base.State()), v, old(ptr.base.cancellationRequested))
    ensures Marked(ptr, ran, v)
  {
    ghost var base := ptr.base.State();
    for i := 0 to |ptr.kids|
      invariant ptr.base.State() == base
      invariant forall j :: 0 <= j < |ptr.kids| ==>
        ptr.kids[j].State() == if j < i then ChildMarked(ran[j], v) else ran[j]
    {
      var kid := ptr.kids[i];
      assert forall j :: 0 <= j < |ptr.kids| && j != i ==> ptr.kids[j] != kid;
      kid.resultStatus, kid.status, kid.error, kid.finished := Error, Complete, message, true;
    }
    ptr.base.resultStatus, ptr.base.error := Error, message;
  }

  /** The loop after COMMIT has been acknowledged. */
  method MarkCommitted(ptr: TransactionData, ghost ran: seq<Snapshot>)
    requires ptr.Distinct() && ptr.Holds(ran)
    modifies ptr.kids, ptr.base
    ensures ptr.base.State() == ParentMarked(old(ptr.base.State()), Committed, old(ptr.base.cancellationRequested))
    ensures Marked(ptr, ran, Committed)
  {
    ghost var base := ptr.base.State();
    for i := 0 to |ptr.kids|
      invariant ptr.base.State() == base
      invariant forall j :: 0 <= j < |ptr.kids| ==>
        ptr.kids[j].State() == if j < i then ChildMarked(ran[j], Committed) else ran[j]
    {
      var kid := ptr.kids[i];
      assert forall j :: 0 <= j < |ptr.kids| && j != i ==> ptr.kids[j] != kid;
      kid.resultStatus, kid.status, kid.finished := Success, Complete, true;
    }
    ptr.base.resultStatus := Success;
  }

  /** What the last catch block makes of one child. */
  function Closed(kid: Snapshot, cancelled: bool, what: string): Snapshot {
    if cancelled then Settle(kid, Aborted, NoResult, kid.error)
    else if kid.resultStatus.Error? then kid.(finished := true)
    else Settle(kid, Complete, Error, RolledBack + what)
  }

  function ParentClosed(base: Snapshot, flag: bool, what: string): Snapshot {
    if Contains(base.error, OutcomeUnknown) || Contains(base.error, CommitUnknown) then Flagging(base, flag)
    else Flagging(base, flag).(resultStatus := Error, error := RolledBack + what)
  }

  /** The last catch block: a flag on any child becomes the transaction's flag. */
  method CloseFailed(ptr: TransactionData, what: string, ghost v: Verdict, ghost ran: seq<Snapshot>)
    requires ptr.Distinct() && Marked(ptr, ran, v)
    modifies ptr.kids, ptr.base
    ensures ptr.base.State() == ParentClosed(old(ptr.base.State()), old(ptr.base.cancellationRequested) || AnyFlag(ran), what)
    ensures forall i :: 0 <= i < |ptr.kids| ==>
      ptr.kids[i].State() == Closed(ChildMarked(ran[i], v), old(ptr.base.cancellationRequested) || AnyFlag(ran), what)
  {
    FlagFromChildren(ptr, v, ran);
    ghost var base := ptr.base.State();
    var outcomeUnknown := Contains(ptr.base.error, OutcomeUnknown) || Contains(ptr.base.error, CommitUnknown);
    var cancelled := ptr.base.cancellationRequested;
    for i := 0 to |ptr.kids|
      invariant ptr.base.State() == base
      invariant forall j :: 0 <= j < |ptr.kids| ==>
        ptr.kids[j].State() == var kid := ChildMarked(ran[j], v); if j < i then Closed(kid, cancelled, what) else kid
    {
      var kid := ptr.kids[i];
      assert forall j :: 0 <= j < |ptr.kids| && j != i ==> ptr.kids[j] != kid;
      if cancelled {
        kid.resultStatus, kid.status := NoResult, Aborted;
      } else if kid.resultStatus != Error {
        kid.resultStatus, kid.status, kid.error := Error, Complete, RolledBack + what;
      }
      kid.finished := true;
    }
    if !outcomeUnknown {
      ptr.base.resultStatus, ptr.base.error := Error, RolledBack + what;
    }
  }

  method FlagFromChildren(ptr: TransactionData, ghost v: Verdict, ghost ran: seq<Snapshot>)
    requires ptr.Distinct() && Marked(ptr, ran, v)
    modifies ptr.base
    ensures ptr.base.State() == Flagging(old(ptr.base.State()), old(ptr.base.cancellationRequested) || AnyFlag(ran))
  {
    for i := 0 to |ptr.kids|
      invariant ptr.base.State() == Flagging(old(ptr.base.State()), old(ptr.base.cancellationRequested) || AnyFlag(ran[..i]))
    {
      FlagsGrow(ran, i);
      MarkingKeepsFlag(ran[i], v);
      assert ptr.kids[i].State() == ChildMarked(ran[i], v);
      if ptr.kids[i].cancellationRequested { ptr.base.cancellationRequested := true; }
    }
    assert ran[..|ptr.kids|] == ran;
  }

  lemma MarkingKeepsFlag(kid: Snapshot, v: Verdict)
    ensures ChildMarked(kid, v).cancellationRequested == kid.cancellationRequested
  {
  }

  lemma FlagsGrow(kids: seq<Snapshot>, i: nat)
    requires i < |kids|
    ensures AnyFlag(kids[..i + 1]) <==> AnyFlag(kids[..i]) || kids[i].cancellationRequested
  {
    assert kids[..i + 1] == kids[..i] + [kids[i]];
    assert kids[i].cancellationRequested ==> (kids[..i] + [kids[i]])[i].cancellationRequested;
    if AnyFlag(kids[..i]) {
      var j :| 0 <= j < i && kids[..i][j].cancellationRequested;
      assert kids[..i + 1][j].cancellationRequested;
    }
  }

  // ---------------------------------------------------------------- executeStatement

  /** A protocol command, and the attempts at cancelling the transaction while it runs. */
  method RunCommand(conn: Connection, active: ActiveQueryState, base: QueryData, cmd: Command, attempts: seq<Attempt>)
    returns (outcome: Outcome)
    requires conn.state.Ready() && active.Open(base)
    modifies conn, base
    ensures var e := Execute(old(conn.state), cmd); conn.state == e.conn && outcome == e.outcome
    ensures conn.state.Ready()
    ensures base.State() == Flagging(old(base.State()), FlagAfter(attempts, false, old(base.cancellationRequested)))
  {
    active.Window(attempts);
    outcome := ExecuteCommand(conn, cmd);
  }

  lemma MarkedAfterLoop(base: Snapshot, stop: Stop, flag: bool, last: bool, v: Verdict)
    requires if stop.AllRan? then v.Committed? || v.CommitFailed? || v.CommitLost? else v == StopVerdict(stop)
    ensures ParentMarked(AfterLoop(base, stop, flag), v, last) == ParentMarked(base, v, last)
  {
  }

  /** The handlers around the child loop. */
  method Abandon(conn: Connection, active: ActiveQueryState, ptr: TransactionData, attempts: seq<Attempt>, error: Thrown,
                 ghost ran: seq<Snapshot>, ghost stop: Stop)
    returns (ghost v: Verdict)
    requires conn.state.Ready() && active.Open(ptr.base) && ptr.Distinct() && OutcomeOfStop(stop) == Threw(error)
    requires ptr.Holds(ran) && (stop.ChildEndedIt? ==> ptr.base.error == ParentError(ChildEnded))
    modifies conn, ptr.base, ptr.kids
    ensures conn.state.Ready()
    ensures v == StopVerdict(stop) && OutcomeOf(v) == Threw(error)
    ensures conn.state == if v.ChildLost? then old(conn.state) else Execute(old(conn.state), Rollback).conn
    ensures ptr.base.State() == ParentMarked(old(ptr.base.State()), v,
      if v.ChildLost? then old(ptr.base.cancellationRequested) else FlagAfter(attempts, false, old(ptr.base.cancellationRequested)))
    ensures Marked(ptr, ran, v)
  {
    v := StopVerdict(stop);
    if error.connection {
      MarkUnknown(ptr, OutcomeUnknown + ": " + error.message, v, ran);
    } else {
      var ignored := RunCommand(conn, active, ptr.base, Rollback, attempts);
    }
  }

  /** COMMIT and the handler around it. */
  method Conclude(conn: Connection, active: ActiveQueryState, ptr: TransactionData, attempts: seq<Attempt>, ghost ran: seq<Snapshot>)
    returns (outcome: Outcome, ghost v: Verdict)
    requires conn.state.Ready() && active.Open(ptr.base) && ptr.Distinct() && ptr.Holds(ran)
    modifies conn, ptr.base, ptr.kids
    ensures conn.state.Ready()
    ensures var done := Execute(old(conn.state), Commit); conn.state == done.conn && outcome == done.outcome
    ensures v == CommitVerdict(outcome) && OutcomeOf(v) == outcome
    ensures ptr.base.State() == ParentMarked(old(ptr.base.State()), v, FlagAfter(attempts, false, old(ptr.base.cancellationRequested)))
    ensures Marked(ptr, ran, v)
  {
    outcome := RunCommand(conn, active, ptr.base, Commit, attempts);
    v := CommitVerdict(outcome);
    if outcome.Returned? {
      MarkCommitted(ptr, ran);
    } else if outcome.error.connection {
      MarkUnknown(ptr, CommitUnknown + ": " + outcome.error.message, v, ran);
    }
  }

  /** The blocks after the child loop. */
  method EndProtocol(conn: Connection, active: ActiveQueryState, ptr: TransactionData, attempts: seq<Attempt>, thrown: Outcome,
                     ghost base: Snapshot, ghost run: ChildrenRun, ghost ran: seq<Snapshot>)
    returns (outcome: Outcome)
    requires conn.state == run.conn && run.conn.Ready() && active.Open(ptr.base) && ptr.Distinct() && ptr.Holds(ran)
    requires thrown == OutcomeOfStop(run.stop)
    requires ptr.base.State() == AfterLoop(base, run.stop, ptr.base.cancellationRequested)
    modifies conn, ptr.base, ptr.kids
    ensures var tx := AfterChildren(run);
      && conn.state == tx.conn && conn.state.Ready() && outcome == OutcomeOf(tx.verdict) && Marked(ptr, ran, tx.verdict)
      && ptr.base.State() == ParentMarked(base, tx.verdict,
           if tx.verdict.ChildLost? then old(ptr.base.cancellationRequested)
           else FlagAfter(attempts, false, old(ptr.base.cancellationRequested)))
  {
    ghost var v;
    ghost var flag := ptr.base.cancellationRequested;
    outcome := thrown;
    if outcome.Threw? {
      v := Abandon(conn, active, ptr, attempts, outcome.error, ran, run.stop);
    } else {
      outcome, v := Conclude(conn, active, ptr, attempts, ran);
    }
    MarkedAfterLoop(base, run.stop, flag, ptr.base.cancellationRequested, v);
  }

  /** The blocks inside BEGIN and the last catch. */
  method RunInside(conn: Connection, active: ActiveQueryState, ptr: TransactionData, cancels: Cancels,
                   ghost base: Snapshot, ghost before: seq<Snapshot>)
    returns (outcome: Outcome, ghost tx: TxRun)
    requires conn.state.Ready() && active.Open(ptr.base) && ptr.Distinct() && ptr.Holds(before)
    requires ptr.base.State() == Flagging(base, ParentFlag(cancels, 0, base.cancellationRequested))
    modifies conn, active, ptr.base, ptr.kids
    ensures active.Open(ptr.base)
    ensures active.mostAliases <= AtLeastOne(old(active.mostAliases))
    ensures tx == RunBody(old(conn.state), ptr.statements)
    ensures conn.state == tx.conn && conn.state.Ready() && outcome == OutcomeOf(tx.verdict)
    ensures ptr.base.State() == ParentMarked(base, tx.verdict, FlagAtEnd(cancels, tx, base.cancellationRequested))
    ensures |tx.ran| <= |before| && Marked(ptr, RanStates(before, tx.ran, cancels), tx.verdict)
  {
    ghost var run, ran;
    tx := RunBody(conn.state, ptr.statements);
    outcome, run, ran := ExecuteInTransaction(conn, active, ptr, cancels, base, before);
    outcome := EndProtocol(conn, active, ptr, cancels.closing, outcome, base, run, ran);
    EndFlag(cancels, run, base.cancellationRequested);
  }

  lemma EndFlag(cancels: Cancels, run: ChildrenRun, flag: bool)
    ensures var tx, ran := AfterChildren(run), ParentFlag(cancels, |run.ran|, flag);
      FlagAtEnd(cancels, tx, flag) == if tx.verdict.ChildLost? then ran else FlagAfter(cancels.closing, false, ran)
  {
  }

  /** The outer try block, from BEGIN on. */
  method RunProtocol(conn: Connection, active: ActiveQueryState, ptr: TransactionData, cancels: Cancels,
                     ghost base: Snapshot, ghost before: seq<Snapshot>)
    returns (outcome: Outcome, ghost tx: TxRun)
    requires conn.state.Ready() && active.Open(ptr.base) && ptr.Distinct()
    requires ptr.base.State() == base && ptr.Holds(before)
    modifies conn, active, ptr.base, ptr.kids
    ensures active.Open(ptr.base)
    ensures active.mostAliases <= AtLeastOne(old(active.mostAliases))
    ensures tx == RunTransaction(old(conn.state), ptr.statements)
    ensures conn.state == tx.conn && conn.state.Ready() && outcome == OutcomeOf(tx.verdict)
    ensures ptr.base.State() == ParentMarked(base, tx.verdict, FlagAtEnd(cancels, tx, base.cancellationRequested))
    ensures |tx.ran| <= |before| && Marked(ptr, RanStates(before, tx.ran, cancels), tx.verdict)
  {
    tx := RunTransaction(conn.state, ptr.statements);
    outcome := RunCommand(conn, active, ptr.base, Begin, cancels.beginning);
    if outcome.Returned? {
      outcome, tx := RunInside(conn, active, ptr, cancels, base, before);
    }
  }

  lemma StartsUnknown(v: Verdict)
    requires !v.Committed?
    ensures (Contains(ParentError(v), OutcomeUnknown) || Contains(ParentError(v), CommitUnknown)) || v.BeginFailed? || v.ChildFailed? || v.CommitFailed?
  {
    if v.ChildLost? || v.ChildEnded? {
      StartsContains(ParentError(v), OutcomeUnknown);
    } else if v.CommitLost? {
      StartsContains(ParentError(v), CommitUnknown);
    }
  }

  lemma ParentClosedIsSettled(base: Snapshot, v: Verdict, last: bool, flag: bool)
    requires !v.Committed? && base.error == ""
    ensures ParentClosed(ParentMarked(base, v, last), flag, Cause(v).message) == ParentSettled(base, v, flag)
  {
    StartsUnknown(v);
  }

  predicate Blank(s: Snapshot) { s.error == "" && s.resultStatus == NoResult }

  predicate AllBlank(kids: seq<Snapshot>) { forall i :: 0 <= i < |kids| ==> Blank(kids[i]) }

  lemma ClosedIsSettled(kid: Snapshot, v: Verdict, flag: bool)
    requires Blank(kid)
    ensures ChildSettled(kid, v, flag) ==
      if v.Committed? then ChildMarked(kid, v) else Closed(ChildMarked(kid, v), flag, Cause(v).message)
  {
  }

  lemma RanKeeps(before: seq<Snapshot>, ran: seq<seq<StatementResult>>, cancels: Cancels)
    requires |ran| <= |before| && AllBlank(before)
    ensures AllBlank(RanStates(before, ran, cancels))
  {
    forall i | 0 <= i < |before| ensures Blank(RanStates(before, ran, cancels)[i]) {
      RanStatesAt(before, ran, cancels, i);
    }
  }

  lemma AllClosedAreSettled(kids: seq<Snapshot>, v: Verdict, flag: bool)
    requires AllBlank(kids)
    ensures forall i :: 0 <= i < |kids| ==> (AllSettled(kids, v, flag)[i] ==
      if v.Committed? then ChildMarked(kids[i], v) else Closed(ChildMarked(kids[i], v), flag, Cause(v).message))
  {
    forall i | 0 <= i < |kids| ensures AllSettled(kids, v, flag)[i] ==
      if v.Committed? then ChildMarked(kids[i], v) else Closed(ChildMarked(kids[i], v), flag, Cause(v).message)
    {
      ClosedIsSettled(kids[i], v, flag);
    }
  }

  method ExecuteStatement(conn: Connection, active: ActiveQueryState, ptr: TransactionData, cancels: Cancels)
    returns (outcome: Outcome, ghost tx: TxRun)
    requires conn.state.Ready() && active.Open(ptr.base) && ptr.Untouched()
    modifies conn, active, ptr.base, ptr.kids
    ensures active.Open(ptr.base)
    ensures active.mostAliases <= AtLeastOne(old(active.mostAliases))
    ensures tx == RunTransaction(old(conn.state), ptr.statements)
    ensures conn.state == tx.conn && conn.state.Ready() && outcome == OutcomeOf(tx.verdict)
    ensures var ran := RanStates(old(ptr.States()), tx.ran, cancels);
      var flag := FinalFlag(tx, ran, cancels, old(ptr.base.cancellationRequested));
      && ptr.Holds(AllSettled(ran, tx.verdict, flag))
      && ptr.base.State() == ParentSettled(old(ptr.base.State()), tx.verdict, flag)
  {
    ghost var base, before := ptr.base.State(), ptr.States();
    outcome, tx := RunProtocol(conn, active, ptr, cancels, base, before);
    assert AllBlank(before);
    RanKeeps(before, tx.ran, cancels);
    Close(ptr, outcome, base, tx.verdict, RanStates(before, tx.ran, cancels));
  }

  /** The last catch block, if there is an exception. */
  method Close(ptr: TransactionData, outcome: Outcome, ghost base: Snapshot, ghost v: Verdict, ghost ran: seq<Snapshot>)
    requires ptr.Distinct() && Marked(ptr, ran, v) && AllBlank(ran) && outcome == OutcomeOf(v) && base.error == ""
    requires ptr.base.State() == ParentMarked(base, v, ptr.base.cancellationRequested)
    modifies ptr.base, ptr.kids
    ensures var flag := old(ptr.base.cancellationRequested) || (!v.Committed? && AnyFlag(ran));
      ptr.Holds(AllSettled(ran, v, flag)) && ptr.base.State() == ParentSettled(base, v, flag)
  {
    ghost var last := ptr.base.cancellationRequested;
    ghost var flag := last || (!v.Committed? && AnyFlag(ran));
    AllClosedAreSettled(ran, v, flag);
    if outcome.Threw? {
      CloseFailed(ptr, outcome.error.message, v, ran);
      ParentClosedIsSettled(base, v, last, flag);
    }
  }

  /** The flag the transaction ends with: once it has failed, its own or any child's. */
  function FinalFlag(tx: TxRun, ran: seq<Snapshot>, cancels: Cancels, flag: bool): bool {
    FlagAtEnd(cancels, tx, flag) || (!tx.verdict.Committed? && AnyFlag(ran))
  }
}
