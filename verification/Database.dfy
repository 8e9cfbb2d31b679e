/** One execution on the worker: opening the session, running the query under a guard, and what each
    exception makes of its data (Database::runQuery and attemptReconnect in pg/src/postgres/Database.cpp). */
module Databases {
  import opened QueryTypes
  import opened QueryDatas
  import opened Libpq
  import opened LibpqExecutor
  import opened ActiveQueryStates
  import opened Transactions

  // ---------------------------------------------------------------- the session

  /** What one PQconnectdb finds. */
  datatype Dial = Dial(success: bool, script: seq<Reply>, resets: seq<bool>, error: string)

  /** The connection handle of ConnectionSession and the dials still to come. A lost
      connection keeps the durable state of the database behind it. */
  datatype SessionState = SessionState(handle: bool, conn: Conn, error: string, dials: seq<Dial>) {
    predicate IsOpen() { handle && conn.server.alive }
  }

  /** PQfinish. */
  function Finished(c: Conn): Conn { c.(server := Lost(c.server), unread := []) }

  const NoDial := Dial(false, [], [], "connection refused")

  /** ConnectionSession::connect: the old connection is closed first. */
  function Reconnected(s: SessionState): SessionState {
    var dial := if s.dials == [] then NoDial else s.dials[0];
    var rest := if s.dials == [] then [] else s.dials[1..];
    if dial.success then
      SessionState(true, Finished(s.conn).(server := Server(true, Idle, s.conn.server.committed, []),
                                           script := dial.script, resets := dial.resets), "", rest)
    else SessionState(false, Finished(s.conn), dial.error, rest)
  }

  // ---------------------------------------------------------------- classifying exceptions

  predicate IsUserCancellation(e: Thrown) {
    e.sqlstate == "57014" || Contains(e.message, "canceling statement due to user request")
  }

  predicate IsRetriable(e: Thrown) {
    (|e.sqlstate| >= 2 && e.sqlstate[..2] == "08" && e.sqlstate != "08007") || e.sqlstate == ""
  }

  // ---------------------------------------------------------------- what runQuery amounts to

  datatype Work = Plain(sql: string, multiStatements: bool) | Prepared(statement: Statement) | Transacting(ptr: TransactionData)

  /** The query has run: the connection, the exception if any, and the execution's data. */
  datatype Attempted = Attempted(conn: Conn, outcome: Outcome, data: Snapshot)

  /** A query outside a transaction. */
  function Executing(work: Work, c: Conn): Executed
    requires !work.Transacting?
  {
    match work
    case Plain(sql, multi) => if multi then RunSimple(c, sql) else RunStatement(c, Statement(sql, []))
    case Prepared(s) => RunStatement(c, s)
  }

  function Simply(e: Executed, data: Snapshot, attempts: seq<Attempt>): Attempted {
    Attempted(e.conn, e.outcome,
              data.(results := data.results + e.appended,
                    cancellationRequested := FlagAfter(attempts, false, data.cancellationRequested)))
  }

  /** The flag a transaction ends with. */
  function TxFlag(qs: seq<Statement>, c: Conn, data: Snapshot, kids: seq<Snapshot>, cancels: Cancels): bool
    requires |kids| == |qs|
  {
    var tx := RunTransaction(c, qs);
    FinalFlag(tx, RanStates(kids, tx.ran, cancels), cancels, data.cancellationRequested)
  }

  function PerformAll(qs: seq<Statement>, c: Conn, data: Snapshot, kids: seq<Snapshot>, cancels: Cancels): Attempted
    requires |kids| == |qs|
  {
    var tx := RunTransaction(c, qs);
    Attempted(tx.conn, OutcomeOf(tx.verdict), ParentSettled(data, tx.verdict, TxFlag(qs, c, data, kids, cancels)))
  }

  function KidsAfter(qs: seq<Statement>, c: Conn, data: Snapshot, kids: seq<Snapshot>, cancels: Cancels): seq<Snapshot>
    requires |kids| == |qs|
  {
    var tx := RunTransaction(c, qs);
    AllSettled(RanStates(kids, tx.ran, cancels), tx.verdict, TxFlag(qs, c, data, kids, cancels))
  }

  function Perform(work: Work, c: Conn, data: Snapshot, kids: seq<Snapshot>, cancels: Cancels): Attempted
    requires |kids| == KidCount(work)
  {
    if work.Transacting? then PerformAll(work.ptr.statements, c, data, kids, cancels)
    else Simply(Executing(work, c), data, cancels.beginning)
  }

  function KidsAfterWork(work: Work, c: Conn, data: Snapshot, kids: seq<Snapshot>, cancels: Cancels): seq<Snapshot>
    requires |kids| == KidCount(work)
  {
    if work.Transacting? then KidsAfter(work.ptr.statements, c, data, kids, cancels) else kids
  }

  /** The end of the try block, while the Guard is still alive: a normal return clears the flag and sets the
      result, and attempts to cancel may still come in. */
  function Left(ok: bool, data: Snapshot, attempts: seq<Attempt>): Snapshot {
    data.(cancellationRequested := FlagAfter(attempts, false, !ok && data.cancellationRequested),
          resultStatus := if ok then Success else data.resultStatus)
  }

  function Leaving(a: Attempted, attempts: seq<Attempt>): Attempted {
    a.(data := Left(a.outcome.Returned?, a.data, attempts))
  }

  predicate TakenAsCancelled(outcome: Outcome, data: Snapshot) {
    outcome.Threw? && data.cancellationRequested && IsUserCancellation(outcome.error)
  }

  /** What the catch blocks of runQuery make of the data. */
  function Reported(outcome: Outcome, data: Snapshot): Snapshot {
    if outcome.Returned? then data
    else if TakenAsCancelled(outcome, data) then data.(status := Aborted, resultStatus := NoResult)
    else data.(cancellationRequested := false, resultStatus := Error,
               error := if data.error == "" then outcome.error.message else data.error)
  }

  predicate Reconnects(outcome: Outcome, data: Snapshot, auto: bool) {
    outcome.Threw? && outcome.error.connection && !TakenAsCancelled(outcome, data) && auto && IsRetriable(outcome.error)
  }

  /** The session the query runs on. */
  function Dialled(s: SessionState, auto: bool, shuttingDown: bool): SessionState {
    if !s.IsOpen() && auto && !shuttingDown then Reconnected(s) else s
  }

  function AttemptOn(s: SessionState, work: Work, data: Snapshot, kids: seq<Snapshot>, cancels: Cancels): Attempted
    requires |kids| == KidCount(work)
  {
    if s.IsOpen() then Leaving(Perform(work, s.conn, data, kids, cancels), cancels.leaving)
    else Attempted(s.conn, Threw(Thrown(s.error, "", true)), data)
  }

  function SessionAfter(s: SessionState, a: Attempted, auto: bool, shuttingDown: bool): SessionState {
    var t := s.(conn := a.conn);
    if Reconnects(a.outcome, a.data, auto) && !shuttingDown then Reconnected(t) else t
  }

  class Database {
    const connection: Connection
    const active: ActiveQueryState
    var handle: bool
    var connectionError: string
    var dials: seq<Dial>
    var status: DatabaseStatus
    var shouldAutoReconnect: bool
    var shuttingDown: bool

    ghost predicate Valid()
      reads this, connection, active
    {
      active.Valid() && !active.guarded && connection.state.Ready()
    }

    constructor (start: Conn, dials: seq<Dial>)
      requires start.Ready() && !start.server.alive
      ensures Valid() && fresh(connection) && fresh(active) && active.mostAliases == 0
      ensures Session() == SessionState(false, start, "", dials) && !shuttingDown && shouldAutoReconnect && status == NotConnected
    {
      connection := new Connection(start);
      active := new ActiveQueryState();
      handle, connectionError, this.dials := false, "", dials;
      status, shouldAutoReconnect, shuttingDown := NotConnected, true, false;
    }

    function Session(): SessionState
      reads this, connection
    {
      SessionState(handle, connection.state, connectionError, dials)
    }

    method AttemptReconnect() returns (success: bool)
      requires Valid()
      modifies this`handle, this`connectionError, this`dials, this`status, connection, active
      ensures Valid() && active.mostAliases == old(active.mostAliases)
      ensures success <==> !shuttingDown && Session().IsOpen()
      ensures Session() == if shuttingDown then old(Session()) else Reconnected(old(Session()))
      ensures status == if shuttingDown then old(status) else if success then Connected else ConnectionFailed
    {
      if shuttingDown { return false; }
      active.Clear();
      status := NotConnected;
      success := Connect();
      status := if success then Connected else ConnectionFailed;
    }

    /** ConnectionSession::reset. */
    method Reset()
      requires connection.state.Ready()
      modifies this`handle, connection
      ensures !handle && connection.state == Finished(old(connection.state)) && connection.state.Ready()
    {
      connection.state := connection.state.(server := Lost(connection.state.server), unread := []);
      handle := false;
    }

    /** ConnectionSession::connect. */
    method Connect() returns (success: bool)
      requires connection.state.Ready()
      modifies this`handle, this`connectionError, this`dials, connection
      ensures Session() == Reconnected(old(Session())) && connection.state.Ready()
      ensures success <==> Session().IsOpen()
    {
      Reset();
      if dials == [] {
        connectionError := NoDial.error;
        return false;
      }
      var dial := dials[0];
      dials := dials[1..];
      if !dial.success {
        connectionError := dial.error;
        return false;
      }
      connection.state := connection.state.(server := Server(true, Idle, connection.state.server.committed, []),
                                            script := dial.script, resets := dial.resets);
      handle, connectionError := true, "";
      return true;
    }

    /** Query::executeStatement and PreparedQuery::executeStatement. */
    method ExecuteQuery(work: Work, data: QueryData, attempts: seq<Attempt>) returns (outcome: Outcome)
      requires connection.state.Ready() && active.Open(data) && !work.Transacting?
      modifies connection, data
      ensures connection.state.Ready()
      ensures Attempted(connection.state, outcome, data.State())
           == Simply(Executing(work, old(connection.state)), old(data.State()), attempts)
    {
      active.Window(attempts);
      match work
      case Plain(sql, multi) =>
        if multi {
          outcome := ExecuteSimple(connection, sql, data);
        } else {
          outcome := ExecuteParams(connection, sql, [], data);
        }
      case Prepared(s) =>
        outcome := ExecuteParams(connection, s.sql, s.parameters, data);
    }

    method ExecuteTransaction(ptr: TransactionData, cancels: Cancels, ghost kids: seq<Snapshot>) returns (outcome: Outcome)
      requires connection.state.Ready() && active.Open(ptr.base) && ptr.Untouched() && ptr.Holds(kids)
      modifies connection, active, ptr.base, ptr.kids
      ensures active.Open(ptr.base) && connection.state.Ready()
      ensures active.mostAliases <= AtLeastOne(old(active.mostAliases))
      ensures Attempted(connection.state, outcome, ptr.base.State())
           == PerformAll(ptr.statements, old(connection.state), old(ptr.base.State()), kids, cancels)
      ensures ptr.Holds(KidsAfter(ptr.statements, old(connection.state), old(ptr.base.State()), kids, cancels))
    {
      assert ptr.States() == kids;
      ghost var tx;
      outcome, tx := Transactions.ExecuteStatement(connection, active, ptr, cancels);
    }

    method RunQuery(work: Work, data: QueryData, cancels: Cancels, ghost kids: seq<Snapshot>)
      requires Valid() && Prepares(work, data, kids)
      modifies this`handle, this`connectionError, this`dials, this`status, connection, active, data, Kids(work)
      ensures Valid() && active.mostAliases <= AtLeastOne(old(active.mostAliases))
      ensures var s := Dialled(old(Session()), shouldAutoReconnect, shuttingDown);
        var a := AttemptOn(s, work, old(data.State()), kids, cancels);
        && data.State() == Reported(a.outcome, a.data)
        && Session() == SessionAfter(s, a, shouldAutoReconnect, shuttingDown)
        && KidsHold(work, if s.IsOpen() then KidsAfterWork(work, s.conn, old(data.State()), kids, cancels) else kids)
    {
      var outcome := RunGuarded(work, data, cancels, kids);
      Handle(outcome, data);
    }

    /** The catch blocks of runQuery. */
    method Handle(outcome: Outcome, data: QueryData)
      requires Valid()
      modifies this`handle, this`connectionError, this`dials, this`status, connection, active, data
      ensures Valid() && active.mostAliases == old(active.mostAliases)
      ensures data.State() == Reported(outcome, old(data.State()))
      ensures Session() == if Reconnects(outcome, old(data.State()), shouldAutoReconnect) && !shuttingDown
                           then Reconnected(old(Session())) else old(Session())
    {
      if outcome.Returned? { return; }
      var error := outcome.error;
      if data.cancellationRequested && IsUserCancellation(error) {
        data.status, data.resultStatus := Aborted, NoResult;
        return;
      }
      data.cancellationRequested := false;
      if error.connection && shouldAutoReconnect && IsRetriable(error) {
        var success := AttemptReconnect();
      }
      data.resultStatus := Error;
      if data.error == "" { data.error := error.message; }
    }

    /** The try block of runQuery; the Guard is gone before any handler runs. */
    method RunGuarded(work: Work, data: QueryData, cancels: Cancels, ghost kids: seq<Snapshot>) returns (outcome: Outcome)
      requires Valid() && Prepares(work, data, kids)
      modifies this`handle, this`connectionError, this`dials, this`status, connection, active, data, Kids(work)
      ensures Valid() && active.mostAliases <= AtLeastOne(old(active.mostAliases))
      ensures var s := Dialled(old(Session()), shouldAutoReconnect, shuttingDown);
        var a := AttemptOn(s, work, old(data.State()), kids, cancels);
        && Attempted(connection.state, outcome, data.State()) == a
        && Session() == s.(conn := a.conn)
        && KidsHold(work, if s.IsOpen() then KidsAfterWork(work, s.conn, old(data.State()), kids, cancels) else kids)
    {
      if !Session().IsOpen() {
        var success := false;
        if shouldAutoReconnect { success := AttemptReconnect(); }
        if !success { return Threw(Thrown(connectionError, "", true)); }
      }
      outcome := RunOpen(work, data, cancels, kids);
    }

    /** Each kind of query has its own executeStatement. */
    method ExecuteStatement(work: Work, data: QueryData, cancels: Cancels, ghost kids: seq<Snapshot>) returns (outcome: Outcome)
      requires connection.state.Ready() && active.Open(data) && Prepares(work, data, kids)
      modifies connection, active, data, Kids(work)
      ensures connection.state.Ready() && active.Open(data)
      ensures active.mostAliases <= AtLeastOne(old(active.mostAliases))
      ensures Attempted(connection.state, outcome, data.State())
           == Perform(work, old(connection.state), old(data.State()), kids, cancels)
      ensures KidsHold(work, KidsAfterWork(work, old(connection.state), old(data.State()), kids, cancels))
    {
      if work.Transacting? {
        outcome := ExecuteTransaction(work.ptr, cancels, kids);
      } else {
        outcome := ExecuteQuery(work, data, cancels.beginning);
      }
    }

    method RunOpen(work: Work, data: QueryData, cancels: Cancels, ghost kids: seq<Snapshot>) returns (outcome: Outcome)
      requires Valid() && Prepares(work, data, kids)
      modifies connection, active, data, Kids(work)
      ensures Valid() && active.mostAliases <= AtLeastOne(old(active.mostAliases))
      ensures Attempted(connection.state, outcome, data.State())
           == Leaving(Perform(work, old(connection.state), old(data.State()), kids, cancels), cancels.leaving)
      ensures KidsHold(work, KidsAfterWork(work, old(connection.state), old(data.State()), kids, cancels))
    {
      active.Enter(data);
      outcome := ExecuteStatement(work, data, cancels, kids);
      LeaveGuard(outcome, data, cancels.leaving);
    }

    method LeaveGuard(outcome: Outcome, data: QueryData, attempts: seq<Attempt>)
      requires active.Open(data)
      modifies active, data
      ensures active.Valid() && !active.guarded && active.mostAliases == old(active.mostAliases)
      ensures data.State() == Left(outcome.Returned?, old(data.State()), attempts)
    {
      if outcome.Returned? { data.cancellationRequested, data.resultStatus := false, Success; }
      active.Window(attempts);
      active.Leave();
    }
  }

  function Kids(work: Work): set<QueryData> {
    if work.Transacting? then set kid | kid in work.ptr.kids else {}
  }

  function KidCount(work: Work): nat { if work.Transacting? then |work.ptr.statements| else 0 }

  ghost predicate KidsHold(work: Work, kids: seq<Snapshot>)
    reads Kids(work)
  {
    work.Transacting? ==> work.ptr.Holds(kids)
  }

  /** The data are those of this execution, and `kids` is what its children's data hold. */
  ghost predicate Prepares(work: Work, data: QueryData, kids: seq<Snapshot>)
    reads data, Kids(work)
  {
    |kids| == KidCount(work) && KidsHold(work, kids) && (work.Transacting? ==> work.ptr.base == data && work.ptr.Untouched())
  }
}
