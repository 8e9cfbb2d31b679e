/** Sending a command and draining its results (pg/src/postgres/LibpqExecutor.cpp). */
module LibpqExecutor {
  import opened QueryTypes
  import opened QueryDatas
  import opened Libpq

  /** A PGException, or with `connection` a PGConnectionException. */
  datatype Thrown = Thrown(message: string, sqlstate: string, connection: bool)

  datatype Outcome = Returned | Threw(error: Thrown)

  predicate ContainsNul(s: string) { '\0' in s }

  const NulError := Thrown("pg: SQL strings cannot contain embedded NUL bytes", "", false)

  const CopyError := Thrown("pg: COPY queries are not supported through db:query(); connection was reset", "", true)

  function ConnectionError(c: Conn): Thrown { Thrown(c.message, "", true) }

  /** The exception a failed result becomes: a connection exception exactly when the
      connection is bad or the SQLSTATE is of class 08. */
  function ResultError(r: PGresult, fallback: string): (e: Thrown)
    ensures e.connection <==> r.bad || (r.sqlstate.Some? && "08" <= r.sqlstate.value)
    ensures e.message == "" ==> fallback == ""
  {
    var state := if r.sqlstate.Some? then r.sqlstate.value else "";
    Thrown(if r.message != "" then r.message else fallback, state, r.bad || (|state| >= 2 && state[..2] == "08"))
  }

  // ---------------------------------------------------------------- what a drain amounts to

  /** The position of the first result that is not a success. */
  function FirstFailure(results: seq<PGresult>): (k: nat)
    ensures k <= |results| && AllSucceed(results[..k])
    ensures k < |results| ==> !IsSuccess(results[k])
  {
    if results == [] || !IsSuccess(results[0]) then 0
    else
      var k := 1 + FirstFailure(results[1..]);
      assert forall i :: 0 < i < k ==> results[i] == results[1..][..k - 1][i - 1];
      k
  }

  function Payloads(results: seq<PGresult>): (p: seq<StatementResult>)
    ensures |p| == |results| && forall i :: 0 <= i < |p| ==> p[i] == results[i].payload
  {
    seq(|results|, i requires 0 <= i < |results| => results[i].payload)
  }

  /** What is appended to the execution: the results before the first failure. */
  function Appended(results: seq<PGresult>): seq<StatementResult> {
    Payloads(results[..FirstFailure(results)])
  }

  function DrainOutcome(c: Conn): Outcome {
    var k := FirstFailure(c.unread);
    if k == |c.unread| then (if c.server.alive then Returned else Threw(ConnectionError(c)))
    else if IsCopy(c.unread[k]) then Threw(CopyError)
    else Threw(ResultError(c.unread[k], c.message))
  }

  /** The results are read off; a COPY result resets the connection. */
  function Drained(c: Conn): Conn {
    var k := FirstFailure(c.unread);
    if k < |c.unread| && IsCopy(c.unread[k]) then Resetting(c) else c.(unread := [])
  }

  /** A command from send to drained: the connection it leaves, how it ends, what it appends. */
  datatype Executed = Executed(conn: Conn, outcome: Outcome, appended: seq<StatementResult>)

  function Execute(c: Conn, cmd: Command): Executed {
    var sent := Sending(c, cmd);
    if !NextReply(c, cmd).accepted then Executed(sent, Threw(ConnectionError(sent)), [])
    else Executed(Drained(sent), DrainOutcome(sent), Appended(sent.unread))
  }

  function RunStatement(c: Conn, s: Statement): Executed {
    if ContainsNul(s.sql) then Executed(c, Threw(NulError), []) else Execute(c, Single(s))
  }

  function RunSimple(c: Conn, sql: string): Executed {
    if ContainsNul(sql) then Executed(c, Threw(NulError), []) else Execute(c, Simple(sql))
  }

  // ---------------------------------------------------------------- the executor

  function Target(data: QueryData?): set<QueryData> { if data == null then {} else {data} }

  method DrainResults(conn: Connection, data: QueryData?) returns (outcome: Outcome)
    requires conn.state.server.Valid()
    modifies conn, Target(data)`results
    ensures outcome == DrainOutcome(old(conn.state))
    ensures conn.state == Drained(old(conn.state)) && conn.state.Ready()
    ensures data != null ==> data.results == old(data.results) + Appended(old(conn.state.unread))
  {
    ghost var start := conn.state;
    ghost var i := 0;
    var result := conn.PQgetResult();
    while result.Some?
      invariant i <= |start.unread| && AllSucceed(start.unread[..i])
      invariant result == if i < |start.unread| then Some(start.unread[i]) else None
      invariant conn.state == start.(unread := Rest(start.unread, i))
      invariant data != null ==> data.results == old(data.results) + Payloads(start.unread[..i])
      decreases |start.unread| - i
    {
      var r := result.value;
      if !IsSuccess(r) {
        FirstFailureIs(start.unread, i);
        outcome := StopDrain(conn, r);
        return;
      }
      PayloadsGrow(start.unread, i);
      RestStep(start.unread, i);
      i := i + 1;
      result := KeepResult(conn, data, r);
    }
    FirstFailureIs(start.unread, i);
    if !conn.state.server.alive {
      return Threw(ConnectionError(conn.state));
    }
    return Returned;
  }

  /** A success is appended, and the next result read. */
  method KeepResult(conn: Connection, data: QueryData?, r: PGresult) returns (result: Option<PGresult>)
    modifies conn, Target(data)`results
    ensures result == if old(conn.state).unread == [] then None else Some(old(conn.state).unread[0])
    ensures conn.state == if result == None then old(conn.state) else old(conn.state).(unread := old(conn.state).unread[1..])
    ensures data != null ==> data.results == old(data.results) + [r.payload]
  {
    if data != null { data.AddStatementResult(r.payload); }
    result := conn.PQgetResult();
  }

  /** The two ends of the loop: a COPY result resets the connection, any other failure is thrown. */
  method StopDrain(conn: Connection, r: PGresult) returns (outcome: Outcome)
    requires !IsSuccess(r)
    modifies conn
    ensures outcome == Threw(if IsCopy(r) then CopyError else ResultError(r, old(conn.state).message))
    ensures conn.state == if IsCopy(r) then Resetting(old(conn.state)) else old(conn.state).(unread := [])
  {
    if IsCopy(r) {
      conn.PQreset();
      return Threw(CopyError);
    }
    outcome := ThrowResultError(conn, r);
    DiscardRest(conn);
  }

  /** The loop after a failed result: what is left is read and thrown away. */
  method DiscardRest(conn: Connection)
    modifies conn
    ensures conn.state == old(conn.state).(unread := [])
  {
    var result := conn.PQgetResult();
    while result.Some?
      invariant conn.state == old(conn.state).(unread := conn.state.unread)
      invariant result == None ==> conn.state.unread == []
      decreases result.Some?, |conn.state.unread|
    {
      result := conn.PQgetResult();
    }
  }

  /** What is unread once result number `i` has been fetched. */
  function Rest(results: seq<PGresult>, i: nat): seq<PGresult>
    requires i <= |results|
  {
    if i < |results| then results[i + 1..] else []
  }

  lemma RestStep(results: seq<PGresult>, i: nat)
    requires i < |results|
    ensures var rest := Rest(results, i);
      if i + 1 == |results| then rest == [] && Rest(results, i + 1) == []
      else rest != [] && rest[0] == results[i + 1] && rest[1..] == Rest(results, i + 1)
  {
  }

  lemma PayloadsGrow(results: seq<PGresult>, i: nat)
    requires i < |results| && AllSucceed(results[..i]) && IsSuccess(results[i])
    ensures AllSucceed(results[..i + 1])
    ensures Payloads(results[..i + 1]) == Payloads(results[..i]) + [results[i].payload]
  {
    assert results[..i + 1] == results[..i] + [results[i]];
  }

  lemma FirstFailureIs(results: seq<PGresult>, k: nat)
    requires k <= |results| && AllSucceed(results[..k])
    requires k < |results| ==> !IsSuccess(results[k])
    ensures FirstFailure(results) == k && Appended(results) == Payloads(results[..k])
  {
    var f := FirstFailure(results);
    forall i | 0 <= i < k ensures IsSuccess(results[i]) { assert IsSuccess(results[..k][i]); }
    forall i | 0 <= i < f ensures IsSuccess(results[i]) { assert IsSuccess(results[..f][i]); }
  }

  method ThrowResultError(conn: Connection, r: PGresult) returns (outcome: Outcome)
    ensures outcome == Threw(ResultError(r, conn.state.message))
  {
    var error := if r.message != "" then r.message else conn.state.message;
    var state := if r.sqlstate.Some? then r.sqlstate.value else "";
    if r.bad || (|state| >= 2 && state[..2] == "08") {
      return Threw(Thrown(error, state, true));
    }
    return Threw(Thrown(error, state, false));
  }

  method ExecuteCommand(conn: Connection, cmd: Command) returns (outcome: Outcome)
    requires conn.state.Ready()
    modifies conn
    ensures var e := Execute(old(conn.state), cmd); conn.state == e.conn && outcome == e.outcome
    ensures conn.state.Ready()
  {
    var accepted := conn.PQsend(cmd);
    if !accepted { return Threw(ConnectionError(conn.state)); }
    outcome := DrainResults(conn, null);
  }

  method ExecuteSimple(conn: Connection, sql: string, data: QueryData) returns (outcome: Outcome)
    requires conn.state.Ready()
    modifies conn, data`results
    ensures var e := RunSimple(old(conn.state), sql);
            conn.state == e.conn && outcome == e.outcome && data.results == old(data.results) + e.appended
    ensures conn.state.Ready()
  {
    if ContainsNul(sql) { return Threw(NulError); }
    var accepted := conn.PQsend(Simple(sql));
    if !accepted { return Threw(ConnectionError(conn.state)); }
    outcome := DrainResults(conn, data);
  }

  /** The parameters are passed on in order, as text, NULL as NULL. */
  method ExecuteParams(conn: Connection, sql: string, parameters: seq<Option<string>>, data: QueryData)
    returns (outcome: Outcome)
    requires conn.state.Ready()
    modifies conn, data`results
    ensures var e := RunStatement(old(conn.state), Statement(sql, parameters));
            conn.state == e.conn && outcome == e.outcome && data.results == old(data.results) + e.appended
    ensures conn.state.Ready()
  {
    if ContainsNul(sql) { return Threw(NulError); }
    var values, lengths, formats := [], [], [];
    for i := 0 to |parameters|
      invariant values == parameters[..i] && |lengths| == i && |formats| == i
      invariant forall k :: 0 <= k < i ==> formats[k] == 0
    {
      if parameters[i].None? {
        values, lengths := values + [None], lengths + [0];
      } else {
        values, lengths := values + [parameters[i]], lengths + [|parameters[i].value|];
      }
      formats := formats + [0];
    }
    assert values == parameters;
    var accepted := conn.PQsendQueryParams(sql, values, lengths, formats);
    if !accepted { return Threw(ConnectionError(conn.state)); }
    outcome := DrainResults(conn, data);
  }

  // ---------------------------------------------------------------- laws

  /** However a command ends, nothing is left unread, so the next send is legal. */
  lemma ExecuteLeavesReady(c: Conn, cmd: Command)
    requires c.Ready()
    ensures Execute(c, cmd).conn.Ready()
  {
    NextReplyPlausible(c, cmd);
  }

  /** Exactly the payloads before the first failure are appended, in order. */
  lemma AppendedExactly(results: seq<PGresult>, k: nat)
    requires k <= |results|
    ensures |Appended(results)| == k <==>
      (forall i :: 0 <= i < k ==> IsSuccess(results[i])) && (k < |results| ==> !IsSuccess(results[k]))
    ensures |Appended(results)| == k ==> forall i :: 0 <= i < k ==> Appended(results)[i] == results[i].payload
  {
    var f := FirstFailure(results);
    forall i | 0 <= i < f ensures IsSuccess(results[i]) { assert IsSuccess(results[..f][i]); }
    if forall i :: 0 <= i < k ==> IsSuccess(results[i]) {
      if k < |results| && !IsSuccess(results[k]) { FirstFailureIs(results, k); }
    }
  }

  /** A command returns normally exactly when it was accepted, every result is a success and the
      connection survived; any other end is an exception. */
  lemma ReturnsExactly(c: Conn, cmd: Command)
    ensures Execute(c, cmd).outcome == Returned <==>
      var reply := NextReply(c, cmd); reply.accepted && AllSucceed(reply.results) && reply.after.alive
  {
    var reply := NextReply(c, cmd);
    var k := FirstFailure(reply.results);
    assert reply.results[..|reply.results|] == reply.results;
  }

  // ---------------------------------------------------------------- the same, in terms of the reply alone

  /** The reply has no result but these three kinds of success before `k`, and another one at `k`. */
  predicate FailsFirstAt(reply: Reply, k: nat) {
    && k < |reply.results|
    && (forall i :: 0 <= i < k ==> reply.results[i].status in {CommandOk, TuplesOk, EmptyQuery})
    && reply.results[k].status !in {CommandOk, TuplesOk, EmptyQuery}
  }

  predicate NeverFails(reply: Reply) {
    forall i :: 0 <= i < |reply.results| ==> reply.results[i].status in {CommandOk, TuplesOk, EmptyQuery}
  }

  /** The payloads of the first `k` results are appended, and nothing else. */
  predicate AppendsFirst(appended: seq<StatementResult>, reply: Reply, k: nat) {
    k <= |reply.results| && |appended| == k && forall i :: 0 <= i < k ==> appended[i] == reply.results[i].payload
  }

  /** A command that is not stopped by a failed result. One that was not accepted or that lost its connection
      throws a connection exception with the connection's message and no SQLSTATE. */
  lemma EndsExactly(c: Conn, cmd: Command)
    ensures var e, reply := Execute(c, cmd), NextReply(c, cmd);
      && e.conn.sent == (if reply.accepted then c.sent + [cmd] else c.sent)
      && (!reply.accepted ==> e.appended == [] && e.outcome == Threw(Thrown(reply.message, "", true)))
      && (reply.accepted && NeverFails(reply) ==>
            && AppendsFirst(e.appended, reply, |reply.results|)
            && e.outcome == if reply.after.alive then Returned else Threw(Thrown(reply.message, "", true)))
  {
    var reply := NextReply(c, cmd);
    if reply.accepted && NeverFails(reply) {
      assert reply.results[..|reply.results|] == reply.results;
      FirstFailureIs(reply.results, |reply.results|);
    }
  }

  /** A command stopped by a failed result appends what came before it. A COPY result is refused as such and the
      connection reset; of any other the exception has the SQLSTATE, and the message unless it is empty. */
  lemma StopsExactly(c: Conn, cmd: Command, k: nat)
    requires NextReply(c, cmd).accepted && FailsFirstAt(NextReply(c, cmd), k)
    ensures var e, reply, r := Execute(c, cmd), NextReply(c, cmd), NextReply(c, cmd).results[k];
      && AppendsFirst(e.appended, reply, k) && e.outcome.Threw?
      && if r.status in {CopyIn, CopyOut, CopyBoth} then
           && e.outcome.error == Thrown("pg: COPY queries are not supported through db:query(); connection was reset", "", true)
           && (e.conn.server.alive <==> c.resets != [] && c.resets[0]) && e.conn.server.pending == []
         else
           && e.conn.server == reply.after
           && e.outcome.error.sqlstate == (match r.sqlstate case Some(state) => state case None => "")
           && e.outcome.error.message == (if r.message == "" then reply.message else r.message)
           && (e.outcome.error.connection <==> r.bad || "08" <= e.outcome.error.sqlstate)
  {
    var results := NextReply(c, cmd).results;
    forall i | 0 <= i < k ensures IsSuccess(results[..k][i]) { assert IsSuccess(results[i]); }
    FirstFailureIs(results, k);
  }
}
