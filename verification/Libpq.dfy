/** The part of libpq the executor talks to, and the server behind it. Neither is the
    repository's own code: the server answers from a script, and an answer the PostgreSQL
    documentation rules out is read as a lost connection. So a statement about every script
    is a statement about every server that keeps to the rules in `Follows`. */
module Libpq {
  import opened QueryTypes
  import opened QueryDatas

  datatype TransactionStatus = Idle | InTrans | InError | Unknown

  /** A parameter is NULL or text. */
  datatype Statement = Statement(sql: string, parameters: seq<Option<string>>)

  /** What goes out on one send. `Simple` may hold several statements separated by semicolons. */
  datatype Command = Begin | Commit | Rollback | Single(statement: Statement) | Simple(sql: string)

  datatype ExecStatus = CommandOk | TuplesOk | EmptyQuery | CopyIn | CopyOut | CopyBoth | BadResponse | NonfatalError | FatalError

  /** `bad` is what PQstatus says of the connection when this result has been read. */
  datatype PGresult = PGresult(status: ExecStatus, payload: StatementResult,
                               sqlstate: Option<string>, message: string, bad: bool)

  predicate IsSuccess(r: PGresult) { r.status.CommandOk? || r.status.TuplesOk? || r.status.EmptyQuery? }

  predicate IsCopy(r: PGresult) { r.status.CopyIn? || r.status.CopyOut? || r.status.CopyBoth? }

  predicate AllSucceed(results: seq<PGresult>) { forall i :: 0 <= i < |results| ==> IsSuccess(results[i]) }

  /** The server itself reported an error: it came over a connection that was still good. */
  predicate Refused(results: seq<PGresult>) { exists i :: 0 <= i < |results| && !IsSuccess(results[i]) && !results[i].bad }

  /** One session: the statements made durable so far, and those of the open transaction. */
  datatype Server = Server(alive: bool, txn: TransactionStatus, committed: seq<Statement>, pending: seq<Statement>) {
    predicate Valid() {
      && (alive <==> txn != Unknown)
      && (txn.Unknown? || txn.Idle? ==> pending == [])
    }
  }

  /** A lost session: the server throws the open transaction away. */
  function Lost(s: Server): Server { Server(false, Unknown, s.committed, []) }

  datatype Reply = Reply(accepted: bool, results: seq<PGresult>, after: Server, message: string)

  /** The answers the PostgreSQL documentation allows to a command a live server received.
      With `hidden`, a statement may commit although it fails or leaves a transaction open, as
      COMMIT AND CHAIN does. */
  predicate Follows(hidden: bool, cmd: Command, before: Server, reply: Reply) {
    var after, ok := reply.after, AllSucceed(reply.results);
    match cmd
    case Begin =>
      && after.committed == before.committed
      && (after.alive && before.txn.InError? ==> !ok)
      && (after.alive ==> after == if ok && before.txn.Idle? then before.(txn := InTrans) else before)
    case Commit =>
      && (after.alive && ok && before.txn.InTrans? ==>
            after == Server(true, Idle, before.committed + before.pending, []))
      && (after.alive && ok ==> after.txn.Idle?)
      && (after.alive && !(ok && before.txn.InTrans?) ==> after.committed == before.committed)
      && (!after.alive ==> after.committed == before.committed
                           || (before.txn.InTrans? && !Refused(reply.results)
                               && after.committed == before.committed + before.pending))
    case Rollback =>
      && after.committed == before.committed
      && (after.alive ==> after.txn.Idle?)
    case Single(s) =>
      && before.committed <= after.committed
      && (before.txn.InTrans? && !hidden ==>
            && (!ok || !after.alive || after.txn.InTrans? ==> after.committed == before.committed)
            && (ok && after.txn.InTrans? ==> after.pending == before.pending + [s]))
    case Simple(_) => before.committed <= after.committed
  }

  predicate Plausible(hidden: bool, cmd: Command, before: Server, reply: Reply) {
    && reply.after.Valid()
    && (forall i :: 0 <= i < |reply.results| && reply.results[i].bad ==> !reply.after.alive)
    && if !before.alive then !reply.accepted && reply.after == before
       else if !reply.accepted then reply.after == before || reply.after == Lost(before)
       else Follows(hidden, cmd, before, reply)
  }

  /** A connection, with the answers and the outcomes of PQreset still to come. */
  datatype Conn = Conn(server: Server, unread: seq<PGresult>, message: string, sent: seq<Command>,
                       script: seq<Reply>, resets: seq<bool>, hidden: bool) {
    predicate Ready() { server.Valid() && unread == [] }
  }

  function NextReply(c: Conn, cmd: Command): Reply {
    if c.script != [] && Plausible(c.hidden, cmd, c.server, c.script[0]) then c.script[0]
    else Reply(c.server.alive, [], Lost(c.server), "connection lost")
  }

  lemma NextReplyPlausible(c: Conn, cmd: Command)
    requires c.server.Valid()
    ensures Plausible(c.hidden, cmd, c.server, NextReply(c, cmd))
  {
  }

  function Sending(c: Conn, cmd: Command): Conn {
    var reply := NextReply(c, cmd);
    c.(server := reply.after,
       unread := if reply.accepted then reply.results else c.unread,
       message := reply.message,
       sent := if reply.accepted then c.sent + [cmd] else c.sent,
       script := if c.script == [] then [] else c.script[1..])
  }

  function Resetting(c: Conn): Conn {
    c.(server := if c.resets != [] && c.resets[0] then Server(true, Idle, c.server.committed, []) else Lost(c.server),
       unread := [],
       resets := if c.resets == [] then [] else c.resets[1..])
  }

  /** A PGconn object. */
  class Connection {
    var state: Conn

    constructor (start: Conn)
      ensures state == start
    {
      state := start;
    }

    /** Section 34.4 of the PostgreSQL documentation forbids a send before PQgetResult has
        announced the end of the results, hence the precondition. */
    method PQsend(cmd: Command) returns (accepted: bool)
      requires state.Ready()
      modifies this
      ensures accepted == NextReply(old(state), cmd).accepted
      ensures state == Sending(old(state), cmd) && state.server.Valid()
    {
      NextReplyPlausible(state, cmd);
      accepted := NextReply(state, cmd).accepted;
      state := Sending(state, cmd);
    }

    /** The parameters of a statement, as text; the lengths of text parameters are ignored. */
    method PQsendQueryParams(sql: string, values: seq<Option<string>>, lengths: seq<int>, formats: seq<int>) returns (accepted: bool)
      requires state.Ready() && |lengths| == |values| && |formats| == |values|
      requires forall i :: 0 <= i < |formats| ==> formats[i] == 0
      modifies this
      ensures accepted == NextReply(old(state), Single(Statement(sql, values))).accepted
      ensures state == Sending(old(state), Single(Statement(sql, values))) && state.server.Valid()
    {
      accepted := PQsend(Single(Statement(sql, values)));
    }

    method PQgetResult() returns (result: Option<PGresult>)
      modifies this
      ensures result == if old(state).unread == [] then None else Some(old(state).unread[0])
      ensures state == if result == None then old(state) else old(state).(unread := old(state).unread[1..])
    {
      if state.unread == [] { return None; }
      result := Some(state.unread[0]);
      state := state.(unread := state.unread[1..]);
    }

    method PQreset()
      modifies this
      ensures state == Resetting(old(state))
    {
      state := Resetting(state);
    }
  }
}
