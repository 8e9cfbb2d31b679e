/** What one call of runQuery reports, sends and leaves, said of the server's reply and of the dial alone. */
module QueryTheorems {
  import opened QueryTypes
  import opened QueryDatas
  import opened Libpq
  import opened LibpqExecutor
  import opened ActiveQueryStates
  import opened Transactions
  import opened Databases
  import opened DatabaseTheorems

  // ---------------------------------------------------------------- the handlers

  /** Some part of the message is the text the server sends with a cancellation. */
  ghost predicate SaysCancelled(message: string) {
    exists before, after :: message == before + "canceling statement due to user request" + after
  }

  ghost predicate IsCancellation(e: Thrown) { e.sqlstate == "57014" || SaysCancelled(e.message) }

  /** A lost connection, by its class or without any SQLSTATE, but not one lost while the outcome was being decided. */
  predicate IsLostConnection(e: Thrown) {
    e.connection && (e.sqlstate == "" || ("08" <= e.sqlstate && e.sqlstate != "08007"))
  }

  lemma SaysCancelledExactly(message: string)
    ensures Contains(message, "canceling statement due to user request") <==> SaysCancelled(message)
  {
    var t := "canceling statement due to user request";
    if Contains(message, t) {
      var i: nat :| i <= |message| && OccursAt(message, t, i);
      assert message == message[..i] + t + message[i + |t|..];
    }
    if SaysCancelled(message) {
      var before, after :| message == before + t + after;
      assert message[|before|..|before| + |t|] == t;
      assert OccursAt(message, t, |before|);
    }
  }

  lemma CancellationExactly(e: Thrown)
    ensures IsUserCancellation(e) <==> IsCancellation(e)
  {
    SaysCancelledExactly(e.message);
  }

  /** Every exception ends an execution in one of two ways: ABORTED without a result when its flag is up and the
      exception is the cancellation, and otherwise with ERROR, the flag down, and the exception's text unless there is
      one already. Only a lost connection that is not taken as a cancellation is dialled again, once. */
  lemma HandlerExactly(s: SessionState, a: Attempted, auto: bool, shuttingDown: bool)
    requires a.outcome.Threw?
    ensures var e, t := Reported(a.outcome, a.data), SessionAfter(s, a, auto, shuttingDown);
      var cancelled := a.data.cancellationRequested && IsCancellation(a.outcome.error);
      && (cancelled ==> e == a.data.(status := Aborted, resultStatus := NoResult))
      && (!cancelled ==> e == a.data.(resultStatus := Error, cancellationRequested := false,
                                      error := if a.data.error == "" then a.outcome.error.message else a.data.error))
      && (if !cancelled && IsLostConnection(a.outcome.error) && auto && !shuttingDown then DialsOnce(s.(conn := a.conn), t)
          else t == s.(conn := a.conn))
  {
    CancellationExactly(a.outcome.error);
  }

  /** One attempt to connect has been made: the old session is gone and what was open in it lost, what was durable
      has stayed, and there is a fresh idle session exactly when the attempt succeeded. */
  predicate DialsOnce(s: SessionState, t: SessionState) {
    && t.dials == (if s.dials == [] then [] else s.dials[1..])
    && (t.IsOpen() <==> s.dials != [] && s.dials[0].success)
    && t.conn.server.committed == s.conn.server.committed && t.conn.server.pending == [] && t.conn.unread == []
    && t.conn.sent == s.conn.sent && t.conn.hidden == s.conn.hidden
    && (t.IsOpen() ==> t.conn.server.txn == Idle && t.conn.script == s.dials[0].script && t.conn.resets == s.dials[0].resets && t.error == "")
    && (!t.IsOpen() && s.dials != [] ==> t.error == s.dials[0].error)
  }

  // ---------------------------------------------------------------- before the query

  /** An open session is used as it is. A closed one is dialled once when automatic reconnection is on and the database
      is not shutting down, and is left alone otherwise. */
  lemma DialledExactly(s: SessionState, auto: bool, shuttingDown: bool)
    ensures var t := Dialled(s, auto, shuttingDown);
      if s.IsOpen() || !auto || shuttingDown then t == s else DialsOnce(s, t)
  {
  }

  /** Without a session nothing is sent, and the execution ends with ERROR and the text of the failed connection. */
  lemma NoSessionNoQuery(s: SessionState, work: Work, data: Snapshot, kids: seq<Snapshot>, cancels: Cancels)
    requires |kids| == KidCount(work) && !s.IsOpen() && !data.cancellationRequested && data.error == ""
    ensures AttemptOn(s, work, data, kids, cancels).conn == s.conn
    ensures Ended(s, work, data, kids, cancels) == data.(resultStatus := Error, error := s.error)
  {
  }

  /** A dial that fails before the query is repeated once by the handler: the execution ends with ERROR and the first
      failure's text, and the session it leaves is the one of the second attempt, open or not. */
  lemma FailedDialIsRepeated(s: SessionState, work: Work, data: Snapshot, kids: seq<Snapshot>, cancels: Cancels)
    requires |kids| == KidCount(work) && !s.IsOpen() && !data.cancellationRequested && data.error == ""
    requires !Dialled(s, true, false).IsOpen()
    ensures var o := Dialled(s, true, false);
      var t := SessionAfter(o, AttemptOn(o, work, data, kids, cancels), true, false);
      && DialsOnce(s, o) && DialsOnce(o, t)
      && Ended(o, work, data, kids, cancels) == data.(resultStatus := Error, error := o.error)
  {
    DialledExactly(s, true, false);
    var o := Dialled(s, true, false);
    NoSessionNoQuery(o, work, data, kids, cancels);
    HandlerExactly(o, AttemptOn(o, work, data, kids, cancels), true, false);
  }

  // ---------------------------------------------------------------- a query outside a transaction

  /** The one command it is: all statements of a text at once by the setting, otherwise a single statement. */
  function OwnCommand(work: Work): Command
    requires !work.Transacting?
  {
    match work
    case Plain(sql, true) => Simple(sql)
    case Plain(sql, false) => Single(Statement(sql, []))
    case Prepared(statement) => Single(statement)
  }

  function Text(work: Work): string
    requires !work.Transacting?
  {
    if work.Plain? then work.sql else work.statement.sql
  }

  function Reply(s: SessionState, work: Work): Reply
    requires !work.Transacting?
  {
    NextReply(s.conn, OwnCommand(work))
  }

  /** The query was accepted, all its results are successes, and the connection survived. */
  predicate Answered(s: SessionState, work: Work)
    requires !work.Transacting?
  {
    '\0' !in Text(work) && Reply(s, work).accepted && NeverFails(Reply(s, work)) && Reply(s, work).after.alive
  }

  /** The data are those of an execution that has not ended. */
  predicate Undecided(data: Snapshot) { data.status == Running && data.resultStatus == NoResult && data.error == "" }

  lemma OwnCommandExecuted(s: SessionState, work: Work)
    requires !work.Transacting?
    ensures Executing(work, s.conn) ==
      if '\0' in Text(work) then Executed(s.conn, Threw(Thrown("pg: SQL strings cannot contain embedded NUL bytes", "", false)), [])
      else Execute(s.conn, OwnCommand(work))
  {
  }

  /** SUCCESS is reported exactly for a query that was answered. Then exactly its command was sent, its results are the
      payloads of the reply, and the session is as the server left it. */
  lemma SuccessExactlyAnswered(s: SessionState, work: Work, data: Snapshot, cancels: Cancels)
    requires !work.Transacting? && s.IsOpen() && Undecided(data)
    ensures var e, a := Ended(s, work, data, [], cancels), AttemptOn(s, work, data, [], cancels);
      && (e.resultStatus == Success <==> Answered(s, work))
      && (e.resultStatus == Success ==>
            && a.conn.sent == s.conn.sent + [OwnCommand(work)] && a.conn.server == Reply(s, work).after
            && Appends(data, e, Reply(s, work), |Reply(s, work).results|)
            && e.status == Running && e.error == "")
  {
    OwnCommandExecuted(s, work);
    EndsExactly(s.conn, OwnCommand(work));
    ReturnsExactly(s.conn, OwnCommand(work));
  }

  /** The execution's results are those it had and the payloads of the first `k` results. */
  ghost predicate Appends(data: Snapshot, e: Snapshot, reply: Libpq.Reply, k: nat) {
    exists appended :: AppendsFirst(appended, reply, k) && e.results == data.results + appended
  }

  /** A query that was not sent: a NUL in its text, or a send that was refused. */
  lemma UnsentFails(s: SessionState, work: Work, data: Snapshot, cancels: Cancels)
    requires !work.Transacting? && s.IsOpen() && Undecided(data)
    requires '\0' in Text(work) || !Reply(s, work).accepted
    ensures var a := AttemptOn(s, work, data, [], cancels);
      && a.conn.sent == s.conn.sent && a.data.results == data.results
      && a.outcome == Threw(if '\0' in Text(work) then Thrown("pg: SQL strings cannot contain embedded NUL bytes", "", false)
                            else Thrown(Reply(s, work).message, "", true))
  {
    OwnCommandExecuted(s, work);
    EndsExactly(s.conn, OwnCommand(work));
  }

  /** A flag is up when the handlers read it: the last attempt to cancel the execution itself had a handle and
      has not failed. */
  ghost predicate CancelStands(attempts: seq<Attempt>) {
    exists i: nat :: LastOn(attempts, false, i) && attempts[i].handle && attempts[i].fate != Failed
  }

  /** A failed result decides how the query ends: with the cancellation as ABORTED if a cancel stands, otherwise with
      ERROR. In both cases the results before it are kept. */
  lemma FirstFailureDecides(s: SessionState, work: Work, data: Snapshot, cancels: Cancels, k: nat)
    requires !work.Transacting? && s.IsOpen() && Undecided(data) && !data.cancellationRequested
    requires '\0' !in Text(work) && Reply(s, work).accepted && FailsFirstAt(Reply(s, work), k)
    requires Reply(s, work).results[k].status !in {CopyIn, CopyOut, CopyBoth}
    ensures var e, r := Ended(s, work, data, [], cancels), Reply(s, work).results[k];
      var message := if r.message == "" then Reply(s, work).message else r.message;
      var aborted := CancelStands(cancels.beginning + cancels.leaving) && (r.sqlstate == Some("57014") || SaysCancelled(message));
      && Appends(data, e, Reply(s, work), k)
      && (e.status == Aborted <==> aborted)
      && e.resultStatus == (if aborted then NoResult else Error)
      && e.error == (if aborted then "" else message)
  {
    OwnCommandExecuted(s, work);
    StopsExactly(s.conn, OwnCommand(work), k);
    var a := AttemptOn(s, work, data, [], cancels);
    CancellationExactly(a.outcome.error);
    FlagAfterBoth(cancels.beginning, cancels.leaving, false);
    StandsExactly(cancels.beginning + cancels.leaving);
  }

  lemma {:induction false} FlagAfterBoth(a: seq<Attempt>, b: seq<Attempt>, flag: bool)
    ensures FlagAfter(a + b, false, flag) == FlagAfter(b, false, FlagAfter(a, false, flag))
  {
    if b == [] {
      assert a + b == a;
    } else {
      FlagAfterBoth(a, b[..|b| - 1], flag);
      assert (a + b)[..|a + b| - 1] == a + b[..|b| - 1];
    }
  }

  lemma StandsExactly(attempts: seq<Attempt>)
    ensures FlagAfter(attempts, false, false) <==> CancelStands(attempts)
  {
    FlaggedExactly(attempts, false);
    if CancelStands(attempts) {
      var i: nat :| LastOn(attempts, false, i) && attempts[i].handle && attempts[i].fate != Failed;
      assert Flagged(attempts[i]);
    }
  }

  /** ... and whether the session is dialled again: for class 08 but 08007, when reconnection is on, the database is not
      shutting down, and the failure is not taken as the cancellation. */
  lemma FirstFailureDials(s: SessionState, work: Work, data: Snapshot, cancels: Cancels, k: nat, auto: bool, shuttingDown: bool)
    requires !work.Transacting? && s.IsOpen() && Undecided(data)
    requires '\0' !in Text(work) && Reply(s, work).accepted && FailsFirstAt(Reply(s, work), k)
    requires Reply(s, work).results[k].status !in {CopyIn, CopyOut, CopyBoth}
    ensures var r, a := Reply(s, work).results[k], AttemptOn(s, work, data, [], cancels);
      var state := match r.sqlstate case Some(state) => state case None => "";
      var lost := ("08" <= state && state != "08007") || (r.bad && state == "");
      var aborted := Ended(s, work, data, [], cancels).status == Aborted;
      if lost && !aborted && auto && !shuttingDown then DialsOnce(s.(conn := a.conn), SessionAfter(s, a, auto, shuttingDown))
      else SessionAfter(s, a, auto, shuttingDown) == s.(conn := a.conn)
  {
    OwnCommandExecuted(s, work);
    StopsExactly(s.conn, OwnCommand(work), k);
    var a := AttemptOn(s, work, data, [], cancels);
    HandlerExactly(s, a, auto, shuttingDown);
  }
}
