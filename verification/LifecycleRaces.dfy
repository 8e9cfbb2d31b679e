/** The interleavings that LifecycleTheorems names as exceptions do occur: a run for each. */
module LifecycleRaces {
  import opened QueryTypes
  import opened QueryLifecycle
  import opened LifecyclePlaces

  lemma Then(run: seq<Action>, s: State, a: Action) returns (next: seq<Action>, t: State)
    requires s == Run(run)
    ensures next == run + [a] && t == Step(s, a) && t == Run(next)
  {
    next, t := run + [a], Step(s, a);
    assert next[..|next| - 1] == run;
  }

  function Went(ok: bool): Action { Work(ok, Ok, true) }

  function At(ph: Phase, d: Id): Worker { Worker(ph, d, Ok, 0, 0) }

  /** A connect attempt with one query started meanwhile. */
  lemma QueuedWhileConnecting() returns (run: seq<Action>, s: State)
    ensures s == Run(run)
    ensures s.p == Initial.p.(queue := [1], accepted := [1])
    ensures s.execs == map[1 := Exec(Waiting, NoResult, false, false)]
    ensures s.f == Initial.f.(started := true, canWait := true, status := DatabaseStatus.Connecting)
    ensures s.marks == Initial.marks && s.worker == At(Phase.Connecting, 0) && s.lua == [] && s.kids == Initial.kids
  {
    run, s := [], Initial;
    run, s := Then(run, s, Begin(Connect));
    run, s := Then(run, s, Begin(Start(1)));
    run, s := Then(run, s, Lua(true));
  }

  /** The connect fails and the worker takes the query out of the queue. */
  lemma TakenByFailedConnect() returns (run: seq<Action>, s: State)
    ensures s == Run(run)
    ensures s.p == Initial.p.(hands := [1], accepted := [1], retired := [1])
    ensures s.execs == map[1 := Exec(Waiting, NoResult, false, false)]
    ensures !s.f.canWait && s.worker.phase == Failing && s.lua == []
  {
    run, s := QueuedWhileConnecting();
    run, s := Then(run, s, Went(false));
    assert s.p == Initial.p.(queue := [1], accepted := [1]);
    run, s := Then(run, s, Went(true));
  }

  lemma WaitLooksInQueue(run0: seq<Action>, s0: State) returns (run: seq<Action>, s: State)
    requires s0 == Run(run0) && s0.lua == [] && 1 in s0.p.accepted && !s0.f.canWait
    requires Of(s0, 1) == Exec(Waiting, NoResult, false, false)
    ensures s == Run(run) && s == s0.(lua := [WaitIfWaiting(1)])
  {
    run, s := Then(run0, s0, Begin(Wait(1)));
    assert s == s0.(lua := [WaitFinished(1)]);
    run, s := Then(run, s, Lua(true));
  }

  lemma WaitLeavesQueue(run0: seq<Action>, s0: State) returns (run: seq<Action>, s: State)
    requires s0 == Run(run0) && s0.lua == [WaitIfWaiting(1)] && 1 !in s0.p.queue && Of(s0, 1).status == Waiting
    ensures s == Run(run) && s == s0.(lua := [WaitFallback(1)])
  {
    run, s := Then(run0, s0, Lua(true));
    assert s == s0.(lua := [WaitRemove(1)]);
    run, s := Then(run, s, Lua(true));
  }

  /** A wait() begun now finds the query neither waiting in the queue nor finished. */
  lemma WaitFindsNothing(run0: seq<Action>, s0: State) returns (run: seq<Action>, s: State)
    requires s0 == Run(run0) && s0.lua == [] && 1 in s0.p.accepted && 1 !in s0.p.queue && !s0.f.canWait
    requires Of(s0, 1) == Exec(Waiting, NoResult, false, false)
    ensures s == Run(run) && s == s0.(lua := [WaitFallback(1)])
  {
    run, s := WaitLooksInQueue(run0, s0);
    run, s := WaitLeavesQueue(run, s);
  }

  /** The fallback completes it. */
  lemma CompletedByWait() returns (run: seq<Action>, s: State)
    ensures s == Run(run) && s.lua == [] && s.worker.phase == Failing
    ensures s.p == Initial.p.(hands := [1], accepted := [1], retired := [1], finished := [1], fallbacks := [1])
  {
    run, s := TakenByFailedConnect();
    run, s := WaitFindsNothing(run, s);
    FallsBack(s, 1);
    run, s := Then(run, s, Lua(true));
  }

  lemma FallsBack(s: State, d: Id)
    requires s.lua == [WaitFallback(d)] && !Of(s, d).finished
    ensures var t := Step(s, Lua(true));
      t.lua == [] && t.worker == s.worker && t.p == s.p.(finished := s.p.finished + [d], fallbacks := s.p.fallbacks + [d])
  {
  }

  /** The fallback and the worker both complete it. */
  lemma CompletedTwice() returns (run: seq<Action>, s: State)
    ensures s == Run(run) && s.lua == [] && s.p.accepted == [1]
    ensures s.p.finished == [1, 1] && s.p.toDeliver == [] && s.p.delivered == []
  {
    run, s := CompletedByWait();
    run, s := Then(run, s, Went(true));
    assert s.worker.phase == FailPut && s.p.finished == [1] && s.p.hands == [1];
    run, s := Then(run, s, Went(true));
  }

  /** Exactly-once delivery fails when wait() races a failing connect: one start, two deliveries. */
  lemma DoubleDelivery() returns (run: seq<Action>)
    ensures Count(Run(run).p.accepted, 1) == 1 && Count(Run(run).p.delivered, 1) == 2
  {
    var s;
    run, s := CompletedTwice();
    run, s := Then(run, s, Begin(Think));
    run, s := DeliversFirst(run, s);
    run, s := DeliversFirst(run, s);
    assert s.p.delivered == [1, 1] && s.p.accepted == [1];
  }

  lemma DeliversFirst(run0: seq<Action>, s0: State) returns (run: seq<Action>, s: State)
    requires s0 == Run(run0) && s0.lua == [] && s0.p.toDeliver != []
    ensures s == Run(run) && s.lua == []
    ensures s.p == s0.p.(toDeliver := s0.p.toDeliver[1..], delivered := s0.p.delivered + [s0.p.toDeliver[0]])
  {
    run, s := Then(run0, s0, Begin(Deliver(0)));
    assert s0.p.toDeliver[..0] + s0.p.toDeliver[1..] == s0.p.toDeliver[1..];
  }

  // ---------------------------------------------------------------- aborts

  lemma ConnectedWithQueue() returns (run: seq<Action>, s: State)
    ensures s == Run(run) && s.lua == [] && s.worker == At(Top, 0)
    ensures s.p == Initial.p.(queue := [1], accepted := [1])
    ensures s.execs == map[1 := Exec(Waiting, NoResult, false, false)]
    ensures s.f.sessionOpen && !s.f.shuttingDown && s.kids == Initial.kids && s.marks == Initial.marks
  {
    run, s := QueuedWhileConnecting();
    run, s := Then(run, s, Went(true));
  }

  /** A connected worker that has taken the query and published it as in flight. */
  lemma TakenByWorker() returns (run: seq<Action>, s: State)
    ensures s == Run(run) && s.lua == [] && s.worker == At(Published, 1)
    ensures s.p == Initial.p.(hands := [1], accepted := [1], taken := [1], ran := [false])
    ensures s.execs == map[1 := Exec(Waiting, NoResult, false, false)]
    ensures s.f.sessionOpen && !s.f.shuttingDown && s.kids == Initial.kids && s.marks == Initial.marks
  {
    run, s := ConnectedWithQueue();
    run, s := Then(run, s, Went(true));
    assert s.p == Initial.p.(hands := [1], accepted := [1], taken := [1], ran := [false]) && s.worker == At(Took, 1);
    run, s := Then(run, s, Went(true));
  }

  /** abort() has read QUERY_WAITING and is about to write QUERY_ABORTED. */
  lemma AbortHasRead(run0: seq<Action>, s0: State) returns (run: seq<Action>, s: State)
    requires s0 == Run(run0) && s0.lua == [] && 1 in s0.p.accepted && 1 !in s0.p.queue
    requires Of(s0, 1).status == Waiting
    ensures s == Run(run) && s == s0.(lua := [SetAborted(1)])
  {
    run, s := Then(run0, s0, Begin(Abort(1)));
    assert s == s0.(lua := [AbortRemove(1)]);
    run, s := Then(run, s, Lua(true));
    assert s == s0.(lua := [AbortIfWaiting(1)]);
    run, s := Then(run, s, Lua(true));
  }

  /** The worker goes from its second status check to the call of executeStatement. */
  lemma RunsFromCheck(run0: seq<Action>, s0: State) returns (run: seq<Action>, s: State)
    requires s0 == Run(run0) && s0.worker == At(Checked, 1) && s0.f.sessionOpen && s0.p.ran == [false]
    ensures run0 <= run
    ensures s == Run(run) && s.worker.phase == Executing && s.worker.d == 1 && s.worker.kids == 0 && s.worker.at == 0
    ensures s.p == s0.p.(executed := s0.p.executed + [1], ran := [true]) && s.lua == s0.lua
    ensures s.execs == s0.execs[1 := Of(s0, 1).(status := Running)]
    ensures s.f == s0.f.(active := Some(1)) && s.marks == s0.marks && s.kids == s0.kids
  {
    WritesRunning(s0);
    run, s := Then(run0, s0, Went(true));
    FindsSession(s);
    run, s := Then(run, s, Went(true));
    BeginsStatement(s);
    run, s := Then(run, s, Went(true));
  }

  lemma WritesRunning(s: State)
    requires s.worker == At(Checked, 1)
    ensures Step(s, Went(true)) == s.(worker := At(Entering, 1), execs := s.execs[1 := Of(s, 1).(status := Running)])
  {
  }

  lemma FindsSession(s: State)
    requires s.worker == At(Entering, 1) && s.f.sessionOpen
    ensures Step(s, Went(true)) == s.(worker := Worker(Guarding, 1, ConnectionError(false, true), 0, 0))
  {
  }

  lemma BeginsStatement(s: State)
    requires s.worker.phase == Guarding && s.worker.d == 1 && s.p.ran == [false]
    ensures Step(s, Went(true)) == s.(worker := s.worker.(phase := Executing, kids := 0, at := 0), f := s.f.(active := Some(1)),
      p := s.p.(executed := s.p.executed + [1], ran := [true]))
  {
  }

  /** From the first status check past the second one. */
  lemma PassesChecks(run0: seq<Action>, s0: State) returns (run: seq<Action>, s: State)
    requires s0 == Run(run0) && s0.worker == At(Published, 1) && !s0.f.shuttingDown
    requires Of(s0, 1).status == Waiting
    ensures s == Run(run) && s == s0.(worker := At(Checked, 1))
  {
    run, s := Then(run0, s0, Went(true));
    assert s == s0.(worker := At(Locked, 1));
    run, s := Then(run, s, Went(true));
  }

  /** The statement succeeds, up to the end of the Guard. */
  lemma Returns(run0: seq<Action>, s0: State) returns (run: seq<Action>, s: State)
    requires s0 == Run(run0) && s0.worker.phase == Executing && s0.worker.d == 1
    ensures run0 <= run
    ensures s == Run(run) && s.worker.phase == Unguarding && s.worker.d == 1 && s.worker.ending.Ok?
    ensures s.p == s0.p && s.lua == s0.lua && s.marks == s0.marks
    ensures Of(s, 1) == Of(s0, 1).(cancelRequested := false, result := Success)
  {
    StatementReturns(s0);
    run, s := Then(run0, s0, Went(true));
    WritesSuccess(s);
    run, s := Then(run, s, Went(true));
  }

  lemma StatementReturns(s: State)
    requires s.worker.phase == Executing
    ensures Step(s, Went(true)) == s.(worker := s.worker.(phase := Succeeding, ending := Ok))
  {
  }

  lemma WritesSuccess(s: State)
    requires s.worker.phase == Succeeding && s.worker.d == 1
    ensures Step(s, Went(true)) == s.(worker := s.worker.(phase := Unguarding),
      execs := s.execs[1 := Of(s, 1).(cancelRequested := false, result := Success)])
  {
  }

  /** ... and up to the check that may write QUERY_COMPLETE. */
  lemma Succeeds(run0: seq<Action>, s0: State) returns (run: seq<Action>, s: State)
    requires s0 == Run(run0) && s0.worker.phase == Executing && s0.worker.d == 1
    ensures run0 <= run
    ensures s == Run(run) && s.worker.phase == PostRun && s.worker.d == 1 && s.p == s0.p && s.lua == s0.lua
    ensures s.marks == s0.marks && Of(s, 1) == Of(s0, 1).(cancelRequested := false, result := Success)
  {
    run, s := Returns(run0, s0);
    run, s := Then(run, s, Went(true));
  }

  /** abort() reads QUERY_WAITING, the worker starts the statement, abort() writes QUERY_ABORTED:
      a statement that succeeded is reported as aborted, and no cancel was ever sent. */
  lemma LateAbort() returns (run: seq<Action>)
    ensures var s := Run(run);
      && 1 in s.p.executed && Of(s, 1).status == Aborted && Of(s, 1).result == Success
      && s.marks.cancelled == {} && s.marks.kids == {} && 1 in s.marks.late
  {
    var s;
    run, s := TakenByWorker();
    run, s := AbortHasRead(run, s);
    run, s := PassesChecks(run, s);
    run, s := RunsFromCheck(run, s);
    assert Of(s, 1).status == Running;
    run, s := Then(run, s, Lua(true));
    assert Of(s, 1).status == Aborted && s.marks == Initial.marks.(late := {1}) && s.p.executed == [1];
    run, s := Succeeds(run, s);
  }

  /** abort() writes QUERY_ABORTED between the worker's second check and its QUERY_RUNNING: the
      abort was acknowledged in time and the statement runs all the same. */
  lemma OverwrittenAbort() returns (before: seq<Action>, run: seq<Action>)
    ensures before <= run && Of(Run(before), 1).status == Aborted && Run(before).p.executed == [] && Run(before).marks.late == {}
    ensures 1 in Run(run).p.executed && Of(Run(run), 1).status == Running && Of(Run(run), 1).result == Success
  {
    var s;
    run, s := TakenByWorker();
    run, s := AbortHasRead(run, s);
    run, s := PassesChecks(run, s);
    run, s := Then(run, s, Lua(true));
    assert s.worker == At(Checked, 1) && Of(s, 1).status == Aborted && s.marks.late == {};
    before := run;
    run, s := RunsFromCheck(run, s);
    run, s := Succeeds(run, s);
  }

  // ---------------------------------------------------------------- children

  /** A transaction is running its first child. */
  lemma ChildPublished() returns (run: seq<Action>, s: State)
    ensures s == Run(run) && s.lua == [] && s.p.executed == [1] && Of(s, 1) == Exec(Running, NoResult, false, false)
    ensures s.worker.phase == Child && s.worker.d == 1 && s.worker.kids == 0 && s.worker.at == 0
    ensures s.kids == Children(Some(Kid(1, 0)), {}) && s.marks == Initial.marks
  {
    run, s := TakenByWorker();
    run, s := PassesChecks(run, s);
    run, s := RunsFromCheck(run, s);
    run, s := Then(run, s, Went(false));
  }

  /** An abort() of that child raises its flag. */
  /** abort() on the child has met it and raised its flag. */
  lemma ChildMet() returns (run: seq<Action>, s: State)
    ensures s == Run(run) && s.lua == [KidSent(Kid(1, 0))] && s.p.executed == [1] && Of(s, 1) == Exec(Running, NoResult, false, false)
    ensures s.worker.phase == Child && s.worker.d == 1 && s.worker.kids == 0 && s.worker.at == 0
    ensures s.kids.raised == {Kid(1, 0)} && s.marks == Initial.marks.(kids := {Kid(1, 0)})
  {
    run, s := ChildPublished();
    run, s := Then(run, s, Begin(AbortKid(Kid(1, 0))));
    assert s.lua == [CancelKid(Kid(1, 0))] && s.kids.alias == Some(Kid(1, 0)) && s.kids.raised == {} && s.marks == Initial.marks;
    MeetsKid(s, Kid(1, 0));
    run, s := Then(run, s, Lua(true));
  }

  lemma MeetsKid(s: State, k: Kid)
    requires s.lua == [CancelKid(k)] && s.kids.alias == Some(k)
    ensures Step(s, Lua(true)) == s.(lua := [KidSent(k)], kids := s.kids.(raised := s.kids.raised + {k}), marks := s.marks.(kids := s.marks.kids + {k}))
  {
  }

  lemma KidCancelled(s: State, k: Kid)
    requires s.lua == [KidSent(k)]
    ensures Step(s, Lua(true)) == s.(lua := [])
  {
  }

  lemma ChildFlagged() returns (run: seq<Action>, s: State)
    ensures s == Run(run) && s.lua == [] && s.p.executed == [1] && Of(s, 1) == Exec(Running, NoResult, false, false)
    ensures s.worker.phase == Child && s.worker.d == 1 && s.worker.kids == 0 && s.worker.at == 0
    ensures s.kids.raised == {Kid(1, 0)} && s.marks == Initial.marks.(kids := {Kid(1, 0)})
  {
    run, s := ChildMet();
    KidCancelled(s, Kid(1, 0));
    run, s := Then(run, s, Lua(true));
  }

  /** The child fails. */
  lemma ChildFails() returns (run: seq<Action>, s: State)
    ensures s == Run(run) && s.lua == [] && s.p.executed == [1] && Of(s, 1) == Exec(Running, NoResult, false, false)
    ensures s.worker == Worker(Copying, 1, OtherError(true), 1, 0) && s.kids.raised == {Kid(1, 0)}
    ensures s.marks.cancelled == {} && s.marks.late == {}
  {
    run, s := ChildFlagged();
    ChildRetracted(s);
    run, s := Then(run, s, Went(true));
    StatementFails(s);
    run, s := Then(run, s, Work(true, OtherError(true), true));
  }

  lemma ChildRetracted(s: State)
    requires s.worker.phase == Child
    ensures Step(s, Went(true)) == s.(worker := s.worker.(phase := Executing, kids := s.worker.kids + 1), kids := s.kids.(alias := None))
  {
  }

  lemma StatementFails(s: State)
    requires s.worker.phase == Executing
    ensures Step(s, Work(true, OtherError(true), true)) == s.(worker := s.worker.(phase := Copying, ending := OtherError(true)))
  {
  }

  /** The transaction collects the flag. */
  lemma FlagCollected() returns (run: seq<Action>, s: State)
    ensures s == Run(run) && s.p.executed == [1] && Of(s, 1) == Exec(Running, NoResult, false, true)
    ensures s.worker == Worker(Copying, 1, OtherError(true), 1, 1) && s.marks.cancelled == {} && s.marks.late == {}
  {
    run, s := ChildFails();
    run, s := Then(run, s, Went(true));
  }

  /** The failed transaction is about to be handled, with the flag of its child. */
  lemma FlaggedAtHandler() returns (run: seq<Action>, s: State)
    ensures s == Run(run) && s.p.executed == [1] && Of(s, 1) == Exec(Running, NoResult, false, true)
    ensures s.worker.phase == Handling && s.worker.d == 1 && s.worker.ending == OtherError(true)
    ensures s.marks.cancelled == {} && s.marks.late == {}
  {
    run, s := FlagCollected();
    run, s := Then(run, s, Went(true));
    assert s.worker.phase == Unguarding && s.worker.d == 1 && s.worker.ending == OtherError(true);
    assert Of(s, 1) == Exec(Running, NoResult, false, true) && s.p.executed == [1] && s.marks.cancelled == {} && s.marks.late == {};
    run, s := Then(run, s, Went(true));
  }

  /** A transaction ends aborted although cancel() never met it, but only its child. */
  lemma ChildCancelAborts() returns (run: seq<Action>)
    ensures var s := Run(run);
      1 in s.p.executed && Of(s, 1).status == Aborted && s.marks.cancelled == {} && s.marks.late == {}
  {
    var s;
    run, s := FlaggedAtHandler();
    run, s := Then(run, s, Went(true));
  }
}
