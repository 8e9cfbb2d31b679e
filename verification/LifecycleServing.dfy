/** What the worker makes of one execution, from the queue to the finished list, while the Lua thread stands still; and over
    every run, that SUCCESS is only reported for a statement that was executed. */
module LifecycleServing {
  import opened QueryTypes
  import opened QueryLifecycle
  import opened LifecycleControl
  import opened LifecycleLua
  import opened LifecycleTheorems
  import opened LifecycleHonour

  /** What the worker meets: how the dial before the statement ends, how the statement ends and whether the connection
      survives it, and how the dial after it ends. */
  datatype Environment = Environment(dial: bool, ending: Ending, stillOpen: bool, redial: bool)

  function Act(s: State, env: Environment): Action {
    Work(if s.worker.phase.Reconnecting? then env.dial else if s.worker.phase.Recovering? then env.redial else true,
         env.ending, env.stillOpen)
  }

  predicate OnlyWork(more: seq<Action>) { forall i :: 0 <= i < |more| ==> more[i].Work? }

  lemma WorkOn(s: State, more: seq<Action>, t: State, env: Environment) returns (next: seq<Action>, u: State)
    requires t == RunFrom(s, more) && OnlyWork(more)
    ensures u == Step(t, Act(t, env)) && u == RunFrom(s, next) && OnlyWork(next)
  {
    next, u := Onward(s, more, t, Act(t, env));
  }

  // ---------------------------------------------------------------- step by step

  function At(s: State, phase: Phase): State { s.(worker := s.worker.(phase := phase)) }

  function Writing(s: State, e: Exec): State { s.(execs := s.execs[s.worker.d := e]) }

  function Own(s: State): Exec { Of(s, s.worker.d) }

  lemma Takes(s: State, env: Environment)
    requires s.worker.phase.Top? && s.p.queue != []
    ensures Step(s, Act(s, env)) == s.(worker := s.worker.(phase := Took, d := s.p.queue[0]),
      p := s.p.(queue := s.p.queue[1..], hands := s.p.hands + [s.p.queue[0]],
                taken := s.p.taken + [s.p.queue[0]], ran := s.p.ran + [false]))
  {
  }

  lemma Publishes(s: State, env: Environment)
    requires s.worker.phase.Took?
    ensures Step(s, Act(s, env)) == At(s, Published).(f := s.f.(inFlight := Some(s.worker.d)))
  {
  }

  lemma LooksFirst(s: State, env: Environment)
    requires s.worker.phase.Published?
    ensures Step(s, Act(s, env)) == At(s, if Own(s).status == Aborted then Finishing else Locked)
  {
  }

  lemma LooksAgain(s: State, env: Environment)
    requires s.worker.phase.Locked?
    ensures Step(s, Act(s, env)) ==
      if s.f.shuttingDown || Own(s).status == Aborted then Writing(At(s, Finishing), Own(s).(status := Aborted)) else At(s, Checked)
  {
  }

  lemma Starts(s: State, env: Environment)
    requires s.worker.phase.Checked?
    ensures Step(s, Act(s, env)) == Writing(At(s, Entering), Own(s).(status := Running))
  {
  }

  const Unconnected := ConnectionError(false, true)

  lemma Enters(s: State, env: Environment)
    requires s.worker.phase.Entering?
    ensures Step(s, Act(s, env)) ==
      if s.f.sessionOpen then s.(worker := s.worker.(phase := Guarding, ending := Unconnected))
      else if !s.f.autoReconnect || s.f.shuttingDown then s.(worker := s.worker.(phase := Handling, ending := Unconnected))
      else s.(worker := s.worker.(phase := Reconnecting, ending := Unconnected),
              f := s.f.(active := None, status := NotConnected, sessionOpen := false))
  {
  }

  lemma Dials(s: State, env: Environment)
    requires s.worker.phase.Reconnecting?
    ensures Step(s, Act(s, env)) == s.(
      worker := s.worker.(phase := if env.dial then Guarding else Handling, ending := Unconnected),
      f := s.f.(sessionOpen := env.dial, status := if env.dial then Connected else ConnectionFailed))
  {
  }

  lemma Executes(s: State, env: Environment)
    requires s.worker.phase.Guarding? && s.p.ran != []
    ensures Step(s, Act(s, env)) == s.(worker := s.worker.(phase := Executing, kids := 0, at := 0),
      f := s.f.(active := Some(s.worker.d)),
      p := s.p.(executed := s.p.executed + [s.worker.d], ran := s.p.ran[|s.p.ran| - 1 := true]))
  {
  }

  lemma Returns(s: State, env: Environment)
    requires s.worker.phase.Executing?
    ensures Step(s, Act(s, env)) == s.(
      worker := s.worker.(phase := if env.ending.Ok? then Succeeding else Copying, ending := env.ending),
      f := s.f.(sessionOpen := s.f.sessionOpen && env.stillOpen))
  {
  }

  lemma CopiesNothing(s: State, env: Environment)
    requires s.worker.phase.Copying? && s.worker.kids == 0
    ensures Step(s, Act(s, env)) == s.(worker := s.worker.(phase := Unguarding, at := s.worker.at + 1))
  {
  }

  lemma Succeeds(s: State, env: Environment)
    requires s.worker.phase.Succeeding?
    ensures Step(s, Act(s, env)) == Writing(At(s, Unguarding), Own(s).(cancelRequested := false, result := Success))
  {
  }

  lemma Unguards(s: State, env: Environment)
    requires s.worker.phase.Unguarding?
    ensures Step(s, Act(s, env)) ==
      At(s, if s.worker.ending.Ok? then PostRun else Handling).(f := s.f.(active := None), kids := s.kids.(alias := None))
  {
  }

  /** The failed statement is the cancellation that was asked for. */
  predicate Cancelled(s: State) { Own(s).cancelRequested && !s.worker.ending.Ok? && s.worker.ending.userCancel }

  /** The connection was lost and is dialled again. */
  predicate Redials(s: State) {
    s.worker.ending.ConnectionError? && s.worker.ending.retriable && s.f.autoReconnect && !s.f.shuttingDown
  }

  lemma Handles(s: State, env: Environment)
    requires s.worker.phase.Handling? && !s.worker.ending.Ok?
    ensures Step(s, Act(s, env)) ==
      if Cancelled(s) then Writing(At(s, PostRun), Own(s).(status := Aborted, result := NoResult))
      else if Redials(s) then
        Writing(At(s, Recovering), Own(s).(cancelRequested := false)).(f := s.f.(active := None, status := NotConnected, sessionOpen := false))
      else Writing(At(s, PostRun), Own(s).(cancelRequested := false, result := Error))
  {
  }

  lemma DialsAgain(s: State, env: Environment)
    requires s.worker.phase.Recovering?
    ensures Step(s, Act(s, env)) == Writing(At(s, PostRun), Own(s).(result := Error)).(
      f := s.f.(sessionOpen := env.redial, status := if env.redial then Connected else ConnectionFailed))
  {
  }

  lemma LooksLast(s: State, env: Environment)
    requires s.worker.phase.PostRun?
    ensures Step(s, Act(s, env)) == At(s, if Own(s).status == Aborted then Finishing else Completing)
  {
  }

  lemma Completes(s: State, env: Environment)
    requires s.worker.phase.Completing?
    ensures Step(s, Act(s, env)) == Writing(At(s, Finishing), Own(s).(status := Complete))
  {
  }

  lemma Puts(s: State, env: Environment)
    requires s.worker.phase.Finishing? && s.p.hands == [s.worker.d]
    ensures Step(s, Act(s, env)) == At(s, PutDone).(p := s.p.(hands := [], finished := s.p.finished + [s.worker.d]))
  {
  }

  lemma Marks(s: State, env: Environment)
    requires s.worker.phase.PutDone?
    ensures Step(s, Act(s, env)) == Writing(At(s, FinishSet), Own(s).(finished := true))
  {
  }

  lemma Clears(s: State, env: Environment)
    requires s.worker.phase.FinishSet? && s.f.inFlight == Some(s.worker.d)
    ensures Step(s, Act(s, env)) == At(s, Top).(f := s.f.(inFlight := None))
  {
  }

  // ---------------------------------------------------------------- the parts

  /** `u` is `t` but for the worker's own variables. */
  predicate Same(u: State, t: State) { u == t.(worker := u.worker) && u.worker.d == t.worker.d }

  /** From the front of the queue to the second look at the status. */
  lemma Begins(s: State, env: Environment) returns (more: seq<Action>, u: State)
    requires s.worker.phase.Top? && s.p.queue != [] && s.p.hands == [] && Of(s, s.p.queue[0]).status == Waiting
    ensures u == RunFrom(s, more) && OnlyWork(more)
    ensures var d := s.p.queue[0];
      && u.worker == s.worker.(phase := Locked, d := d)
      && u == s.(worker := u.worker, f := s.f.(inFlight := Some(d)),
                 p := s.p.(queue := s.p.queue[1..], hands := [d], taken := s.p.taken + [d], ran := s.p.ran + [false]))
  {
    assert [] + [s.p.queue[0]] == [s.p.queue[0]];
    Takes(s, env);
    more, u := WorkOn(s, [], s, env);
    Publishes(u, env);
    more, u := WorkOn(s, more, u, env);
    LooksFirst(u, env);
    more, u := WorkOn(s, more, u, env);
  }

  /** From the last look at the status, or a skipped execution, back to the top of the loop. */
  lemma Ends(s: State, more: seq<Action>, t: State, env: Environment) returns (next: seq<Action>, u: State)
    requires t == RunFrom(s, more) && OnlyWork(more) && t.worker.phase.Finishing?
    requires t.p.hands == [t.worker.d] && t.f.inFlight == Some(t.worker.d)
    ensures u == RunFrom(s, next) && OnlyWork(next) && u.worker.phase.Top?
    ensures Same(u, Writing(t, Own(t).(finished := true)).(f := t.f.(inFlight := None),
      p := t.p.(hands := [], finished := t.p.finished + [t.worker.d])))
  {
    Puts(t, env);
    next, u := WorkOn(s, more, t, env);
    Marks(u, env);
    next, u := WorkOn(s, next, u, env);
    Clears(u, env);
    next, u := WorkOn(s, next, u, env);
  }

  /** What is left of an execution once runQuery has returned. */
  function Concluded(t: State): State {
    var e := Own(t).(finished := true);
    Writing(t, if e.status == Aborted then e else e.(status := Complete)).(f := t.f.(inFlight := None),
      p := t.p.(hands := [], finished := t.p.finished + [t.worker.d]))
  }

  lemma Concludes(s: State, more: seq<Action>, t: State, env: Environment) returns (next: seq<Action>, u: State)
    requires t == RunFrom(s, more) && OnlyWork(more) && t.worker.phase.PostRun?
    requires t.p.hands == [t.worker.d] && t.f.inFlight == Some(t.worker.d)
    ensures u == RunFrom(s, next) && OnlyWork(next) && u.worker.phase.Top?
    ensures Same(u, Concluded(t))
  {
    LooksLast(t, env);
    next, u := WorkOn(s, more, t, env);
    if Own(t).status != Aborted {
      Completes(u, env);
      next, u := WorkOn(s, next, u, env);
    }
    next, u := Ends(s, next, u, env);
    WritesOnce(t, Own(t).(status := Complete), Own(t).(status := Complete, finished := true));
  }

  lemma WritesOnce(t: State, a: Exec, b: Exec)
    ensures Writing(Writing(t, a), b) == Writing(t, b)
  {
  }

  // ---------------------------------------------------------------- a statement

  /** What the call of executeStatement leaves in the shared state. */
  function Executed(t: State, env: Environment): State
    requires t.p.ran != []
  {
    t.(f := t.f.(active := None, sessionOpen := t.f.sessionOpen && env.stillOpen),
       p := t.p.(executed := t.p.executed + [t.worker.d], ran := t.p.ran[|t.p.ran| - 1 := true]))
  }

  /** Running, with a session: the statement is executed. */
  lemma CallsStatement(s: State, more: seq<Action>, t: State, env: Environment) returns (next: seq<Action>, u: State)
    requires t == RunFrom(s, more) && OnlyWork(more) && t.worker.phase.Guarding? && t.p.ran != []
    ensures u == RunFrom(s, next) && OnlyWork(next) && u.worker.ending == env.ending && u.worker.kids == 0
    ensures u.worker.phase == if env.ending.Ok? then Succeeding else Copying
    ensures Same(u, Executed(t, env).(f := Executed(t, env).f.(active := Some(t.worker.d))))
  {
    Executes(t, env);
    next, u := WorkOn(s, more, t, env);
    Returns(u, env);
    next, u := WorkOn(s, next, u, env);
  }

  lemma StatementSucceeds(s: State, more: seq<Action>, t: State, env: Environment) returns (next: seq<Action>, u: State)
    requires t == RunFrom(s, more) && OnlyWork(more) && t.worker.phase.Guarding? && t.p.ran != [] && t.kids.alias == None
    requires env.ending.Ok?
    ensures u == RunFrom(s, next) && OnlyWork(next) && u.worker.phase.PostRun?
    ensures Same(u, Writing(Executed(t, env), Own(t).(cancelRequested := false, result := Success)))
  {
    next, u := CallsStatement(s, more, t, env);
    Succeeds(u, env);
    next, u := WorkOn(s, next, u, env);
    Unguards(u, env);
    next, u := WorkOn(s, next, u, env);
  }

  lemma StatementFails(s: State, more: seq<Action>, t: State, env: Environment) returns (next: seq<Action>, u: State)
    requires t == RunFrom(s, more) && OnlyWork(more) && t.worker.phase.Guarding? && t.p.ran != [] && t.kids.alias == None
    requires !env.ending.Ok?
    ensures u == RunFrom(s, next) && OnlyWork(next) && u.worker.phase.Handling? && u.worker.ending == env.ending
    ensures Same(u, Executed(t, env))
  {
    next, u := CallsStatement(s, more, t, env);
    CopiesNothing(u, env);
    next, u := WorkOn(s, next, u, env);
    Unguards(u, env);
    next, u := WorkOn(s, next, u, env);
  }

  /** The handler, from the end of a failed statement. */
  lemma RunsHandler(s: State, more: seq<Action>, t: State, env: Environment) returns (next: seq<Action>, u: State)
    requires t == RunFrom(s, more) && OnlyWork(more) && t.worker.phase.Handling? && !t.worker.ending.Ok?
    ensures u == RunFrom(s, next) && OnlyWork(next) && u.worker.phase.PostRun?
    ensures Same(u,
      if Cancelled(t) then Writing(t, Own(t).(status := Aborted, result := NoResult))
      else Writing(t, Own(t).(cancelRequested := false, result := Error)).(f := if Redials(t) then Dialled(t.f, env.redial) else t.f))
  {
    Handles(t, env);
    next, u := WorkOn(s, more, t, env);
    if !Cancelled(t) && Redials(t) {
      DialsAgain(u, env);
      next, u := WorkOn(s, next, u, env);
      WritesOnce(t, Own(t).(cancelRequested := false), Own(t).(cancelRequested := false, result := Error));
    }
  }

  /** The flags after a dial. */
  function Dialled(f: Flags, ok: bool): Flags {
    f.(active := None, sessionOpen := ok, status := if ok then Connected else ConnectionFailed)
  }

  // ---------------------------------------------------------------- an execution

  /** How an execution that was begun ends, and whether its session is dialled afterwards: by the cancellation, with
      ERROR, or with SUCCESS. */
  function Outcome(e: Exec, ending: Ending): Exec {
    if ending.Ok? then Exec(Complete, Success, true, false)
    else if e.cancelRequested && ending.userCancel then Exec(Aborted, NoResult, true, true)
    else Exec(Complete, Error, true, false)
  }

  predicate DialsAfter(e: Exec, ending: Ending, f: Flags) {
    ending.ConnectionError? && ending.retriable && !(e.cancelRequested && ending.userCancel) && f.autoReconnect
  }

  /** The execution at the front of the queue is `d`, untouched, and the worker has nothing else. */
  predicate ReadyFor(s: State, d: Id) {
    && s.worker.phase.Top? && s.p.queue != [] && s.p.queue[0] == d && s.p.hands == [] && s.f.active == None && s.kids.alias == None
    && Of(s, d).status == Waiting && !Of(s, d).finished
  }

  /** The places after the execution at the front has been served. */
  function ServedPlaces(p: Places, d: Id, executed: bool): Places
    requires p.queue != []
  {
    p.(queue := p.queue[1..], taken := p.taken + [d], ran := p.ran + [executed],
       executed := if executed then p.executed + [d] else p.executed, finished := p.finished + [d])
  }

  lemma SkippedFromStart(s: State, t: State, d: Id)
    requires s.p.queue != [] && s.p.hands == [] && t.worker.d == d
    requires t == s.(worker := t.worker, f := s.f.(inFlight := Some(d)), execs := s.execs[d := Of(s, d).(status := Aborted)],
      p := s.p.(queue := s.p.queue[1..], hands := [d], taken := s.p.taken + [d], ran := s.p.ran + [false]))
    ensures Writing(t, Own(t).(finished := true)).(f := t.f.(inFlight := None), p := t.p.(hands := [], finished := t.p.finished + [d]))
         == s.(worker := t.worker, p := ServedPlaces(s.p, d, false), f := s.f.(inFlight := None),
               execs := s.execs[d := Of(s, d).(status := Aborted, finished := true)])
  {
    assert s.execs[d := Of(s, d).(status := Aborted)][d := Of(s, d).(status := Aborted, finished := true)]
        == s.execs[d := Of(s, d).(status := Aborted, finished := true)];
  }

  /** An execution that found no session: the handler has written ERROR. */
  lemma UnservedFromStart(s: State, t: State, d: Id, g: Flags)
    requires s.p.queue != [] && s.p.hands == [] && t.worker.d == d
    requires t == s.(worker := t.worker, f := g.(inFlight := Some(d)),
      execs := s.execs[d := Of(s, d).(status := Running)][d := Of(s, d).(status := Running, cancelRequested := false, result := Error)],
      p := s.p.(queue := s.p.queue[1..], hands := [d], taken := s.p.taken + [d], ran := s.p.ran + [false]))
    ensures Concluded(t) == s.(worker := t.worker, p := ServedPlaces(s.p, d, false), f := g.(inFlight := None),
      execs := s.execs[d := Exec(Complete, Error, true, false)])
  {
    LastWrite(s.execs, d, Of(s, d).(status := Running), Of(s, d).(status := Running, cancelRequested := false, result := Error),
              Exec(Complete, Error, true, false));
  }

  lemma LastWrite(execs: Execs, d: Id, a: Exec, b: Exec, c: Exec)
    ensures execs[d := a][d := b][d := c] == execs[d := c]
  {
  }

  /** After m_shuttingDown nothing is begun: the execution is aborted. */
  lemma ServesShutDown(s: State, d: Id, env: Environment) returns (more: seq<Action>, u: State)
    requires ReadyFor(s, d) && s.f.shuttingDown
    ensures u == RunFrom(s, more) && OnlyWork(more) && u.worker.phase.Top?
    ensures u == s.(worker := u.worker, p := ServedPlaces(s.p, d, false), f := s.f.(inFlight := None),
      execs := s.execs[d := Of(s, d).(status := Aborted, finished := true)])
  {
    more, u := Begins(s, env);
    LooksAgain(u, env);
    more, u := WorkOn(s, more, u, env);
    SkippedFromStart(s, u, d);
    more, u := Ends(s, more, u, env);
  }

  /** From the second look to runQuery's first decision. */
  lemma Reaches(s: State, d: Id, env: Environment) returns (more: seq<Action>, u: State)
    requires ReadyFor(s, d) && !s.f.shuttingDown
    ensures u == RunFrom(s, more) && OnlyWork(more) && u.worker.phase.Entering? && u.worker.d == d
    ensures u == s.(worker := u.worker, f := s.f.(inFlight := Some(d)), execs := s.execs[d := Of(s, d).(status := Running)],
      p := s.p.(queue := s.p.queue[1..], hands := [d], taken := s.p.taken + [d], ran := s.p.ran + [false]))
  {
    more, u := Begins(s, env);
    LooksAgain(u, env);
    more, u := WorkOn(s, more, u, env);
    Starts(u, env);
    more, u := WorkOn(s, more, u, env);
  }

  /** The same, seen from the beginning; `g` has the flags with the session the statement ran on. */
  lemma OverFromStart(s: State, t: State, d: Id, g: Flags, env: Environment)
    requires s.p.queue != [] && s.p.hands == [] && t.worker.d == d
    requires t == s.(worker := t.worker, f := g.(inFlight := Some(d)), execs := s.execs[d := Of(s, d).(status := Running)],
      p := s.p.(queue := s.p.queue[1..], hands := [d], taken := s.p.taken + [d], ran := s.p.ran + [false]))
    ensures Over(t, env) == s.(worker := t.worker, p := ServedPlaces(s.p, d, true),
      execs := s.execs[d := Outcome(Of(s, d), env.ending)],
      f := if DialsAfter(Of(s, d), env.ending, g) then Dialled(g, env.redial).(inFlight := None)
           else g.(inFlight := None, active := None, sessionOpen := g.sessionOpen && env.stillOpen))
  {
    assert (s.p.ran + [false])[|s.p.ran + [false]| - 1 := true] == s.p.ran + [true];
    assert s.execs[d := Of(s, d).(status := Running)][d := Outcome(Of(s, d), env.ending)] == s.execs[d := Outcome(Of(s, d), env.ending)];
  }

  /** With an open session the statement is executed and the execution ends as its outcome says. */
  lemma ServesOpen(s: State, d: Id, env: Environment) returns (more: seq<Action>, u: State)
    requires ReadyFor(s, d) && !s.f.shuttingDown && s.f.sessionOpen
    ensures u == RunFrom(s, more) && OnlyWork(more) && u.worker.phase.Top?
    ensures u == s.(worker := u.worker, p := ServedPlaces(s.p, d, true), execs := s.execs[d := Outcome(Of(s, d), env.ending)],
      f := if DialsAfter(Of(s, d), env.ending, s.f) then Dialled(s.f, env.redial).(inFlight := None)
           else s.f.(inFlight := None, sessionOpen := env.stillOpen))
  {
    more, u := Reaches(s, d, env);
    Enters(u, env);
    more, u := WorkOn(s, more, u, env);
    OverFromStart(s, u, d, s.f, env);
    more, u := ServesGuarded(s, more, u, env);
  }

  /** The state in which runQuery has a session for the execution. */
  predicate Guards(t: State) {
    && t.worker.phase.Guarding? && t.p.ran != [] && t.kids.alias == None
    && t.p.hands == [t.worker.d] && t.f.inFlight == Some(t.worker.d) && !t.f.shuttingDown
    && Own(t).status == Running && !Own(t).finished
  }

  /** What is left when an execution that had a session is over. */
  function Over(t: State, env: Environment): State
    requires t.p.ran != []
  {
    t.(execs := t.execs[t.worker.d := Outcome(Own(t), env.ending)],
       f := if DialsAfter(Own(t), env.ending, t.f) then Dialled(t.f, env.redial).(inFlight := None)
            else t.f.(inFlight := None, active := None, sessionOpen := t.f.sessionOpen && env.stillOpen),
       p := t.p.(hands := [], executed := t.p.executed + [t.worker.d], ran := t.p.ran[|t.p.ran| - 1 := true],
                 finished := t.p.finished + [t.worker.d]))
  }

  lemma ServesSuccess(s: State, more: seq<Action>, t: State, env: Environment) returns (next: seq<Action>, u: State)
    requires t == RunFrom(s, more) && OnlyWork(more) && Guards(t) && env.ending.Ok?
    ensures u == RunFrom(s, next) && OnlyWork(next) && u.worker.phase.Top? && Same(u, Over(t, env))
  {
    next, u := StatementSucceeds(s, more, t, env);
    next, u := Concludes(s, next, u, env);
    WritesOnce(t, Own(t).(cancelRequested := false, result := Success), Outcome(Own(t), env.ending));
  }

  lemma ServesFailure(s: State, more: seq<Action>, t: State, env: Environment) returns (next: seq<Action>, u: State)
    requires t == RunFrom(s, more) && OnlyWork(more) && Guards(t) && !env.ending.Ok?
    ensures u == RunFrom(s, next) && OnlyWork(next) && u.worker.phase.Top? && Same(u, Over(t, env))
  {
    var failed, handled;
    next, failed := StatementFails(s, more, t, env);
    next, handled := RunsHandler(s, next, failed, env);
    HandledOver(t, failed, handled, env);
    next, u := Concludes(s, next, handled, env);
  }

  /** The handler's write and the last one, taken together. */
  lemma HandledOver(t: State, failed: State, handled: State, env: Environment)
    requires Guards(t) && failed.worker.ending == env.ending && !env.ending.Ok? && Same(failed, Executed(t, env))
    requires Same(handled,
      if Cancelled(failed) then Writing(failed, Own(failed).(status := Aborted, result := NoResult))
      else Writing(failed, Own(failed).(cancelRequested := false, result := Error)).(f := if Redials(failed) then Dialled(failed.f, env.redial) else failed.f))
    ensures Same(Concluded(handled), Over(t, env)) && handled.f.inFlight == Some(handled.worker.d) && handled.p.hands == [handled.worker.d]
  {
    assert Own(failed) == Own(t);
    if Cancelled(failed) {
      WritesOnce(failed, Own(t).(status := Aborted, result := NoResult), Outcome(Own(t), env.ending));
    } else {
      WritesOnce(failed, Own(t).(cancelRequested := false, result := Error), Outcome(Own(t), env.ending));
    }
  }

  /** From the Guard's constructor on. */
  lemma ServesGuarded(s: State, more: seq<Action>, t: State, env: Environment) returns (next: seq<Action>, u: State)
    requires t == RunFrom(s, more) && OnlyWork(more) && Guards(t)
    ensures u == RunFrom(s, next) && OnlyWork(next) && u.worker.phase.Top? && Same(u, Over(t, env))
  {
    if env.ending.Ok? { next, u := ServesSuccess(s, more, t, env); } else { next, u := ServesFailure(s, more, t, env); }
  }

  /** Without a session and without automatic reconnection the execution ends with ERROR and is not begun. */
  lemma ServesClosed(s: State, d: Id, env: Environment) returns (more: seq<Action>, u: State)
    requires ReadyFor(s, d) && !s.f.shuttingDown && !s.f.sessionOpen && !s.f.autoReconnect
    ensures u == RunFrom(s, more) && OnlyWork(more) && u.worker.phase.Top?
    ensures u == s.(worker := u.worker, p := ServedPlaces(s.p, d, false), f := s.f.(inFlight := None),
      execs := s.execs[d := Exec(Complete, Error, true, false)])
  {
    more, u := Reaches(s, d, env);
    Enters(u, env);
    more, u := WorkOn(s, more, u, env);
    more, u := RunsHandler(s, more, u, env);
    UnservedFromStart(s, u, d, s.f);
    more, u := Concludes(s, more, u, env);
  }

  /** Up to the dial. */
  lemma ReachesDial(s: State, d: Id, env: Environment) returns (more: seq<Action>, u: State)
    requires ReadyFor(s, d) && !s.f.shuttingDown && !s.f.sessionOpen && s.f.autoReconnect
    ensures u == RunFrom(s, more) && OnlyWork(more) && u.worker.d == d && u.worker.ending == Unconnected
    ensures u.worker.phase == if env.dial then Guarding else Handling
    ensures u == s.(worker := u.worker, f := Dialled(s.f, env.dial).(inFlight := Some(d)),
      execs := s.execs[d := Of(s, d).(status := Running)],
      p := s.p.(queue := s.p.queue[1..], hands := [d], taken := s.p.taken + [d], ran := s.p.ran + [false]))
  {
    more, u := Reaches(s, d, env);
    Enters(u, env);
    more, u := WorkOn(s, more, u, env);
    Dials(u, env);
    more, u := WorkOn(s, more, u, env);
  }

  /** With automatic reconnection the connection is dialled first, and when that succeeds the statement is executed. */
  lemma ServesDialled(s: State, d: Id, env: Environment) returns (more: seq<Action>, u: State)
    requires ReadyFor(s, d) && !s.f.shuttingDown && !s.f.sessionOpen && s.f.autoReconnect && env.dial
    ensures u == RunFrom(s, more) && OnlyWork(more) && u.worker.phase.Top?
    ensures u == s.(worker := u.worker, p := ServedPlaces(s.p, d, true), execs := s.execs[d := Outcome(Of(s, d), env.ending)],
      f := if DialsAfter(Of(s, d), env.ending, s.f) then Dialled(s.f, env.redial).(inFlight := None)
           else Dialled(s.f, true).(inFlight := None, sessionOpen := env.stillOpen))
  {
    more, u := ReachesDial(s, d, env);
    OverFromStart(s, u, d, Dialled(s.f, true), env);
    more, u := ServesGuarded(s, more, u, env);
  }

  /** When it fails the execution ends with ERROR and is not begun; the connection is dialled a second time at once, and
      perhaps opened, but only for the next one. */
  lemma ServesUndialled(s: State, d: Id, env: Environment) returns (more: seq<Action>, u: State)
    requires ReadyFor(s, d) && !s.f.shuttingDown && !s.f.sessionOpen && s.f.autoReconnect && !env.dial
    ensures u == RunFrom(s, more) && OnlyWork(more) && u.worker.phase.Top?
    ensures u == s.(worker := u.worker, p := ServedPlaces(s.p, d, false), execs := s.execs[d := Exec(Complete, Error, true, false)],
      f := Dialled(s.f, env.redial).(inFlight := None))
  {
    more, u := ReachesDial(s, d, env);
    more, u := RunsHandler(s, more, u, env);
    UnservedFromStart(s, u, d, Dialled(s.f, env.redial));
    more, u := Concludes(s, more, u, env);
  }

  /** In every run this is how the worker comes to the front of the queue. */
  lemma TopIsReady(run: seq<Action>)
    requires var s := Run(run); s.worker.phase.Top? && s.p.queue != []
    ensures var s := Run(run); ReadyFor(s, s.p.queue[0])
  {
    RunSound(run);
    assert Run(run).p.queue[0] in Run(run).p.queue;
  }

  // ---------------------------------------------------------------- success, over every run

  predicate GuardExecuted(p: Places, w: Worker) { Guarded(w.phase) ==> w.d in p.executed }

  ghost predicate SuccessFits(s: State) {
    GuardExecuted(s.p, s.worker) && forall d :: Of(s, d).result == Success ==> d in s.p.executed
  }

  lemma WorkerPutsSuccess(s: State)
    ensures match WorkerWrite(s)
            case Keep => true
            case AbortEach(_) => false
            case Put(d, e) => e.result == Success ==> Of(s, d).result == Success || (s.worker.phase.Succeeding? && d == s.worker.d)
  {
    match s.worker.phase {
      case Failing =>
      case FailFinish =>
      case Locked =>
      case Checked =>
      case Copying =>
      case Succeeding =>
      case Handling =>
      case Recovering =>
      case Completing =>
      case PutDone =>
      case _ =>
    }
  }

  lemma WorkerResult(s: State, ok: bool, e: Ending, open: bool, d: Id)
    ensures Of(WorkerStep(s, ok, e, open), d).result == Success ==>
      Of(s, d).result == Success || (s.worker.phase.Succeeding? && d == s.worker.d)
  {
    WorkerPutsSuccess(s);
    assert Of(WorkerStep(s, ok, e, open), d) == NewValue(s.execs, WorkerWrite(s), d);
  }

  lemma GuardIsEntered(s: State, ok: bool, e: Ending)
    requires Guarded(NextPhase(s, ok, e))
    ensures (Guarded(s.worker.phase) || s.worker.phase.Guarding?) && NextPair(s) == s.worker.d
  {
  }

  lemma WorkerKeepsGuard(s: State, ok: bool, e: Ending, open: bool)
    requires GuardExecuted(s.p, s.worker) && (s.worker.phase.Guarding? ==> s.p.ran != [])
    ensures var t := WorkerStep(s, ok, e, open); GuardExecuted(t.p, t.worker) && s.p.executed <= t.p.executed
  {
    WorkerExecutes(s);
    if Guarded(NextPhase(s, ok, e)) { GuardIsEntered(s, ok, e); }
    if s.worker.phase.Guarding? { assert Moved(s.p, WorkerMove(s)).executed == s.p.executed + [s.worker.d]; }
  }

  lemma WorkerKeepsSuccessFits(s: State, ok: bool, e: Ending, open: bool)
    requires Fits(s) && SuccessFits(s)
    ensures SuccessFits(WorkerStep(s, ok, e, open))
  {
    var t := WorkerStep(s, ok, e, open);
    WorkerKeepsGuard(s, ok, e, open);
    forall d | Of(t, d).result == Success ensures d in t.p.executed { WorkerResult(s, ok, e, open, d); }
  }

  lemma LuaResult(s: State, ok: bool, d: Id)
    requires s.lua != []
    ensures Of(LuaStep(s, ok), d).result == Success ==> Of(s, d).result == Success
  {
    match s.lua[0] {
      case EnqueuePut(_) =>
      case AbortRemove(_) =>
      case SetAborted(_) =>
      case CancelActive(_) =>
      case CancelSent(_) =>
      case ClearQueued =>
      case CloseAndClear =>
      case WaitRemove(_) =>
      case WaitFallback(_) =>
      case _ =>
    }
  }

  lemma StepKeepsSuccessFits(s: State, a: Action)
    requires Fits(s) && SuccessFits(s)
    ensures SuccessFits(Step(s, a))
  {
    if Enabled(s, a) {
      match a {
        case Work(ok, e, open) => WorkerKeepsSuccessFits(s, ok, e, open);
        case Lua(ok) =>
          LuaMoveFrame(s);
          forall d | Of(LuaStep(s, ok), d).result == Success ensures d in LuaStep(s, ok).p.executed { LuaResult(s, ok, d); }
        case Begin(c) =>
          CallFrame(s.p, c);
          assert forall d :: Of(CallStep(s, c), d).result == Success ==> Of(s, d).result == Success;
      }
    }
  }

  /** SUCCESS is reported only for an execution whose statement was executed. */
  lemma {:induction false} SuccessMeansExecuted(run: seq<Action>)
    ensures SuccessFits(Run(run))
    ensures forall d :: Of(Run(run), d).result == Success ==> d in Run(run).p.executed
  {
    if run != [] {
      var rest := run[..|run| - 1];
      SuccessMeansExecuted(rest);
      RunSound(rest);
      StepKeepsSuccessFits(Run(rest), run[|run| - 1]);
    }
  }
}
