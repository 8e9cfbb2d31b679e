/** Exactly when an abort written outside the queue keeps the statement from running. */
module LifecycleHonour {
  import opened QueryTypes
  import opened QueryLifecycle
  import opened LifecycleControl
  import opened LifecycleLua
  import opened LifecycleAborts
  import opened LifecycleTheorems

  /** The worker is past its last look at the status and can still reach executeStatement. */
  predicate Bound(s: State) {
    || s.worker.phase.Guarding? || s.worker.phase.Reconnecting?
    || ((s.worker.phase.Checked? || s.worker.phase.Entering?) && (s.f.sessionOpen || !s.f.shuttingDown))
  }

  /** Too late to keep `d` from running: it runs or has run, or the worker is bound to it. */
  predicate TooLate(s: State, d: Id) { d in s.p.executed || (d == s.worker.d && Bound(s)) }

  /** An aborted execution the worker will not run any more. */
  predicate Spared(s: State, d: Id) {
    && d !in s.p.executed && d in s.p.accepted && d !in s.p.queue
    && (d == s.worker.d && BeforeStatement(s.worker.phase) ==> SparedByWorker(s))
  }

  predicate SparedByWorker(s: State) {
    if s.worker.phase.Checked? || s.worker.phase.Entering? then !s.f.sessionOpen && s.f.shuttingDown
    else (s.worker.phase.Took? || s.worker.phase.Published? || s.worker.phase.Locked?) && Of(s, s.worker.d).status == Aborted
  }

  // ---------------------------------------------------------------- spared for good

  lemma WorkerSpares(s: State, ok: bool, e: Ending, open: bool)
    requires BeforeStatement(s.worker.phase) && SparedByWorker(s)
    ensures var t := WorkerStep(s, ok, e, open);
      t.p == s.p && t.worker.d == s.worker.d && (BeforeStatement(t.worker.phase) ==> SparedByWorker(t))
  {
    match s.worker.phase {
      case Took =>
      case Published =>
      case Locked =>
      case Checked =>
      case Entering =>
    }
  }

  lemma WorkerKeepsSpared(s: State, ok: bool, e: Ending, open: bool, d: Id)
    requires Fits(s) && Spared(s, d) && WorkerEnabled(s)
    ensures Spared(WorkerStep(s, ok, e, open), d)
  {
    if d == s.worker.d && BeforeStatement(s.worker.phase) {
      WorkerSpares(s, ok, e, open);
    } else {
      WorkerLeavesAlone(s, ok, e, open, d);
    }
  }

  lemma WorkerLeavesAlone(s: State, ok: bool, e: Ending, open: bool, d: Id)
    requires Fits(s) && Spared(s, d) && WorkerEnabled(s) && !(d == s.worker.d && BeforeStatement(s.worker.phase))
    ensures Spared(WorkerStep(s, ok, e, open), d)
  {
    var t := WorkerStep(s, ok, e, open);
    WorkerFrame(s);
    WorkerExecutes(s);
    if BeforeStatement(t.worker.phase) && d == t.worker.d { WorkerHeldBefore(s, ok, e); }
  }

  /** Unless it is the one just taken, what the worker holds before the statement it held before the step. */
  lemma WorkerHeldBefore(s: State, ok: bool, e: Ending)
    requires BeforeStatement(NextPhase(s, ok, e))
    ensures (s.worker.phase.Top? && s.p.queue != [] && NextPair(s) == s.p.queue[0])
      || (BeforeStatement(s.worker.phase) && NextPair(s) == s.worker.d)
  {
  }

  lemma WorkerExecutes(s: State)
    ensures Moved(s.p, WorkerMove(s)).executed == s.p.executed
      || (s.worker.phase.Guarding? && Moved(s.p, WorkerMove(s)).executed == s.p.executed + [s.worker.d])
  {
  }

  lemma LuaKeepsSpared(s: State, ok: bool, d: Id)
    requires Fits(s) && Spared(s, d) && s.lua != []
    ensures Spared(LuaStep(s, ok), d)
  {
    var t := LuaStep(s, ok);
    LuaMoveFrame(s);
    LuaFlagFrame(s);
    if d in t.p.queue { LuaQueueFrame(s, d); }
    if d == s.worker.d && BeforeStatement(s.worker.phase) {
      LuaStatusWrites(s, ok, d);
      if s.lua[0].WaitFallback? && !Of(s, s.lua[0].d).finished { FallbackAfterFailedConnect(s); }
    }
  }

  lemma CallKeepsSpared(s: State, c: Call, d: Id)
    requires Fits(s) && Spared(s, d) && CallEnabled(s, c)
    ensures Spared(CallStep(s, c), d)
  {
    CallFrame(s.p, c);
    CallQueueFrame(s.p, c);
    assert d in s.execs;
    assert Of(CallStep(s, c), d) == Of(s, d);
    match c {
      case PingFailed(_, _) =>
      case Shutdown =>
      case Connect =>
      case _ =>
    }
  }

  lemma {:induction false} SparedAlong(s: State, more: seq<Action>, d: Id)
    requires Fits(s) && Spared(s, d)
    ensures Spared(RunFrom(s, more), d)
  {
    if more != [] {
      var before, a := RunFrom(s, more[..|more| - 1]), more[|more| - 1];
      SparedAlong(s, more[..|more| - 1], d);
      FitsAlong(s, more[..|more| - 1]);
      if Enabled(before, a) {
        match a {
          case Work(ok, e, open) => WorkerKeepsSpared(before, ok, e, open, d);
          case Lua(ok) => LuaKeepsSpared(before, ok, d);
          case Begin(c) => CallKeepsSpared(before, c, d);
        }
      }
    }
  }

  // ---------------------------------------------------------------- bound to run

  lemma Onward(s: State, more: seq<Action>, t: State, a: Action) returns (next: seq<Action>, u: State)
    requires t == RunFrom(s, more)
    ensures next == more + [a] && u == Step(t, a) && u == RunFrom(s, next)
  {
    next, u := more + [a], Step(t, a);
    assert next[..|next| - 1] == more;
  }

  const Succeed := Work(true, Ok, true)

  lemma GuardingRuns(s: State, more: seq<Action>, t: State) returns (next: seq<Action>)
    requires t == RunFrom(s, more) && t.worker.phase.Guarding? && t.p.ran != []
    ensures t.worker.d in RunFrom(s, next).p.executed
  {
    var u;
    next, u := Onward(s, more, t, Succeed);
    assert u.p.executed == t.p.executed + [t.worker.d];
  }

  lemma EnteringRuns(s: State, more: seq<Action>, t: State) returns (next: seq<Action>)
    requires t == RunFrom(s, more) && t.worker.phase.Entering? && t.p.ran != []
    requires t.f.sessionOpen || (!t.f.shuttingDown && t.f.autoReconnect)
    ensures t.worker.d in RunFrom(s, next).p.executed
  {
    var u;
    next, u := Onward(s, more, t, Succeed);
    if !t.f.sessionOpen {
      assert u.worker.phase.Reconnecting? && u.worker.d == t.worker.d && u.p == t.p;
      next, u := Onward(s, next, u, Succeed);
    }
    assert u.worker.phase.Guarding? && u.worker.d == t.worker.d && u.p == t.p;
    next := GuardingRuns(s, next, u);
  }

  lemma CheckedRuns(s: State, more: seq<Action>, t: State) returns (next: seq<Action>)
    requires t == RunFrom(s, more) && (t.worker.phase.Checked? || t.worker.phase.Entering?) && t.p.ran != []
    requires t.f.sessionOpen || (!t.f.shuttingDown && t.f.autoReconnect)
    ensures t.worker.d in RunFrom(s, next).p.executed
  {
    if t.worker.phase.Entering? {
      next := EnteringRuns(s, more, t);
    } else {
      var u;
      next, u := Onward(s, more, t, Succeed);
      assert u.worker.phase.Entering? && u.worker.d == t.worker.d && u.p == t.p && u.f == t.f;
      next := EnteringRuns(s, next, u);
    }
  }

  /** What is left of abort() or abortAllQueries() once the queue has been dealt with. */
  predicate Looking(m: Micro) {
    || m.ReadInFlight? || m.InFlightIfWaiting? || m.SetAborted? || m.ReadActive? || m.CancelActive? || m.CancelSent?
  }

  function Looks(lua: seq<Micro>): nat {
    if lua == [] then 0
    else Looks(lua[1..]) + match lua[0]
                           case ReadInFlight => 3
                           case InFlightIfWaiting(_) => 2
                           case ReadActive => 3
                           case CancelActive(_) => 2
                           case CloseAndClear => 2
                           case _ => 1
  }

  lemma LookingGoesOn(t: State)
    requires t.lua != [] && forall i :: 0 <= i < |t.lua| ==> Looking(t.lua[i])
    ensures LuaEnabled(t)
    ensures var u := LuaStep(t, true);
      && u.worker == t.worker && u.p == t.p && u.f == t.f
      && (forall i :: 0 <= i < |u.lua| ==> Looking(u.lua[i])) && Looks(u.lua) < Looks(t.lua)
  {
    var u := LuaStep(t, true);
    match t.lua[0] {
      case ReadInFlight =>
      case InFlightIfWaiting(_) =>
      case SetAborted(_) =>
      case ReadActive =>
      case CancelActive(_) =>
      case CancelSent(_) =>
    }
    assert u.lua == LuaNext(t) + t.lua[1..];
    if LuaNext(t) != [] { assert u.lua[1..] == t.lua[1..]; } else { assert u.lua == t.lua[1..]; }
  }

  /** The Lua thread can finish the call it is in while the worker stands still. */
  lemma {:induction false} CallCanEnd(s: State, more: seq<Action>, t: State) returns (next: seq<Action>, u: State)
    requires t == RunFrom(s, more) && forall i :: 0 <= i < |t.lua| ==> Looking(t.lua[i])
    ensures u == RunFrom(s, next) && u.lua == [] && u.worker == t.worker && u.p == t.p && u.f == t.f
    decreases Looks(t.lua)
  {
    next, u := more, t;
    if t.lua != [] {
      LookingGoesOn(t);
      next, u := Onward(s, more, t, Lua(true));
      next, u := CallCanEnd(s, next, u);
    }
  }

  lemma BoundRuns(t: State) returns (more: seq<Action>)
    requires Fits(t) && Bound(t)
    requires t.f.shuttingDown || forall i :: 0 <= i < |t.lua| ==> Looking(t.lua[i])
    ensures t.worker.d in RunFrom(t, more).p.executed
  {
    assert BeforeStatement(t.worker.phase) && t.p.ran != [];
    if t.worker.phase.Guarding? {
      more := GuardingRuns(t, [], t);
    } else if t.worker.phase.Reconnecting? {
      var u;
      more, u := Onward(t, [], t, Succeed);
      assert u.worker.phase.Guarding? && u.worker.d == t.worker.d && u.p == t.p;
      more := GuardingRuns(t, more, u);
    } else if t.f.sessionOpen || t.f.autoReconnect {
      more := CheckedRuns(t, [], t);
    } else {
      more := ReconnectRuns(t);
    }
  }

  /** Automatic reconnection may be switched on in time. */
  lemma ReconnectRuns(t: State) returns (more: seq<Action>)
    requires (t.worker.phase.Checked? || t.worker.phase.Entering?) && t.p.ran != [] && !t.f.shuttingDown
    requires forall i :: 0 <= i < |t.lua| ==> Looking(t.lua[i])
    ensures t.worker.d in RunFrom(t, more).p.executed
  {
    var u;
    more, u := CallCanEnd(t, [], t);
    SwitchesOn(u);
    more, u := Onward(t, more, u, Begin(SetAutoReconnect(true)));
    more := CheckedRuns(t, more, u);
  }

  lemma SwitchesOn(t: State)
    requires t.lua == []
    ensures Step(t, Begin(SetAutoReconnect(true))) == t.(f := t.f.(autoReconnect := true))
  {
  }

  // ---------------------------------------------------------------- the exact condition

  lemma TailsLook(s: State)
    requires LuaFits(s.p, s.execs, s.f, s.lua) && s.lua != [] && s.lua[0].SetAborted? && !s.f.shuttingDown
    ensures forall i :: 0 <= i < |s.lua| ==> Looking(s.lua[i])
  {
    forall i | 0 <= i < |s.lua| ensures Looking(s.lua[i]) {
      if i > 0 { assert Tail(s.lua[i]) && !s.lua[i].CloseAndClear?; }
    }
  }

  /** executeStatement is never called for `d` from here on, and has not been called. */
  ghost predicate NeverRuns(s: State, d: Id) { forall more :: d !in RunFrom(s, more).p.executed }

  lemma WriteFrame(s: State, ok: bool)
    requires s.lua != [] && s.lua[0].SetAborted?
    ensures var t := LuaStep(s, ok);
      t.p == s.p && t.worker == s.worker && t.f == s.f && t.lua == s.lua[1..] && Of(t, s.lua[0].d).status == Aborted
  {
  }

  lemma WriteKeepsBound(s: State, ok: bool)
    requires s.lua != [] && s.lua[0].SetAborted? && Bound(s) && LuaFits(s.p, s.execs, s.f, s.lua)
    ensures var t := LuaStep(s, ok);
      Bound(t) && t.worker == s.worker && (t.f.shuttingDown || forall i :: 0 <= i < |t.lua| ==> Looking(t.lua[i]))
  {
    WriteFrame(s, ok);
    if !s.f.shuttingDown { TailsLook(s); }
  }

  lemma BoundStays(s: State, ok: bool) returns (more: seq<Action>)
    requires Fits(s) && s.lua != [] && s.lua[0].SetAborted? && Bound(s)
    ensures s.worker.d in RunFrom(LuaStep(s, ok), more).p.executed
  {
    LuaKeepsFits(s, ok);
    WriteKeepsBound(s, ok);
    more := BoundRuns(LuaStep(s, ok));
  }

  lemma TooLateRuns(s: State, ok: bool)
    requires Fits(s) && s.lua != [] && s.lua[0].SetAborted? && TooLate(s, s.lua[0].d)
    ensures !NeverRuns(LuaStep(s, ok), s.lua[0].d)
  {
    var d := s.lua[0].d;
    var more := [];
    if d in s.p.executed { WriteFrame(s, ok); } else { more := BoundStays(s, ok); }
    assert d in RunFrom(LuaStep(s, ok), more).p.executed;
  }

  lemma InTimeSpares(s: State, ok: bool)
    requires Fits(s) && s.lua != [] && s.lua[0].SetAborted? && !TooLate(s, s.lua[0].d)
    ensures NeverRuns(LuaStep(s, ok), s.lua[0].d)
  {
    var d, t := s.lua[0].d, LuaStep(s, ok);
    WriteFrame(s, ok);
    LuaKeepsFits(s, ok);
    assert Spared(t, d);
    forall more ensures d !in RunFrom(t, more).p.executed { SparedAlong(t, more, d); }
  }

  /** An abort that is about to write QUERY_ABORTED outside the queue keeps the execution from ever running
      exactly when it is not too late at that moment: the statement has not begun, and the worker
      is not between its last look at the status and the statement with a session or the prospect of one. */
  lemma AbortHonouredExactly(run: seq<Action>, ok: bool)
    requires var s := Run(run); s.lua != [] && s.lua[0].SetAborted?
    ensures var s := Run(run); NeverRuns(LuaStep(s, ok), s.lua[0].d) <==> !TooLate(s, s.lua[0].d)
  {
    var s := Run(run);
    RunSound(run);
    if TooLate(s, s.lua[0].d) { TooLateRuns(s, ok); } else { InTimeSpares(s, ok); }
  }
}
