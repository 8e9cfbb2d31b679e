/** What holds of a query execution over every run of QueryLifecycle. */
module LifecycleTheorems {
  import opened QueryTypes
  import opened QueryLifecycle
  import opened LifecyclePlaces
  import opened LifecycleControl
  import opened LifecycleLua
  import opened LifecycleOutcomes
  import opened LifecycleAborts
  import opened LifecycleShutdown

  ghost predicate Sound(s: State) {
    Fits(s) && OutcomesFit(s) && AbortsFit(s) && ShutdownFits(s)
  }

  lemma InitialSound()
    ensures Sound(Initial)
  {
    InitialFits();
    assert OutcomesFit(Initial);
    assert AbortsFit(Initial);
    assert ShutdownFits(Initial);
  }

  lemma {:induction false} SoundAlong(s: State, run: seq<Action>)
    requires Sound(s)
    ensures Sound(RunFrom(s, run))
  {
    if run != [] {
      var before, a := RunFrom(s, run[..|run| - 1]), run[|run| - 1];
      SoundAlong(s, run[..|run| - 1]);
      StepKeepsFits(before, a);
      StepKeepsOutcomesFit(before, a);
      StepKeepsAbortsFit(before, a);
      StepKeepsShutdownFits(before, a);
      assert RunFrom(s, run) == Step(before, a);
    }
  }

  lemma RunSound(run: seq<Action>)
    ensures Sound(Run(run))
  {
    InitialSound();
    SoundAlong(Initial, run);
  }

  lemma {:induction false} RunConcat(s: State, run: seq<Action>, more: seq<Action>)
    ensures RunFrom(s, run + more) == RunFrom(RunFrom(s, run), more)
  {
    if more == [] {
      assert run + more == run;
    } else {
      var fewer := more[..|more| - 1];
      RunConcat(s, run, fewer);
      assert (run + more)[..|run + more| - 1] == run + fewer;
    }
  }

  // ---------------------------------------------------------------- delivery

  /** Conservation over every run: the copies of an execution in the queue, with the worker, in the
      finished list, with the Lua thread and delivered are its acceptance plus its fallbacks. */
  lemma ExecutionsAreConserved(run: seq<Action>, d: Id)
    ensures var p := Run(run).p;
      Copies(p, d) == Count(p.accepted, d) + Count(p.fallbacks, d) && Count(p.accepted, d) <= 1
  {
    var p := Run(run).p;
    RunSound(run);
    assert Balanced(Count(p.accepted, d), Count(p.queue, d), Count(p.taken, d), Count(p.retired, d));
  }

  /** Delivery is exactly once precisely in the runs that never take the wait fallback. */
  lemma ExactlyOnceIffNoFallback(run: seq<Action>)
    ensures var p := Run(run).p;
      (forall d :: Copies(p, d) == Count(p.accepted, d)) <==> p.fallbacks == []
  {
    var p := Run(run).p;
    RunSound(run);
    if p.fallbacks != [] {
      var d := p.fallbacks[0];
      assert Count(p.fallbacks, d) > 0;
      assert Copies(p, d) != Count(p.accepted, d);
    }
  }

  /** The fallback is taken exactly by a wait() that reaches it while its execution is not finished, and
      then the connect has failed and the worker is completing what was queued. */
  lemma FallbackTakenExactly(run: seq<Action>, a: Action)
    ensures var s := Run(run);
      && (Step(s, a).p.fallbacks != s.p.fallbacks <==>
            a.Lua? && s.lua != [] && s.lua[0].WaitFallback? && !Of(s, s.lua[0].d).finished)
      && (Step(s, a).p.fallbacks != s.p.fallbacks ==> s.f.failed && Draining(s.worker.phase))
  {
    var s := Run(run);
    RunSound(run);
    match a {
      case Work(ok, e, open) => WorkerNeverFallsBack(s, ok, e, open);
      case Lua(ok) => if LuaEnabled(s) { LuaFallsBackExactly(s, ok); }
      case Begin(c) => CallFrame(s.p, c);
    }
    if s.lua != [] && s.lua[0].WaitFallback? && !Of(s, s.lua[0].d).finished { FallbackAfterFailedConnect(s); }
  }

  lemma WorkerNeverFallsBack(s: State, ok: bool, e: Ending, open: bool)
    ensures WorkerStep(s, ok, e, open).p.fallbacks == s.p.fallbacks
  {
  }

  lemma LuaFallsBackExactly(s: State, ok: bool)
    requires s.lua != []
    ensures LuaStep(s, ok).p.fallbacks != s.p.fallbacks <==> s.lua[0].WaitFallback? && !Of(s, s.lua[0].d).finished
  {
    if s.lua[0].WaitFallback? && !Of(s, s.lua[0].d).finished {
      assert |LuaStep(s, ok).p.fallbacks| == |s.p.fallbacks| + 1;
    }
  }

  /** The fallback needs a failed connect, so a run that connects delivers exactly once. */
  lemma ConnectedDeliversOnce(run: seq<Action>, d: Id)
    requires !Run(run).f.failed
    ensures Count(Run(run).p.delivered, d) <= 1
    ensures Count(Run(run).p.delivered, d) == 1 ==> d in Run(run).p.accepted
  {
    RunSound(run);
    ExecutionsAreConserved(run, d);
    assert Run(run).p.fallbacks == [];
    assert Count(Run(run).p.accepted, d) == 1 ==> d in multiset(Run(run).p.accepted);
  }

  /** When nothing is under way any more, everything accepted has been delivered. */
  lemma QuietMeansDelivered(run: seq<Action>, d: Id)
    requires var p := Run(run).p;
      p.queue == [] && p.hands == [] && p.finished == [] && p.holding == [] && p.toDeliver == []
    ensures var p := Run(run).p; Count(p.delivered, d) == Count(p.accepted, d) + Count(p.fallbacks, d)
  {
    ExecutionsAreConserved(run, d);
  }

  /** runCallback never takes the "should not happen" branch. */
  lemma CallbackHasOutcome(run: seq<Action>, d: Id)
    requires var p := Run(run).p; d in p.finished || d in p.toDeliver
    ensures var x := Of(Run(run), d); x.status == Aborted || (x.status == Complete && x.result in {Error, Success})
  {
    RunSound(run);
    assert AwaitsCallback(Run(run).p, d);
  }

  predicate InWait(m: Micro) {
    m.WaitFinished? || m.WaitIfWaiting? || m.WaitRemove? || m.WaitFallback? || m.WaitBlock?
  }

  lemma WaitReturnsFinished(s: State, ok: bool)
    requires LuaEnabled(s) && InWait(s.lua[0]) && LuaNext(s) == []
    ensures Of(LuaStep(s, ok), s.lua[0].d).finished
  {
    match s.lua[0] {
      case WaitFinished(d) =>
      case WaitIfWaiting(d) =>
      case WaitRemove(d) =>
      case WaitFallback(d) =>
      case WaitBlock(d) =>
    }
  }

  lemma WaitTouchesNoHands(s: State, ok: bool)
    requires Fits(s) && LuaEnabled(s) && InWait(s.lua[0])
    ensures LuaStep(s, ok).p.holding == [] && s.lua[0].d in LuaStep(s, ok).p.accepted
  {
    LuaMoveFrame(s);
  }

  /** When wait() returns, the execution is in the finished list or has left it already:
      the think() that follows has nothing to wait for. */
  lemma WaitThenThinkDelivers(run: seq<Action>, ok: bool)
    requires var s := Run(run); LuaEnabled(s) && InWait(s.lua[0]) && LuaNext(s) == []
    ensures var s := Run(run);
      var d, p := s.lua[0].d, LuaStep(s, ok).p;
      d in p.finished || d in p.toDeliver || d in p.delivered
  {
    var s := Run(run);
    var d, t := s.lua[0].d, LuaStep(s, ok);
    RunSound(run);
    LuaKeepsFits(s, ok);
    WaitReturnsFinished(s, ok);
    WaitTouchesNoHands(s, ok);
    assert FinishFitsAt(t.p, t.execs, t.worker, d);
    SettledIsDelivered(t.p, d);
  }

  lemma SettledIsDelivered(p: Places, d: Id)
    requires Settled(p, d) > 0 && p.holding == []
    ensures d in p.finished || d in p.toDeliver || d in p.delivered
  {
    assert Count(p.holding, d) == 0;
  }

  // ---------------------------------------------------------------- execution

  /** executeStatement is called at most once per execution, in the order the executions are
      taken, and never for one that left the queue by abort, shutdown or connect failure. */
  lemma ExecutedAtMostOnce(run: seq<Action>)
    ensures var p := Run(run).p;
      && |p.ran| == |p.taken| && p.executed == Chosen(p.taken, p.ran)
      && (forall d :: Count(p.executed, d) <= 1)
      && (forall d :: d in p.retired ==> d !in p.executed)
  {
    var p := Run(run).p;
    RunSound(run);
    ChosenAmong(p.taken, p.ran);
    forall d ensures Count(p.executed, d) <= 1 {
      assert Balanced(Count(p.accepted, d), Count(p.queue, d), Count(p.taken, d), Count(p.retired, d));
      assert multiset(p.executed)[d] <= multiset(p.taken)[d];
    }
    forall d | d in p.retired ensures d !in p.executed {
      if d in p.executed { ExecutedWasTaken(p, d); }
    }
  }

  /** A statement that ran is reported as aborted only after a cancel() that met it as the active query, or
      met one of its children while published, or after an abort that wrote QUERY_ABORTED too late. */
  lemma NoFalseAbort(run: seq<Action>, d: Id)
    requires d in Run(run).p.executed && Of(Run(run), d).status == Aborted
    ensures Cancelled(Run(run).marks, d) || d in Run(run).marks.late
  {
    RunSound(run);
    assert Started(Run(run).p, Run(run).worker, d);
  }

  // ---------------------------------------------------------------- shutdown

  /** Once m_shuttingDown is set at most one more executeStatement begins. */
  lemma ShutdownBound(run: seq<Action>, more: seq<Action>)
    requires Run(run).f.shuttingDown && !Run(run).worker.phase.Unstarted?
    ensures |Run(run + more).p.executed| <= |Run(run).p.executed| + 1
  {
    RunSound(run);
    RunSound(run + more);
    RunConcat(Initial, run, more);
    WorkerStepsBounded(Run(run), more);
  }

  /** ... and the worker ends: it takes a bounded number of steps, and when it cannot take another
      it has ended or waits for the Lua thread to finish closing the queue. */
  lemma ShutdownTerminates(run: seq<Action>, more: seq<Action>)
    requires Run(run).f.shuttingDown && !Run(run).worker.phase.Unstarted?
    ensures WorkerSteps(Run(run), more) <= Measure(Run(run))
    ensures var t := Run(run + more);
      !WorkerEnabled(t) ==> t.worker.phase.Exited? || (t.lua != [] && t.lua[|t.lua| - 1].CloseAndClear?)
  {
    RunSound(run);
    RunSound(run + more);
    RunConcat(Initial, run, more);
    WorkerStepsBounded(Run(run), more);
    var t := Run(run + more);
    if !WorkerEnabled(t) { WorkerNeverStuck(t); }
  }

  /** What the worker leaves behind when its thread ends. */
  lemma ExitedWorkerLeavesNothing(run: seq<Action>)
    requires Run(run).worker.phase.Exited?
    ensures var s := Run(run);
      && s.f.closed && s.p.queue == [] && s.p.hands == []
      && !s.f.sessionOpen && s.f.status != Connected && !s.f.canWait && s.f.active.None?
      && (forall d :: d in s.p.accepted ==> Of(s, d).finished)
  {
    RunSound(run);
    var s := Run(run);
    forall d | d in s.p.accepted ensures Of(s, d).finished {
      assert FinishFitsAt(s.p, s.execs, s.worker, d);
    }
  }
}
