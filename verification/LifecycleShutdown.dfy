/** Shutdown: how much still runs, that the worker ends, and what it leaves behind. */
module LifecycleShutdown {
  import opened QueryTypes
  import opened Sequences
  import opened QueryLifecycle
  import opened LifecycleControl
  import opened LifecycleLua

  /** The worker has passed its last look at m_shuttingDown and will call executeStatement. */
  predicate Committed(ph: Phase) { ph.Checked? || ph.Entering? || ph.Reconnecting? || ph.Guarding? }

  function Budget(ph: Phase): nat { if Committed(ph) then 1 else 0 }

  ghost predicate ShutdownFits(s: State) {
    && (s.f.shuttingDown ==>
          s.marks.atShutdown <= |s.p.executed| && |s.p.executed| + Budget(s.worker.phase) <= s.marks.atShutdown + 1)
    && SessionFits(s.f, s.worker.phase)
  }

  // ---------------------------------------------------------------- the bound

  lemma WorkerExecuted(s: State)
    ensures Moved(s.p, WorkerMove(s)).executed == s.p.executed
      || (s.worker.phase.Guarding? && |Moved(s.p, WorkerMove(s)).executed| == |s.p.executed| + 1)
  {
  }

  lemma WorkerBudget(s: State, ok: bool, e: Ending)
    requires s.f.shuttingDown
    ensures Budget(NextPhase(s, ok, e)) <= Budget(s.worker.phase)
    ensures s.worker.phase.Guarding? ==> Budget(NextPhase(s, ok, e)) == 0 && Budget(s.worker.phase) == 1
  {
  }

  lemma ServingGoesOn(s: State, ok: bool, e: Ending)
    requires Serving(s.worker.phase)
    ensures s.worker.phase.Exiting? || Serving(NextPhase(s, ok, e))
    ensures NextPhase(s, ok, e).Exiting? <==> s.worker.phase.Leaving?
  {
    if MidRun(s.worker.phase) { MidRunPhase(s, ok, e); }
  }

  /** Outside the loop only a first connection attempt, or the end of the thread, touches the session. */
  lemma SessionOutsideLoop(s: State, ok: bool, e: Ending, open: bool)
    requires WorkerEnabled(s) && !Serving(s.worker.phase)
    ensures WorkerFlags(s, ok, open).sessionOpen ==> s.f.sessionOpen || NextPhase(s, ok, e).Top?
    ensures WorkerFlags(s, ok, open).status == Connected ==> s.f.status == Connected || NextPhase(s, ok, e).Top?
  {
  }

  /** The session is open, and the status connected, only while the worker serves its loop. */
  predicate SessionFits(f: Flags, ph: Phase) {
    && (f.sessionOpen ==> Serving(ph) && !ph.Exiting?)
    && (f.status == Connected ==> Serving(ph))
  }

  lemma WorkerKeepsSession(s: State, ok: bool, e: Ending, open: bool)
    requires WorkerEnabled(s) && SessionFits(s.f, s.worker.phase)
    ensures var t := WorkerStep(s, ok, e, open); SessionFits(t.f, t.worker.phase)
  {
    if Serving(s.worker.phase) {
      ServingGoesOn(s, ok, e);
      if s.worker.phase.Leaving? || s.worker.phase.Exiting? {
        match s.worker.phase {
          case Leaving =>
          case Exiting =>
        }
      }
    } else {
      SessionOutsideLoop(s, ok, e, open);
    }
  }

  lemma WorkerKeepsShutdownFits(s: State, ok: bool, e: Ending, open: bool)
    requires ShutdownFits(s) && WorkerEnabled(s)
    ensures ShutdownFits(WorkerStep(s, ok, e, open))
  {
    WorkerFlagFrame(s, ok, open);
    WorkerExecuted(s);
    if s.f.shuttingDown { WorkerBudget(s, ok, e); }
    WorkerKeepsSession(s, ok, e, open);
    assert WorkerStep(s, ok, e, open).marks.atShutdown == s.marks.atShutdown;
  }

  lemma LuaKeepsShutdownFits(s: State, ok: bool)
    requires ShutdownFits(s) && s.lua != []
    ensures ShutdownFits(LuaStep(s, ok))
  {
    LuaMoveFrame(s);
    LuaFlagFrame(s);
    assert LuaMarks(s).atShutdown == s.marks.atShutdown;
    assert LuaFlags(s).status in {s.f.status, NotConnected};
  }

  lemma CallKeepsShutdownFits(s: State, c: Call)
    requires ShutdownFits(s) && FlagsFit(s.p, s.f, s.worker) && CallEnabled(s, c)
    ensures ShutdownFits(CallStep(s, c))
  {
    CallFrame(s.p, c);
    CallFlagFrame(s.f, c);
    match c {
      case Shutdown =>
      case Connect =>
      case PingFailed(_, _) =>
      case _ =>
    }
  }

  lemma StepKeepsShutdownFits(s: State, a: Action)
    requires Fits(s) && ShutdownFits(s)
    ensures ShutdownFits(Step(s, a))
  {
    if Enabled(s, a) {
      match a {
        case Work(ok, e, open) => WorkerKeepsShutdownFits(s, ok, e, open);
        case Lua(ok) => LuaKeepsShutdownFits(s, ok);
        case Begin(c) => CallKeepsShutdownFits(s, c);
      }
    }
  }

  // ---------------------------------------------------------------- termination

  /** Worker steps left, outside executeStatement, until the loop is back at its top or the thread has ended. */
  function StepsLeft(ph: Phase): nat {
    match ph
    case Connecting => 20
    case ConnectFailed => 2
    case Failing => 1
    case FailPut => 0
    case FailFinish => 2
    case Took => 20
    case Published => 19
    case Locked => 18
    case Checked => 17
    case Entering => 16
    case Reconnecting => 15
    case Guarding => 14
    case Executing => 13
    case Child => 13
    case Copying => 13
    case Succeeding => 12
    case Unguarding => 11
    case Handling => 10
    case Recovering => 9
    case PostRun => 8
    case Completing => 7
    case Finishing => 6
    case PutDone => 5
    case FinishSet => 4
    case Top => 3
    case Leaving => 2
    case Exiting => 1
    case Unstarted => 0
    case Exited => 0
  }

  function Measure(s: State): nat {
    20 * |s.p.queue| + (if Draining(s.worker.phase) then 3 * |s.p.hands| else 0) + StepsLeft(s.worker.phase)
  }

  /** A step of executeStatement itself: how many there are is up to the statement. */
  predicate InsideStatement(s: State, ok: bool, e: Ending) {
    InStatement(s.worker.phase) && InStatement(NextPhase(s, ok, e))
  }

  lemma MidRunDescends(s: State, ok: bool, e: Ending)
    requires MidRun(s.worker.phase)
    ensures StepsLeft(NextPhase(s, ok, e)) + (if InsideStatement(s, ok, e) then 0 else 1) <= StepsLeft(s.worker.phase)
  {
  }

  lemma HandOverDecreases(s: State, ok: bool, e: Ending, open: bool)
    requires WorkerFits(s.p, s.worker) && WorkerEnabled(s) && HandsOver(s.worker.phase)
    ensures Measure(WorkerStep(s, ok, e, open)) < Measure(s)
  {
    match s.worker.phase {
      case Top => TopDecreases(s, ok, e, open);
      case Guarding => KeepingDecreases(s, ok, e, open);
      case Finishing => KeepingDecreases(s, ok, e, open);
      case ConnectFailed => FailedDecreases(s, ok, e, open);
      case FailPut => FailPutDecreases(s, ok, e, open);
    }
  }

  lemma TopDecreases(s: State, ok: bool, e: Ending, open: bool)
    requires s.worker.phase.Top? && WorkerEnabled(s)
    ensures Measure(WorkerStep(s, ok, e, open)) < Measure(s)
  {
  }

  lemma KeepingDecreases(s: State, ok: bool, e: Ending, open: bool)
    requires s.worker.phase.Guarding? || s.worker.phase.Finishing?
    ensures Measure(WorkerStep(s, ok, e, open)) < Measure(s)
  {
    assert Moved(s.p, WorkerMove(s)).queue == s.p.queue;
  }

  lemma FailedDecreases(s: State, ok: bool, e: Ending, open: bool)
    requires s.worker.phase.ConnectFailed? && s.p.hands == []
    ensures Measure(WorkerStep(s, ok, e, open)) < Measure(s)
  {
  }

  lemma FailPutDecreases(s: State, ok: bool, e: Ending, open: bool)
    requires s.worker.phase.FailPut? && s.p.hands != []
    ensures Measure(WorkerStep(s, ok, e, open)) < Measure(s)
  {
  }

  /** Every step of the worker, but for those inside a statement, uses up some of what the queue and
      its position allow. */
  lemma StayingDecreases(s: State, ok: bool, e: Ending, open: bool)
    requires WorkerEnabled(s) && !MidRun(s.worker.phase) && !HandsOver(s.worker.phase)
    ensures Measure(WorkerStep(s, ok, e, open)) < Measure(s)
  {
    StayingDescends(s, ok, e);
  }

  lemma StayingDescends(s: State, ok: bool, e: Ending)
    requires WorkerEnabled(s) && !MidRun(s.worker.phase) && !HandsOver(s.worker.phase)
    ensures WorkerMove(s) == Stay
    ensures var left := (ph: Phase) => (if Draining(ph) then 3 * |s.p.hands| else 0) + StepsLeft(ph);
      left(NextPhase(s, ok, e)) < left(s.worker.phase)
  {
    match s.worker.phase {
      case Connecting =>
      case Failing =>
      case FailFinish =>
      case PutDone =>
      case FinishSet =>
      case Leaving =>
      case Exiting =>
    }
  }

  lemma WorkerStepDecreases(s: State, ok: bool, e: Ending, open: bool)
    requires WorkerFits(s.p, s.worker) && WorkerEnabled(s)
    ensures Measure(WorkerStep(s, ok, e, open)) + (if InsideStatement(s, ok, e) then 0 else 1) <= Measure(s)
  {
    if MidRun(s.worker.phase) {
      MidRunStays(s, ok, e, open);
      MidRunPhase(s, ok, e);
      MidRunDescends(s, ok, e);
    } else if HandsOver(s.worker.phase) {
      HandOverDecreases(s, ok, e, open);
    } else {
      StayingDecreases(s, ok, e, open);
    }
  }

  lemma LuaStepDoesNotIncrease(s: State, ok: bool)
    requires LuaFits(s.p, s.execs, s.f, s.lua) && s.f.shuttingDown && s.lua != []
    ensures Measure(LuaStep(s, ok)) <= Measure(s)
  {
    LuaMoveFrame(s);
    if Removes(s.lua[0]) { WithoutShrinks(s.p.queue, s.lua[0].d); }
  }

  lemma CallDoesNotIncrease(s: State, c: Call)
    requires CallEnabled(s, c) && s.f.shuttingDown && !s.worker.phase.Unstarted?
    ensures Measure(CallStep(s, c)) <= Measure(s)
  {
    CallFrame(s.p, c);
    if c.SwapToFront? { SwappedToFrontKeeps(s.p.queue, Is(c.d)); }
  }

  /** Once started, the worker stays started. */
  lemma StaysStarted(s: State, a: Action)
    requires !s.worker.phase.Unstarted?
    ensures !Step(s, a).worker.phase.Unstarted?
    ensures s.f.shuttingDown ==> Step(s, a).f.shuttingDown && Step(s, a).marks.atShutdown == s.marks.atShutdown
  {
    if a.Work? && WorkerEnabled(s) { WorkerFlagFrame(s, a.ok, a.stillOpen); }
    if a.Lua? && LuaEnabled(s) { LuaFlagFrame(s); }
  }

  /** The worker takes a step that is not inside a statement. */
  predicate Advances(s: State, a: Action) { a.Work? && WorkerEnabled(s) && !InsideStatement(s, a.ok, a.ending) }

  function WorkerSteps(s: State, run: seq<Action>): nat {
    if run == [] then 0
    else
      WorkerSteps(s, run[..|run| - 1]) + if Advances(RunFrom(s, run[..|run| - 1]), run[|run| - 1]) then 1 else 0
  }

  lemma StepUnderShutdown(s: State, a: Action)
    requires Fits(s) && s.f.shuttingDown && !s.worker.phase.Unstarted?
    ensures Measure(Step(s, a)) + (if Advances(s, a) then 1 else 0) <= Measure(s)
  {
    if Enabled(s, a) {
      match a {
        case Work(ok, e, open) => WorkerStepDecreases(s, ok, e, open);
        case Lua(ok) => LuaStepDoesNotIncrease(s, ok);
        case Begin(c) => CallDoesNotIncrease(s, c);
      }
    }
  }

  /** After m_shuttingDown is set the worker takes at most Measure(s) more steps outside statements,
      whatever the Lua thread and the environment do. */
  lemma {:induction false} WorkerStepsBounded(s: State, run: seq<Action>)
    requires Fits(s) && s.f.shuttingDown && !s.worker.phase.Unstarted?
    ensures WorkerSteps(s, run) + Measure(RunFrom(s, run)) <= Measure(s)
    ensures RunFrom(s, run).f.shuttingDown && !RunFrom(s, run).worker.phase.Unstarted?
    ensures RunFrom(s, run).marks.atShutdown == s.marks.atShutdown
  {
    if run != [] {
      var before, a := RunFrom(s, run[..|run| - 1]), run[|run| - 1];
      WorkerStepsBounded(s, run[..|run| - 1]);
      FitsAlong(s, run[..|run| - 1]);
      StepUnderShutdown(before, a);
      StaysStarted(before, a);
      assert RunFrom(s, run) == Step(before, a);
    }
  }

  /** Under shutdown the worker can only be waiting for the Lua thread to close the queue. */
  lemma WorkerNeverStuck(s: State)
    requires Fits(s) && s.f.shuttingDown && !WorkerEnabled(s)
    ensures s.worker.phase.Unstarted? || s.worker.phase.Exited?
      || (s.worker.phase.Top? && s.lua != [] && s.lua[|s.lua| - 1].CloseAndClear?)
  {
  }
}
