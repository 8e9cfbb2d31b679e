/** What every step keeps of the two threads' own positions: the worker's program counter,
    the Lua program and the shared flags agree with where the executions are. */
module LifecycleControl {
  import opened QueryTypes
  import opened QueryLifecycle
  import opened LifecyclePlaces

  // ---------------------------------------------------------------- phases

  /** Holds an execution taken from the queue for which executeStatement has not been called. */
  predicate BeforeStatement(ph: Phase) {
    ph.Took? || ph.Published? || ph.Locked? || ph.Checked? || ph.Entering? || ph.Reconnecting? || ph.Guarding?
  }

  predicate AfterStatement(ph: Phase) {
    InStatement(ph) || ph.Succeeding? || ph.Unguarding? || ph.Handling? || ph.Recovering? || ph.PostRun? || ph.Completing?
  }

  predicate InStatement(ph: Phase) { ph.Executing? || ph.Child? || ph.Copying? }

  /** A Guard object is alive. */
  predicate Guarded(ph: Phase) { InStatement(ph) || ph.Succeeding? || ph.Unguarding? }

  predicate Holds(ph: Phase) { BeforeStatement(ph) || AfterStatement(ph) || ph.Finishing? }

  predicate Names(ph: Phase) { Holds(ph) || ph.PutDone? || ph.FinishSet? }

  predicate Serving(ph: Phase) { Names(ph) || ph.Top? || ph.Leaving? || ph.Exiting? }

  predicate FailedPhase(ph: Phase) { ph.ConnectFailed? || Draining(ph) }

  predicate Draining(ph: Phase) { ph.Failing? || ph.FailPut? || ph.FailFinish? }

  // ---------------------------------------------------------------- invariants

  predicate WorkerFits(p: Places, w: Worker) {
    && (Holds(w.phase) ==> p.hands == [w.d])
    && (w.phase.FailPut? ==> p.hands != [] && p.hands[0] == w.d)
    && (!Holds(w.phase) && !Draining(w.phase) ==> p.hands == [])
    && (BeforeStatement(w.phase) ==> LastTaken(p, w.d))
    && (Names(w.phase) ==> w.d in p.taken)
    && (w.phase.FailPut? || w.phase.FailFinish? ==> w.d in p.accepted)
  }

  predicate FlagsFit(p: Places, f: Flags, w: Worker) {
    && (Serving(w.phase) || w.phase.Connecting? ==> f.canWait && !f.failed)
    && (f.canWait ==> Serving(w.phase) || w.phase.Connecting?)
    && (f.canWait ==> f.started) && (f.started ==> !w.phase.Unstarted?)
    && (FailedPhase(w.phase) ==> f.failed)
    && (f.failed ==> FailedPhase(w.phase) || w.phase.Exited?)
    && (f.closed ==> p.queue == [] && (f.shuttingDown || f.failed))
    && (Draining(w.phase) || w.phase.Leaving? || w.phase.Exiting? || w.phase.Exited? ==> f.closed)
    && (p.fallbacks != [] ==> f.failed)
    && (f.inFlight.Some? ==> f.inFlight.value in p.taken)
    && (f.active.Some? ==> Guarded(w.phase) && f.active.value == w.d)
  }

  predicate KidsFit(kids: Children, w: Worker) {
    kids.alias.Some? ==> w.phase.Child? && kids.alias.value == Kid(w.d, w.kids)
  }

  /** Later micro-steps of a call only look around, or close the queue. */
  predicate Tail(m: Micro) { m.ReadInFlight? || m.ReadActive? || m.CloseAndClear? }

  predicate HeadFits(p: Places, execs: Execs, f: Flags, m: Micro) {
    match m
    case EnqueuePut(d) => d !in p.accepted && d in execs && !f.shuttingDown && Get(execs, d) == Exec(Waiting, NoResult, false, false)
    case AbortRemove(d) => d in p.accepted
    case AbortIfWaiting(d) => d in p.accepted && d !in p.queue
    case AbortIfRunning(d) => d in p.accepted && d !in p.queue
    case InFlightIfWaiting(d) => d in p.accepted && d !in p.queue
    case SetAborted(d) => d in p.accepted && d !in p.queue
    case CancelActive(d) => d in p.accepted && d !in p.queue
    case CancelSent(d) => d in p.accepted && d !in p.queue
    case WaitFinished(d) => d in p.accepted
    case WaitBlock(d) => d in p.accepted && f.started
    case WaitIfWaiting(d) => d in p.accepted && !f.canWait
    case WaitRemove(d) => d in p.accepted && !f.canWait
    case WaitFallback(d) => d in p.accepted && !f.canWait && d !in p.queue
    case _ => true
  }

  predicate LuaFits(p: Places, execs: Execs, f: Flags, lua: seq<Micro>) {
    && (lua != [] ==> HeadFits(p, execs, f, lua[0]))
    && (forall i :: 1 <= i < |lua| ==> Tail(lua[i]))
    && (lua != [] && lua[0].EnqueuePut? ==> |lua| == 1)
    && (p.holding != [] ==> |lua| == 1 && lua[0].FinishHolding?)
    && (f.shuttingDown && !f.closed ==> lua != [] && lua[|lua| - 1].CloseAndClear?)
    && (lua != [] && lua[0].FinishHolding? ==> |lua| == 1)
    && (forall i :: 0 <= i < |lua| - 1 ==> !lua[i].CloseAndClear?)
    && (lua != [] && lua[|lua| - 1].CloseAndClear? ==> f.shuttingDown)
  }

  /** What waits in the queue is untouched, and accepted executions have data. */
  ghost predicate QueueWaits(p: Places, execs: Execs) {
    && (forall d :: d in p.queue ==> Get(execs, d).status == Waiting && !Get(execs, d).finished)
    && (forall d :: d in p.accepted ==> d in execs)
  }

  /** The worker has put its execution into the finished list and not yet marked it finished. */
  predicate JustPut(ph: Phase) { ph.PutDone? || ph.FailFinish? }

  /** Accepted executions not yet marked finished are with the worker or in the queue;
      those marked finished are past both. */
  predicate FinishFitsAt(p: Places, execs: Execs, w: Worker, d: Id) {
    if Get(execs, d).finished then Settled(p, d) > 0
    else d in p.queue || d in p.hands || (JustPut(w.phase) && d == w.d)
  }

  ghost predicate FinishFits(p: Places, execs: Execs, w: Worker) {
    && (forall d :: d in p.accepted ==> FinishFitsAt(p, execs, w, d))
    && (JustPut(w.phase) ==> Settled(p, w.d) > 0)
  }

  ghost predicate Fits(s: State) {
    && Custody(s.p)
    && Ledger(s.p)
    && FinishFits(s.p, s.execs, s.worker)
    && WorkerFits(s.p, s.worker)
    && FlagsFit(s.p, s.f, s.worker)
    && KidsFit(s.kids, s.worker)
    && LuaFits(s.p, s.execs, s.f, s.lua)
    && QueueWaits(s.p, s.execs)
  }

  // ---------------------------------------------------------------- consequences

  lemma Apart(p: Places, d: Id)
    requires Ledger(p)
    ensures d in p.queue ==> d !in p.taken && d !in p.retired && d in p.accepted
    ensures d in p.taken ==> d in p.accepted && d !in p.retired
    ensures d in p.retired ==> d in p.accepted
  {
    assert Balanced(Count(p.accepted, d), Count(p.queue, d), Count(p.taken, d), Count(p.retired, d));
    assert forall s: seq<Id> :: d in s <==> Count(s, d) > 0;
  }

  lemma PlacedIsAccepted(p: Places, d: Id)
    requires Custody(p) && Ledger(p) && Copies(p, d) > 0
    ensures d in p.accepted
  {
    assert Copies(p, d) == Count(p.accepted, d) + Count(p.fallbacks, d);
    assert forall s: seq<Id> :: d in s <==> Count(s, d) > 0;
  }

  /** An execution the worker holds in its loop is nowhere else. */
  lemma HeldAlone(s: State)
    requires Custody(s.p) && Ledger(s.p) && WorkerFits(s.p, s.worker) && FlagsFit(s.p, s.f, s.worker)
    requires Holds(s.worker.phase)
    ensures Settled(s.p, s.worker.d) == 0 && s.worker.d !in s.p.queue
  {
    var p, d := s.p, s.worker.d;
    assert Copies(p, d) == Count(p.accepted, d) + Count(p.fallbacks, d);
    assert Balanced(Count(p.accepted, d), Count(p.queue, d), Count(p.taken, d), Count(p.retired, d));
    assert Count(p.hands, d) == 1;
    assert Count(p.queue, d) == 0;
  }

  // ---------------------------------------------------------------- the worker

  /** Between taking an execution and putting it back, apart from the call of executeStatement. */
  predicate MidRun(ph: Phase) { Holds(ph) && !ph.Guarding? && !ph.Finishing? }

  predicate HandsOver(ph: Phase) {
    ph.Top? || ph.Guarding? || ph.Finishing? || ph.ConnectFailed? || ph.FailPut?
  }

  lemma MidRunStays(s: State, ok: bool, e: Ending, open: bool)
    requires MidRun(s.worker.phase)
    ensures var t := WorkerStep(s, ok, e, open); t.p == s.p && t.worker.d == s.worker.d
  {
  }

  lemma MidRunPhase(s: State, ok: bool, e: Ending)
    requires MidRun(s.worker.phase)
    ensures var ph := NextPhase(s, ok, e);
      && Holds(ph) && (BeforeStatement(ph) ==> BeforeStatement(s.worker.phase))
      && (Guarded(s.worker.phase) && !s.worker.phase.Unguarding? ==> Guarded(ph))
  {
  }

  /** The worker's own fields are touched between take and finish, the others are not. */
  predicate MidRunFrame(f: Flags, g: Flags, w: Worker) {
    && g.closed == f.closed && g.shuttingDown == f.shuttingDown && g.canWait == f.canWait
    && g.failed == f.failed && g.started == f.started
    && (g.inFlight == f.inFlight || g.inFlight == Some(w.d))
    && (g.active == f.active || g.active.None?) && (w.phase.Unguarding? ==> g.active.None?)
  }

  lemma BeforeFlags(s: State, ok: bool, open: bool)
    requires BeforeStatement(s.worker.phase) && !s.worker.phase.Guarding?
    ensures MidRunFrame(s.f, WorkerFlags(s, ok, open), s.worker)
  {
    match s.worker.phase {
      case Took =>
      case Entering =>
      case Reconnecting =>
      case _ =>
    }
  }

  lemma AfterFlags(s: State, ok: bool, open: bool)
    requires AfterStatement(s.worker.phase)
    ensures MidRunFrame(s.f, WorkerFlags(s, ok, open), s.worker)
  {
    match s.worker.phase {
      case Executing =>
      case Unguarding =>
      case Handling =>
      case Recovering =>
      case _ =>
    }
  }

  lemma MidRunFlags(s: State, ok: bool, open: bool)
    requires MidRun(s.worker.phase)
    ensures MidRunFrame(s.f, WorkerFlags(s, ok, open), s.worker)
  {
    if BeforeStatement(s.worker.phase) { BeforeFlags(s, ok, open); } else { AfterFlags(s, ok, open); }
  }

  /** A child is published only by the step that begins it, and withdrawn by the one that ends it. */
  lemma WorkerKeepsKidsFit(s: State, ok: bool, e: Ending, open: bool)
    requires KidsFit(s.kids, s.worker)
    ensures var t := WorkerStep(s, ok, e, open); KidsFit(t.kids, t.worker)
  {
    if !s.worker.phase.Executing? && !s.worker.phase.Child? { assert WorkerKids(s, ok).alias.None?; }
  }

  lemma WorkerMoveProper(s: State)
    requires WorkerFits(s.p, s.worker)
    ensures Proper(s.p, WorkerMove(s))
  {
  }

  lemma LoopKeepsWorkerFits(s: State, ok: bool, e: Ending, open: bool)
    requires WorkerFits(s.p, s.worker) && WorkerEnabled(s)
    requires s.worker.phase.Top? || s.worker.phase.Guarding? || s.worker.phase.Finishing?
    requires |s.p.ran| == |s.p.taken|
    ensures var t := WorkerStep(s, ok, e, open); WorkerFits(t.p, t.worker)
  {
    match s.worker.phase {
      case Top =>
      case Guarding =>
      case Finishing =>
    }
  }

  lemma FailureKeepsWorkerFits(s: State, ok: bool, e: Ending, open: bool)
    requires WorkerFits(s.p, s.worker) && (s.worker.phase.ConnectFailed? || s.worker.phase.FailPut?)
    ensures var t := WorkerStep(s, ok, e, open); WorkerFits(t.p, t.worker)
  {
    match s.worker.phase {
      case ConnectFailed =>
      case FailPut =>
    }
  }

  lemma MidRunKeepsWorkerFits(s: State, ok: bool, e: Ending, open: bool)
    requires WorkerFits(s.p, s.worker) && MidRun(s.worker.phase)
    ensures var t := WorkerStep(s, ok, e, open); WorkerFits(t.p, t.worker)
  {
    MidRunStays(s, ok, e, open);
    MidRunPhase(s, ok, e);
  }

  lemma WorkerKeepsWorkerFits(s: State, ok: bool, e: Ending, open: bool)
    requires WorkerFits(s.p, s.worker) && WorkerEnabled(s)
    requires |s.p.ran| == |s.p.taken|
    requires s.p.hands != [] ==> s.p.hands[0] in s.p.accepted
    ensures var t := WorkerStep(s, ok, e, open); WorkerFits(t.p, t.worker)
  {
    if MidRun(s.worker.phase) {
      MidRunKeepsWorkerFits(s, ok, e, open);
    } else if s.worker.phase.ConnectFailed? || s.worker.phase.FailPut? {
      FailureKeepsWorkerFits(s, ok, e, open);
    } else if HandsOver(s.worker.phase) {
      LoopKeepsWorkerFits(s, ok, e, open);
    } else {
      BesideKeepsWorkerFits(s, ok, e, open);
    }
  }

  lemma BesideKeepsWorkerFits(s: State, ok: bool, e: Ending, open: bool)
    requires WorkerFits(s.p, s.worker) && WorkerEnabled(s)
    requires !MidRun(s.worker.phase) && !HandsOver(s.worker.phase)
    requires s.p.hands != [] ==> s.p.hands[0] in s.p.accepted
    ensures var t := WorkerStep(s, ok, e, open); WorkerFits(t.p, t.worker)
  {
    if Draining(s.worker.phase) {
      DrainingKeepsWorkerFits(s, ok, e, open);
    } else {
      assert WorkerMove(s) == Stay && NextPair(s) == s.worker.d;
    }
  }

  lemma DrainingKeepsWorkerFits(s: State, ok: bool, e: Ending, open: bool)
    requires WorkerFits(s.p, s.worker) && (s.worker.phase.Failing? || s.worker.phase.FailFinish?)
    requires s.p.hands != [] ==> s.p.hands[0] in s.p.accepted
    ensures var t := WorkerStep(s, ok, e, open); WorkerFits(t.p, t.worker)
  {
    match s.worker.phase {
      case Failing =>
      case FailFinish =>
    }
  }

  lemma HandOverKeepsFlagsFit(s: State, ok: bool, e: Ending, open: bool)
    requires FlagsFit(s.p, s.f, s.worker) && WorkerEnabled(s) && HandsOver(s.worker.phase)
    requires s.worker.phase.Guarding? ==> s.p.ran != []
    ensures var t := WorkerStep(s, ok, e, open); FlagsFit(t.p, t.f, t.worker)
  {
    if s.worker.phase.ConnectFailed? || s.worker.phase.FailPut? {
      FailureKeepsFlagsFit(s, ok, e, open);
    } else {
      LoopKeepsFlagsFit(s, ok, e, open);
    }
  }

  lemma FailureKeepsFlagsFit(s: State, ok: bool, e: Ending, open: bool)
    requires FlagsFit(s.p, s.f, s.worker) && (s.worker.phase.ConnectFailed? || s.worker.phase.FailPut?)
    ensures var t := WorkerStep(s, ok, e, open); FlagsFit(t.p, t.f, t.worker)
  {
    match s.worker.phase {
      case ConnectFailed =>
      case FailPut =>
    }
  }

  lemma LoopKeepsFlagsFit(s: State, ok: bool, e: Ending, open: bool)
    requires FlagsFit(s.p, s.f, s.worker) && WorkerEnabled(s)
    requires s.worker.phase.Top? || s.worker.phase.Guarding? || s.worker.phase.Finishing?
    requires s.worker.phase.Guarding? ==> s.p.ran != []
    ensures var t := WorkerStep(s, ok, e, open); FlagsFit(t.p, t.f, t.worker)
  {
    match s.worker.phase {
      case Top =>
      case Guarding =>
      case Finishing =>
    }
  }

  lemma DrainingKeepsFlagsFit(s: State, ok: bool, e: Ending, open: bool)
    requires FlagsFit(s.p, s.f, s.worker) && Draining(s.worker.phase)
    ensures var t := WorkerStep(s, ok, e, open); FlagsFit(t.p, t.f, t.worker)
  {
    DrainingFrame(s, ok, e, open);
  }

  lemma DrainingFrame(s: State, ok: bool, e: Ending, open: bool)
    requires Draining(s.worker.phase)
    ensures WorkerFlags(s, ok, open) == s.f && (NextPhase(s, ok, e).Exited? || Draining(NextPhase(s, ok, e)))
    ensures var p, q := s.p, Moved(s.p, WorkerMove(s)); q.queue == p.queue && q.taken == p.taken && q.fallbacks == p.fallbacks
  {
    match s.worker.phase {
      case Failing =>
      case FailPut =>
      case FailFinish =>
    }
  }

  lemma ReturnKeepsFlagsFit(s: State, ok: bool, e: Ending, open: bool)
    requires FlagsFit(s.p, s.f, s.worker) && (s.worker.phase.PutDone? || s.worker.phase.FinishSet?)
    ensures var t := WorkerStep(s, ok, e, open); FlagsFit(t.p, t.f, t.worker)
  {
    assert WorkerMove(s) == Stay;
  }

  predicate Boundary(ph: Phase) { ph.Connecting? || ph.Leaving? || ph.Exiting? }

  lemma BoundaryKeepsFlagsFit(s: State, ok: bool, e: Ending, open: bool)
    requires FlagsFit(s.p, s.f, s.worker) && Boundary(s.worker.phase)
    ensures var t := WorkerStep(s, ok, e, open); FlagsFit(t.p, t.f, t.worker)
  {
    assert WorkerMove(s) == Stay;
    if s.worker.phase.Connecting? { ConnectKeepsFlagsFit(s, ok, e, open); }
  }

  lemma ConnectKeepsFlagsFit(s: State, ok: bool, e: Ending, open: bool)
    requires FlagsFit(s.p, s.f, s.worker) && s.worker.phase.Connecting?
    ensures var t := WorkerStep(s, ok, e, open); FlagsFit(t.p, t.f, t.worker)
  {
    if ok { assert NextPhase(s, ok, e) == Top; } else { assert NextPhase(s, ok, e) == ConnectFailed; }
  }

  lemma WorkerKeepsFlagsFit(s: State, ok: bool, e: Ending, open: bool)
    requires WorkerFits(s.p, s.worker) && FlagsFit(s.p, s.f, s.worker) && WorkerEnabled(s)
    ensures var t := WorkerStep(s, ok, e, open); FlagsFit(t.p, t.f, t.worker)
  {
    if MidRun(s.worker.phase) {
      MidRunStays(s, ok, e, open);
      MidRunPhase(s, ok, e);
      MidRunFlags(s, ok, open);
    } else if HandsOver(s.worker.phase) {
      HandOverKeepsFlagsFit(s, ok, e, open);
    } else if Draining(s.worker.phase) {
      DrainingKeepsFlagsFit(s, ok, e, open);
    } else if Boundary(s.worker.phase) {
      BoundaryKeepsFlagsFit(s, ok, e, open);
    } else {
      ReturnKeepsFlagsFit(s, ok, e, open);
    }
  }

  lemma WorkerFrame(s: State)
    ensures var p, q := s.p, Moved(s.p, WorkerMove(s));
      && q.accepted == p.accepted && q.holding == p.holding
      && (q.queue == p.queue || (p.queue != [] && q.queue == p.queue[1..]) || q.queue == [])
  {
    match s.worker.phase {
      case Top =>
      case Guarding =>
      case Finishing =>
      case ConnectFailed =>
      case FailPut =>
      case _ =>
    }
  }

  lemma WorkerFlagFrame(s: State, ok: bool, open: bool)
    ensures var f, g := s.f, WorkerFlags(s, ok, open);
      g.shuttingDown == f.shuttingDown && g.started == f.started && (g.canWait ==> f.canWait) && (f.closed ==> g.closed)
  {
    if MidRun(s.worker.phase) { MidRunFlags(s, ok, open); } else { OtherFlags(s, ok, open); }
  }

  lemma OtherFlags(s: State, ok: bool, open: bool)
    requires !MidRun(s.worker.phase)
    ensures var f, g := s.f, WorkerFlags(s, ok, open);
      g.shuttingDown == f.shuttingDown && g.started == f.started && (g.canWait ==> f.canWait) && (f.closed ==> g.closed)
  {
    match s.worker.phase {
      case Guarding =>
      case ConnectFailed =>
      case Connecting =>
      case FinishSet =>
      case Leaving =>
      case Exiting =>
      case _ =>
    }
  }

  /** Worker steps change only the execution the worker names, or the first it drains. */
  lemma WorkerWrites(s: State, ok: bool, e: Ending, open: bool, d: Id)
    requires WorkerFits(s.p, s.worker)
    requires Of(WorkerStep(s, ok, e, open), d) != Of(s, d)
    ensures Draining(s.worker.phase) || (d == s.worker.d && Names(s.worker.phase))
    ensures s.worker.phase.Failing? ==> s.p.hands != [] && d == s.p.hands[0]
    ensures !s.worker.phase.Failing? ==> d == s.worker.d
  {
  }

  /** The worker does not touch what start is about to put into the queue. */
  lemma WorkerLeavesNew(s: State, ok: bool, e: Ending, open: bool, d: Id)
    requires Custody(s.p) && Ledger(s.p) && WorkerFits(s.p, s.worker) && d !in s.p.accepted
    ensures Of(WorkerStep(s, ok, e, open), d) == Of(s, d)
  {
    if Of(WorkerStep(s, ok, e, open), d) != Of(s, d) {
      WorkerWrites(s, ok, e, open, d);
      Apart(s.p, d);
      if s.worker.phase.Failing? {
        assert Copies(s.p, d) > 0;
        PlacedIsAccepted(s.p, d);
      }
    }
  }

  lemma WorkerKeepsHeadFits(s: State, ok: bool, e: Ending, open: bool, m: Micro)
    requires Custody(s.p) && Ledger(s.p) && WorkerFits(s.p, s.worker) && HeadFits(s.p, s.execs, s.f, m)
    ensures var t := WorkerStep(s, ok, e, open); HeadFits(t.p, t.execs, t.f, m)
  {
    WorkerFrame(s);
    WorkerFlagFrame(s, ok, open);
    if m.EnqueuePut? { WorkerLeavesNew(s, ok, e, open, m.d); }
  }

  lemma WorkerKeepsLuaFits(s: State, ok: bool, e: Ending, open: bool)
    requires Fits(s) && WorkerEnabled(s)
    ensures var t := WorkerStep(s, ok, e, open); LuaFits(t.p, t.execs, t.f, t.lua)
  {
    WorkerFrame(s);
    WorkerFlagFrame(s, ok, open);
    if s.lua != [] { WorkerKeepsHeadFits(s, ok, e, open, s.lua[0]); }
  }

  lemma WorkerKeepsQueueWaits(s: State, ok: bool, e: Ending, open: bool)
    requires Fits(s) && WorkerEnabled(s)
    ensures var t := WorkerStep(s, ok, e, open); QueueWaits(t.p, t.execs)
  {
    var t := WorkerStep(s, ok, e, open);
    WorkerFrame(s);
    forall d | d in t.p.queue ensures Of(t, d).status == Waiting && !Of(t, d).finished {
      assert d in s.p.queue;
      if Of(t, d) != Of(s, d) {
        WorkerWrites(s, ok, e, open, d);
        Apart(s.p, d);
        assert false;
      }
    }
  }

  lemma WorkerKeepsUnfinished(s: State, ok: bool, e: Ending, open: bool, d: Id)
    requires FinishFits(s.p, s.execs, s.worker) && WorkerFits(s.p, s.worker) && d in s.p.accepted
    ensures var t := WorkerStep(s, ok, e, open);
      !Of(t, d).finished ==> d in t.p.queue || d in t.p.hands || (JustPut(t.worker.phase) && d == t.worker.d)
  {
    if s.worker.phase.ConnectFailed? || s.worker.phase.FailPut? {
      FailureKeepsUnfinished(s, ok, e, open, d);
    } else if HandsOver(s.worker.phase) {
      LoopKeepsUnfinished(s, ok, e, open, d);
    } else {
      StayingKeepsUnfinished(s, ok, e, open, d);
    }
  }

  lemma LoopKeepsUnfinished(s: State, ok: bool, e: Ending, open: bool, d: Id)
    requires FinishFitsAt(s.p, s.execs, s.worker, d) && WorkerFits(s.p, s.worker)
    requires s.worker.phase.Top? || s.worker.phase.Guarding? || s.worker.phase.Finishing?
    ensures var t := WorkerStep(s, ok, e, open);
      !Of(t, d).finished ==> d in t.p.queue || d in t.p.hands || (JustPut(t.worker.phase) && d == t.worker.d)
  {
    match s.worker.phase {
      case Top =>
      case Guarding =>
      case Finishing =>
    }
  }

  lemma StayingKeepsUnfinished(s: State, ok: bool, e: Ending, open: bool, d: Id)
    requires FinishFits(s.p, s.execs, s.worker) && WorkerFits(s.p, s.worker) && d in s.p.accepted
    requires !HandsOver(s.worker.phase)
    ensures var t := WorkerStep(s, ok, e, open);
      !Of(t, d).finished ==> d in t.p.queue || d in t.p.hands || (JustPut(t.worker.phase) && d == t.worker.d)
  {
    assert WorkerMove(s) == Stay;
  }

  lemma FailureKeepsUnfinished(s: State, ok: bool, e: Ending, open: bool, d: Id)
    requires FinishFits(s.p, s.execs, s.worker) && WorkerFits(s.p, s.worker) && d in s.p.accepted
    requires s.worker.phase.ConnectFailed? || s.worker.phase.FailPut?
    ensures var t := WorkerStep(s, ok, e, open);
      !Of(t, d).finished ==> d in t.p.queue || d in t.p.hands || (JustPut(t.worker.phase) && d == t.worker.d)
  {
    match s.worker.phase {
      case ConnectFailed =>
      case FailPut =>
    }
  }

  lemma WorkerKeepsFinished(s: State, ok: bool, e: Ending, open: bool, d: Id)
    requires FinishFits(s.p, s.execs, s.worker) && WorkerFits(s.p, s.worker) && d in s.p.accepted
    ensures var t := WorkerStep(s, ok, e, open); Of(t, d).finished ==> Settled(t.p, d) > 0
  {
    MoveKeepsSettled(s.p, WorkerMove(s), d);
  }

  lemma WorkerPutSettles(s: State, ok: bool, e: Ending, open: bool)
    requires WorkerFits(s.p, s.worker)
    ensures var t := WorkerStep(s, ok, e, open); JustPut(t.worker.phase) ==> Settled(t.p, t.worker.d) > 0
  {
    var t := WorkerStep(s, ok, e, open);
    if JustPut(t.worker.phase) { assert Count(t.p.finished, t.worker.d) > 0; }
  }

  lemma WorkerKeepsFinishFits(s: State, ok: bool, e: Ending, open: bool)
    requires WorkerFits(s.p, s.worker) && FinishFits(s.p, s.execs, s.worker)
    ensures var t := WorkerStep(s, ok, e, open); FinishFits(t.p, t.execs, t.worker)
  {
    var t := WorkerStep(s, ok, e, open);
    WorkerFrame(s);
    forall d | d in t.p.accepted ensures FinishFitsAt(t.p, t.execs, t.worker, d) {
      assert FinishFitsAt(s.p, s.execs, s.worker, d);
      WorkerKeepsUnfinished(s, ok, e, open, d);
      WorkerKeepsFinished(s, ok, e, open, d);
    }
    WorkerPutSettles(s, ok, e, open);
  }

  lemma WorkerKeepsFits(s: State, ok: bool, e: Ending, open: bool)
    requires Fits(s) && WorkerEnabled(s)
    ensures Fits(WorkerStep(s, ok, e, open))
  {
    WorkerMoveProper(s);
    MoveKeepsCustody(s.p, WorkerMove(s));
    MoveKeepsLedger(s.p, WorkerMove(s));
    if s.p.hands != [] { PlacedIsAccepted(s.p, s.p.hands[0]); }
    WorkerKeepsWorkerFits(s, ok, e, open);
    WorkerKeepsFlagsFit(s, ok, e, open);
    WorkerKeepsKidsFit(s, ok, e, open);
    WorkerKeepsLuaFits(s, ok, e, open);
    WorkerKeepsQueueWaits(s, ok, e, open);
    WorkerKeepsFinishFits(s, ok, e, open);
  }
}
