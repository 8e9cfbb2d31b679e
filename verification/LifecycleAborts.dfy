/** When QUERY_ABORTED is reported, and what it says about the statement. */
module LifecycleAborts {
  import opened QueryTypes
  import opened QueryLifecycle
  import opened LifecyclePlaces
  import opened LifecycleControl
  import opened LifecycleLua

  /** QUERY_RUNNING has been written and executeStatement is still ahead. */
  predicate AboutToRun(ph: Phase) { ph.Entering? || ph.Reconnecting? || ph.Guarding? }

  predicate Started(p: Places, w: Worker, d: Id) {
    d in p.executed || (AboutToRun(w.phase) && d == w.d)
  }

  /** cancel() matched it as the active query, or one of its children as the published child. */
  ghost predicate Cancelled(m: Marks, d: Id) { d in m.cancelled || exists i: nat :: Kid(d, i) in m.kids }

  /** A started execution is aborted only by such a cancel or a late write. */
  ghost predicate StartedHonest(e: Exec, m: Marks, d: Id) {
    e.status != Waiting && (e.status == Aborted ==> Cancelled(m, d) || d in m.late)
  }

  ghost predicate AbortsFit(s: State) {
    && (forall d :: Of(s, d).cancelRequested ==> Cancelled(s.marks, d))
    && s.kids.raised <= s.marks.kids
    && (forall d :: Started(s.p, s.worker, d) ==> StartedHonest(Of(s, d), s.marks, d))
  }

  lemma ExecutedWasTaken(p: Places, d: Id)
    requires Ledger(p) && d in p.executed
    ensures d in p.taken && d in p.accepted && d !in p.queue && d !in p.retired
  {
    ChosenAmong(p.taken, p.ran);
    assert d in multiset(p.executed);
    assert d in multiset(p.taken);
    Apart(p, d);
  }

  /** What the worker holds before the statement has not been executed. */
  lemma NotYetExecuted(p: Places, d: Id)
    requires Ledger(p) && LastTaken(p, d)
    ensures d !in p.executed
  {
    var n := |p.taken|;
    ChosenAmong(p.taken[..n - 1], p.ran[..n - 1]);
    assert p.taken == p.taken[..n - 1] + [d];
    assert Count(p.taken, d) == Count(p.taken[..n - 1], d) + 1;
    assert Balanced(Count(p.accepted, d), Count(p.queue, d), Count(p.taken, d), Count(p.retired, d));
    assert Count(Chosen(p.taken[..n - 1], p.ran[..n - 1]), d) == 0;
    assert p.executed == Chosen(p.taken[..n - 1], p.ran[..n - 1]);
  }

  // ---------------------------------------------------------------- the worker

  lemma StartedWasTaken(s: State, d: Id)
    requires Ledger(s.p) && WorkerFits(s.p, s.worker) && Started(s.p, s.worker, d)
    ensures d in s.p.taken && d in s.p.accepted && d !in s.p.queue
  {
    if d in s.p.executed { ExecutedWasTaken(s.p, d); } else { Apart(s.p, d); }
  }

  lemma WorkerStarts(s: State, ok: bool, e: Ending, open: bool, d: Id)
    requires WorkerFits(s.p, s.worker)
    requires var t := WorkerStep(s, ok, e, open); Started(t.p, t.worker, d)
    ensures Started(s.p, s.worker, d) || (s.worker.phase.Checked? && d == s.worker.d)
  {
    match s.worker.phase {
      case Checked =>
      case Entering =>
      case Reconnecting =>
      case Guarding =>
      case Top =>
      case Finishing =>
      case ConnectFailed =>
      case FailPut =>
      case _ =>
    }
  }

  predicate WritesStatus(ph: Phase) {
    ph.Failing? || ph.Locked? || ph.Checked? || ph.Handling? || ph.Completing?
  }

  lemma WorkerStatusWrites(s: State, ok: bool, e: Ending, open: bool, d: Id)
    ensures var t := WorkerStep(s, ok, e, open);
      || Of(t, d).status == Of(s, d).status
      || Of(t, d).status == Complete
      || (d == s.worker.d && s.worker.phase.Locked? && Of(t, d).status == Aborted)
      || (d == s.worker.d && s.worker.phase.Checked? && Of(t, d).status == Running)
      || (d == s.worker.d && s.worker.phase.Handling? && Of(s, d).cancelRequested && Of(t, d).status == Aborted)
  {
    if WritesStatus(s.worker.phase) {
      match s.worker.phase {
        case Failing =>
        case Locked =>
        case Checked =>
        case Handling =>
        case Completing =>
      }
    } else {
      assert Of(WorkerStep(s, ok, e, open), d).status == Of(s, d).status;
    }
  }

  /** The worker raises a flag only when it collects a child's. */
  lemma WorkerFlagWrites(s: State, ok: bool, e: Ending, open: bool, d: Id)
    ensures Of(WorkerStep(s, ok, e, open), d).cancelRequested ==>
      Of(s, d).cancelRequested || (d == s.worker.d && Kid(d, s.worker.at) in s.kids.raised)
  {
    if s.worker.phase.Copying? {
    } else if s.worker.phase.Handling? {
    } else {
      assert Of(WorkerStep(s, ok, e, open), d).cancelRequested ==> Of(s, d).cancelRequested;
    }
  }

  lemma WorkerKeepsStarted(s: State, ok: bool, e: Ending, open: bool, d: Id)
    requires Ledger(s.p) && WorkerFits(s.p, s.worker)
    requires Of(s, d).cancelRequested ==> Cancelled(s.marks, d)
    requires Started(s.p, s.worker, d) ==> StartedHonest(Of(s, d), s.marks, d)
    ensures var t := WorkerStep(s, ok, e, open); Started(t.p, t.worker, d) ==> StartedHonest(Of(t, d), t.marks, d)
  {
    var t := WorkerStep(s, ok, e, open);
    if Started(t.p, t.worker, d) {
      WorkerStarts(s, ok, e, open, d);
      WorkerStatusWrites(s, ok, e, open, d);
      if d == s.worker.d && s.worker.phase.Locked? { NotYetExecuted(s.p, d); }
    }
  }

  lemma WorkerKeepsAbortsFit(s: State, ok: bool, e: Ending, open: bool)
    requires Fits(s) && AbortsFit(s) && WorkerEnabled(s)
    ensures AbortsFit(WorkerStep(s, ok, e, open))
  {
    var t := WorkerStep(s, ok, e, open);
    assert t.marks == s.marks;
    assert t.kids.raised == s.kids.raised;
    forall d | Of(t, d).cancelRequested ensures Cancelled(t.marks, d) {
      WorkerFlagWrites(s, ok, e, open, d);
      if !Of(s, d).cancelRequested { assert Kid(d, s.worker.at) in s.marks.kids; }
    }
    forall d | Started(t.p, t.worker, d) ensures StartedHonest(Of(t, d), t.marks, d) { WorkerKeepsStarted(s, ok, e, open, d); }
  }

  // ---------------------------------------------------------------- the Lua thread

  lemma LuaFlagWrites(s: State, ok: bool, d: Id)
    requires s.lua != []
    ensures var t := LuaStep(s, ok);
      Of(t, d).cancelRequested ==> Of(s, d).cancelRequested || d in t.marks.cancelled
    ensures LuaStep(s, ok).kids.raised <= s.kids.raised + LuaStep(s, ok).marks.kids
  {
    match s.lua[0] {
      case CancelActive(x) =>
      case CancelSent(x) =>
      case CancelKid(x) =>
      case KidSent(x) =>
      case _ =>
    }
  }

  lemma LuaStatusWrites(s: State, ok: bool, d: Id)
    requires s.lua != []
    ensures var t := LuaStep(s, ok);
      || Of(t, d).status == Of(s, d).status
      || (Of(t, d).status == Aborted && ((s.lua[0].SetAborted? && d == s.lua[0].d) || d in s.p.queue))
      || (s.lua[0].EnqueuePut? && d == s.lua[0].d)
      || (Of(t, d).status == Complete && d in s.p.queue)
      || (Of(t, d).status == Complete && s.lua[0].WaitFallback? && d == s.lua[0].d && !Of(s, d).finished)
  {
    match s.lua[0] {
      case EnqueuePut(x) =>
      case AbortRemove(x) =>
      case SetAborted(x) =>
      case CancelActive(x) =>
      case CancelSent(x) =>
      case ClearQueued =>
      case CloseAndClear =>
      case WaitRemove(x) =>
      case WaitFallback(x) =>
      case _ =>
    }
  }

  lemma LuaMarksFrame(s: State, d: Id)
    requires s.lua != []
    ensures var m, n := s.marks, LuaMarks(s);
      && m.cancelled <= n.cancelled && m.kids <= n.kids && m.late <= n.late
      && (s.lua[0].SetAborted? && d == s.lua[0].d && Of(s, d).status != Waiting ==> d in n.late)
      && (Cancelled(m, d) ==> Cancelled(n, d))
  {
    match s.lua[0] {
      case SetAborted(x) =>
      case CancelActive(x) =>
      case CancelKid(x) =>
      case _ =>
    }
  }

  lemma LuaKeepsStarted(s: State, ok: bool, d: Id)
    requires Fits(s) && s.lua != []
    requires Started(s.p, s.worker, d) && StartedHonest(Of(s, d), s.marks, d)
    ensures StartedHonest(Of(LuaStep(s, ok), d), LuaMarks(s), d)
  {
    StartedWasTaken(s, d);
    LuaStatusWrites(s, ok, d);
    LuaMarksFrame(s, d);
  }

  lemma LuaKeepsAbortsFit(s: State, ok: bool)
    requires Fits(s) && AbortsFit(s) && s.lua != []
    ensures AbortsFit(LuaStep(s, ok))
  {
    var t := LuaStep(s, ok);
    LuaMoveFrame(s);
    LuaMarksFrame(s, 0);
    LuaFlagWrites(s, ok, 0);
    forall d | Of(t, d).cancelRequested ensures Cancelled(t.marks, d) {
      LuaFlagWrites(s, ok, d);
      LuaMarksFrame(s, d);
    }
    forall d | Started(t.p, t.worker, d) ensures StartedHonest(Of(t, d), t.marks, d) { LuaKeepsStarted(s, ok, d); }
  }

  lemma CallKeepsAbortsFit(s: State, c: Call)
    requires Fits(s) && AbortsFit(s) && CallEnabled(s, c)
    ensures AbortsFit(CallStep(s, c))
  {
    var t := CallStep(s, c);
    CallFrame(s.p, c);
    CallQueueFrame(s.p, c);
    assert t.marks == s.marks.(atShutdown := t.marks.atShutdown) && t.kids.raised == s.kids.raised;
    forall d ensures Cancelled(t.marks, d) <==> Cancelled(s.marks, d) {}
    forall d | Started(t.p, t.worker, d) ensures StartedHonest(Of(t, d), t.marks, d) {
      assert Started(s.p, s.worker, d);
      StartedWasTaken(s, d);
    }
  }

  lemma StepKeepsAbortsFit(s: State, a: Action)
    requires Fits(s) && AbortsFit(s)
    ensures AbortsFit(Step(s, a))
  {
    if Enabled(s, a) {
      match a {
        case Work(ok, e, open) => WorkerKeepsAbortsFit(s, ok, e, open);
        case Lua(ok) => LuaKeepsAbortsFit(s, ok);
        case Begin(c) => CallKeepsAbortsFit(s, c);
      }
    }
  }
}
