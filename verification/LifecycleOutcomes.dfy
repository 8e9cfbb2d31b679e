/** What the execution data says when a callback reads it. */
module LifecycleOutcomes {
  import opened QueryTypes
  import opened QueryLifecycle
  import opened LifecyclePlaces
  import opened LifecycleControl
  import opened LifecycleLua

  /** runCallback has a branch for it other than "should not happen". */
  predicate Deliverable(e: Exec) {
    e.status == Aborted || (e.status == Complete && e.result != NoResult)
  }

  /** Its callback is still ahead and the worker is through with it. */
  predicate AwaitsCallback(p: Places, d: Id) {
    d in p.finished || d in p.holding || d in p.toDeliver
  }

  predicate WorkerOutcome(execs: Execs, w: Worker) {
    && (w.phase.FailPut? || w.phase.Finishing? ==> Deliverable(Get(execs, w.d)))
    && (w.phase.Copying? ==> !w.ending.Ok?)
    && (w.phase.Unguarding? && w.ending.Ok? ==> Get(execs, w.d).result != NoResult)
    && (w.phase.PostRun? ==> Get(execs, w.d).result != NoResult || Get(execs, w.d).status == Aborted)
    && (w.phase.Completing? ==> Get(execs, w.d).result != NoResult)
  }

  ghost predicate OutcomesFit(s: State) {
    && WorkerOutcome(s.execs, s.worker)
    && forall d :: AwaitsCallback(s.p, d) ==> Deliverable(Of(s, d))
  }

  lemma AwaitingIsSettled(p: Places, d: Id)
    ensures AwaitsCallback(p, d) ==> Settled(p, d) > 0
  {
    assert forall s: seq<Id> :: d in s <==> Count(s, d) > 0;
  }

  // ---------------------------------------------------------------- the worker

  lemma StatementOutcome(s: State, ok: bool, e: Ending, open: bool)
    requires s.worker.phase.Handling? || s.worker.phase.Recovering? || s.worker.phase.PostRun? || s.worker.phase.Unguarding?
    requires WorkerOutcome(s.execs, s.worker)
    ensures var t := WorkerStep(s, ok, e, open); WorkerOutcome(t.execs, t.worker)
  {
    match s.worker.phase {
      case Handling =>
      case Recovering =>
      case PostRun =>
      case Unguarding =>
    }
  }

  lemma InStatementOutcome(s: State, ok: bool, e: Ending, open: bool)
    requires InStatement(s.worker.phase) || s.worker.phase.Succeeding?
    requires WorkerOutcome(s.execs, s.worker)
    ensures var t := WorkerStep(s, ok, e, open); WorkerOutcome(t.execs, t.worker)
  {
    match s.worker.phase {
      case Executing => RunningOutcome(s, ok, e, open);
      case Child => RunningOutcome(s, ok, e, open);
      case Copying => CopyingOutcome(s, ok, e, open);
      case Succeeding => SucceedingOutcome(s, ok, e, open);
    }
  }

  lemma RunningOutcome(s: State, ok: bool, e: Ending, open: bool)
    requires s.worker.phase.Executing? || s.worker.phase.Child?
    ensures var t := WorkerStep(s, ok, e, open); WorkerOutcome(t.execs, t.worker)
  {
  }

  lemma CopyingOutcome(s: State, ok: bool, e: Ending, open: bool)
    requires s.worker.phase.Copying? && !s.worker.ending.Ok?
    ensures var t := WorkerStep(s, ok, e, open); WorkerOutcome(t.execs, t.worker)
  {
  }

  lemma SucceedingOutcome(s: State, ok: bool, e: Ending, open: bool)
    requires s.worker.phase.Succeeding?
    ensures var t := WorkerStep(s, ok, e, open); WorkerOutcome(t.execs, t.worker)
  {
  }

  lemma LoopOutcome(s: State, ok: bool, e: Ending, open: bool)
    requires !AfterStatement(s.worker.phase) && !Draining(s.worker.phase)
    requires WorkerOutcome(s.execs, s.worker)
    ensures var t := WorkerStep(s, ok, e, open); WorkerOutcome(t.execs, t.worker)
  {
    if s.worker.phase.Published? || s.worker.phase.Locked? { SkippedOutcome(s, ok, e, open); }
  }

  lemma SkippedOutcome(s: State, ok: bool, e: Ending, open: bool)
    requires s.worker.phase.Published? || s.worker.phase.Locked?
    ensures var t := WorkerStep(s, ok, e, open); WorkerOutcome(t.execs, t.worker)
  {
  }

  lemma DrainingOutcome(s: State, ok: bool, e: Ending, open: bool)
    requires Draining(s.worker.phase) || s.worker.phase.Completing?
    requires WorkerOutcome(s.execs, s.worker)
    ensures var t := WorkerStep(s, ok, e, open); WorkerOutcome(t.execs, t.worker)
  {
    match s.worker.phase {
      case Failing =>
      case FailPut =>
      case FailFinish =>
      case Completing =>
    }
  }

  lemma WorkerKeepsWorkerOutcome(s: State, ok: bool, e: Ending, open: bool)
    requires WorkerOutcome(s.execs, s.worker)
    ensures var t := WorkerStep(s, ok, e, open); WorkerOutcome(t.execs, t.worker)
  {
    if InStatement(s.worker.phase) || s.worker.phase.Succeeding? {
      InStatementOutcome(s, ok, e, open);
    } else if Draining(s.worker.phase) || s.worker.phase.Completing? {
      DrainingOutcome(s, ok, e, open);
    } else if AfterStatement(s.worker.phase) {
      StatementOutcome(s, ok, e, open);
    } else {
      LoopOutcome(s, ok, e, open);
    }
  }

  lemma WorkerAwaits(s: State, d: Id)
    requires AwaitsCallback(Moved(s.p, WorkerMove(s)), d)
    ensures AwaitsCallback(s.p, d) || (s.worker.phase in {FailPut, Finishing} && s.p.hands != [] && d == s.p.hands[0])
  {
    match s.worker.phase {
      case FailPut =>
      case Finishing =>
      case Top =>
      case Guarding =>
      case ConnectFailed =>
      case _ =>
    }
  }

  /** Outside its loop over one execution the worker writes only results that may be delivered. */
  lemma WorkerWritesDeliverable(s: State, ok: bool, e: Ending, open: bool, d: Id)
    requires !Holds(s.worker.phase)
    requires Deliverable(Of(s, d))
    ensures Deliverable(Of(WorkerStep(s, ok, e, open), d))
  {
  }

  lemma WorkerKeepsOutcomesFit(s: State, ok: bool, e: Ending, open: bool)
    requires Fits(s) && OutcomesFit(s) && WorkerEnabled(s)
    ensures OutcomesFit(WorkerStep(s, ok, e, open))
  {
    var t := WorkerStep(s, ok, e, open);
    WorkerKeepsWorkerOutcome(s, ok, e, open);
    forall d | AwaitsCallback(t.p, d) ensures Deliverable(Of(t, d)) {
      WorkerAwaits(s, d);
      if Holds(s.worker.phase) {
        HeldAlone(s);
        AwaitingIsSettled(s.p, d);
        if Of(t, d) != Of(s, d) { WorkerWrites(s, ok, e, open, d); }
      } else {
        WorkerWritesDeliverable(s, ok, e, open, d);
      }
    }
  }

  // ---------------------------------------------------------------- the Lua thread

  predicate Harmless(before: Exec, after: Exec) {
    || (after.status == before.status && after.result == before.result)
    || (after.status == Aborted && after.result == before.result)
    || (after.status == Complete && after.result == Error)
  }

  lemma LuaWritesHarmless(s: State, ok: bool, d: Id)
    requires s.lua != []
    ensures Harmless(Of(s, d), Of(LuaStep(s, ok), d))
  {
  }

  lemma LuaAwaits(s: State, ok: bool, d: Id)
    requires s.lua != [] && AwaitsCallback(Moved(s.p, LuaMove(s)), d)
    ensures AwaitsCallback(s.p, d) || Deliverable(Of(LuaStep(s, ok), d))
  {
    if Empties(s.lua[0]) { LuaEmptiedAwaits(s, ok, d); } else if s.lua[0].FinishHolding? { LuaFinishedAwaits(s, d); } else { LuaOneAwaits(s, ok, d); }
  }

  lemma LuaEmptiedAwaits(s: State, ok: bool, d: Id)
    requires s.lua != [] && Empties(s.lua[0]) && AwaitsCallback(Moved(s.p, LuaMove(s)), d)
    ensures AwaitsCallback(s.p, d) || Deliverable(Of(LuaStep(s, ok), d))
  {
  }

  lemma LuaFinishedAwaits(s: State, d: Id)
    requires s.lua != [] && s.lua[0].FinishHolding? && AwaitsCallback(Moved(s.p, LuaMove(s)), d)
    ensures AwaitsCallback(s.p, d)
  {
  }

  lemma LuaOneAwaits(s: State, ok: bool, d: Id)
    requires s.lua != [] && !Empties(s.lua[0]) && !s.lua[0].FinishHolding? && AwaitsCallback(Moved(s.p, LuaMove(s)), d)
    ensures AwaitsCallback(s.p, d) || Deliverable(Of(LuaStep(s, ok), d))
  {
    match s.lua[0] {
      case AbortRemove(x) =>
      case WaitRemove(x) =>
      case WaitFallback(x) =>
      case EnqueuePut(x) =>
      case _ =>
    }
  }

  lemma LuaKeepsOutcomesFit(s: State, ok: bool)
    requires OutcomesFit(s) && s.lua != []
    ensures OutcomesFit(LuaStep(s, ok))
  {
    var t := LuaStep(s, ok);
    LuaWritesHarmless(s, ok, s.worker.d);
    forall d | AwaitsCallback(t.p, d) ensures Deliverable(Of(t, d)) {
      LuaAwaits(s, ok, d);
      LuaWritesHarmless(s, ok, d);
    }
  }

  lemma CallAwaits(p: Places, c: Call, d: Id)
    requires AwaitsCallback(Moved(p, CallMove(c)), d)
    ensures AwaitsCallback(p, d)
  {
  }

  lemma CallKeepsOutcomesFit(s: State, c: Call)
    requires Fits(s) && OutcomesFit(s) && CallEnabled(s, c)
    ensures OutcomesFit(CallStep(s, c))
  {
    var t := CallStep(s, c);
    forall d | AwaitsCallback(t.p, d) ensures Deliverable(Of(t, d)) {
      CallAwaits(s.p, c, d);
      AwaitingIsSettled(s.p, d);
      PlacedIsAccepted(s.p, d);
    }
    if s.worker.phase.FailPut? || s.worker.phase.Finishing? || s.worker.phase.PostRun? || s.worker.phase.Completing? {
      Apart(s.p, s.worker.d);
      assert s.worker.d in s.p.accepted;
    }
  }

  lemma StepKeepsOutcomesFit(s: State, a: Action)
    requires Fits(s) && OutcomesFit(s)
    ensures OutcomesFit(Step(s, a))
  {
    if Enabled(s, a) {
      match a {
        case Work(ok, e, open) => WorkerKeepsOutcomesFit(s, ok, e, open);
        case Lua(ok) => LuaKeepsOutcomesFit(s, ok);
        case Begin(c) => CallKeepsOutcomesFit(s, c);
      }
    }
  }
}
