/** The Lua thread's steps and calls keep what LifecycleControl states. */
module LifecycleLua {
  import opened QueryTypes
  import opened Sequences
  import opened QueryLifecycle
  import opened LifecyclePlaces
  import opened LifecycleControl

  // ---------------------------------------------------------------- steps of a call

  lemma LuaMoveFrame(s: State)
    requires s.lua != []
    ensures var p, q := s.p, Moved(s.p, LuaMove(s));
      q.hands == p.hands && q.taken == p.taken && q.ran == p.ran && q.executed == p.executed && q.delivered == p.delivered
    ensures var p, q := s.p, Moved(s.p, LuaMove(s));
      q.accepted == p.accepted || (s.lua[0].EnqueuePut? && q.accepted == p.accepted + [s.lua[0].d])
    ensures !s.lua[0].WaitFallback? ==> Moved(s.p, LuaMove(s)).fallbacks == s.p.fallbacks
  {
  }

  predicate Removes(m: Micro) { m.AbortRemove? || m.WaitRemove? }

  predicate Empties(m: Micro) { m.ClearQueued? || m.CloseAndClear? }

  /** The Lua thread adds to the queue only what start puts there. */
  lemma LuaQueueFrame(s: State, d: Id)
    requires s.lua != [] && d in Moved(s.p, LuaMove(s)).queue
    ensures d in s.p.queue || (s.lua[0].EnqueuePut? && !s.f.closed && d == s.lua[0].d)
    ensures Removes(s.lua[0]) ==> d != s.lua[0].d
    ensures !Empties(s.lua[0])
  {
    if Removes(s.lua[0]) {
      WithoutMember(s.p.queue, s.lua[0].d, d);
    } else if s.lua[0].EnqueuePut? {
    } else if !Empties(s.lua[0]) {
      assert Moved(s.p, LuaMove(s)).queue == s.p.queue;
    }
  }

  /** The fallback of waitForQuery only meets executions of a failed connect. */
  lemma FallbackAfterFailedConnect(s: State)
    requires Fits(s) && s.lua != [] && s.lua[0].WaitFallback? && !Of(s, s.lua[0].d).finished
    ensures s.f.failed && Draining(s.worker.phase)
  {
    assert FinishFitsAt(s.p, s.execs, s.worker, s.lua[0].d);
  }

  lemma LuaClosedStaysEmpty(s: State)
    requires s.lua != [] && (s.f.closed ==> s.p.queue == []) && LuaFlags(s).closed
    ensures Moved(s.p, LuaMove(s)).queue == []
  {
    if Moved(s.p, LuaMove(s)).queue != [] { LuaQueueFrame(s, Moved(s.p, LuaMove(s)).queue[0]); }
  }

  lemma LuaFlagFrame(s: State)
    requires s.lua != []
    ensures LuaFlags(s) == s.f.(status := LuaFlags(s).status, closed := s.f.closed || s.lua[0].CloseAndClear?)
  {
  }

  lemma LuaKeepsFlagsFit(s: State, ok: bool)
    requires Fits(s) && s.lua != []
    ensures var t := LuaStep(s, ok); FlagsFit(t.p, t.f, t.worker)
  {
    LuaMoveFrame(s);
    LuaFlagFrame(s);
    if LuaFlags(s).closed { LuaClosedStaysEmpty(s); }
    if s.lua[0].WaitFallback? && !Of(s, s.lua[0].d).finished { FallbackAfterFailedConnect(s); }
  }

  lemma LuaKeepsWorkerFits(s: State, ok: bool)
    requires WorkerFits(s.p, s.worker) && s.lua != []
    ensures var t := LuaStep(s, ok); WorkerFits(t.p, t.worker)
  {
    LuaMoveFrame(s);
  }

  /** A step that has more to do of its call has moved nothing, unless it empties the queue. */
  lemma ContinuingMovesNothing(s: State)
    requires s.lua != [] && LuaNext(s) != [] && !s.lua[0].CloseAndClear? && !s.lua[0].FinishHolding?
    ensures Moved(s.p, LuaMove(s)) == s.p && LuaFlags(s) == s.f && !LuaNext(s)[0].EnqueuePut?
    ensures !LuaNext(s)[0].FinishHolding? && !LuaNext(s)[0].CloseAndClear?
  {
  }

  lemma LuaNextFits(s: State)
    requires Fits(s) && s.lua != [] && LuaNext(s) != [] && !s.lua[0].CloseAndClear? && !s.lua[0].FinishHolding?
    ensures HeadFits(s.p, s.execs, s.f, LuaNext(s)[0])
  {
    if s.lua[0].ReadInFlight? {
      Apart(s.p, s.f.inFlight.value);
    } else if s.lua[0].ReadActive? {
      Apart(s.p, s.f.active.value);
    } else {
      OwnNextFits(s);
    }
  }

  lemma OwnNextFits(s: State)
    requires s.lua != [] && LuaNext(s) != [] && !s.lua[0].CloseAndClear? && !s.lua[0].FinishHolding?
    requires !s.lua[0].ReadInFlight? && !s.lua[0].ReadActive?
    requires HeadFits(s.p, s.execs, s.f, s.lua[0]) && QueueWaits(s.p, s.execs) && (s.f.canWait ==> s.f.started)
    ensures HeadFits(s.p, s.execs, s.f, LuaNext(s)[0])
  {
    match s.lua[0] {
      case AbortRemove(d) =>
      case AbortIfWaiting(d) =>
      case AbortIfRunning(d) =>
      case InFlightIfWaiting(d) =>
      case CancelActive(d) =>
      case CancelKid(k) =>
      case WaitFinished(d) =>
      case WaitIfWaiting(d) =>
      case WaitRemove(d) =>
    }
  }

  lemma EndingKeepsLuaFits(s: State, ok: bool)
    requires s.lua != [] && LuaNext(s) == [] && !s.lua[0].FinishHolding?
    requires LuaFits(s.p, s.execs, s.f, s.lua)
    ensures var t := LuaStep(s, ok); LuaFits(t.p, t.execs, t.f, t.lua)
  {
    EndingFrame(s, ok);
    var t := LuaStep(s, ok);
    assert |s.lua| > 1 ==> Tail(s.lua[1]) && t.lua[0] == s.lua[1];
  }

  lemma EndingFrame(s: State, ok: bool)
    requires s.lua != [] && LuaNext(s) == [] && !s.lua[0].FinishHolding?
    ensures var t := LuaStep(s, ok);
      && t.lua == s.lua[1..] && t.p.holding == s.p.holding
      && t.f == s.f.(status := t.f.status, closed := s.f.closed)
  {
    LuaFlagFrame(s);
    assert [] + s.lua[1..] == s.lua[1..];
  }

  lemma ContinuingKeepsLuaFits(s: State, ok: bool)
    requires s.lua != [] && LuaNext(s) != [] && !s.lua[0].CloseAndClear? && !s.lua[0].FinishHolding?
    requires LuaFits(s.p, s.execs, s.f, s.lua)
    requires HeadFits(s.p, s.execs, s.f, LuaNext(s)[0]) && |LuaNext(s)| == 1
    ensures var t := LuaStep(s, ok); LuaFits(t.p, t.execs, t.f, t.lua)
  {
    var t := LuaStep(s, ok);
    ContinuingMovesNothing(s);
    assert t.lua == LuaNext(s) + s.lua[1..];
    assert forall i :: 1 <= i < |t.lua| ==> t.lua[i] == s.lua[i];
  }

  lemma ClosingKeepsLuaFits(s: State, ok: bool)
    requires s.lua != [] && (s.lua[0].CloseAndClear? || s.lua[0].FinishHolding?)
    requires LuaFits(s.p, s.execs, s.f, s.lua)
    ensures var t := LuaStep(s, ok); LuaFits(t.p, t.execs, t.f, t.lua)
  {
    assert |s.lua| == 1;
  }

  lemma OneNext(s: State)
    requires s.lua != [] && LuaNext(s) != []
    ensures |LuaNext(s)| == 1
  {
  }

  lemma LuaKeepsLuaFits(s: State, ok: bool)
    requires Fits(s) && LuaEnabled(s)
    ensures var t := LuaStep(s, ok); LuaFits(t.p, t.execs, t.f, t.lua)
  {
    if s.lua[0].CloseAndClear? || s.lua[0].FinishHolding? {
      ClosingKeepsLuaFits(s, ok);
    } else if LuaNext(s) != [] {
      LuaNextFits(s);
      OneNext(s);
      ContinuingKeepsLuaFits(s, ok);
    } else {
      EndingKeepsLuaFits(s, ok);
    }
  }

  lemma LuaKeepsQueueWaits(s: State, ok: bool)
    requires Fits(s) && s.lua != []
    ensures var t := LuaStep(s, ok); QueueWaits(t.p, t.execs)
  {
    var t := LuaStep(s, ok);
    LuaMoveFrame(s);
    forall d | d in t.p.queue ensures Of(t, d).status == Waiting && !Of(t, d).finished {
      LuaQueueFrame(s, d);
    }
  }

  lemma LuaKeepsFinishFits(s: State, ok: bool)
    requires Fits(s) && s.lua != []
    ensures var t := LuaStep(s, ok); FinishFits(t.p, t.execs, t.worker)
  {
    var t := LuaStep(s, ok);
    LuaMoveFrame(s);
    forall d | d in t.p.accepted ensures FinishFitsAt(t.p, t.execs, t.worker, d) {
      LuaKeepsFinishFitsAt(s, ok, d);
    }
    if JustPut(s.worker.phase) { MoveKeepsSettled(s.p, LuaMove(s), s.worker.d); }
  }

  lemma LuaRemovalKeepsFinishFits(s: State, ok: bool, d: Id)
    requires s.lua != [] && Removes(s.lua[0])
    requires FinishFitsAt(s.p, s.execs, s.worker, d)
    ensures var t := LuaStep(s, ok); FinishFitsAt(t.p, t.execs, t.worker, d)
  {
    if s.lua[0].AbortRemove? {
      LuaAbortKeepsFinishFits(s, ok, d);
    } else {
      LuaWaitKeepsFinishFits(s, ok, d);
    }
  }

  lemma LuaAbortKeepsFinishFits(s: State, ok: bool, d: Id)
    requires s.lua != [] && s.lua[0].AbortRemove?
    requires FinishFitsAt(s.p, s.execs, s.worker, d)
    ensures var t := LuaStep(s, ok); FinishFitsAt(t.p, t.execs, t.worker, d)
  {
    MoveKeepsSettled(s.p, LuaMove(s), d);
    WithoutMember(s.p.queue, s.lua[0].d, d);
  }

  lemma LuaWaitKeepsFinishFits(s: State, ok: bool, d: Id)
    requires s.lua != [] && s.lua[0].WaitRemove?
    requires FinishFitsAt(s.p, s.execs, s.worker, d)
    ensures var t := LuaStep(s, ok); FinishFitsAt(t.p, t.execs, t.worker, d)
  {
    var e := s.lua[0].d;
    WaitRemoveWrites(s, ok, e, d);
    if e in s.p.queue {
      WithoutMember(s.p.queue, e, d);
      WaitRemovalSettles(s.p, e, d);
    }
  }

  lemma WaitRemoveWrites(s: State, ok: bool, e: Id, d: Id)
    requires s.lua != [] && s.lua[0] == WaitRemove(e)
    ensures var t := LuaStep(s, ok);
      && t.p == Moved(s.p, CompleteQueued(e)) && t.worker == s.worker
      && Of(t, d).finished == ((d == e && e in s.p.queue) || Of(s, d).finished)
  {
  }

  lemma WaitRemovalSettles(p: Places, e: Id, d: Id)
    requires e in p.queue
    ensures Settled(Moved(p, CompleteQueued(e)), d) == Settled(p, d) + if d == e then 1 else 0
  {
    CountGrows(p.finished, e, d);
  }

  lemma LuaEmptyingKeepsFinishFits(s: State, ok: bool, d: Id)
    requires s.lua != [] && Empties(s.lua[0])
    requires FinishFitsAt(s.p, s.execs, s.worker, d)
    ensures var t := LuaStep(s, ok); FinishFitsAt(t.p, t.execs, t.worker, d)
  {
    MoveKeepsSettled(s.p, LuaMove(s), d);
    if d in s.p.queue { assert Count(s.p.queue, d) > 0; }
  }

  lemma LuaPlainKeepsFinishFits(s: State, ok: bool, d: Id)
    requires s.lua != [] && LuaMove(s) == Stay && !s.lua[0].EnqueuePut?
    requires FinishFitsAt(s.p, s.execs, s.worker, d)
    ensures var t := LuaStep(s, ok); FinishFitsAt(t.p, t.execs, t.worker, d)
  {
    assert Of(LuaStep(s, ok), d).finished == Of(s, d).finished;
  }

  lemma LuaKeepsFinishFitsAt(s: State, ok: bool, d: Id)
    requires s.lua != [] && HeadFits(s.p, s.execs, s.f, s.lua[0])
    requires d in s.p.accepted ==> FinishFitsAt(s.p, s.execs, s.worker, d)
    requires d in LuaStep(s, ok).p.accepted
    ensures var t := LuaStep(s, ok); FinishFitsAt(t.p, t.execs, t.worker, d)
  {
    if Removes(s.lua[0]) {
      LuaRemovalKeepsFinishFits(s, ok, d);
    } else if Empties(s.lua[0]) {
      LuaEmptyingKeepsFinishFits(s, ok, d);
    } else if s.lua[0].EnqueuePut? || s.lua[0].FinishHolding? || s.lua[0].WaitFallback? {
      LuaMovingKeepsFinishFits(s, ok, d);
    } else {
      LuaPlainKeepsFinishFits(s, ok, d);
    }
  }

  lemma LuaMovingKeepsFinishFits(s: State, ok: bool, d: Id)
    requires s.lua != [] && HeadFits(s.p, s.execs, s.f, s.lua[0])
    requires s.lua[0].EnqueuePut? || s.lua[0].FinishHolding? || s.lua[0].WaitFallback?
    requires d in s.p.accepted ==> FinishFitsAt(s.p, s.execs, s.worker, d)
    requires d in LuaStep(s, ok).p.accepted
    ensures var t := LuaStep(s, ok); FinishFitsAt(t.p, t.execs, t.worker, d)
  {
    match s.lua[0] {
      case EnqueuePut(e) => EnqueueKeepsFinishFits(s, ok, d);
      case FinishHolding => FinishHeldKeepsFinishFits(s, ok, d);
      case WaitFallback(e) => FallbackKeepsFinishFits(s, ok, d);
    }
  }

  lemma FinishHeldKeepsFinishFits(s: State, ok: bool, d: Id)
    requires s.lua != [] && s.lua[0].FinishHolding? && FinishFitsAt(s.p, s.execs, s.worker, d)
    ensures var t := LuaStep(s, ok); FinishFitsAt(t.p, t.execs, t.worker, d)
  {
    MoveKeepsSettled(s.p, LuaMove(s), d);
  }

  lemma FallbackKeepsFinishFits(s: State, ok: bool, d: Id)
    requires s.lua != [] && s.lua[0].WaitFallback? && FinishFitsAt(s.p, s.execs, s.worker, d)
    ensures var t := LuaStep(s, ok); FinishFitsAt(t.p, t.execs, t.worker, d)
  {
    MoveKeepsSettled(s.p, LuaMove(s), d);
  }

  lemma EnqueueKeepsFinishFits(s: State, ok: bool, d: Id)
    requires s.lua != [] && s.lua[0].EnqueuePut? && HeadFits(s.p, s.execs, s.f, s.lua[0])
    requires d in s.p.accepted ==> FinishFitsAt(s.p, s.execs, s.worker, d)
    requires d in LuaStep(s, ok).p.accepted
    ensures var t := LuaStep(s, ok); FinishFitsAt(t.p, t.execs, t.worker, d)
  {
    MoveKeepsSettled(s.p, LuaMove(s), d);
  }

  lemma LuaKeepsFits(s: State, ok: bool)
    requires Fits(s) && LuaEnabled(s)
    ensures Fits(LuaStep(s, ok))
  {
    MoveKeepsCustody(s.p, LuaMove(s));
    MoveKeepsLedger(s.p, LuaMove(s));
    LuaKeepsWorkerFits(s, ok);
    LuaKeepsFlagsFit(s, ok);
    assert LuaStep(s, ok).kids.alias == s.kids.alias;
    LuaKeepsLuaFits(s, ok);
    LuaKeepsQueueWaits(s, ok);
    LuaKeepsFinishFits(s, ok);
  }

  // ---------------------------------------------------------------- beginning a call

  lemma CallFrame(p: Places, c: Call)
    ensures var q := Moved(p, CallMove(c));
      && q.hands == p.hands && q.taken == p.taken && q.ran == p.ran && q.accepted == p.accepted
      && q.fallbacks == p.fallbacks && q.holding == p.holding && q.executed == p.executed
      && (q.queue == p.queue || (c.SwapToFront? && q.queue == SwappedToFront(p.queue, Is(c.d))))
  {
  }

  lemma CallQueueFrame(p: Places, c: Call)
    ensures forall d :: d in Moved(p, CallMove(c)).queue <==> d in p.queue
    ensures p.queue == [] <==> Moved(p, CallMove(c)).queue == []
  {
    CallFrame(p, c);
    if c.SwapToFront? {
      SwappedToFrontKeeps(p.queue, Is(c.d));
      assert forall d :: d in p.queue <==> d in multiset(p.queue);
    }
  }

  /** The flags a call may write. */
  lemma CallFlagFrame(f: Flags, c: Call)
    ensures var g := CallFlags(f, c);
      && g.closed == f.closed && g.inFlight == f.inFlight && g.failed == f.failed
      && (g.active == f.active || g.active == None)
      && g.shuttingDown == (f.shuttingDown || c.Shutdown?)
      && g.canWait == (f.canWait || c.Connect?) && g.started == (f.started || c.Connect?)
  {
    match c {
      case Connect =>
      case Shutdown =>
      case PingFailed(_, _) => PingFlags(f, c);
      case SetAutoReconnect(_) =>
      case _ =>
    }
  }

  lemma PingFlags(f: Flags, c: Call)
    requires c.PingFailed?
    ensures var g := CallFlags(f, c);
      g == f.(active := g.active, status := g.status, sessionOpen := g.sessionOpen) && (g.active == f.active || g.active == None)
  {
  }

  lemma CallKeepsFlagsFit(s: State, c: Call)
    requires FlagsFit(s.p, s.f, s.worker) && CallEnabled(s, c)
    ensures var t := CallStep(s, c); FlagsFit(t.p, t.f, t.worker)
  {
    CallFrame(s.p, c);
    CallQueueFrame(s.p, c);
    CallFlagFrame(s.f, c);
  }

  lemma CallKeepsLuaFits(s: State, c: Call)
    requires LuaFits(s.p, s.execs, s.f, s.lua) && QueueWaits(s.p, s.execs) && CallEnabled(s, c)
    ensures var t := CallStep(s, c); LuaFits(t.p, t.execs, t.f, t.lua)
  {
    CallFrame(s.p, c);
    match c {
      case Shutdown =>
      case AbortAll =>
      case PingFailed(_, _) =>
      case _ =>
    }
  }

  lemma CallKeepsQueueWaits(s: State, c: Call)
    requires QueueWaits(s.p, s.execs) && Ledger(s.p) && CallEnabled(s, c)
    ensures var t := CallStep(s, c); QueueWaits(t.p, t.execs)
  {
    CallFrame(s.p, c);
    CallQueueFrame(s.p, c);
    if c.Start? { Apart(s.p, c.d); }
  }

  lemma CallKeepsFinishFits(s: State, c: Call)
    requires FinishFits(s.p, s.execs, s.worker) && QueueWaits(s.p, s.execs) && CallEnabled(s, c)
    requires FlagsFit(s.p, s.f, s.worker)
    ensures var t := CallStep(s, c); FinishFits(t.p, t.execs, t.worker)
  {
    var t := CallStep(s, c);
    CallFrame(s.p, c);
    CallQueueFrame(s.p, c);
    forall d | d in t.p.accepted ensures FinishFitsAt(t.p, t.execs, t.worker, d) {
      assert FinishFitsAt(s.p, s.execs, s.worker, d);
      MoveKeepsSettled(s.p, CallMove(c), d);
    }
    MoveKeepsSettled(s.p, CallMove(c), s.worker.d);
  }

  lemma CallKeepsWorkerFits(s: State, c: Call)
    requires WorkerFits(s.p, s.worker) && CallEnabled(s, c)
    ensures var t := CallStep(s, c); WorkerFits(t.p, t.worker)
  {
    CallFrame(s.p, c);
  }

  lemma CallKeepsFits(s: State, c: Call)
    requires Fits(s) && CallEnabled(s, c)
    ensures Fits(CallStep(s, c))
  {
    MoveKeepsCustody(s.p, CallMove(c));
    MoveKeepsLedger(s.p, CallMove(c));
    CallKeepsWorkerFits(s, c);
    CallKeepsFlagsFit(s, c);
    CallKeepsLuaFits(s, c);
    CallKeepsQueueWaits(s, c);
    CallKeepsFinishFits(s, c);
  }

  // ---------------------------------------------------------------- runs

  lemma StepKeepsFits(s: State, a: Action)
    requires Fits(s)
    ensures Fits(Step(s, a))
  {
    if Enabled(s, a) {
      match a {
        case Work(ok, e, open) => WorkerKeepsFits(s, ok, e, open);
        case Lua(ok) => LuaKeepsFits(s, ok);
        case Begin(c) => CallKeepsFits(s, c);
      }
    }
  }

  lemma InitialFits()
    ensures Fits(Initial)
  {
    var s := Initial;
    assert Custody(s.p) && Ledger(s.p);
    assert WorkerFits(s.p, s.worker) && FlagsFit(s.p, s.f, s.worker) && LuaFits(s.p, s.execs, s.f, s.lua);
    assert QueueWaits(s.p, s.execs) && FinishFits(s.p, s.execs, s.worker);
  }

  lemma {:induction false} FitsAlong(s: State, run: seq<Action>)
    requires Fits(s)
    ensures Fits(RunFrom(s, run))
  {
    if run != [] {
      var before := RunFrom(s, run[..|run| - 1]);
      FitsAlong(s, run[..|run| - 1]);
      StepKeepsFits(before, run[|run| - 1]);
      assert RunFrom(s, run) == Step(before, run[|run| - 1]);
    }
  }
}
