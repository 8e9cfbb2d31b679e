/** Exactly when an abort written outside the queue stays written. */
module LifecycleStays {
  import opened QueryTypes
  import opened QueryLifecycle
  import opened LifecycleControl
  import opened LifecycleLua
  import opened LifecycleAborts
  import opened LifecycleTheorems
  import opened LifecycleHonour
  import opened LifecycleWaits

  /** What the worker will still complete with an error after a failed connect. */
  function ToFail(s: State): seq<Id> {
    if s.worker.phase.FailPut? && s.p.hands != [] then s.p.hands[1..] else s.p.hands
  }

  /** The worker is about to write another status over it; or the connect has failed, and the worker will still
      complete it, or a wait() still can. */
  predicate Overwritten(s: State, d: Id) {
    || (d == s.worker.d && (s.worker.phase.Checked? || s.worker.phase.Completing?))
    || (s.f.failed && (d in ToFail(s) || !Of(s, d).finished))
  }

  ghost predicate StaysAborted(s: State, d: Id) { forall more :: Of(RunFrom(s, more), d).status == Aborted }

  // ---------------------------------------------------------------- it stays

  predicate Kept(s: State, d: Id) {
    Of(s, d).status == Aborted && d in s.p.accepted && d !in s.p.queue && !Overwritten(s, d)
  }

  /** The status the worker writes is the one that is there, or QUERY_ABORTED, but for three phases. */
  lemma WorkerPuts(s: State)
    ensures match WorkerWrite(s)
            case Keep => true
            case AbortEach(_) => false
            case Put(d, e) =>
              && (Of(s, d).finished ==> e.finished)
              && (e.status == Of(s, d).status || e.status == Aborted || s.worker.phase.Checked? || s.worker.phase.Completing? || s.worker.phase.Failing?)
              && (if s.worker.phase.Failing? then s.p.hands != [] && d == s.p.hands[0] else d == s.worker.d)
  {
    match s.worker.phase {
      case Failing =>
      case FailFinish =>
      case Locked =>
      case Checked =>
      case Copying =>
      case Succeeding =>
      case Handling =>
      case Recovering =>
      case Completing =>
      case PutDone =>
      case _ =>
    }
  }

  lemma WorkerWritesStatus(s: State, ok: bool, e: Ending, open: bool, d: Id)
    requires Of(s, d).status == Aborted && !Overwritten(s, d)
    requires s.worker.phase.Failing? ==> s.f.failed
    ensures Of(WorkerStep(s, ok, e, open), d).status == Aborted
    ensures Of(s, d).finished ==> Of(WorkerStep(s, ok, e, open), d).finished
  {
    WorkerPuts(s);
    assert Of(WorkerStep(s, ok, e, open), d) == NewValue(s.execs, WorkerWrite(s), d);
  }

  lemma WorkerFails(s: State, ok: bool, e: Ending, open: bool)
    ensures var t := WorkerStep(s, ok, e, open);
      t.f.failed <==> s.f.failed || (s.worker.phase.Connecting? && !ok)
  {
    match s.worker.phase {
      case Connecting =>
      case Entering =>
      case Handling =>
      case _ =>
    }
  }

  /** What is to be failed does not grow, but for the queue at the start. */
  lemma WorkerToFail(s: State, ok: bool, e: Ending, open: bool, d: Id)
    requires WorkerFits(s.p, s.worker) && FlagsFit(s.p, s.f, s.worker) && s.f.failed
    requires d !in ToFail(s) && d !in s.p.queue
    ensures d !in ToFail(WorkerStep(s, ok, e, open))
  {
    match s.worker.phase {
      case ConnectFailed =>
      case Failing =>
      case FailPut =>
      case FailFinish =>
      case Exited =>
    }
  }

  /** The worker comes to these two phases only past a status that is not QUERY_ABORTED. */
  lemma WorkerOverwrites(s: State, ok: bool, e: Ending)
    requires WorkerEnabled(s)
    ensures NextPhase(s, ok, e).Checked? || NextPhase(s, ok, e).Completing? ==>
      NextPair(s) == s.worker.d && Of(s, s.worker.d).status != Aborted
  {
  }

  /** While the connection is being opened nothing is unfinished but what waits in the queue. */
  lemma ConnectingHoldsNothing(s: State, d: Id)
    requires Fits(s) && s.worker.phase.Connecting? && d in s.p.accepted && d !in s.p.queue
    ensures s.p.hands == [] && Of(s, d).finished
  {
    assert FinishFitsAt(s.p, s.execs, s.worker, d);
  }

  lemma ConnectFailsEmpty(s: State, ok: bool, e: Ending, open: bool)
    requires s.worker.phase.Connecting?
    ensures WorkerStep(s, ok, e, open).p == s.p && WorkerStep(s, ok, e, open).execs == s.execs
  {
  }

  lemma WorkerKeepsKept(s: State, ok: bool, e: Ending, open: bool, d: Id)
    requires Fits(s) && Kept(s, d) && WorkerEnabled(s)
    ensures Kept(WorkerStep(s, ok, e, open), d)
  {
    WorkerFrame(s);
    WorkerWritesStatus(s, ok, e, open, d);
    WorkerFails(s, ok, e, open);
    WorkerOverwrites(s, ok, e);
    if s.f.failed {
      WorkerToFail(s, ok, e, open, d);
    } else if s.worker.phase.Connecting? {
      ConnectingHoldsNothing(s, d);
      ConnectFailsEmpty(s, ok, e, open);
    }
  }

  lemma LuaKeepsKept(s: State, ok: bool, d: Id)
    requires Fits(s) && Kept(s, d) && s.lua != []
    ensures Kept(LuaStep(s, ok), d)
  {
    LuaMoveFrame(s);
    LuaFlagFrame(s);
    LuaStatusWrites(s, ok, d);
    LuaFinishes(s, ok, d);
    if d in LuaStep(s, ok).p.queue { LuaQueueFrame(s, d); }
    if s.lua[0].WaitFallback? && !Of(s, s.lua[0].d).finished { FallbackAfterFailedConnect(s); }
  }

  lemma CallKeepsKept(s: State, c: Call, d: Id)
    requires Fits(s) && Kept(s, d) && CallEnabled(s, c)
    ensures Kept(CallStep(s, c), d)
  {
    CallFrame(s.p, c);
    CallQueueFrame(s.p, c);
    assert d in s.execs;
    assert Of(CallStep(s, c), d) == Of(s, d);
    match c {
      case PingFailed(_, _) =>
      case Connect =>
      case _ =>
    }
  }

  lemma {:induction false} KeptAlong(s: State, more: seq<Action>, d: Id)
    requires Fits(s) && Kept(s, d)
    ensures Kept(RunFrom(s, more), d)
  {
    if more != [] {
      var before, a := RunFrom(s, more[..|more| - 1]), more[|more| - 1];
      KeptAlong(s, more[..|more| - 1], d);
      FitsAlong(s, more[..|more| - 1]);
      if Enabled(before, a) {
        match a {
          case Work(ok, e, open) => WorkerKeepsKept(before, ok, e, open, d);
          case Lua(ok) => LuaKeepsKept(before, ok, d);
          case Begin(c) => CallKeepsKept(before, c, d);
        }
      }
    }
  }

  // ---------------------------------------------------------------- it is overwritten by the worker

  lemma WorkerWritesNow(s: State, more: seq<Action>, t: State) returns (next: seq<Action>)
    requires t == RunFrom(s, more) && (t.worker.phase.Checked? || t.worker.phase.Completing?)
    ensures Of(RunFrom(s, next), t.worker.d).status != Aborted
  {
    var u;
    next, u := Onward(s, more, t, Succeed);
  }

  /** One turn of the loop over what a failed connect leaves. */
  lemma FailTurn(s: State, more: seq<Action>, t: State) returns (next: seq<Action>, u: State)
    requires t == RunFrom(s, more) && Draining(t.worker.phase)
    requires t.worker.phase.FailPut? ==> t.p.hands != []
    requires t.worker.phase.Failing? ==> t.p.hands != []
    ensures u == RunFrom(s, next) && u.worker.phase.Failing?
    ensures u.p.hands == if t.worker.phase.Failing? then t.p.hands[1..] else ToFail(t)
  {
    next, u := more, t;
    if u.worker.phase.Failing? {
      FailWrites(u);
      next, u := Onward(s, next, u, Succeed);
    }
    if u.worker.phase.FailPut? {
      FailPuts(u);
      next, u := Onward(s, next, u, Succeed);
    }
    FailFinishes(u);
    next, u := Onward(s, next, u, Succeed);
  }

  lemma FailWrites(t: State)
    requires t.worker.phase.Failing? && t.p.hands != []
    ensures var u := Step(t, Succeed); u.worker.phase.FailPut? && u.p == t.p
  {
  }

  lemma FailPuts(t: State)
    requires t.worker.phase.FailPut? && t.p.hands != []
    ensures var u := Step(t, Succeed); u.worker.phase.FailFinish? && u.p.hands == t.p.hands[1..]
  {
  }

  lemma FailFinishes(t: State)
    requires t.worker.phase.FailFinish?
    ensures var u := Step(t, Succeed); u.worker.phase.Failing? && u.p == t.p
  {
  }

  lemma {:induction false} LoopFails(s: State, more: seq<Action>, t: State, d: Id) returns (next: seq<Action>)
    requires t == RunFrom(s, more) && t.worker.phase.Failing? && d in t.p.hands
    ensures Of(RunFrom(s, next), d).status != Aborted
    decreases |t.p.hands|
  {
    var u;
    if t.p.hands[0] == d {
      next, u := Onward(s, more, t, Succeed);
    } else {
      next, u := FailTurn(s, more, t);
      next := LoopFails(s, next, u, d);
    }
  }

  lemma WillFail(t: State, d: Id) returns (more: seq<Action>)
    requires WorkerFits(t.p, t.worker) && FlagsFit(t.p, t.f, t.worker) && t.f.failed && d in ToFail(t)
    ensures Of(RunFrom(t, more), d).status != Aborted
  {
    var u := t;
    more := [];
    if !t.worker.phase.Failing? { more, u := FailTurn(t, more, u); }
    more := LoopFails(t, more, u, d);
  }

  // ---------------------------------------------------------------- it is overwritten by a wait

  /** What is left of any call that is past dealing with the queue. */
  predicate Winding(m: Micro) { Looking(m) || m.CloseAndClear? || m.FinishHolding? }

  predicate AllWinding(lua: seq<Micro>) { forall i :: 0 <= i < |lua| ==> Winding(lua[i]) }

  lemma LookingLeaves(t: State, d: Id)
    requires t.lua != [] && Looking(t.lua[0]) && Of(t, d).status == Aborted
    ensures var u := LuaStep(t, true);
      && u.worker == t.worker && u.p == t.p && u.f == t.f
      && Of(u, d).status == Aborted && Of(u, d).finished == Of(t, d).finished
  {
    match t.lua[0] {
      case ReadInFlight =>
      case InFlightIfWaiting(_) =>
      case SetAborted(_) =>
      case ReadActive =>
      case CancelActive(_) =>
      case CancelSent(_) =>
    }
  }

  lemma ClosingLeaves(t: State, d: Id)
    requires t.lua != [] && (t.lua[0].CloseAndClear? || t.lua[0].FinishHolding?) && t.p.queue == [] && t.p.holding == []
    ensures var u := LuaStep(t, true);
      && u.worker == t.worker && u.p == t.p && u.f == t.f.(closed := u.f.closed) && Of(u, d) == Of(t, d)
  {
  }

  lemma NextWinds(t: State)
    requires t.lua != [] && Winding(t.lua[0]) && t.p.holding == []
    ensures LuaEnabled(t) && AllWinding(LuaNext(t)) && Looks(LuaNext(t)) < Looks([t.lua[0]])
  {
    match t.lua[0] {
      case ReadInFlight =>
      case InFlightIfWaiting(_) =>
      case SetAborted(_) =>
      case ReadActive =>
      case CancelActive(_) =>
      case CancelSent(_) =>
      case CloseAndClear =>
      case FinishHolding =>
    }
  }

  lemma {:induction false} LooksAppend(a: seq<Micro>, b: seq<Micro>)
    ensures Looks(a + b) == Looks(a) + Looks(b)
  {
    if a == [] {
      assert a + b == b;
    } else {
      LooksAppend(a[1..], b);
      assert (a + b)[1..] == a[1..] + b;
    }
  }

  lemma WindingGoesOn(t: State, d: Id)
    requires t.lua != [] && AllWinding(t.lua) && t.p.queue == [] && t.p.holding == [] && Of(t, d).status == Aborted
    ensures LuaEnabled(t)
    ensures var u := LuaStep(t, true);
      && u.worker == t.worker && u.p == t.p && u.f == t.f.(closed := u.f.closed)
      && Of(u, d).status == Aborted && Of(u, d).finished == Of(t, d).finished
      && AllWinding(u.lua) && Looks(u.lua) < Looks(t.lua)
  {
    NextWinds(t);
    if Looking(t.lua[0]) { LookingLeaves(t, d); } else { ClosingLeaves(t, d); }
    LooksAppend(LuaNext(t), t.lua[1..]);
    LooksAppend([t.lua[0]], t.lua[1..]);
    assert t.lua == [t.lua[0]] + t.lua[1..];
  }

  /** The Lua thread can end the call it is in. */
  lemma {:induction false} CallEnds(s: State, more: seq<Action>, t: State, d: Id) returns (next: seq<Action>, u: State)
    requires t == RunFrom(s, more) && AllWinding(t.lua) && t.p.queue == [] && t.p.holding == [] && Of(t, d).status == Aborted
    ensures u == RunFrom(s, next) && u.lua == [] && u.p == t.p && u.f == t.f.(closed := u.f.closed)
    ensures Of(u, d).status == Aborted && Of(u, d).finished == Of(t, d).finished
    decreases Looks(t.lua)
  {
    next, u := more, t;
    if t.lua != [] {
      WindingGoesOn(t, d);
      next, u := Onward(s, more, t, Lua(true));
      next, u := CallEnds(s, next, u, d);
    }
  }

  lemma WaitBegins(t: State, d: Id)
    requires t.lua == [] && d in t.p.accepted
    ensures Step(t, Begin(Wait(d))) == t.(lua := [WaitFinished(d)])
  {
  }

  lemma WaitLooks(t: State, d: Id)
    requires t.lua == [WaitFinished(d)] && !Of(t, d).finished && !t.f.canWait
    ensures Step(t, Lua(true)) == t.(lua := [WaitIfWaiting(d)])
  {
  }

  lemma WaitFallsBack(t: State, d: Id)
    requires t.lua == [WaitIfWaiting(d)] && Of(t, d).status == Aborted
    ensures Step(t, Lua(true)) == t.(lua := [WaitFallback(d)])
  {
  }

  lemma FallbackWrites(t: State, d: Id)
    requires t.lua == [WaitFallback(d)] && !Of(t, d).finished
    ensures Of(Step(t, Lua(true)), d).status == Complete
  {
  }

  /** ... and a wait() then takes the fallback. */
  lemma WaitOverwrites(s: State, more: seq<Action>, t: State, d: Id) returns (next: seq<Action>)
    requires t == RunFrom(s, more) && t.lua == [] && !t.f.canWait && d in t.p.accepted
    requires Of(t, d).status == Aborted && !Of(t, d).finished
    ensures Of(RunFrom(s, next), d).status != Aborted
  {
    var u;
    WaitBegins(t, d);
    next, u := Onward(s, more, t, Begin(Wait(d)));
    WaitLooks(u, d);
    next, u := Onward(s, next, u, Lua(true));
    WaitFallsBack(u, d);
    next, u := Onward(s, next, u, Lua(true));
    FallbackWrites(u, d);
    next, u := Onward(s, next, u, Lua(true));
  }

  lemma WaitCan(t: State, d: Id) returns (more: seq<Action>)
    requires Fits(t) && t.f.failed && !Of(t, d).finished && Of(t, d).status == Aborted && d in t.p.accepted && d !in t.p.queue
    requires AllWinding(t.lua) && t.p.queue == [] && t.p.holding == []
    ensures Of(RunFrom(t, more), d).status != Aborted
  {
    var u;
    more, u := CallEnds(t, [], t, d);
    more := WaitOverwrites(t, more, u, d);
  }

  // ---------------------------------------------------------------- the exact condition

  lemma WriteLeaves(s: State, ok: bool)
    requires s.lua != [] && s.lua[0].SetAborted?
    ensures var t := LuaStep(s, ok);
      && Of(t, s.lua[0].d).finished == Of(s, s.lua[0].d).finished
      && t.lua == s.lua[1..] && (Overwritten(t, s.lua[0].d) <==> Overwritten(s, s.lua[0].d))
  {
    WriteFrame(s, ok);
  }

  lemma RestWinds(s: State)
    requires Fits(s) && s.lua != [] && s.lua[0].SetAborted?
    ensures AllWinding(s.lua[1..]) && s.p.holding == []
  {
    forall i | 0 <= i < |s.lua[1..]| ensures Winding(s.lua[1..][i]) { assert Tail(s.lua[i + 1]); }
  }

  /** An unfinished execution outside the queue is with the worker in the loop that empties it. */
  lemma UnfinishedAfterFailure(s: State, d: Id)
    requires Fits(s) && s.f.failed && !Of(s, d).finished && d in s.p.accepted && d !in s.p.queue
    ensures s.p.queue == []
  {
    assert FinishFitsAt(s.p, s.execs, s.worker, d);
  }

  lemma OverwrittenIsLost(t: State, d: Id) returns (more: seq<Action>)
    requires Fits(t) && Overwritten(t, d) && Of(t, d).status == Aborted && d in t.p.accepted && d !in t.p.queue
    requires AllWinding(t.lua) && t.p.holding == []
    ensures Of(RunFrom(t, more), d).status != Aborted
  {
    if d == t.worker.d && (t.worker.phase.Checked? || t.worker.phase.Completing?) {
      more := WorkerWritesNow(t, [], t);
    } else if d in ToFail(t) {
      more := WillFail(t, d);
    } else {
      UnfinishedAfterFailure(t, d);
      more := WaitCan(t, d);
    }
  }

  /** An abort that is about to write QUERY_ABORTED outside the queue will be read as aborted from then on, in every
      continuation, exactly when nothing is about to write over it. */
  lemma AbortStaysExactly(run: seq<Action>, ok: bool)
    requires var s := Run(run); s.lua != [] && s.lua[0].SetAborted?
    ensures var s := Run(run); StaysAborted(LuaStep(s, ok), s.lua[0].d) <==> !Overwritten(s, s.lua[0].d)
  {
    var s := Run(run);
    RunSound(run);
    var d, t := s.lua[0].d, LuaStep(s, ok);
    WriteFrame(s, ok);
    WriteLeaves(s, ok);
    LuaKeepsFits(s, ok);
    RestWinds(s);
    if Overwritten(s, d) {
      var more := OverwrittenIsLost(t, d);
      assert Of(RunFrom(t, more), d).status != Aborted;
    } else {
      forall more ensures Of(RunFrom(t, more), d).status == Aborted { KeptAlong(t, more, d); }
    }
  }
}
