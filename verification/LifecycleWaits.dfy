/** wait() returns: while it blocks, the worker goes on, and what it may still do is bounded. */
module LifecycleWaits {
  import opened QueryLifecycle
  import opened LifecycleControl
  import opened LifecycleLua
  import opened LifecycleShutdown
  import opened LifecycleTheorems

  predicate Blocked(s: State, d: Id) { s.lua != [] && s.lua[0] == WaitBlock(d) && !Of(s, d).finished }

  lemma WorkerFinishes(s: State, ok: bool, e: Ending, open: bool, d: Id)
    ensures Of(s, d).finished ==> Of(WorkerStep(s, ok, e, open), d).finished
  {
  }

  lemma LuaFinishes(s: State, ok: bool, d: Id)
    requires s.lua != []
    ensures Of(s, d).finished ==> Of(LuaStep(s, ok), d).finished
  {
  }

  /** An execution once finished stays finished. */
  lemma FinishedStays(s: State, a: Action, d: Id)
    requires Fits(s) && d in s.p.accepted && Of(s, d).finished
    ensures Of(Step(s, a), d).finished
  {
    assert d in s.execs;
    match a {
      case Work(ok, e, open) => WorkerFinishes(s, ok, e, open, d);
      case Lua(ok) => if s.lua != [] { LuaFinishes(s, ok, d); }
      case Begin(c) =>
    }
  }

  lemma AcceptedStays(s: State, a: Action, d: Id)
    requires d in s.p.accepted
    ensures d in Step(s, a).p.accepted
  {
    if Enabled(s, a) {
      match a {
        case Work(ok, e, open) => WorkerFrame(s);
        case Lua(ok) => LuaMoveFrame(s);
        case Begin(c) => CallFrame(s.p, c);
      }
    }
  }

  lemma {:induction false} AcceptedAlong(s: State, more: seq<Action>, d: Id)
    requires d in s.p.accepted
    ensures d in RunFrom(s, more).p.accepted
  {
    if more != [] {
      AcceptedAlong(s, more[..|more| - 1], d);
      AcceptedStays(RunFrom(s, more[..|more| - 1]), more[|more| - 1], d);
    }
  }

  lemma BlockedStep(s: State, a: Action, d: Id)
    requires Fits(s) && Blocked(s, d)
    ensures Step(s, a).lua == s.lua
    ensures Measure(Step(s, a)) + (if Advances(s, a) then 1 else 0) <= Measure(s)
  {
    if a.Work? && WorkerEnabled(s) { WorkerStepDecreases(s, a.ok, a.ending, a.stillOpen); }
  }

  lemma {:induction false} BlockedStepsBounded(s: State, more: seq<Action>, d: Id)
    requires Fits(s) && Blocked(s, d) && d in s.p.accepted && !Of(RunFrom(s, more), d).finished
    ensures Blocked(RunFrom(s, more), d) && WorkerSteps(s, more) + Measure(RunFrom(s, more)) <= Measure(s)
  {
    if more != [] {
      var before, a := RunFrom(s, more[..|more| - 1]), more[|more| - 1];
      FitsAlong(s, more[..|more| - 1]);
      AcceptedAlong(s, more[..|more| - 1], d);
      if Of(before, d).finished { FinishedStays(before, a, d); }
      BlockedStepsBounded(s, more[..|more| - 1], d);
      BlockedStep(before, a, d);
    }
  }

  lemma BlockedNeverStuck(s: State, d: Id)
    requires Fits(s) && Blocked(s, d)
    ensures WorkerEnabled(s)
  {
    assert FinishFitsAt(s.p, s.execs, s.worker, d);
  }

  /** While wait() blocks the worker can always take a step, and outside statements it takes at most
      Measure many before the execution is finished and wait() returns. */
  lemma WaitReturns(run: seq<Action>, more: seq<Action>, d: Id)
    requires Blocked(Run(run), d)
    ensures !Of(Run(run + more), d).finished ==>
      WorkerEnabled(Run(run + more)) && WorkerSteps(Run(run), more) <= Measure(Run(run))
    ensures Of(Run(run + more), d).finished && Run(run + more).lua == Run(run).lua ==> LuaEnabled(Run(run + more))
  {
    RunSound(run);
    RunSound(run + more);
    RunConcat(Initial, run, more);
    if !Of(Run(run + more), d).finished {
      BlockedStepsBounded(Run(run), more, d);
      BlockedNeverStuck(Run(run + more), d);
    }
  }
}
