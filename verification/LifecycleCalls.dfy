/** What each call from Lua amounts to: alone, while the worker stands still, as one change of state; and, for the
    calls that cancel, in any interleaving. */
module LifecycleCalls {
  import opened QueryTypes
  import opened Sequences
  import opened QueryLifecycle
  import opened LifecycleControl
  import opened LifecycleLua
  import opened LifecycleTheorems
  import opened LifecycleHonour

  /** Steps of the Lua thread only; `delivered` says whether PQcancel succeeds. */
  predicate OnlyLua(more: seq<Action>, delivered: bool) { forall i :: 0 <= i < |more| ==> more[i] == Lua(delivered) }

  lemma LuaOn(s: State, more: seq<Action>, t: State, delivered: bool) returns (next: seq<Action>, u: State)
    requires t == RunFrom(s, more) && OnlyLua(more, delivered)
    ensures u == Step(t, Lua(delivered)) && u == RunFrom(s, next) && OnlyLua(next, delivered)
  {
    next, u := Onward(s, more, t, Lua(delivered));
  }

  // ---------------------------------------------------------------- abort of one execution

  /** cancel() on the active execution, delivered or not. */
  function Cancelling(s: State, d: Id, delivered: bool): State {
    s.(execs := s.execs[d := Of(s, d).(cancelRequested := delivered)], marks := s.marks.(cancelled := s.marks.cancelled + {d}))
  }

  /** What abort() of `d` makes of a state: out of the queue and to be delivered as aborted; or marked aborted before it
      has begun; or, while it runs, cancelled; otherwise nothing. */
  function Aborting(s: State, d: Id, delivered: bool): State {
    if d in s.p.queue then
      s.(p := s.p.(queue := Without(s.p.queue, d), toDeliver := s.p.toDeliver + [d], retired := s.p.retired + [d]),
         execs := s.execs[d := Of(s, d).(status := Aborted, finished := true)])
    else if Of(s, d).status == Waiting then s.(execs := s.execs[d := Of(s, d).(status := Aborted)])
    else if Of(s, d).status == Running && s.f.active == Some(d) then Cancelling(s, d, delivered)
    else s
  }

  lemma Looked(s: State, d: Id, delivered: bool)
    requires s.lua == [AbortRemove(d)]
    ensures Step(s, Lua(delivered)) == (if d in s.p.queue then Aborting(s.(lua := []), d, delivered) else s.(lua := [AbortIfWaiting(d)]))
  {
  }

  lemma StatusRead(s: State, d: Id, delivered: bool)
    requires s.lua == [AbortIfWaiting(d)]
    ensures Step(s, Lua(delivered)) == s.(lua := [if Of(s, d).status == Waiting then SetAborted(d) else AbortIfRunning(d)])
  {
  }

  lemma AbortWritten(s: State, d: Id, rest: seq<Micro>, delivered: bool)
    requires s.lua == [SetAborted(d)] + rest && Of(s, d).status == Waiting
    ensures Step(s, Lua(delivered)) == s.(lua := rest, execs := s.execs[d := Of(s, d).(status := Aborted)])
  {
    assert s.lua[1..] == rest && [] + rest == rest;
  }

  lemma RunningRead(s: State, d: Id, delivered: bool)
    requires s.lua == [AbortIfRunning(d)]
    ensures Step(s, Lua(delivered)) == s.(lua := if Of(s, d).status == Running then [CancelActive(d)] else [])
  {
  }

  lemma CancelBegun(s: State, d: Id, rest: seq<Micro>, delivered: bool)
    requires s.lua == [CancelActive(d)] + rest
    ensures Step(s, Lua(delivered)) ==
      if s.f.active == Some(d) then Cancelling(s, d, true).(lua := [CancelSent(d)] + rest) else s.(lua := rest)
  {
    assert s.lua[1..] == rest && [] + rest == rest;
  }

  lemma CancelEnded(s: State, d: Id, rest: seq<Micro>, delivered: bool)
    requires s.lua == [CancelSent(d)] + rest && Of(s, d).cancelRequested && d in s.execs
    ensures Step(s, Lua(delivered)) == s.(lua := rest, execs := s.execs[d := Of(s, d).(cancelRequested := delivered)])
  {
    assert s.lua[1..] == rest && [] + rest == rest;
    assert s.execs[d := Of(s, d)] == s.execs;
  }

  lemma FlagTwice(s: State, d: Id, delivered: bool)
    ensures var t := Cancelling(s, d, true);
      t.(execs := t.execs[d := Of(t, d).(cancelRequested := delivered)]) == Cancelling(s, d, delivered)
  {
  }

  /** CancelActive and what follows it, as cancel() does it. */
  lemma CancelsAlone(s: State, more: seq<Action>, t: State, d: Id, rest: seq<Micro>, delivered: bool)
    returns (next: seq<Action>, u: State)
    requires t == RunFrom(s, more) && OnlyLua(more, delivered) && t.lua == [CancelActive(d)] + rest
    ensures u == RunFrom(s, next) && OnlyLua(next, delivered)
    ensures u == if t.f.active == Some(d) then Cancelling(t, d, delivered).(lua := rest) else t.(lua := rest)
  {
    CancelBegun(t, d, rest, delivered);
    next, u := LuaOn(s, more, t, delivered);
    if t.f.active == Some(d) {
      CancelEnded(u, d, rest, delivered);
      FlagTwice(t, d, delivered);
      next, u := LuaOn(s, next, u, delivered);
    }
  }

  /** abort() of one execution, with the worker standing still. */
  lemma AbortAlone(s: State, d: Id, delivered: bool) returns (more: seq<Action>)
    requires s.lua == [] && d in s.p.accepted
    ensures OnlyLua(more, delivered) && RunFrom(Step(s, Begin(Abort(d))), more) == Aborting(s, d, delivered)
  {
    AbortBegun(s, d);
    var t := s.(lua := [AbortRemove(d)]);
    Looked(t, d, delivered);
    var u;
    more, u := LuaOn(t, [], t, delivered);
    if d !in s.p.queue { more, u := AbortPastQueue(t, more, u, d, delivered); }
  }

  lemma AbortBegun(s: State, d: Id)
    requires s.lua == [] && d in s.p.accepted
    ensures Step(s, Begin(Abort(d))) == s.(lua := [AbortRemove(d)])
  {
  }

  lemma AbortPastQueue(s: State, more: seq<Action>, t: State, d: Id, delivered: bool) returns (next: seq<Action>, u: State)
    requires t == RunFrom(s, more) && OnlyLua(more, delivered) && t.lua == [AbortIfWaiting(d)] && d !in t.p.queue
    ensures u == RunFrom(s, next) && OnlyLua(next, delivered) && u == Aborting(t.(lua := []), d, delivered)
  {
    StatusRead(t, d, delivered);
    next, u := LuaOn(s, more, t, delivered);
    if Of(t, d).status == Waiting {
      AbortWritten(u, d, [], delivered);
      next, u := LuaOn(s, next, u, delivered);
    } else {
      RunningRead(u, d, delivered);
      next, u := LuaOn(s, next, u, delivered);
      if Of(t, d).status == Running { next, u := CancelsAlone(s, next, u, d, [], delivered); }
    }
  }

  // ---------------------------------------------------------------- abortAllQueries and shutdown

  /** The in-flight execution, if it has not begun, is marked aborted. */
  function AbortingInFlight(s: State): State {
    if s.f.inFlight.Some? && Of(s, s.f.inFlight.value).status == Waiting then
      s.(execs := s.execs[s.f.inFlight.value := Of(s, s.f.inFlight.value).(status := Aborted)])
    else s
  }

  /** The active execution is cancelled. */
  function CancellingActive(s: State, delivered: bool): State {
    if s.f.active.Some? then Cancelling(s, s.f.active.value, delivered) else s
  }

  /** `t` has the execution data of `s`, but those of `ids` aborted and finished. */
  ghost predicate DropsAll(s: State, t: State, ids: seq<Id>) {
    forall d :: Of(t, d) == if d in ids then Of(s, d).(status := Aborted, finished := true) else Of(s, d)
  }

  lemma ReadsInFlight(s: State, more: seq<Action>, t: State, rest: seq<Micro>, delivered: bool)
    returns (next: seq<Action>, u: State)
    requires t == RunFrom(s, more) && OnlyLua(more, delivered) && t.lua == [ReadInFlight] + rest
    ensures u == RunFrom(s, next) && OnlyLua(next, delivered) && u == AbortingInFlight(t).(lua := rest)
  {
    InFlightRead(t, rest, delivered);
    next, u := LuaOn(s, more, t, delivered);
    if t.f.inFlight.Some? {
      var d := t.f.inFlight.value;
      InFlightStatusRead(u, d, rest, delivered);
      next, u := LuaOn(s, next, u, delivered);
      if Of(t, d).status == Waiting {
        AbortWritten(u, d, rest, delivered);
        next, u := LuaOn(s, next, u, delivered);
      }
    }
  }

  lemma InFlightRead(s: State, rest: seq<Micro>, delivered: bool)
    requires s.lua == [ReadInFlight] + rest
    ensures Step(s, Lua(delivered)) ==
      s.(lua := if s.f.inFlight.Some? then [InFlightIfWaiting(s.f.inFlight.value)] + rest else rest)
  {
    assert s.lua[1..] == rest && [] + rest == rest;
  }

  lemma InFlightStatusRead(s: State, d: Id, rest: seq<Micro>, delivered: bool)
    requires s.lua == [InFlightIfWaiting(d)] + rest
    ensures Step(s, Lua(delivered)) == s.(lua := if Of(s, d).status == Waiting then [SetAborted(d)] + rest else rest)
  {
    assert s.lua[1..] == rest && [] + rest == rest;
  }

  lemma ReadsActive(s: State, more: seq<Action>, t: State, rest: seq<Micro>, delivered: bool)
    returns (next: seq<Action>, u: State)
    requires t == RunFrom(s, more) && OnlyLua(more, delivered) && t.lua == [ReadActive] + rest
    ensures u == RunFrom(s, next) && OnlyLua(next, delivered) && u == CancellingActive(t, delivered).(lua := rest)
  {
    ActiveRead(t, rest, delivered);
    next, u := LuaOn(s, more, t, delivered);
    if t.f.active.Some? { next, u := CancelsAlone(s, next, u, t.f.active.value, rest, delivered); }
  }

  lemma ActiveRead(s: State, rest: seq<Micro>, delivered: bool)
    requires s.lua == [ReadActive] + rest
    ensures Step(s, Lua(delivered)) == s.(lua := if s.f.active.Some? then [CancelActive(s.f.active.value)] + rest else rest)
  {
    assert s.lua[1..] == rest && [] + rest == rest;
  }

  lemma QueueCleared(s: State, rest: seq<Micro>, delivered: bool)
    requires s.lua == [ClearQueued] + rest
    ensures var t := Step(s, Lua(delivered));
      && t == s.(lua := rest, execs := t.execs, p := s.p.(queue := [], toDeliver := s.p.toDeliver + s.p.queue, retired := s.p.retired + s.p.queue))
      && DropsAll(s, t, s.p.queue)
  {
    assert s.lua[1..] == rest && [] + rest == rest;
  }

  /** abortAllQueries() with the worker standing still: what was queued is aborted and will be delivered; then the in-flight
      execution is marked aborted if it has not begun; then the active one is cancelled. */
  lemma AbortAllAlone(s: State, delivered: bool) returns (more: seq<Action>, emptied: State)
    requires s.lua == []
    ensures OnlyLua(more, delivered)
    ensures emptied == s.(execs := emptied.execs,
      p := s.p.(queue := [], toDeliver := s.p.toDeliver + s.p.queue, retired := s.p.retired + s.p.queue))
    ensures DropsAll(s, emptied, s.p.queue)
    ensures RunFrom(Step(s, Begin(AbortAll)), more) == CancellingActive(AbortingInFlight(emptied), delivered)
  {
    var t := s.(lua := [ClearQueued] + [ReadInFlight, ReadActive]);
    AbortAllBegun(s);
    QueueCleared(t, [ReadInFlight, ReadActive], delivered);
    var u;
    more, u := LuaOn(t, [], t, delivered);
    emptied := u.(lua := []);
    assert u.lua == [ReadInFlight] + [ReadActive];
    more, u := ReadsInFlight(t, more, u, [ReadActive], delivered);
    assert u.lua == [ReadActive] + [];
    more, u := ReadsActive(t, more, u, [], delivered);
  }

  lemma AbortAllBegun(s: State)
    requires s.lua == []
    ensures Step(s, Begin(AbortAll)) == s.(lua := [ClearQueued] + [ReadInFlight, ReadActive])
  {
    assert [ClearQueued] + [ReadInFlight, ReadActive] == [ClearQueued, ReadInFlight, ReadActive];
  }

  lemma StatusCleared(s: State, rest: seq<Micro>, delivered: bool)
    requires s.lua == [SetNotConnected] + rest
    ensures Step(s, Lua(delivered)) == s.(lua := rest, f := s.f.(status := NotConnected))
  {
    assert s.lua[1..] == rest && [] + rest == rest;
  }

  lemma QueueClosed(s: State, delivered: bool)
    requires s.lua == [CloseAndClear]
    ensures var t := Step(s, Lua(delivered));
      && t == s.(lua := [FinishHolding], execs := t.execs, f := s.f.(closed := true),
                 p := s.p.(queue := [], holding := s.p.holding + s.p.queue, retired := s.p.retired + s.p.queue))
      && DropsAll(s, t, s.p.queue)
  {
  }

  lemma HeldFinished(s: State, delivered: bool)
    requires s.lua == [FinishHolding]
    ensures Step(s, Lua(delivered)) ==
      if s.p.holding == [] then s.(lua := [])
      else s.(p := s.p.(holding := s.p.holding[1..], finished := s.p.finished + [s.p.holding[0]]))
  {
  }

  /** What shutdown holds goes to the finished list, in order. */
  lemma {:induction false} FinishesHeld(s: State, more: seq<Action>, t: State, delivered: bool)
    returns (next: seq<Action>, u: State)
    requires t == RunFrom(s, more) && OnlyLua(more, delivered) && t.lua == [FinishHolding]
    ensures u == RunFrom(s, next) && OnlyLua(next, delivered)
    ensures u == t.(lua := [], p := t.p.(holding := [], finished := t.p.finished + t.p.holding))
    decreases |t.p.holding|
  {
    HeldFinished(t, delivered);
    next, u := LuaOn(s, more, t, delivered);
    if t.p.holding != [] { next, u := FinishesHeld(s, next, u, delivered); }
    AllHanded(t.p.finished, t.p.holding);
  }

  lemma AllHanded(finished: seq<Id>, holding: seq<Id>)
    ensures if holding == [] then finished + holding == finished
            else finished + [holding[0]] + holding[1..] == finished + holding
  {
    if holding != [] { assert holding == [holding[0]] + holding[1..]; }
  }

  /** The queue is closed and emptied, and what was in it aborted and finished. */
  lemma ClosesQueue(s: State, more: seq<Action>, t: State, delivered: bool) returns (next: seq<Action>, u: State)
    requires t == RunFrom(s, more) && OnlyLua(more, delivered) && t.lua == [CloseAndClear] && t.p.holding == []
    ensures u == RunFrom(s, next) && OnlyLua(next, delivered)
    ensures u == t.(lua := [], execs := u.execs, f := t.f.(closed := true),
                    p := t.p.(queue := [], finished := t.p.finished + t.p.queue, retired := t.p.retired + t.p.queue))
    ensures DropsAll(t, u, t.p.queue)
  {
    QueueClosed(t, delivered);
    next, u := LuaOn(s, more, t, delivered);
    assert [] + t.p.queue == t.p.queue;
    var v;
    next, v := FinishesHeld(s, next, u, delivered);
    u := v;
  }

  lemma ShutdownBegun(s: State)
    requires s.lua == [] && !s.f.shuttingDown
    ensures Step(s, Begin(Shutdown)) == s.(lua := [SetNotConnected] + [ReadActive, ReadInFlight, CloseAndClear],
      f := s.f.(shuttingDown := true), marks := s.marks.(atShutdown := |s.p.executed|))
  {
    assert [SetNotConnected] + [ReadActive, ReadInFlight, CloseAndClear] == [SetNotConnected, ReadActive, ReadInFlight, CloseAndClear];
  }

  /** What shutdown() does before it closes the queue. */
  function Stopping(s: State, delivered: bool): State {
    AbortingInFlight(CancellingActive(
      s.(f := s.f.(shuttingDown := true, status := NotConnected), marks := s.marks.(atShutdown := |s.p.executed|)), delivered))
  }

  lemma StoppingKeepsPlaces(s: State, delivered: bool)
    ensures Stopping(s, delivered).p == s.p && Stopping(s, delivered).lua == s.lua
  {
  }

  lemma ShutdownMarks(s: State, t: State, v: State, delivered: bool) returns (more: seq<Action>, u: State)
    requires s.lua == [] && !s.f.shuttingDown && t == Step(s, Begin(Shutdown))
    requires v == s.(f := s.f.(shuttingDown := true, status := NotConnected), marks := s.marks.(atShutdown := |s.p.executed|))
    ensures OnlyLua(more, delivered) && u == RunFrom(t, more) && u == v.(lua := [ReadActive] + [ReadInFlight, CloseAndClear])
  {
    ShutdownBegun(s);
    StatusCleared(t, [ReadActive, ReadInFlight, CloseAndClear], delivered);
    more, u := LuaOn(t, [], t, delivered);
    assert [ReadActive] + [ReadInFlight, CloseAndClear] == [ReadActive, ReadInFlight, CloseAndClear];
  }

  lemma ShutdownLooks(s: State, t: State, delivered: bool) returns (more: seq<Action>, u: State)
    requires s.lua == [] && !s.f.shuttingDown && t == Step(s, Begin(Shutdown))
    ensures OnlyLua(more, delivered) && u == RunFrom(t, more) && u == Stopping(s, delivered).(lua := [CloseAndClear])
  {
    var v := s.(f := s.f.(shuttingDown := true, status := NotConnected), marks := s.marks.(atShutdown := |s.p.executed|));
    more, u := ShutdownMarks(s, t, v, delivered);
    more, u := ReadsActive(t, more, u, [ReadInFlight, CloseAndClear], delivered);
    LuaApart(v, [ReadActive] + [ReadInFlight, CloseAndClear], delivered);
    assert u == CancellingActive(v, delivered).(lua := [ReadInFlight] + [CloseAndClear]);
    more, u := ReadsInFlight(t, more, u, [CloseAndClear], delivered);
    LuaApart(CancellingActive(v, delivered), [ReadInFlight] + [CloseAndClear], delivered);
  }

  /** Neither depends on the rest of the call. */
  lemma LuaApart(s: State, lua: seq<Micro>, delivered: bool)
    ensures CancellingActive(s.(lua := lua), delivered) == CancellingActive(s, delivered).(lua := lua)
    ensures AbortingInFlight(s.(lua := lua)) == AbortingInFlight(s).(lua := lua)
  {
  }

  /** shutdown() with the worker standing still: the active execution is cancelled, the in-flight one is marked aborted if it
      has not begun, the queue is closed, and what was in it is aborted and goes to the finished list in order. */
  lemma ShutdownAlone(s: State, delivered: bool) returns (more: seq<Action>)
    requires s.lua == [] && !s.f.shuttingDown && s.p.holding == []
    ensures OnlyLua(more, delivered)
    ensures var t, stopped := RunFrom(Step(s, Begin(Shutdown)), more), Stopping(s, delivered);
      && t == stopped.(execs := t.execs, f := stopped.f.(closed := true),
                       p := s.p.(queue := [], finished := s.p.finished + s.p.queue, retired := s.p.retired + s.p.queue))
      && DropsAll(stopped, t, s.p.queue)
  {
    var t := Step(s, Begin(Shutdown));
    var u;
    more, u := ShutdownLooks(s, t, delivered);
    StoppingKeepsPlaces(s, delivered);
    more, u := ClosesQueue(t, more, u, delivered);
  }

  // ---------------------------------------------------------------- start, wait, and abort of a child

  /** start(): queued and WAITING, or refused, ABORTED and finished. */
  lemma StartAlone(s: State, d: Id) returns (more: seq<Action>)
    requires s.lua == [] && d !in s.execs && s.p.holding == []
    ensures OnlyLua(more, true)
    ensures RunFrom(Step(s, Begin(Start(d))), more) ==
      if s.f.shuttingDown || s.f.closed then s.(execs := s.execs[d := Exec(Aborted, NoResult, true, false)])
      else s.(execs := s.execs[d := Exec(Waiting, NoResult, false, false)],
              p := s.p.(queue := s.p.queue + [d], accepted := s.p.accepted + [d]))
  {
    StartBegun(s, d);
    var t := Step(s, Begin(Start(d)));
    more := [];
    if !(s.f.shuttingDown || s.f.closed) {
      Enqueued(t, d);
      var u;
      more, u := LuaOn(t, [], t, true);
    }
  }

  lemma StartBegun(s: State, d: Id)
    requires s.lua == [] && d !in s.execs
    ensures Step(s, Begin(Start(d))) ==
      if s.f.shuttingDown || s.f.closed then s.(execs := s.execs[d := Exec(Aborted, NoResult, true, false)])
      else s.(execs := s.execs[d := Exec(Waiting, NoResult, false, false)], lua := [EnqueuePut(d)])
  {
  }

  lemma Enqueued(s: State, d: Id)
    requires s.lua == [EnqueuePut(d)] && !s.f.closed
    ensures Step(s, Lua(true)) == s.(lua := [], p := s.p.(queue := s.p.queue + [d], accepted := s.p.accepted + [d]))
  {
  }

  /** wait(): returns at once when it is finished, blocks when it can, and otherwise completes the execution with an
      error, out of the queue if it is still there. */
  function WaitDone(s: State, d: Id): State {
    var failed := s.execs[d := Of(s, d).(result := Error, status := Complete, finished := true)];
    if Of(s, d).finished then s
    else if s.f.canWait then s.(lua := [WaitBlock(d)])
    else if Of(s, d).status == Waiting && d in s.p.queue then
      s.(execs := failed, p := s.p.(queue := Without(s.p.queue, d), finished := s.p.finished + [d], retired := s.p.retired + [d]))
    else s.(execs := failed, p := s.p.(finished := s.p.finished + [d], fallbacks := s.p.fallbacks + [d]))
  }

  lemma WaitAlone(s: State, d: Id) returns (more: seq<Action>)
    requires s.lua == [] && d in s.p.accepted
    ensures OnlyLua(more, true) && RunFrom(Step(s, Begin(Wait(d))), more) == WaitDone(s, d)
  {
    WaitBegun(s, d);
    var t := s.(lua := [WaitFinished(d)]);
    FinishedRead(t, d);
    var u;
    more, u := LuaOn(t, [], t, true);
    if !Of(s, d).finished && !s.f.canWait {
      WaitStatusRead(u, d);
      more, u := LuaOn(t, more, u, true);
      if Of(s, d).status == Waiting {
        WaitRemoved(u, d);
        more, u := LuaOn(t, more, u, true);
      }
      if u.lua != [] {
        FellBack(u, d);
        more, u := LuaOn(t, more, u, true);
      }
    }
  }

  lemma WaitBegun(s: State, d: Id)
    requires s.lua == [] && d in s.p.accepted
    ensures Step(s, Begin(Wait(d))) == s.(lua := [WaitFinished(d)])
  {
  }

  lemma FinishedRead(s: State, d: Id)
    requires s.lua == [WaitFinished(d)]
    ensures Step(s, Lua(true)) ==
      s.(lua := if Of(s, d).finished then [] else if s.f.canWait then [WaitBlock(d)] else [WaitIfWaiting(d)])
  {
  }

  lemma WaitStatusRead(s: State, d: Id)
    requires s.lua == [WaitIfWaiting(d)]
    ensures Step(s, Lua(true)) == s.(lua := [if Of(s, d).status == Waiting then WaitRemove(d) else WaitFallback(d)])
  {
  }

  lemma WaitRemoved(s: State, d: Id)
    requires s.lua == [WaitRemove(d)]
    ensures Step(s, Lua(true)) ==
      if d in s.p.queue then
        s.(lua := [], execs := s.execs[d := Of(s, d).(result := Error, status := Complete, finished := true)],
           p := s.p.(queue := Without(s.p.queue, d), finished := s.p.finished + [d], retired := s.p.retired + [d]))
      else s.(lua := [WaitFallback(d)])
  {
  }

  lemma FellBack(s: State, d: Id)
    requires s.lua == [WaitFallback(d)] && !Of(s, d).finished
    ensures Step(s, Lua(true)) == s.(lua := [], execs := s.execs[d := Of(s, d).(result := Error, status := Complete, finished := true)],
      p := s.p.(finished := s.p.finished + [d], fallbacks := s.p.fallbacks + [d]))
  {
  }

  /** abort() of a child that is published raises its flag, and withdraws it when the request fails; any other child is left alone. */
  lemma AbortKidAlone(s: State, k: Kid, delivered: bool) returns (more: seq<Action>)
    requires s.lua == [] && k !in s.kids.raised
    ensures OnlyLua(more, delivered)
    ensures RunFrom(Step(s, Begin(AbortKid(k))), more) ==
      if s.kids.alias == Some(k) then
        s.(kids := s.kids.(raised := if delivered then s.kids.raised + {k} else s.kids.raised), marks := s.marks.(kids := s.marks.kids + {k}))
      else s
  {
    KidAbortBegun(s, k);
    var t := s.(lua := [CancelKid(k)]);
    KidFlagRaised(t, k, delivered);
    var u;
    more, u := LuaOn(t, [], t, delivered);
    if s.kids.alias == Some(k) {
      KidFlagKept(u, k, delivered);
      more, u := LuaOn(t, more, u, delivered);
      assert s.kids.raised + {k} - {k} == s.kids.raised;
    }
  }

  lemma KidAbortBegun(s: State, k: Kid)
    requires s.lua == []
    ensures Step(s, Begin(AbortKid(k))) == s.(lua := [CancelKid(k)])
  {
  }

  lemma KidFlagRaised(s: State, k: Kid, delivered: bool)
    requires s.lua == [CancelKid(k)]
    ensures Step(s, Lua(delivered)) ==
      if s.kids.alias == Some(k) then
        s.(lua := [KidSent(k)], kids := s.kids.(raised := s.kids.raised + {k}), marks := s.marks.(kids := s.marks.kids + {k}))
      else s.(lua := [])
  {
  }

  lemma KidFlagKept(s: State, k: Kid, delivered: bool)
    requires s.lua == [KidSent(k)]
    ensures Step(s, Lua(delivered)) == s.(lua := [], kids := s.kids.(raised := if delivered then s.kids.raised else s.kids.raised - {k}))
  {
  }

  // ---------------------------------------------------------------- calls that are one step

  /** A ping that fails on a connection believed good: with automatic reconnection, unless shutting down, the connection is
      dialled once and the status says how that ended; otherwise the status says that there is no connection. */
  lemma PingAlone(s: State, reconnected: bool, stillOpen: bool)
    requires s.lua == [] && !HoldsQueryMutex(s.worker.phase)
    ensures Step(s, Begin(PingFailed(reconnected, stillOpen))) ==
      if s.f.status == Connected && s.f.autoReconnect && !s.f.shuttingDown then
        s.(f := s.f.(active := None, sessionOpen := reconnected, status := if reconnected then Connected else ConnectionFailed))
      else if s.f.status == Connected then s.(f := s.f.(status := NotConnected, sessionOpen := s.f.sessionOpen && stillOpen))
      else s.(f := s.f.(sessionOpen := s.f.sessionOpen && stillOpen))
  {
  }

  /** connect() starts the worker, once. */
  lemma ConnectAlone(s: State)
    requires s.lua == []
    ensures Step(s, Begin(Connect)) ==
      if s.f.status == NotConnected && !s.f.started && s.worker.phase.Unstarted? then
        s.(f := s.f.(started := true, canWait := true, status := DatabaseStatus.Connecting), worker := s.worker.(phase := Phase.Connecting))
      else s
  {
  }

  /** The connection attempt decides between the loop and the failure of everything queued. */
  lemma ConnectionDecides(s: State, ok: bool, e: Ending, open: bool)
    requires s.worker.phase.Connecting?
    ensures Step(s, Work(ok, e, open)) ==
      if ok then s.(worker := s.worker.(phase := Top), f := s.f.(sessionOpen := true, status := Connected))
      else s.(worker := s.worker.(phase := ConnectFailed), f := s.f.(failed := true, canWait := false, status := ConnectionFailed))
  {
  }

  lemma SettingAlone(s: State, on: bool)
    requires s.lua == []
    ensures Step(s, Begin(SetAutoReconnect(on))) == s.(f := s.f.(autoReconnect := on))
  {
  }

  // ---------------------------------------------------------------- in any interleaving

  /** The call is on its way to cancel() of `d`, provided that `d` is and stays the active execution. */
  predicate Heading(lua: seq<Micro>, d: Id) {
    lua != [] && (lua[0] in {AbortRemove(d), AbortIfWaiting(d), AbortIfRunning(d), CancelActive(d)} || ReadActive in lua)
  }

  /** cancel() has met `d`: its flag is up, and the request is being sent. */
  predicate Met(s: State, d: Id) { s.lua != [] && s.lua[0] == CancelSent(d) && Of(s, d).cancelRequested && d in s.marks.cancelled }

  /** A statement is running under guard. */
  predicate RunsNow(s: State, d: Id) { s.f.active == Some(d) && Of(s, d).status == Running }

  lemma HeadingTail(s: State, d: Id)
    requires s.lua != [] && ReadActive in s.lua && s.lua[0] != ReadActive
    ensures ReadActive in s.lua[1..]
  {
    assert s.lua == [s.lua[0]] + s.lua[1..];
  }

  lemma LuaHeads(s: State, ok: bool, d: Id)
    requires Heading(s.lua, d) && RunsNow(s, d) && d !in s.p.queue
    ensures var t := LuaStep(s, ok); Heading(t.lua, d) || Met(t, d)
  {
    var t := LuaStep(s, ok);
    assert t.lua == LuaNext(s) + s.lua[1..];
    if s.lua[0] == CancelActive(d) {
      assert t.lua[0] == CancelSent(d);
    } else if s.lua[0] in {AbortRemove(d), AbortIfWaiting(d), AbortIfRunning(d)} {
      assert t.lua[0] == LuaNext(s)[0] && LuaNext(s)[0] in {AbortIfWaiting(d), AbortIfRunning(d), CancelActive(d)};
    } else if s.lua[0] == ReadActive {
      assert t.lua[0] == CancelActive(d);
    } else {
      HeadingTail(s, d);
      assert ReadActive in t.lua;
    }
  }

  lemma StepHeads(s: State, a: Action, d: Id)
    requires Fits(s) && Heading(s.lua, d) && RunsNow(s, d)
    ensures var t := Step(s, a); Heading(t.lua, d) || Met(t, d)
  {
    HeldAlone(s);
    if Enabled(s, a) {
      match a {
        case Work(ok, e, open) =>
        case Lua(ok) => LuaHeads(s, ok, d);
        case Begin(c) =>
      }
    }
  }

  /** abort(), abortAllQueries() and shutdown() cancel the running statement: if it runs from the beginning of the call
      to its end, then at some moment in between cancel() has met it. */
  lemma {:induction false} CancelMeetsRunning(run: seq<Action>, more: seq<Action>, d: Id) returns (k: nat)
    requires Heading(Run(run).lua, d) && RunFrom(Run(run), more).lua == []
    requires forall i :: 0 <= i <= |more| ==> RunsNow(RunFrom(Run(run), more[..i]), d)
    ensures k <= |more| && Met(RunFrom(Run(run), more[..k]), d)
  {
    assert more[..|more|] == more;
    k := HeadsUntilMet(run, more, d, |more|);
  }

  lemma {:induction false} HeadsUntilMet(run: seq<Action>, more: seq<Action>, d: Id, n: nat) returns (k: nat)
    requires Heading(Run(run).lua, d) && n <= |more|
    requires forall i :: 0 <= i <= |more| ==> RunsNow(RunFrom(Run(run), more[..i]), d)
    ensures k <= n && (Met(RunFrom(Run(run), more[..k]), d) || (k == n && Heading(RunFrom(Run(run), more[..n]).lua, d)))
  {
    if n == 0 {
      k := 0;
      assert more[..0] == [];
    } else {
      k := HeadsUntilMet(run, more, d, n - 1);
      if !Met(RunFrom(Run(run), more[..k]), d) {
        HeadsOn(run, more, d, n);
        k := n;
      }
    }
  }

  lemma HeadsOn(run: seq<Action>, more: seq<Action>, d: Id, n: nat)
    requires 0 < n <= |more|
    requires var before := RunFrom(Run(run), more[..n - 1]); Heading(before.lua, d) && RunsNow(before, d)
    ensures var after := RunFrom(Run(run), more[..n]); Heading(after.lua, d) || Met(after, d)
  {
    RunSound(run);
    FitsAlong(Run(run), more[..n - 1]);
    StepHeads(RunFrom(Run(run), more[..n - 1]), more[n - 1], d);
    assert more[..n][..n - 1] == more[..n - 1];
  }

  /** These are the calls that head for it. */
  lemma CallsHead(s: State, d: Id)
    requires s.lua == [] && d in s.p.accepted
    ensures Heading(Step(s, Begin(Abort(d))).lua, d) && Heading(Step(s, Begin(AbortAll)).lua, d)
    ensures !s.f.shuttingDown ==> Heading(Step(s, Begin(Shutdown)).lua, d)
  {
    AbortBegun(s, d);
    AbortAllBegun(s);
    if !s.f.shuttingDown { ShutdownBegun(s); }
  }
}
