/** The life of a query execution: the Lua thread and the worker thread of one Database as a
    step system (pg/src/postgres/Database.cpp, QueryWorker.cpp, IQuery.cpp, LuaDatabase.cpp).

    One worker step or one Lua step is one critical section, or one read or write of an atomic
    field together with the thread-local work around it. Every interleaving of the two threads
    is a sequence of these steps. What the environment decides (connect results, how a
    statement ends, whether a cancel request reached the server) is part of the action. */
module QueryLifecycle {
  import opened QueryTypes
  import opened Sequences

  /** An execution: the (query, data) pair of one start. */
  type Id = nat

  /** A child of a transaction, by its position in it. */
  datatype Kid = Kid(parent: Id, index: nat)

  datatype Exec = Exec(status: QueryStatus, result: ResultStatus, finished: bool, cancelRequested: bool)

  /** How executeStatement ends: the exception class, whether its text is a user cancellation,
      and whether a connection error may be retried. */
  datatype Ending = Ok | ConnectionError(userCancel: bool, retriable: bool) | OtherError(userCancel: bool)

  // ---------------------------------------------------------------- where executions are

  datatype Places = Places(
    queue: seq<Id>,
    hands: seq<Id>,          // held by the worker, not yet in the finished list
    finished: seq<Id>,       // the finished list
    holding: seq<Id>,        // aborted by shutdown, not yet in the finished list
    toDeliver: seq<Id>,      // returned to the Lua caller, callbacks ahead
    delivered: seq<Id>,      // callbacks fired and execution closed
    // history
    accepted: seq<Id>,       // put into the queue by start
    taken: seq<Id>,          // taken by the worker, in order
    ran: seq<bool>,          // for each of these, whether executeStatement was called
    executed: seq<Id>,       // the calls of executeStatement, in order
    retired: seq<Id>,        // removed from the queue without being taken
    fallbacks: seq<Id>)      // completed by waitForQuery's fallback

  /** The hand-overs of executions between threads and lists. */
  datatype Move =
    | Stay
    | Admit(d: Id)           // start puts it into the queue
    | TakeFront              // the worker takes the front of the queue
    | BeginStatement(d: Id)  // the worker calls executeStatement
    | PutHand                // the worker puts what it holds first into the finished list
    | FailAll                // the worker takes the whole queue after a failed connect
    | AbortOne(d: Id)        // abort removes it from the queue
    | AbortQueue             // abortAllQueries empties the queue
    | HoldQueue              // shutdown empties the queue
    | FinishHeld             // shutdown puts the first of these into the finished list
    | CompleteQueued(d: Id)  // waitForQuery completes it out of the queue
    | Fallback(d: Id)        // waitForQuery completes it although it is not in the queue
    | Collect                // think takes the finished list
    | Hand(i: nat)           // a callback is run and the execution closed
    | SwapFront(d: Id)

  function Is(d: Id): Id -> bool { x => x == d }

  function Moved(p: Places, m: Move): Places {
    match m
    case Stay => p
    case Admit(d) => p.(queue := p.queue + [d], accepted := p.accepted + [d])
    case TakeFront =>
      if p.queue == [] then p
      else p.(queue := p.queue[1..], hands := p.hands + [p.queue[0]], taken := p.taken + [p.queue[0]], ran := p.ran + [false])
    case BeginStatement(d) =>
      if p.ran == [] then p else p.(executed := p.executed + [d], ran := p.ran[|p.ran| - 1 := true])
    case PutHand =>
      if p.hands == [] then p else p.(hands := p.hands[1..], finished := p.finished + [p.hands[0]])
    case FailAll => p.(queue := [], hands := p.hands + p.queue, retired := p.retired + p.queue)
    case AbortOne(d) =>
      if d !in p.queue then p
      else p.(queue := Without(p.queue, d), toDeliver := p.toDeliver + [d], retired := p.retired + [d])
    case AbortQueue => p.(queue := [], toDeliver := p.toDeliver + p.queue, retired := p.retired + p.queue)
    case HoldQueue => p.(queue := [], holding := p.holding + p.queue, retired := p.retired + p.queue)
    case FinishHeld =>
      if p.holding == [] then p else p.(holding := p.holding[1..], finished := p.finished + [p.holding[0]])
    case CompleteQueued(d) =>
      if d !in p.queue then p
      else p.(queue := Without(p.queue, d), finished := p.finished + [d], retired := p.retired + [d])
    case Fallback(d) => p.(finished := p.finished + [d], fallbacks := p.fallbacks + [d])
    case Collect => p.(toDeliver := p.toDeliver + p.finished, finished := [])
    case Hand(i) =>
      if i >= |p.toDeliver| then p
      else p.(toDeliver := p.toDeliver[..i] + p.toDeliver[i + 1..], delivered := p.delivered + [p.toDeliver[i]])
    case SwapFront(d) => p.(queue := SwappedToFront(p.queue, Is(d)))
  }

  // ---------------------------------------------------------------- execution data

  type Execs = map<Id, Exec>

  function Get(execs: Execs, d: Id): Exec {
    if d in execs then execs[d] else Exec(NotRunning, NoResult, false, false)
  }

  datatype Write = Keep | Put(d: Id, e: Exec) | AbortEach(ids: seq<Id>)

  function Written(execs: Execs, w: Write): (r: Execs)
    ensures execs.Keys <= r.Keys
    ensures forall d :: Get(r, d) == NewValue(execs, w, d)
  {
    match w
    case Keep => execs
    case Put(d, e) => execs[d := e]
    case AbortEach(ids) =>
      map d | d in execs.Keys + (set d | d in ids) :: NewValue(execs, w, d)
  }

  function NewValue(execs: Execs, w: Write, d: Id): Exec {
    match w
    case Keep => Get(execs, d)
    case Put(x, e) => if d == x then e else Get(execs, d)
    case AbortEach(ids) => if d in ids then Get(execs, d).(status := Aborted, finished := true) else Get(execs, d)
  }

  function CompletedWithError(e: Exec): Exec {
    e.(result := Error, status := Complete)
  }

  // ---------------------------------------------------------------- shared fields

  datatype Flags = Flags(
    closed: bool,            // the queue's flag
    inFlight: Option<Id>,
    active: Option<Id>,      // the guarded execution
    shuttingDown: bool,
    canWait: bool,
    started: bool,
    failed: bool,            // m_connectionDone && !m_success
    status: DatabaseStatus,
    sessionOpen: bool,
    autoReconnect: bool)

  /** The published child, and the children whose cancellation flag is up. */
  datatype Children = Children(alias: Option<Kid>, raised: set<Kid>)

  /** attemptReconnect up to the new connection attempt. */
  function DropSession(f: Flags): Flags {
    f.(active := None, status := NotConnected, sessionOpen := false)
  }

  function NewSession(f: Flags, ok: bool): Flags {
    f.(sessionOpen := ok, status := if ok then Connected else ConnectionFailed)
  }

  /** Marks left for the properties only; no step reads them. */
  datatype Marks = Marks(
    cancelled: set<Id>,      // cancel() matched it while it was the active query
    kids: set<Kid>,          // cancel() matched it while it was the published child
    late: set<Id>,           // an abort wrote QUERY_ABORTED when its status was no longer QUERY_WAITING
    atShutdown: nat)         // executeStatement calls begun when m_shuttingDown was set

  /** What a step does to the shared state. */
  datatype Effect = Effect(move: Move, write: Write, f: Flags, marks: Marks)

  // ---------------------------------------------------------------- the threads

  /** Program counter of connectRun, run and runQuery. */
  datatype Phase =
    | Unstarted
    | Connecting
    | ConnectFailed
    | Failing
    | FailPut
    | FailFinish
    | Top
    | Took          // taken from the queue, not yet in flight
    | Published     // in flight, first status check ahead
    | Locked        // holds m_queryMutex, second check ahead
    | Checked       // second check passed, QUERY_RUNNING not yet written
    | Entering      // runQuery entered
    | Reconnecting  // inside attemptReconnect, before the statement
    | Guarding      // about to publish the active query and execute
    | Executing     // in executeStatement, no child published
    | Child         // in executeStatement, a child published
    | Copying       // the transaction failed, collecting the flags of its children
    | Succeeding    // executeStatement has returned
    | Unguarding    // the Guard is about to be destroyed
    | Handling      // the guard is gone, the handler is ahead
    | Recovering    // inside attemptReconnect, after the statement failed
    | PostRun
    | Completing
    | Finishing     // about to put into the finished list
    | PutDone
    | FinishSet
    | Leaving
    | Exiting
    | Exited

  /** `kids` counts the children published so far, `at` those whose flags have been collected. */
  datatype Worker = Worker(phase: Phase, d: Id, ending: Ending, kids: nat, at: nat)

  /** What the Lua thread still has to do of the call it is in; calls run to completion on it. */
  datatype Micro =
    | EnqueuePut(d: Id)
    | AbortRemove(d: Id) | AbortIfWaiting(d: Id) | AbortIfRunning(d: Id) | SetAborted(d: Id)
    | CancelActive(d: Id) | CancelSent(d: Id) | CancelKid(k: Kid) | KidSent(k: Kid)
    | ClearQueued | ReadInFlight | InFlightIfWaiting(d: Id) | ReadActive
    | SetNotConnected | CloseAndClear | FinishHolding
    | WaitFinished(d: Id) | WaitIfWaiting(d: Id) | WaitRemove(d: Id) | WaitFallback(d: Id) | WaitBlock(d: Id)

  datatype Call =
    | Connect
    | Start(d: Id)
    | Abort(d: Id)
    | AbortKid(k: Kid)       // whatever the child's own status is, so more runs than the program has
    | AbortAll
    | Shutdown
    | SwapToFront(d: Id)
    | Wait(d: Id)
    | Think
    | Deliver(i: nat)
    | PingFailed(reconnected: bool, stillOpen: bool)
    | SetAutoReconnect(on: bool)

  datatype State = State(p: Places, execs: Execs, f: Flags, marks: Marks, worker: Worker, lua: seq<Micro>, kids: Children)

  const Initial: State := State(
    Places([], [], [], [], [], [], [], [], [], [], [], []), map[],
    Flags(false, None, None, false, false, false, false, NotConnected, false, true),
    Marks({}, {}, {}, 0), Worker(Unstarted, 0, Ok, 0, 0), [], Children(None, {}))

  function Of(s: State, d: Id): Exec { Get(s.execs, d) }

  function Apply(s: State, e: Effect): State {
    s.(p := Moved(s.p, e.move), execs := Written(s.execs, e.write), f := e.f, marks := e.marks)
  }

  // ---------------------------------------------------------------- the worker thread

  predicate WorkerEnabled(s: State) {
    match s.worker.phase
    case Unstarted => false
    case Exited => false
    case Top => s.p.queue != [] || s.f.closed
    case _ => true
  }

  /** `ok` says how a connection attempt ends, and inside a statement whether it is over. */
  function NextPhase(s: State, ok: bool, ending: Ending): Phase {
    var x := Of(s, s.worker.d);
    match s.worker.phase
    case Connecting => if ok then Top else ConnectFailed
    case ConnectFailed => Failing
    case Failing => if s.p.hands == [] then Exited else FailPut
    case FailPut => FailFinish
    case FailFinish => Failing
    case Top => if s.p.queue == [] then Leaving else Took
    case Took => Published
    case Published => if x.status == Aborted then Finishing else Locked
    case Locked => if s.f.shuttingDown || x.status == Aborted then Finishing else Checked
    case Checked => Entering
    case Entering =>
      if s.f.sessionOpen then Guarding
      else if !s.f.autoReconnect || s.f.shuttingDown then Handling
      else Reconnecting
    case Reconnecting => if ok then Guarding else Handling
    case Guarding => Executing
    case Executing => if !ok then Child else if ending.Ok? then Succeeding else Copying
    case Child => Executing
    case Copying => if s.worker.at < s.worker.kids then Copying else Unguarding
    case Succeeding => Unguarding
    case Unguarding => if s.worker.ending.Ok? then PostRun else Handling
    case Handling => if Retries(s) then Recovering else PostRun
    case Recovering => PostRun
    case PostRun => if x.status == Aborted then Finishing else Completing
    case Completing => Finishing
    case Finishing => PutDone
    case PutDone => FinishSet
    case FinishSet => Top
    case Leaving => Exiting
    case Exiting => Exited
    case other => other
  }

  /** The handler of runQuery takes the failed statement for a user cancellation. */
  predicate TakenAsCancelled(s: State) {
    !s.worker.ending.Ok? && Of(s, s.worker.d).cancelRequested && s.worker.ending.userCancel
  }

  /** The handler of runQuery reconnects. */
  predicate Retries(s: State) {
    s.worker.ending.ConnectionError? && !TakenAsCancelled(s) &&
    s.f.autoReconnect && s.worker.ending.retriable && !s.f.shuttingDown
  }

  function WorkerMove(s: State): Move {
    match s.worker.phase
    case ConnectFailed => FailAll
    case FailPut => PutHand
    case Top => TakeFront
    case Guarding => BeginStatement(s.worker.d)
    case Finishing => PutHand
    case _ => Stay
  }

  function WorkerWrite(s: State): Write {
    var d := s.worker.d;
    var x := Of(s, d);
    match s.worker.phase
    case Failing => if s.p.hands == [] then Keep else Put(s.p.hands[0], CompletedWithError(Of(s, s.p.hands[0])))
    case FailFinish => Put(d, x.(finished := true))
    case Locked => if s.f.shuttingDown || x.status == Aborted then Put(d, x.(status := Aborted)) else Keep
    case Checked => Put(d, x.(status := Running))
    case Copying => if Kid(d, s.worker.at) in s.kids.raised && s.worker.at < s.worker.kids then Put(d, x.(cancelRequested := true)) else Keep
    case Succeeding => Put(d, x.(cancelRequested := false, result := Success))
    case Handling =>
      if TakenAsCancelled(s) then Put(d, x.(status := Aborted, result := NoResult))
      else if Retries(s) then Put(d, x.(cancelRequested := false))
      else Put(d, x.(cancelRequested := false, result := Error))
    case Recovering => Put(d, x.(result := Error))
    case Completing => Put(d, x.(status := Complete))
    case PutDone => Put(d, x.(finished := true))
    case _ => Keep
  }

  function WorkerFlags(s: State, ok: bool, stillOpen: bool): Flags {
    var d, f := s.worker.d, s.f;
    match s.worker.phase
    case Connecting =>
      if ok then NewSession(f, true) else f.(failed := true, status := ConnectionFailed, canWait := false)
    case ConnectFailed => f.(closed := true)
    case Took => f.(inFlight := Some(d))
    case Entering => if f.sessionOpen || !f.autoReconnect || f.shuttingDown then f else DropSession(f)
    case Reconnecting => NewSession(f, ok)
    case Guarding => f.(active := Some(d))
    case Executing => if ok then f.(sessionOpen := f.sessionOpen && stillOpen) else f
    case Unguarding => f.(active := None)
    case Handling => if Retries(s) then DropSession(f) else f
    case Recovering => NewSession(f, ok)
    case FinishSet => if f.inFlight == Some(d) then f.(inFlight := None) else f
    case Leaving => f.(sessionOpen := false)
    case Exiting => f.(canWait := false, status := if f.status == Connected then NotConnected else f.status)
    case _ => f
  }

  function WorkerKids(s: State, ok: bool): Children {
    match s.worker.phase
    case Executing => if ok then s.kids else s.kids.(alias := Some(Kid(s.worker.d, s.worker.kids)))
    case Child => s.kids.(alias := None)
    case Unguarding => s.kids.(alias := None)
    case _ => s.kids
  }

  function WorkerEffect(s: State, ok: bool, stillOpen: bool): Effect {
    Effect(WorkerMove(s), WorkerWrite(s), WorkerFlags(s, ok, stillOpen), s.marks)
  }

  /** The execution the worker's local variable names after the step. */
  function NextPair(s: State): Id {
    if s.worker.phase.Top? && s.p.queue != [] then s.p.queue[0]
    else if s.worker.phase.Failing? && s.p.hands != [] then s.p.hands[0]
    else s.worker.d
  }

  function NextEnding(s: State, ending: Ending): Ending {
    match s.worker.phase
    case Entering => ConnectionError(false, true)
    case Reconnecting => ConnectionError(false, true)
    case Executing => ending
    case _ => s.worker.ending
  }

  function NextKids(s: State): nat {
    if s.worker.phase.Guarding? then 0 else if s.worker.phase.Child? then s.worker.kids + 1 else s.worker.kids
  }

  function NextAt(s: State): nat {
    if s.worker.phase.Guarding? then 0 else if s.worker.phase.Copying? then s.worker.at + 1 else s.worker.at
  }

  function WorkerStep(s: State, ok: bool, ending: Ending, stillOpen: bool): State {
    Apply(s, WorkerEffect(s, ok, stillOpen)).(
      worker := Worker(NextPhase(s, ok, ending), NextPair(s), NextEnding(s, ending), NextKids(s), NextAt(s)),
      kids := WorkerKids(s, ok))
  }

  // ---------------------------------------------------------------- the Lua thread

  predicate LuaEnabled(s: State) {
    s.lua != [] && (s.lua[0].WaitBlock? ==> Of(s, s.lua[0].d).finished)
  }

  /** What the head of the Lua program is replaced by. */
  function LuaNext(s: State): seq<Micro>
    requires s.lua != []
  {
    match s.lua[0]
    case AbortRemove(d) => if d in s.p.queue then [] else [AbortIfWaiting(d)]
    case AbortIfWaiting(d) => [if Of(s, d).status == Waiting then SetAborted(d) else AbortIfRunning(d)]
    case AbortIfRunning(d) => if Of(s, d).status == Running then [CancelActive(d)] else []
    case CancelActive(d) => if s.f.active == Some(d) then [CancelSent(d)] else []
    case CancelKid(k) => if s.kids.alias == Some(k) then [KidSent(k)] else []
    case ReadInFlight => if s.f.inFlight.Some? then [InFlightIfWaiting(s.f.inFlight.value)] else []
    case InFlightIfWaiting(d) => if Of(s, d).status == Waiting then [SetAborted(d)] else []
    case ReadActive => if s.f.active.Some? then [CancelActive(s.f.active.value)] else []
    case CloseAndClear => [FinishHolding]
    case FinishHolding => if s.p.holding == [] then [] else [FinishHolding]
    case WaitFinished(d) =>
      if Of(s, d).finished then [] else [if s.f.canWait then WaitBlock(d) else WaitIfWaiting(d)]
    case WaitIfWaiting(d) => [if Of(s, d).status == Waiting then WaitRemove(d) else WaitFallback(d)]
    case WaitRemove(d) => if d in s.p.queue then [] else [WaitFallback(d)]
    case _ => []
  }

  function LuaMove(s: State): Move
    requires s.lua != []
  {
    match s.lua[0]
    case EnqueuePut(d) => if s.f.closed then Stay else Admit(d)
    case AbortRemove(d) => AbortOne(d)
    case ClearQueued => AbortQueue
    case CloseAndClear => HoldQueue
    case FinishHolding => FinishHeld
    case WaitRemove(d) => CompleteQueued(d)
    case WaitFallback(d) => if Of(s, d).finished then Stay else Fallback(d)
    case _ => Stay
  }

  function LuaWrite(s: State, ok: bool): Write
    requires s.lua != []
  {
    match s.lua[0]
    case EnqueuePut(d) => if s.f.closed then Put(d, Of(s, d).(status := Aborted, finished := true)) else Keep
    case AbortRemove(d) => if d in s.p.queue then Put(d, Of(s, d).(status := Aborted, finished := true)) else Keep
    case SetAborted(d) => Put(d, Of(s, d).(status := Aborted))
    case CancelActive(d) => if s.f.active == Some(d) then Put(d, Of(s, d).(cancelRequested := true)) else Keep
    case CancelSent(d) => if ok then Keep else Put(d, Of(s, d).(cancelRequested := false))
    case ClearQueued => AbortEach(s.p.queue)
    case CloseAndClear => AbortEach(s.p.queue)
    case WaitRemove(d) =>
      if d in s.p.queue then Put(d, CompletedWithError(Of(s, d)).(finished := true)) else Keep
    case WaitFallback(d) =>
      if Of(s, d).finished then Keep else Put(d, CompletedWithError(Of(s, d)).(finished := true))
    case _ => Keep
  }

  function LuaFlags(s: State): Flags
    requires s.lua != []
  {
    match s.lua[0]
    case SetNotConnected => s.f.(status := NotConnected)
    case CloseAndClear => s.f.(closed := true)
    case _ => s.f
  }

  function LuaKids(s: State, ok: bool): Children
    requires s.lua != []
  {
    match s.lua[0]
    case CancelKid(k) => if s.kids.alias == Some(k) then s.kids.(raised := s.kids.raised + {k}) else s.kids
    case KidSent(k) => if ok then s.kids else s.kids.(raised := s.kids.raised - {k})
    case _ => s.kids
  }

  function LuaMarks(s: State): Marks
    requires s.lua != []
  {
    var m := s.marks;
    match s.lua[0]
    case SetAborted(d) => if Of(s, d).status == Waiting then m else m.(late := m.late + {d})
    case CancelKid(k) => if s.kids.alias == Some(k) then m.(kids := m.kids + {k}) else m
    case CancelActive(d) => if s.f.active == Some(d) then m.(cancelled := m.cancelled + {d}) else m
    case _ => m
  }

  function LuaEffect(s: State, ok: bool): Effect
    requires s.lua != []
  {
    Effect(LuaMove(s), LuaWrite(s, ok), LuaFlags(s), LuaMarks(s))
  }

  function LuaStep(s: State, ok: bool): State
    requires s.lua != []
  {
    Apply(s, LuaEffect(s, ok)).(lua := LuaNext(s) + s.lua[1..], kids := LuaKids(s, ok))
  }

  predicate HoldsQueryMutex(ph: Phase) {
    ph.Connecting? || ph.Locked? || ph.Checked? || ph.Entering? || ph.Reconnecting? || ph.Guarding? ||
    ph.Executing? || ph.Child? || ph.Copying? || ph.Succeeding? || ph.Unguarding? || ph.Handling? || ph.Recovering? || ph.PostRun? || ph.Completing?
  }

  /** A call may begin when the Lua thread is in no other; callbacks run between calls. */
  predicate CallEnabled(s: State, c: Call) {
    s.lua == [] &&
    match c
    case Connect => s.f.status == NotConnected && !s.f.started && s.worker.phase.Unstarted?
    case Start(d) => d !in s.execs
    case Abort(d) => d in s.p.accepted
    case Wait(d) => d in s.p.accepted
    case Deliver(i) => i < |s.p.toDeliver|
    case PingFailed(_, _) => !HoldsQueryMutex(s.worker.phase)
    case _ => true
  }

  function CallProgram(s: State, c: Call): seq<Micro> {
    match c
    case Start(d) => if s.f.shuttingDown || s.f.closed then [] else [EnqueuePut(d)]
    case Abort(d) => [AbortRemove(d)]
    case AbortKid(k) => [CancelKid(k)]
    case AbortAll => [ClearQueued, ReadInFlight, ReadActive]
    case Shutdown => if s.f.shuttingDown then [] else [SetNotConnected, ReadActive, ReadInFlight, CloseAndClear]
    case Wait(d) => [WaitFinished(d)]
    case _ => []
  }

  function CallMove(c: Call): Move {
    match c
    case SwapToFront(d) => SwapFront(d)
    case Think => Collect
    case Deliver(i) => Hand(i)
    case _ => Stay
  }

  function CallWrite(s: State, c: Call): Write {
    if !c.Start? then Keep
    else if s.f.shuttingDown || s.f.closed then Put(c.d, Exec(Aborted, NoResult, true, false))
    else Put(c.d, Exec(Waiting, NoResult, false, false))
  }

  function CallFlags(f: Flags, c: Call): Flags {
    match c
    case Connect => f.(started := true, canWait := true, status := DatabaseStatus.Connecting)
    case Shutdown => f.(shuttingDown := true)
    case PingFailed(reconnected, stillOpen) =>
      if f.status != Connected then f.(sessionOpen := f.sessionOpen && stillOpen)
      else if !f.autoReconnect || f.shuttingDown then f.(status := NotConnected, sessionOpen := f.sessionOpen && stillOpen)
      else NewSession(DropSession(f), reconnected)
    case SetAutoReconnect(on) => f.(autoReconnect := on)
    case _ => f
  }

  function CallMarks(s: State, c: Call): Marks {
    if c.Shutdown? && !s.f.shuttingDown then s.marks.(atShutdown := |s.p.executed|) else s.marks
  }

  function CallEffect(s: State, c: Call): Effect {
    Effect(CallMove(c), CallWrite(s, c), CallFlags(s.f, c), CallMarks(s, c))
  }

  function CallStep(s: State, c: Call): State {
    var t := Apply(s, CallEffect(s, c));
    t.(lua := CallProgram(s, c), worker := if c.Connect? then s.worker.(phase := Phase.Connecting) else s.worker)
  }

  // ---------------------------------------------------------------- runs

  datatype Action =
    | Work(ok: bool, ending: Ending, stillOpen: bool)
    | Lua(ok: bool)
    | Begin(call: Call)

  predicate Enabled(s: State, a: Action) {
    match a
    case Work(_, _, _) => WorkerEnabled(s)
    case Lua(_) => LuaEnabled(s)
    case Begin(c) => CallEnabled(s, c)
  }

  /** One step; an action that is not enabled changes nothing. */
  function Step(s: State, a: Action): State {
    if !Enabled(s, a) then s
    else match a
         case Work(ok, ending, stillOpen) => WorkerStep(s, ok, ending, stillOpen)
         case Lua(ok) => LuaStep(s, ok)
         case Begin(c) => CallStep(s, c)
  }

  function RunFrom(s: State, run: seq<Action>): State {
    if run == [] then s else Step(RunFrom(s, run[..|run| - 1]), run[|run| - 1])
  }

  /** The state after a run: every interleaving of both threads and every environment is one. */
  function Run(run: seq<Action>): State { RunFrom(Initial, run) }
}
