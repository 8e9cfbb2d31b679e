/** What the Lua binding keeps about query objects and their executions over a whole run: references,
    running lists, and the executions still open (pg/src/lua, pg/src/postgres/IQuery.cpp). */
module LuaBookkeeping {
  import opened Sequences
  import opened RunningLists
  import opened LuaReferences

  /** A query or transaction query of Lua. Only a transaction has added queries. */
  datatype Object = Object(databaseRef: nat, transaction: bool, started: bool, running: seq<nat>, added: seq<Added>)

  /** An execution: the query it belongs to, its references, and a transaction's children. */
  datatype Execution = Execution(owner: nat, refs: Refs, children: seq<Added>)

  datatype Entry = Entry(query: nat, data: nat)

  /** `open` is not kept by the code: it lists, in order, the executions that were started, or staged
      by the start of their transaction, and not closed since. `results` are the result tables of the
      success callbacks under way, the innermost last: a callback may call wait(), which delivers more. */
  datatype State = State(registry: Registry, objects: seq<Object>, executions: seq<Execution>, open: seq<Entry>,
                         results: seq<nat>)

  function Initial(pool: seq<nat>): State { State(Registry(multiset{}, 0, 0, 1, pool, false, map[]), [], [], [], []) }

  /** One call from Lua or one delivery. `accepted` is false when the database is disconnected. */
  datatype Step =
    | New(isTransaction: bool)
    | Start(query: nat, present: Present, accepted: bool)
    | AddQuery(transaction: nat, query: nat)
    | ClearQueries(transaction: nat)
    | Close(data: nat)
    | Destroy(query: nat)
    | HoldResult
    | FreeResult

  // ---------------------------------------------------------------- the steps

  function AddRunning(objects: seq<Object>, e: Entry): (r: seq<Object>)
    ensures |r| == |objects|
  {
    if e.query < |objects| then
      var o := objects[e.query];
      objects[e.query := o.(running := o.running + [e.data])]
    else objects
  }

  function FinishRunning(objects: seq<Object>, e: Entry): (r: seq<Object>)
    ensures |r| == |objects|
  {
    if e.query < |objects| then
      var o := objects[e.query];
      objects[e.query := o.(running := FinishList(o.running, e.data))]
    else objects
  }

  function EntriesOf(added: seq<Added>): (es: seq<Entry>)
    ensures |es| == |added| && forall i :: 0 <= i < |added| ==> es[i] == Entry(added[i].query, added[i].data)
  {
    seq(|added|, i requires 0 <= i < |added| => Entry(added[i].query, added[i].data))
  }

  function AddAll(objects: seq<Object>, es: seq<Entry>): (r: seq<Object>)
    ensures |r| == |objects|
  {
    if es == [] then objects else AddRunning(AddAll(objects, es[..|es| - 1]), es[|es| - 1])
  }

  function FinishAll(objects: seq<Object>, es: seq<Entry>): (r: seq<Object>)
    ensures |r| == |objects|
  {
    if es == [] then objects else FinishRunning(FinishAll(objects, es[..|es| - 1]), es[|es| - 1])
  }

  /** finishLuaQueryData. */
  function Finish(s: State, data: nat): State
    requires data < |s.executions|
  {
    var e := s.executions[data];
    s.(registry := Released(s.registry, e.refs.All()),
       objects := FinishRunning(FinishAll(s.objects, EntriesOf(e.children)), Entry(e.owner, data)),
       executions := s.executions[data := e.(refs := NoRefs)])
  }

  /** buildQueryData of a top-level execution. */
  function Build(s: State, query: nat, present: Present): State
    requires query < |s.objects|
  {
    var o := s.objects[query];
    s.(registry := Grown(s.registry, Wanted(present, NoRefs)), objects := AddAll(s.objects, EntriesOf(o.added)),
       executions := s.executions + [Execution(query, Referenced(s.registry, NoRefs, present), o.added)])
  }

  /** IQuery::start within the start function, which finishes the execution when it is refused. */
  function Started(s: State, query: nat, present: Present, accepted: bool): State
    requires query < |s.objects|
  {
    var data, o, t := |s.executions|, s.objects[query], Build(s, query, present);
    if o.transaction && o.started then Finish(t, data)
    else
      var u := t.(objects := AddRunning(t.objects, Entry(query, data)));
      if !accepted then Finish(u, data)
      else u.(objects := u.objects[query := u.objects[query].(started := true)],
              open := s.open + EntriesOf(o.added) + [Entry(query, data)])
  }

  function WithoutAll(s: seq<Entry>, es: seq<Entry>): seq<Entry> {
    if es == [] then s else Without(WithoutAll(s, es[..|es| - 1]), es[|es| - 1])
  }

  function Closed(s: State, data: nat): State
    requires data < |s.executions|
  {
    var e := s.executions[data];
    Finish(s, data).(open := Without(WithoutAll(s.open, EntriesOf(e.children)), Entry(e.owner, data)))
  }

  function Cleared(s: State, query: nat): State
    requires query < |s.objects|
  {
    var o := s.objects[query];
    s.(registry := Released(s.registry, RefsOf(o.added)), objects := s.objects[query := o.(added := [])])
  }

  function QueryAdded(s: State, transaction: nat, query: nat): State
    requires transaction < |s.objects|
  {
    var o := s.objects[transaction];
    s.(registry := s.registry.Created(QueryTable),
       objects := s.objects[transaction := o.(added := o.added + [Added(s.registry.Next(), query, |s.executions|)])],
       executions := s.executions + [Execution(query, NoRefs, [])])
  }

  function Destroyed(s: State, query: nat): State
    requires query < |s.objects|
  {
    Dereferenced(Cleared(s, query), query)
  }

  /** The reference to the database's table goes. */
  function Dereferenced(s: State, query: nat): State
    requires query < |s.objects|
  {
    var o := s.objects[query];
    s.(registry := s.registry.FreedIfSet(o.databaseRef), objects := s.objects[query := o.(databaseRef := 0)])
  }

  /** The result table of a callback is referenced while the callback runs. */
  function Pushed(s: State): State {
    s.(registry := s.registry.Created(ResultTable), results := s.results + [s.registry.Next()])
  }

  function Popped(s: State): State
    requires s.results != []
  {
    s.(registry := s.registry.Freed(s.results[|s.results| - 1]), results := s.results[..|s.results| - 1])
  }

  /** A step on something that does not exist does nothing. */
  function After(s: State, step: Step): State {
    match step
    case New(transaction) =>
      s.(registry := s.registry.Created(DatabaseTable), objects := s.objects + [Object(s.registry.Next(), transaction, false, [], [])])
    case Start(o, present, accepted) => if o < |s.objects| then Started(s, o, present, accepted) else s
    case AddQuery(t, q) => if t < |s.objects| && q < |s.objects| && s.objects[t].transaction then QueryAdded(s, t, q) else s
    case ClearQueries(t) => if t < |s.objects| then Cleared(s, t) else s
    case Close(data) => if data < |s.executions| then Closed(s, data) else s
    case Destroy(o) => if o < |s.objects| then Destroyed(s, o) else s
    case HoldResult => Pushed(s)
    case FreeResult => if s.results == [] then s else Popped(s)
  }

  function Run(pool: seq<nat>, steps: seq<Step>): State {
    if steps == [] then Initial(pool) else After(Run(pool, steps[..|steps| - 1]), steps[|steps| - 1])
  }

  // ---------------------------------------------------------------- references are conserved

  /** How often an execution, an object, and all of them hold the reference `r`. */
  function ByExecution(e: Execution, r: nat): nat { Held(e.refs.All())[r] }

  function ByObject(o: Object, r: nat): nat { One(o.databaseRef)[r] + Held(RefsOf(o.added))[r] }

  function ByExecutions(executions: seq<Execution>, r: nat): nat {
    if executions == [] then 0
    else ByExecutions(executions[..|executions| - 1], r) + ByExecution(executions[|executions| - 1], r)
  }

  function ByObjects(objects: seq<Object>, r: nat): nat {
    if objects == [] then 0
    else ByObjects(objects[..|objects| - 1], r) + ByObject(objects[|objects| - 1], r)
  }

  function ByResults(results: seq<nat>, r: nat): nat {
    if results == [] then 0
    else ByResults(results[..|results| - 1], r) + if results[|results| - 1] == r then 1 else 0
  }

  function HeldIn(s: State, r: nat): nat {
    ByObjects(s.objects, r) + ByExecutions(s.executions, r) + ByResults(s.results, r)
  }

  /** The live references are exactly those held, and the counters agree with them. */
  ghost predicate Conserved(s: State) {
    s.registry.Valid() && forall r :: s.registry.live[r] == HeldIn(s, r)
  }

  lemma {:induction false} ObjectReplaced(objects: seq<Object>, i: nat, o: Object, r: nat)
    requires i < |objects|
    ensures ByObjects(objects[i := o], r) + ByObject(objects[i], r) == ByObjects(objects, r) + ByObject(o, r)
  {
    var n := |objects| - 1;
    if i < n {
      ObjectReplaced(objects[..n], i, o, r);
      assert objects[i := o][..n] == objects[..n][i := o];
    } else {
      assert objects[i := o][..n] == objects[..n];
    }
  }

  lemma {:induction false} ExecutionReplaced(executions: seq<Execution>, i: nat, e: Execution, r: nat)
    requires i < |executions|
    ensures ByExecutions(executions[i := e], r) + ByExecution(executions[i], r) == ByExecutions(executions, r) + ByExecution(e, r)
  {
    var n := |executions| - 1;
    if i < n {
      ExecutionReplaced(executions[..n], i, e, r);
      assert executions[i := e][..n] == executions[..n][i := e];
    } else {
      assert executions[i := e][..n] == executions[..n];
    }
  }

  lemma ExecutionAppended(executions: seq<Execution>, e: Execution, r: nat)
    ensures ByExecutions(executions + [e], r) == ByExecutions(executions, r) + ByExecution(e, r)
  {
    assert (executions + [e])[..|executions|] == executions;
  }

  lemma ObjectAppended(objects: seq<Object>, o: Object, r: nat)
    ensures ByObjects(objects + [o], r) == ByObjects(objects, r) + ByObject(o, r)
  {
    assert (objects + [o])[..|objects|] == objects;
  }

  /** Running lists and the started flag hold no references. */
  lemma RunningHoldsNothing(objects: seq<Object>, i: nat, running: seq<nat>, started: bool, r: nat)
    requires i < |objects|
    ensures ByObjects(objects[i := objects[i].(running := running, started := started)], r) == ByObjects(objects, r)
  {
    ObjectReplaced(objects, i, objects[i].(running := running, started := started), r);
  }

  lemma AddRunningHolds(objects: seq<Object>, e: Entry, r: nat)
    ensures ByObjects(AddRunning(objects, e), r) == ByObjects(objects, r)
  {
    if e.query < |objects| {
      var o := objects[e.query];
      RunningHoldsNothing(objects, e.query, o.running + [e.data], o.started, r);
    }
  }

  lemma FinishRunningHolds(objects: seq<Object>, e: Entry, r: nat)
    ensures ByObjects(FinishRunning(objects, e), r) == ByObjects(objects, r)
  {
    if e.query < |objects| {
      var o := objects[e.query];
      RunningHoldsNothing(objects, e.query, FinishList(o.running, e.data), o.started, r);
    }
  }

  lemma {:induction false} AddAllHolds(objects: seq<Object>, es: seq<Entry>, r: nat)
    ensures ByObjects(AddAll(objects, es), r) == ByObjects(objects, r)
  {
    if es != [] {
      AddAllHolds(objects, es[..|es| - 1], r);
      AddRunningHolds(AddAll(objects, es[..|es| - 1]), es[|es| - 1], r);
    }
  }

  lemma {:induction false} FinishAllHolds(objects: seq<Object>, es: seq<Entry>, r: nat)
    ensures ByObjects(FinishAll(objects, es), r) == ByObjects(objects, r)
  {
    if es != [] {
      FinishAllHolds(objects, es[..|es| - 1], r);
      FinishRunningHolds(FinishAll(objects, es[..|es| - 1]), es[|es| - 1], r);
    }
  }

  lemma NoneHeld(r: nat)
    ensures Held(NoRefs.All())[r] == 0
  {
    HeldOfFive(0, 0, 0, 0, 0);
  }

  lemma FinishHolds(s: State, data: nat, r: nat)
    requires data < |s.executions|
    ensures HeldIn(Finish(s, data), r) + Held(s.executions[data].refs.All())[r] == HeldIn(s, r)
  {
    var e := s.executions[data];
    var es := EntriesOf(e.children);
    ExecutionReplaced(s.executions, data, e.(refs := NoRefs), r);
    NoneHeld(r);
    FinishAllHolds(s.objects, es, r);
    FinishRunningHolds(FinishAll(s.objects, es), Entry(e.owner, data), r);
  }

  lemma FinishConserves(s: State, data: nat)
    requires Conserved(s) && data < |s.executions|
    ensures Conserved(Finish(s, data))
  {
    var held := s.executions[data].refs.All();
    forall r ensures Held(held)[r] <= s.registry.live[r] {
      assert s.registry.live[r] == HeldIn(s, r);
      FinishHolds(s, data, r);
    }
    ReleasedExactly(s.registry, held);
    var t := Finish(s, data);
    forall r ensures t.registry.live[r] == HeldIn(t, r) {
      assert s.registry.live[r] == HeldIn(s, r);
      FinishHolds(s, data, r);
    }
  }

  lemma BuildConserves(s: State, query: nat, present: Present)
    requires Conserved(s) && query < |s.objects|
    ensures Conserved(Build(s, query, present))
  {
    ReferencedExactly(s.registry, present);
    var t, o := Build(s, query, present), s.objects[query];
    forall r ensures t.registry.live[r] == HeldIn(t, r) {
      assert s.registry.live[r] == HeldIn(s, r);
      AddAllHolds(s.objects, EntriesOf(o.added), r);
      ExecutionAppended(s.executions, Execution(query, Referenced(s.registry, NoRefs, present), o.added), r);
    }
  }

  /** Two states with the same registry and executions, whose objects hold the same. */
  lemma SameHoldings(s: State, objects: seq<Object>, open: seq<Entry>)
    requires Conserved(s) && forall r :: ByObjects(objects, r) == ByObjects(s.objects, r)
    ensures Conserved(s.(objects := objects, open := open))
  {
    forall r ensures s.registry.live[r] == HeldIn(s.(objects := objects, open := open), r) {
      assert s.registry.live[r] == HeldIn(s, r);
      assert ByObjects(objects, r) == ByObjects(s.objects, r);
    }
  }

  lemma StartConserves(s: State, query: nat, present: Present, accepted: bool)
    requires Conserved(s) && query < |s.objects|
    ensures Conserved(Started(s, query, present, accepted))
  {
    BuildConserves(s, query, present);
    var data, o, t := |s.executions|, s.objects[query], Build(s, query, present);
    if o.transaction && o.started {
      FinishConserves(t, data);
    } else {
      var u := t.(objects := AddRunning(t.objects, Entry(query, data)));
      forall r { AddRunningHolds(t.objects, Entry(query, data), r); }
      SameHoldings(t, u.objects, t.open);
      if !accepted {
        FinishConserves(u, data);
      } else {
        var objects := u.objects[query := u.objects[query].(started := true)];
        forall r ensures ByObjects(objects, r) == ByObjects(u.objects, r) {
          RunningHoldsNothing(u.objects, query, u.objects[query].running, true, r);
        }
        SameHoldings(u, objects, s.open + EntriesOf(o.added) + [Entry(query, data)]);
      }
    }
  }

  lemma ClearConserves(s: State, query: nat)
    requires Conserved(s) && query < |s.objects|
    ensures Conserved(Cleared(s, query))
  {
    var o := s.objects[query];
    var refs := RefsOf(o.added);
    forall r ensures Held(refs)[r] <= s.registry.live[r] {
      ObjectReplaced(s.objects, query, o.(added := []), r);
      assert s.registry.live[r] == HeldIn(s, r);
    }
    ReleasedExactly(s.registry, refs);
    var t := Cleared(s, query);
    forall r ensures t.registry.live[r] == HeldIn(t, r) {
      assert s.registry.live[r] == HeldIn(s, r);
      ObjectReplaced(s.objects, query, o.(added := []), r);
    }
  }

  lemma DereferenceConserves(s: State, query: nat)
    requires Conserved(s) && query < |s.objects|
    ensures Conserved(Dereferenced(s, query))
  {
    var o := s.objects[query];
    forall r ensures One(o.databaseRef)[r] <= s.registry.live[r] {
      ObjectReplaced(s.objects, query, o.(databaseRef := 0), r);
      assert s.registry.live[r] == HeldIn(s, r);
    }
    FreedIfSetHeld(s.registry, o.databaseRef);
    var t := Dereferenced(s, query);
    forall r ensures t.registry.live[r] == HeldIn(t, r) {
      assert s.registry.live[r] == HeldIn(s, r);
      ObjectReplaced(s.objects, query, o.(databaseRef := 0), r);
    }
  }

  lemma DestroyConserves(s: State, query: nat)
    requires Conserved(s) && query < |s.objects|
    ensures Conserved(Destroyed(s, query))
  {
    ClearConserves(s, query);
    DereferenceConserves(Cleared(s, query), query);
  }

  lemma AddQueryConserves(s: State, transaction: nat, query: nat)
    requires Conserved(s) && transaction < |s.objects|
    ensures Conserved(QueryAdded(s, transaction, query))
  {
    var o, a, t := s.objects[transaction], Added(s.registry.Next(), query, |s.executions|), QueryAdded(s, transaction, query);
    CreatedValid(s.registry, QueryTable);
    assert RefsOf(o.added + [a]) == RefsOf(o.added) + [a.ref];
    HeldGrows(RefsOf(o.added), a.ref);
    forall r ensures t.registry.live[r] == HeldIn(t, r) {
      assert s.registry.live[r] == HeldIn(s, r);
      ObjectReplaced(s.objects, transaction, o.(added := o.added + [a]), r);
      ExecutionAppended(s.executions, Execution(query, NoRefs, []), r);
      NoneHeld(r);
    }
  }

  lemma NewConserves(s: State, isTransaction: bool)
    requires Conserved(s)
    ensures Conserved(After(s, New(isTransaction)))
  {
    CreatedValid(s.registry, DatabaseTable);
    var o, t := Object(s.registry.Next(), isTransaction, false, [], []), After(s, New(isTransaction));
    forall r ensures t.registry.live[r] == HeldIn(t, r) {
      assert s.registry.live[r] == HeldIn(s, r);
      ObjectAppended(s.objects, o, r);
    }
  }

  lemma PushConserves(s: State)
    requires Conserved(s)
    ensures Conserved(Pushed(s))
  {
    CreatedValid(s.registry, ResultTable);
    var t := Pushed(s);
    assert t.results[..|s.results|] == s.results;
    forall r ensures t.registry.live[r] == HeldIn(t, r) {
      assert s.registry.live[r] == HeldIn(s, r);
    }
  }

  lemma PoppedHolds(s: State, r: nat)
    requires s.results != []
    ensures HeldIn(Popped(s), r) + (if r == s.results[|s.results| - 1] then 1 else 0) == HeldIn(s, r)
  {
  }

  lemma PopConserves(s: State)
    requires Conserved(s) && s.results != []
    ensures Conserved(Popped(s))
  {
    var ref := s.results[|s.results| - 1];
    PoppedHolds(s, ref);
    assert s.registry.live[ref] == HeldIn(s, ref);
    FreedValid(s.registry, ref);
    var t := Popped(s);
    forall r ensures t.registry.live[r] == HeldIn(t, r) {
      assert s.registry.live[r] == HeldIn(s, r);
      PoppedHolds(s, r);
    }
  }

  lemma CloseConserves(s: State, data: nat)
    requires Conserved(s) && data < |s.executions|
    ensures Conserved(Closed(s, data))
  {
    FinishConserves(s, data);
    SameHoldings(Finish(s, data), Finish(s, data).objects, Closed(s, data).open);
  }

  lemma StepConserves(s: State, step: Step)
    requires Conserved(s)
    ensures Conserved(After(s, step))
  {
    match step {
      case New(isTransaction) => NewConserves(s, isTransaction);
      case Start(o, present, accepted) => StartStepConserves(s, o, present, accepted);
      case AddQuery(t, q) => AddQueryStepConserves(s, t, q);
      case ClearQueries(t) => ClearStepConserves(s, t);
      case Close(data) => CloseStepConserves(s, data);
      case Destroy(o) => DestroyStepConserves(s, o);
      case HoldResult => PushConserves(s);
      case FreeResult => FreeStepConserves(s);
    }
  }

  lemma StartStepConserves(s: State, o: nat, present: Present, accepted: bool)
    requires Conserved(s)
    ensures Conserved(After(s, Start(o, present, accepted)))
  {
    if o < |s.objects| { StartConserves(s, o, present, accepted); }
  }

  lemma AddQueryStepConserves(s: State, t: nat, q: nat)
    requires Conserved(s)
    ensures Conserved(After(s, AddQuery(t, q)))
  {
    if t < |s.objects| { AddQueryConserves(s, t, q); }
  }

  lemma ClearStepConserves(s: State, t: nat)
    requires Conserved(s)
    ensures Conserved(After(s, ClearQueries(t)))
  {
    if t < |s.objects| { ClearConserves(s, t); }
  }

  lemma CloseStepConserves(s: State, data: nat)
    requires Conserved(s)
    ensures Conserved(After(s, Close(data)))
  {
    if data < |s.executions| { CloseConserves(s, data); }
  }

  lemma DestroyStepConserves(s: State, o: nat)
    requires Conserved(s)
    ensures Conserved(After(s, Destroy(o)))
  {
    if o < |s.objects| { DestroyConserves(s, o); }
  }

  lemma FreeStepConserves(s: State)
    requires Conserved(s)
    ensures Conserved(After(s, FreeResult))
  {
    if s.results != [] { PopConserves(s); }
  }

  /** Over any run, with starts accepted or refused, deliveries, repeated deliveries and destruction in any
      order: the references created and not freed are those still held, each held once, and no
      reference is freed that was not live. */
  lemma {:induction false} ReferencesConserved(pool: seq<nat>, steps: seq<Step>)
    ensures var s := Run(pool, steps);
      && Conserved(s) && s.registry.created - s.registry.freed == |s.registry.live|
      && (forall r :: s.registry.live[r] == HeldIn(s, r) <= 1) && !s.registry.misused
  {
    if steps == [] {
      assert forall r :: HeldIn(Initial(pool), r) == 0;
    } else {
      ReferencesConserved(pool, steps[..|steps| - 1]);
      StepConserves(Run(pool, steps[..|steps| - 1]), steps[|steps| - 1]);
    }
  }

  /** Finishing an execution a second time frees nothing and leaves its references at none. */
  lemma FinishingAgainFreesNothing(s: State, data: nat)
    requires data < |s.executions|
    ensures var t := Finish(s, data);
      t.executions[data].refs == NoRefs && Finish(t, data).registry == t.registry && Finish(t, data).executions == t.executions
  {
    NothingReleased(Finish(s, data).registry, NoRefs.All());
  }
}
