/** A query's running list is exactly its open executions, over a whole run. */
module LuaRunningLists {
  import opened Sequences
  import opened RunningLists
  import opened LuaReferences
  import opened LuaBookkeeping

  /** The open executions of one query, in order. */
  function Datas(open: seq<Entry>, query: nat): seq<nat> {
    if open == [] then []
    else
      var last := open[|open| - 1];
      Datas(open[..|open| - 1], query) + if last.query == query then [last.data] else []
  }

  predicate NoDuplicates<T(==)>(s: seq<T>) { forall i, j :: 0 <= i < j < |s| ==> s[i] != s[j] }

  predicate Matches(objects: seq<Object>, open: seq<Entry>) {
    forall q :: 0 <= q < |objects| ==> objects[q].running == Datas(open, q)
  }

  predicate Known(es: seq<Entry>, objects: nat, executions: nat) {
    forall i :: 0 <= i < |es| ==> es[i].query < objects && es[i].data < executions
  }

  predicate AddedKnown(added: seq<Added>, objects: nat, executions: nat) {
    NoDuplicates(EntriesOf(added)) && Known(EntriesOf(added), objects, executions)
  }

  /** What holds between two calls. */
  predicate Exact(s: State) {
    && Matches(s.objects, s.open)
    && NoDuplicates(s.open) && Known(s.open, |s.objects|, |s.executions|)
    && forall q :: 0 <= q < |s.objects| ==> AddedKnown(s.objects[q].added, |s.objects|, |s.executions|)
  }

  /** The weaker form that holds over every run: what is on a list is there once, and open. */
  predicate Listed(s: State) {
    && (forall q :: 0 <= q < |s.objects| ==> NoDuplicates(s.objects[q].running))
    && (forall q, d :: 0 <= q < |s.objects| && d in s.objects[q].running ==> Entry(q, d) in s.open)
    && NoDuplicates(s.open) && Known(s.open, |s.objects|, |s.executions|)
    && forall q :: 0 <= q < |s.objects| ==> AddedKnown(s.objects[q].added, |s.objects|, |s.executions|)
  }

  predicate Disjoint(es: seq<Entry>, fs: seq<Entry>) { forall i :: 0 <= i < |es| ==> es[i] !in fs }

  /** The one thing asked of the caller: a transaction is not started again while its children are open. */
  predicate Allowed(s: State, step: Step) {
    step.Start? && step.query < |s.objects| ==> Disjoint(EntriesOf(s.objects[step.query].added), s.open)
  }

  predicate AllAllowed(pool: seq<nat>, steps: seq<Step>) {
    steps == [] || (AllAllowed(pool, steps[..|steps| - 1]) && Allowed(Run(pool, steps[..|steps| - 1]), steps[|steps| - 1]))
  }

  // ---------------------------------------------------------------- lists

  lemma DatasAppend(open: seq<Entry>, e: Entry, q: nat)
    ensures Datas(open + [e], q) == Datas(open, q) + if e.query == q then [e.data] else []
  {
    assert (open + [e])[..|open|] == open;
  }

  lemma {:induction false} DatasMember(open: seq<Entry>, q: nat, d: nat)
    ensures d in Datas(open, q) <==> Entry(q, d) in open
  {
    if open != [] {
      var rest, last := open[..|open| - 1], open[|open| - 1];
      DatasMember(rest, q, d);
      assert open == rest + [last];
    }
  }

  lemma {:induction false} DatasWithout(open: seq<Entry>, e: Entry, q: nat)
    ensures Datas(Without(open, e), q) == if e.query == q then Without(Datas(open, q), e.data) else Datas(open, q)
  {
    if open != [] {
      var rest, last := open[..|open| - 1], open[|open| - 1];
      DatasWithout(rest, e, q);
      assert open == rest + [last];
      WithoutAppend(rest, [last], e);
      WithoutAppend(Datas(rest, q), if last.query == q then [last.data] else [], e.data);
      WithoutOne(last, e);
      WithoutOne(last.data, e.data);
      var before, own := Datas(rest, q), if last.query == q then [last.data] else [];
      assert Without(before + own, e.data) == Without(before, e.data) + Without(own, e.data);
      if last == e {
        assert Without(open, e) == Without(rest, e);
        if e.query == q { assert Without(own, e.data) == []; }
      } else {
        DatasAppend(Without(rest, e), last, q);
        if e.query == q { assert Without(own, e.data) == own; }
      }
    }
  }

  lemma WithoutOne<T>(x: T, y: T)
    ensures Without([x], y) == if x == y then [] else [x]
  {
    assert [x][1..] == [];
  }

  lemma {:induction false} DatasDistinct(open: seq<Entry>, q: nat)
    requires NoDuplicates(open)
    ensures NoDuplicates(Datas(open, q))
  {
    if open != [] {
      var rest, last := open[..|open| - 1], open[|open| - 1];
      DatasDistinct(rest, q);
      assert last !in rest;
      if last.query == q { DatasMember(rest, q, last.data); }
    }
  }

  lemma ExactIsListed(s: State)
    requires Exact(s)
    ensures Listed(s)
  {
    forall q | 0 <= q < |s.objects|
      ensures NoDuplicates(s.objects[q].running) && forall d :: d in s.objects[q].running ==> Entry(q, d) in s.open
    {
      DatasDistinct(s.open, q);
      forall d | d in s.objects[q].running ensures Entry(q, d) in s.open { DatasMember(s.open, q, d); }
    }
  }

  lemma {:induction false} WithoutDistinct(s: seq<Entry>, e: Entry)
    requires NoDuplicates(s)
    ensures NoDuplicates(Without(s, e)) && forall x :: x in Without(s, e) ==> x in s
  {
    if s != [] {
      WithoutDistinct(s[1..], e);
      assert s == [s[0]] + s[1..] && s[0] !in s[1..];
    }
  }

  lemma FinishIsWithout(running: seq<nat>, d: nat)
    requires NoDuplicates(running)
    ensures FinishList(running, d) == Without(running, d)
  {
    if running != [] { assert running[0] !in running[1..]; }
    FinishTakesAllExactly(running, d);
  }

  // ---------------------------------------------------------------- adding and finishing

  lemma AddMatches(objects: seq<Object>, open: seq<Entry>, e: Entry)
    requires Matches(objects, open)
    ensures Matches(AddRunning(objects, e), open + [e])
  {
    forall q | 0 <= q < |objects| ensures AddRunning(objects, e)[q].running == Datas(open + [e], q) {
      DatasAppend(open, e, q);
    }
  }

  lemma {:induction false} AddAllMatches(objects: seq<Object>, open: seq<Entry>, es: seq<Entry>)
    requires Matches(objects, open)
    ensures Matches(AddAll(objects, es), open + es)
  {
    if es == [] {
      assert open + es == open;
    } else {
      var rest, last := es[..|es| - 1], es[|es| - 1];
      AddAllMatches(objects, open, rest);
      AddMatches(AddAll(objects, rest), open + rest, last);
      assert open + es == open + rest + [last];
    }
  }

  lemma FinishMatches(objects: seq<Object>, open: seq<Entry>, e: Entry)
    requires Matches(objects, open) && NoDuplicates(open)
    ensures Matches(FinishRunning(objects, e), Without(open, e))
  {
    forall q | 0 <= q < |objects| ensures FinishRunning(objects, e)[q].running == Datas(Without(open, e), q) {
      DatasWithout(open, e, q);
      DatasDistinct(open, q);
      FinishIsWithout(objects[q].running, e.data);
    }
  }

  lemma {:induction false} WithoutAllDistinct(open: seq<Entry>, es: seq<Entry>)
    requires NoDuplicates(open)
    ensures NoDuplicates(WithoutAll(open, es)) && forall x :: x in WithoutAll(open, es) ==> x in open
  {
    if es != [] {
      WithoutAllDistinct(open, es[..|es| - 1]);
      WithoutDistinct(WithoutAll(open, es[..|es| - 1]), es[|es| - 1]);
    }
  }

  lemma {:induction false} FinishAllMatches(objects: seq<Object>, open: seq<Entry>, es: seq<Entry>)
    requires Matches(objects, open) && NoDuplicates(open)
    ensures Matches(FinishAll(objects, es), WithoutAll(open, es))
  {
    if es != [] {
      var rest := es[..|es| - 1];
      FinishAllMatches(objects, open, rest);
      WithoutAllDistinct(open, rest);
      FinishMatches(FinishAll(objects, rest), WithoutAll(open, rest), es[|es| - 1]);
    }
  }

  /** Finishing takes an execution and its children off the lists. */
  lemma FinishExact(s: State, data: nat, open: seq<Entry>)
    requires data < |s.executions| && Matches(s.objects, open) && NoDuplicates(open)
    ensures var e := s.executions[data];
      Matches(Finish(s, data).objects, Without(WithoutAll(open, EntriesOf(e.children)), Entry(e.owner, data)))
  {
    var e := s.executions[data];
    var es := EntriesOf(e.children);
    FinishAllMatches(s.objects, open, es);
    WithoutAllDistinct(open, es);
    FinishMatches(FinishAll(s.objects, es), WithoutAll(open, es), Entry(e.owner, data));
  }

  lemma {:induction false} StagedTakenBack(open: seq<Entry>, es: seq<Entry>, tail: seq<Entry>, k: nat)
    requires k <= |es| && NoDuplicates(es) && Disjoint(es, open) && Disjoint(es, tail)
    ensures WithoutAll(open + es + tail, es[..k]) == open + es[k..] + tail
  {
    if k > 0 {
      StagedTakenBack(open, es, tail, k - 1);
      assert es[..k][..k - 1] == es[..k - 1];
      var e := es[k - 1];
      assert e !in es[k..];
      assert es[k - 1..] == [e] + es[k..];
      OneTakenBack(open, e, es[k..], tail);
    }
  }

  lemma OneTakenBack(open: seq<Entry>, e: Entry, es: seq<Entry>, tail: seq<Entry>)
    requires e !in open && e !in es && e !in tail
    ensures Without(open + ([e] + es) + tail, e) == open + es + tail
  {
    WithoutAppend(open + ([e] + es), tail, e);
    WithoutAppend(open, [e] + es, e);
    WithoutAppend([e], es, e);
    WithoutOne(e, e);
    WithoutAbsent(open, e);
    WithoutAbsent(es, e);
    WithoutAbsent(tail, e);
    assert [] + es == es;
  }

  lemma StagingUndone(open: seq<Entry>, es: seq<Entry>, own: Entry, added: bool)
    requires NoDuplicates(es) && Disjoint(es, open) && own !in open && own !in es
    ensures Without(WithoutAll(open + es + (if added then [own] else []), es), own) == open
  {
    var tail := if added then [own] else [];
    StagedTakenBack(open, es, tail, |es|);
    assert es[..|es|] == es && open + es[|es|..] == open;
    WithoutAppend(open, tail, own);
    WithoutAbsent(open, own);
  }

  lemma JoinedDistinct(open: seq<Entry>, es: seq<Entry>, own: Entry)
    requires NoDuplicates(open) && NoDuplicates(es) && Disjoint(es, open) && own !in open && own !in es
    ensures NoDuplicates(open + es) && NoDuplicates(open + es + [own])
  {
    var s := open + es;
    forall i, j | 0 <= i < j < |s| ensures s[i] != s[j] {
      if j >= |open| { assert s[j] == es[j - |open|]; }
    }
  }

  // ---------------------------------------------------------------- every step

  lemma AddKeepsAdded(objects: seq<Object>, e: Entry)
    ensures forall q :: 0 <= q < |objects| ==> AddRunning(objects, e)[q].added == objects[q].added
    ensures forall q :: 0 <= q < |objects| ==> FinishRunning(objects, e)[q].added == objects[q].added
  {
  }

  lemma {:induction false} AllKeepAdded(objects: seq<Object>, es: seq<Entry>)
    ensures forall q :: 0 <= q < |objects| ==> AddAll(objects, es)[q].added == objects[q].added
    ensures forall q :: 0 <= q < |objects| ==> FinishAll(objects, es)[q].added == objects[q].added
  {
    if es != [] {
      AllKeepAdded(objects, es[..|es| - 1]);
      AddKeepsAdded(AddAll(objects, es[..|es| - 1]), es[|es| - 1]);
      AddKeepsAdded(FinishAll(objects, es[..|es| - 1]), es[|es| - 1]);
    }
  }

  lemma FinishKeepsAdded(s: State, data: nat)
    requires data < |s.executions|
    ensures forall q :: 0 <= q < |s.objects| ==> Finish(s, data).objects[q].added == s.objects[q].added
  {
    var e := s.executions[data];
    AllKeepAdded(s.objects, EntriesOf(e.children));
    AddKeepsAdded(FinishAll(s.objects, EntriesOf(e.children)), Entry(e.owner, data));
  }

  lemma StartKeepsAdded(s: State, query: nat, present: Present, accepted: bool)
    requires query < |s.objects|
    ensures forall q :: 0 <= q < |s.objects| ==> Started(s, query, present, accepted).objects[q].added == s.objects[q].added
  {
    var data, o, t := |s.executions|, s.objects[query], Build(s, query, present);
    AllKeepAdded(s.objects, EntriesOf(o.added));
    AddKeepsAdded(t.objects, Entry(query, data));
    if o.transaction && o.started {
      FinishKeepsAdded(t, data);
    } else if !accepted {
      FinishKeepsAdded(t.(objects := AddRunning(t.objects, Entry(query, data))), data);
    }
  }

  lemma StartMatches(s: State, query: nat, present: Present, accepted: bool)
    requires Exact(s) && query < |s.objects| && Disjoint(EntriesOf(s.objects[query].added), s.open)
    ensures var t := Started(s, query, present, accepted); Matches(t.objects, t.open) && NoDuplicates(t.open)
  {
    var data, o, t := |s.executions|, s.objects[query], Build(s, query, present);
    var es, own := EntriesOf(o.added), Entry(query, data);
    assert AddedKnown(o.added, |s.objects|, data);
    assert own !in s.open && own !in es;
    AddAllMatches(s.objects, s.open, es);
    JoinedDistinct(s.open, es, own);
    if o.transaction && o.started {
      FinishExact(t, data, s.open + es);
      StagingUndone(s.open, es, own, false);
      assert s.open + es + [] == s.open + es;
    } else {
      var u := t.(objects := AddRunning(t.objects, own));
      AddMatches(t.objects, s.open + es, own);
      if !accepted {
        FinishExact(u, data, s.open + es + [own]);
        StagingUndone(s.open, es, own, true);
      }
    }
  }

  lemma StartExact(s: State, query: nat, present: Present, accepted: bool)
    requires Exact(s) && query < |s.objects| && Disjoint(EntriesOf(s.objects[query].added), s.open)
    ensures Exact(Started(s, query, present, accepted))
  {
    StartMatches(s, query, present, accepted);
    StartKeepsAdded(s, query, present, accepted);
    StartKeepsKnown(s, query, present, accepted);
  }

  lemma StartKeepsKnown(s: State, query: nat, present: Present, accepted: bool)
    requires Exact(s) && query < |s.objects|
    ensures var t := Started(s, query, present, accepted);
      |t.objects| == |s.objects| && |t.executions| == |s.executions| + 1 && Known(t.open, |s.objects|, |s.executions| + 1)
  {
    var es, own := EntriesOf(s.objects[query].added), Entry(query, |s.executions|);
    assert AddedKnown(s.objects[query].added, |s.objects|, |s.executions|);
    assert Started(s, query, present, accepted).open in {s.open, s.open + es + [own]};
  }

  lemma CloseExact(s: State, data: nat)
    requires Exact(s) && data < |s.executions|
    ensures Exact(Closed(s, data))
  {
    var e := s.executions[data];
    var es := EntriesOf(e.children);
    FinishExact(s, data, s.open);
    WithoutAllDistinct(s.open, es);
    WithoutDistinct(WithoutAll(s.open, es), Entry(e.owner, data));
    FinishKeepsAdded(s, data);
    var left := Closed(s, data).open;
    forall i | 0 <= i < |left| ensures left[i].query < |s.objects| && left[i].data < |s.executions| {
      assert left[i] in s.open;
    }
  }

  lemma AddQueryExact(s: State, transaction: nat, query: nat)
    requires Exact(s) && transaction < |s.objects| && query < |s.objects|
    ensures Exact(QueryAdded(s, transaction, query))
  {
    var o, a := s.objects[transaction], Added(s.registry.Next(), query, |s.executions|);
    assert AddedKnown(o.added, |s.objects|, |s.executions|);
    assert EntriesOf(o.added + [a]) == EntriesOf(o.added) + [Entry(query, |s.executions|)];
  }

  lemma ClearExact(s: State, query: nat)
    requires Exact(s) && query < |s.objects|
    ensures Exact(Cleared(s, query)) && Exact(Destroyed(s, query))
  {
  }

  lemma {:induction false} NoDatas(open: seq<Entry>, q: nat)
    requires forall i :: 0 <= i < |open| ==> open[i].query < q
    ensures Datas(open, q) == []
  {
    if open != [] { NoDatas(open[..|open| - 1], q); }
  }

  lemma NewKnown(objects: seq<Object>, o: Object, n: nat)
    requires forall q :: 0 <= q < |objects| ==> AddedKnown(objects[q].added, |objects|, n)
    requires o.added == []
    ensures forall q :: 0 <= q <= |objects| ==> AddedKnown((objects + [o])[q].added, |objects| + 1, n)
  {
    forall q | 0 <= q <= |objects| ensures AddedKnown((objects + [o])[q].added, |objects| + 1, n) {
      if q < |objects| { assert AddedKnown(objects[q].added, |objects|, n); }
    }
  }

  lemma NewExact(s: State, isTransaction: bool)
    requires Exact(s)
    ensures Exact(After(s, New(isTransaction)))
  {
    var o := Object(s.registry.Next(), isTransaction, false, [], []);
    NewMatches(s.objects, o, s.open);
    NewKnown(s.objects, o, |s.executions|);
    KnownStays(s.open, |s.objects|, |s.executions|);
    var t := s.(registry := s.registry.Created(DatabaseTable), objects := s.objects + [o]);
    assert Exact(t);
  }

  lemma NewMatches(objects: seq<Object>, o: Object, open: seq<Entry>)
    requires Matches(objects, open) && o.running == [] && forall i :: 0 <= i < |open| ==> open[i].query < |objects|
    ensures Matches(objects + [o], open)
  {
    NoDatas(open, |objects|);
  }

  lemma KnownStays(es: seq<Entry>, objects: nat, executions: nat)
    requires Known(es, objects, executions)
    ensures Known(es, objects + 1, executions)
  {
  }

  lemma StepExact(s: State, step: Step)
    requires Exact(s) && Allowed(s, step)
    ensures Exact(After(s, step))
  {
    match step {
      case New(isTransaction) => NewExact(s, isTransaction);
      case Start(o, present, accepted) => if o < |s.objects| { StartExact(s, o, present, accepted); }
      case AddQuery(t, q) => if t < |s.objects| && q < |s.objects| { AddQueryExact(s, t, q); }
      case ClearQueries(t) => if t < |s.objects| { ClearExact(s, t); }
      case Close(data) => if data < |s.executions| { CloseExact(s, data); }
      case Destroy(o) => if o < |s.objects| { ClearExact(s, o); }
      case HoldResult =>
      case FreeResult =>
    }
  }

  /** Over any run in which no transaction is started again while its children are open, every query's
      running list is, in order and without duplicates, its open executions; starts that throw leave it
      as it was. */
  lemma {:induction false} RunningListsExact(pool: seq<nat>, steps: seq<Step>)
    requires AllAllowed(pool, steps)
    ensures Exact(Run(pool, steps))
  {
    if steps != [] {
      RunningListsExact(pool, steps[..|steps| - 1]);
      StepExact(Run(pool, steps[..|steps| - 1]), steps[|steps| - 1]);
    }
  }

  /** A start that is refused changes no running list. */
  lemma RefusedStartChangesNothing(s: State, query: nat, present: Present)
    requires Exact(s) && query < |s.objects| && Disjoint(EntriesOf(s.objects[query].added), s.open)
    ensures forall q :: 0 <= q < |s.objects| ==> Started(s, query, present, false).objects[q].running == s.objects[q].running
  {
    StartMatches(s, query, present, false);
  }
}
