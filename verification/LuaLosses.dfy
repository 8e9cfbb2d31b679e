/** The running lists over every run, restarts of pending transactions included. */
module LuaLosses {
  import opened Sequences
  import opened LuaReferences
  import opened LuaBookkeeping
  import opened LuaRunningLists
  import opened LuaRestarts

  /** A started transaction is started again. */
  predicate Restarts(s: State, step: Step) {
    step.Start? && step.query < |s.objects| && s.objects[step.query].transaction && s.objects[step.query].started
  }

  predicate Loses(running: seq<nat>, kids: seq<nat>, x: nat) {
    x in running && x in kids && forall i :: 0 <= i < |kids| && kids[i] == x ==> !Stays(running, kids, i)
  }

  /** The step takes `e` off its list although it is open. */
  predicate DropsNow(s: State, step: Step, e: Entry) {
    && Restarts(s, step) && e.query < |s.objects|
    && Loses(s.objects[e.query].running, KidsOn(s.objects[step.query], e.query), e.data)
  }

  /** What restarts took off the lists and is still open. */
  function Lost(pool: seq<nat>, steps: seq<Step>): set<Entry> {
    if steps == [] then {}
    else
      var rest, step := steps[..|steps| - 1], steps[|steps| - 1];
      LostBy(Run(pool, rest), Lost(pool, rest), step)
  }

  function LostBy(s: State, lost: set<Entry>, step: Step): set<Entry> {
    set e | e in After(s, step).open && (e in lost || DropsNow(s, step, e))
  }

  /** The lists hold what is open and not lost. */
  ghost predicate Accounted(s: State, lost: set<Entry>) {
    && (forall q, d :: 0 <= q < |s.objects| ==> (d in s.objects[q].running <==> Entry(q, d) in s.open && Entry(q, d) !in lost))
    && forall e :: e in lost ==> e in s.open
  }

  /** Only a transaction has children, no two have the same, and until it is started they are not open. */
  predicate Staged(s: State) {
    && (forall t :: 0 <= t < |s.objects| ==> s.objects[t].transaction || s.objects[t].added == [])
    && (forall t :: 0 <= t < |s.objects| && !(s.objects[t].transaction && s.objects[t].started) ==>
          Disjoint(EntriesOf(s.objects[t].added), s.open))
    && forall t, u :: 0 <= t < |s.objects| && 0 <= u < |s.objects| && t != u ==>
         Disjoint(EntriesOf(s.objects[t].added), EntriesOf(s.objects[u].added))
  }

  // ---------------------------------------------------------------- lists as the open executions of another state

  function Own(q: nat, running: seq<nat>): seq<Entry> {
    if running == [] then [] else Own(q, running[..|running| - 1]) + [Entry(q, running[|running| - 1])]
  }

  /** All lists, one after the other. */
  function Flatten(objects: seq<Object>): seq<Entry> {
    if objects == [] then []
    else Flatten(objects[..|objects| - 1]) + Own(|objects| - 1, objects[|objects| - 1].running)
  }

  lemma {:induction false} OwnAt(q: nat, running: seq<nat>)
    ensures |Own(q, running)| == |running| && forall i :: 0 <= i < |running| ==> Own(q, running)[i] == Entry(q, running[i])
  {
    if running != [] { OwnAt(q, running[..|running| - 1]); }
  }

  lemma {:induction false} DatasOfOwn(q: nat, running: seq<nat>, p: nat)
    ensures Datas(Own(q, running), p) == if p == q then running else []
  {
    if running != [] {
      var n := |running| - 1;
      var before := running[..n];
      DatasOfOwn(q, before, p);
      DatasAppend(Own(q, before), Entry(q, running[n]), p);
      assert running == before + [running[n]];
    }
  }

  lemma {:induction false} DatasJoin(a: seq<Entry>, b: seq<Entry>, q: nat)
    ensures Datas(a + b, q) == Datas(a, q) + Datas(b, q)
  {
    if b == [] {
      assert a + b == a;
    } else {
      var rest, last := b[..|b| - 1], b[|b| - 1];
      DatasJoin(a, rest, q);
      assert a + b == (a + rest) + [last] && b == rest + [last];
      DatasAppend(a + rest, last, q);
      DatasAppend(rest, last, q);
    }
  }

  lemma {:induction false} FlattenMatches(objects: seq<Object>, q: nat)
    ensures Datas(Flatten(objects), q) == if q < |objects| then objects[q].running else []
  {
    if objects != [] {
      var n := |objects| - 1;
      FlattenMatches(objects[..n], q);
      DatasJoin(Flatten(objects[..n]), Own(n, objects[n].running), q);
      DatasOfOwn(n, objects[n].running, q);
    }
  }

  lemma FlattenMember(objects: seq<Object>, e: Entry)
    ensures e in Flatten(objects) <==> e.query < |objects| && e.data in objects[e.query].running
  {
    FlattenMatches(objects, e.query);
    DatasMember(Flatten(objects), e.query, e.data);
  }

  lemma {:induction false} FlattenDistinct(objects: seq<Object>)
    requires forall q :: 0 <= q < |objects| ==> NoDuplicates(objects[q].running)
    ensures NoDuplicates(Flatten(objects))
  {
    if objects != [] {
      var n := |objects| - 1;
      var before, own := Flatten(objects[..n]), Own(n, objects[n].running);
      FlattenDistinct(objects[..n]);
      OwnAt(n, objects[n].running);
      forall i | 0 <= i < |own| ensures own[i] !in before { FlattenMember(objects[..n], own[i]); }
      Joined(before, own);
    }
  }

  lemma OneMore<T>(s: seq<T>, x: T)
    requires NoDuplicates(s) && x !in s
    ensures NoDuplicates(s + [x]) && s + [] == s
  {
  }

  lemma Joined<T>(a: seq<T>, b: seq<T>)
    requires NoDuplicates(a) && NoDuplicates(b) && forall i :: 0 <= i < |b| ==> b[i] !in a
    ensures NoDuplicates(a + b)
  {
    forall i, j | 0 <= i < j < |a + b| ensures (a + b)[i] != (a + b)[j] {
      if j >= |a| { assert (a + b)[j] == b[j - |a|]; }
    }
  }

  /** The same state, with nothing open but what is listed. */
  function Shadow(s: State): State { s.(open := Flatten(s.objects)) }

  lemma ShadowExact(s: State)
    requires Listed(s)
    ensures Exact(Shadow(s)) && forall e :: e in Shadow(s).open ==> e in s.open
  {
    FlattenDistinct(s.objects);
    forall q | 0 <= q < |s.objects| ensures s.objects[q].running == Datas(Flatten(s.objects), q) { FlattenMatches(s.objects, q); }
    forall e | e in Flatten(s.objects) ensures e in s.open { FlattenMember(s.objects, e); }
    var l := Flatten(s.objects);
    forall i | 0 <= i < |l| ensures l[i].query < |s.objects| && l[i].data < |s.executions| { assert l[i] in s.open; }
  }

  lemma ShadowAccounted(s: State, lost: set<Entry>)
    requires Listed(s) && Accounted(s, lost)
    ensures forall e :: e in Shadow(s).open <==> e in s.open && e !in lost
  {
    forall e ensures e in Shadow(s).open <==> e in s.open && e !in lost {
      FlattenMember(s.objects, e);
      assert e == Entry(e.query, e.data);
    }
  }

  // ---------------------------------------------------------------- steps that are no restarts

  lemma NobodyReadsOpen(s: State, open: seq<Entry>, step: Step)
    ensures var t, u := After(s, step), After(s.(open := open), step);
      t.objects == u.objects && t.executions == u.executions
  {
  }

  lemma StartOpens(s: State, query: nat, present: Present, accepted: bool)
    requires query < |s.objects|
    ensures var o := s.objects[query];
      Started(s, query, present, accepted).open ==
        if accepted && !(o.transaction && o.started) then s.open + EntriesOf(o.added) + [Entry(query, |s.executions|)] else s.open
  {
  }

  lemma {:induction false} WithoutAllMember(open: seq<Entry>, es: seq<Entry>, e: Entry)
    ensures e in WithoutAll(open, es) <==> e in open && e !in es
  {
    if es != [] {
      var rest, last := es[..|es| - 1], es[|es| - 1];
      WithoutAllMember(open, rest, e);
      WithoutMember(WithoutAll(open, rest), last, e);
      assert es == rest + [last];
    }
  }

  /** What a step opens and closes does not depend on what is open. */
  lemma OpenFollows(s: State, open: seq<Entry>, lost: set<Entry>, step: Step, e: Entry)
    requires forall x :: x in open <==> x in s.open && x !in lost
    requires Known(s.open, |s.objects|, |s.executions|) && forall x :: x in lost ==> x in s.open
    requires step.Start? && step.query < |s.objects| ==> Disjoint(EntriesOf(s.objects[step.query].added), s.open)
    ensures e in After(s.(open := open), step).open <==> e in After(s, step).open && e !in lost
  {
    match step {
      case Start(q, present, accepted) =>
        if q < |s.objects| {
          StartOpens(s, q, present, accepted);
          StartOpens(s.(open := open), q, present, accepted);
        }
      case Close(data) =>
        if data < |s.executions| {
          var x := s.executions[data];
          var es, own := EntriesOf(x.children), Entry(x.owner, data);
          WithoutAllMember(s.open, es, e);
          WithoutAllMember(open, es, e);
          WithoutMember(WithoutAll(s.open, es), own, e);
          WithoutMember(WithoutAll(open, es), own, e);
        }
      case _ =>
    }
  }

  lemma OpenStaysDistinct(s: State, step: Step)
    requires NoDuplicates(s.open) && Known(s.open, |s.objects|, |s.executions|)
    requires forall q :: 0 <= q < |s.objects| ==> AddedKnown(s.objects[q].added, |s.objects|, |s.executions|)
    requires step.Start? && step.query < |s.objects| ==>
      Restarts(s, step) || Disjoint(EntriesOf(s.objects[step.query].added), s.open)
    ensures var t := After(s, step); NoDuplicates(t.open) && Known(t.open, |t.objects|, |t.executions|)
  {
    match step {
      case Start(q, present, accepted) => if q < |s.objects| { StartStaysDistinct(s, q, present, accepted); }
      case Close(data) => if data < |s.executions| { CloseStaysDistinct(s, data); }
      case _ =>
    }
  }

  lemma StartStaysDistinct(s: State, q: nat, present: Present, accepted: bool)
    requires NoDuplicates(s.open) && Known(s.open, |s.objects|, |s.executions|) && q < |s.objects|
    requires AddedKnown(s.objects[q].added, |s.objects|, |s.executions|)
    requires (s.objects[q].transaction && s.objects[q].started) || Disjoint(EntriesOf(s.objects[q].added), s.open)
    ensures var t := Started(s, q, present, accepted); NoDuplicates(t.open) && Known(t.open, |t.objects|, |t.executions|)
  {
    var es, own := EntriesOf(s.objects[q].added), Entry(q, |s.executions|);
    StartOpens(s, q, present, accepted);
    if !(s.objects[q].transaction && s.objects[q].started) {
      assert own !in s.open && own !in es;
      JoinedDistinct(s.open, es, own);
    }
  }

  lemma CloseStaysDistinct(s: State, data: nat)
    requires NoDuplicates(s.open) && Known(s.open, |s.objects|, |s.executions|) && data < |s.executions|
    ensures var t := Closed(s, data); NoDuplicates(t.open) && Known(t.open, |t.objects|, |t.executions|)
  {
    var x := s.executions[data];
    var es, own := EntriesOf(x.children), Entry(x.owner, data);
    WithoutAllDistinct(s.open, es);
    WithoutDistinct(WithoutAll(s.open, es), own);
    var left := Closed(s, data).open;
    forall i | 0 <= i < |left| ensures left[i].query < |s.objects| && left[i].data < |s.executions| {
      assert left[i] in s.open;
    }
  }

  /** What the lists of an exact state say, for the open executions of another. */
  lemma ListsOf(t: State, u: State, lost: set<Entry>)
    requires Exact(u) && u.objects == t.objects && u.executions == t.executions
    requires NoDuplicates(t.open) && Known(t.open, |t.objects|, |t.executions|)
    requires forall e :: e in u.open <==> e in t.open && e !in lost
    ensures Listed(t) && forall q, d :: 0 <= q < |t.objects| ==>
      (d in t.objects[q].running <==> Entry(q, d) in t.open && Entry(q, d) !in lost)
  {
    forall q, d | 0 <= q < |t.objects| ensures d in t.objects[q].running <==> Entry(q, d) in t.open && Entry(q, d) !in lost {
      DatasMember(u.open, q, d);
    }
    forall q | 0 <= q < |t.objects| ensures NoDuplicates(t.objects[q].running) { DatasDistinct(u.open, q); }
  }

  lemma PlainStep(s: State, lost: set<Entry>, step: Step)
    requires Listed(s) && Staged(s) && Accounted(s, lost) && !Restarts(s, step)
    ensures Listed(After(s, step)) && Accounted(After(s, step), LostBy(s, lost, step))
  {
    var sh, t := Shadow(s), After(s, step);
    ShadowExact(s);
    ShadowAccounted(s, lost);
    assert Allowed(sh, step);
    StepExact(sh, step);
    NobodyReadsOpen(s, sh.open, step);
    OpenStaysDistinct(s, step);
    forall e ensures e in After(sh, step).open <==> e in t.open && e !in lost { OpenFollows(s, sh.open, lost, step, e); }
    ListsOf(t, After(sh, step), lost);
    assert forall e :: e in t.open ==> (e in lost <==> e in LostBy(s, lost, step));
  }

  // ---------------------------------------------------------------- restarts

  lemma {:induction false} StayingDistinct(running: seq<nat>, kids: seq<nat>, n: nat)
    requires NoDuplicates(kids) && n <= |kids|
    ensures NoDuplicates(Staying(running, kids, n))
  {
    if n > 0 {
      StayingDistinct(running, kids, n - 1);
      NotStaying(running, kids, n - 1);
      OneMore(Staying(running, kids, n - 1), kids[n - 1]);
    }
  }

  /** The list a restart leaves has no duplicates, and is what was there but for what is lost. */
  lemma RestartedList(running: seq<nat>, kids: seq<nat>)
    requires NoDuplicates(running) && NoDuplicates(kids)
    ensures var after := Left(running, kids) + Staying(running, kids, |kids|);
      NoDuplicates(after) && forall x :: x in after <==> x in running && !Loses(running, kids, x)
  {
    var left, stay := Left(running, kids), Staying(running, kids, |kids|);
    LeftDistinct(running, kids);
    StayingDistinct(running, kids, |kids|);
    forall i | 0 <= i < |stay| ensures stay[i] !in left {
      StayingMember(running, kids, |kids|, stay[i]);
      LeftMember(running, kids, stay[i]);
    }
    Joined(left, stay);
    forall x ensures x in left + stay <==> x in running && !Loses(running, kids, x) {
      LeftMember(running, kids, x);
      StayingMember(running, kids, |kids|, x);
    }
  }

  lemma RestartStep(s: State, lost: set<Entry>, step: Step)
    requires Listed(s) && Accounted(s, lost) && Restarts(s, step)
    ensures Listed(After(s, step)) && Accounted(After(s, step), LostBy(s, lost, step))
  {
    RestartLists(s, step);
    RestartAccounts(s, lost, step);
  }

  lemma RestartAccounts(s: State, lost: set<Entry>, step: Step)
    requires Listed(s) && Accounted(s, lost) && Restarts(s, step)
    ensures Accounted(After(s, step), LostBy(s, lost, step))
  {
    var t := After(s, step);
    StartOpens(s, step.query, step.present, step.accepted);
    forall q, d | 0 <= q < |s.objects|
      ensures d in t.objects[q].running <==> Entry(q, d) in t.open && Entry(q, d) !in LostBy(s, lost, step)
    {
      RestartedOn(s, step, q);
    }
  }

  lemma RestartLists(s: State, step: Step)
    requires Listed(s) && Restarts(s, step)
    ensures Listed(After(s, step))
  {
    var t := After(s, step);
    StartOpens(s, step.query, step.present, step.accepted);
    StartKeepsAdded(s, step.query, step.present, step.accepted);
    forall q | 0 <= q < |s.objects|
      ensures NoDuplicates(t.objects[q].running)
      ensures forall d :: d in t.objects[q].running <==> d in s.objects[q].running && !DropsNow(s, step, Entry(q, d))
    {
      RestartedOn(s, step, q);
    }
  }

  lemma RestartedOn(s: State, step: Step, q: nat)
    requires Listed(s) && Restarts(s, step) && q < |s.objects|
    ensures NoDuplicates(After(s, step).objects[q].running)
    ensures forall d :: d in After(s, step).objects[q].running <==> d in s.objects[q].running && !DropsNow(s, step, Entry(q, d))
  {
    assert AddedKnown(s.objects[step.query].added, |s.objects|, |s.executions|);
    DatasDistinct(EntriesOf(s.objects[step.query].added), q);
    RestartLeaves(s, step.query, step.present, step.accepted, q);
    RestartedList(s.objects[q].running, KidsOn(s.objects[step.query], q));
  }

  // ---------------------------------------------------------------- what keeps children from being open early

  lemma StartKeepsStaged(s: State, query: nat, present: Present, accepted: bool)
    requires Listed(s) && Staged(s) && query < |s.objects|
    ensures Staged(Started(s, query, present, accepted))
  {
    var t := Started(s, query, present, accepted);
    StartKeepsAdded(s, query, present, accepted);
    StartKeepsKinds(s, query, present, accepted);
    StartOpens(s, query, present, accepted);
    forall u | 0 <= u < |t.objects| && !(t.objects[u].transaction && t.objects[u].started)
      ensures Disjoint(EntriesOf(t.objects[u].added), t.open)
    {
      assert AddedKnown(s.objects[u].added, |s.objects|, |s.executions|);
      assert u != query ==> Disjoint(EntriesOf(s.objects[u].added), EntriesOf(s.objects[query].added));
    }
  }

  lemma {:induction false} AllKeepKinds(objects: seq<Object>, es: seq<Entry>)
    ensures forall q :: 0 <= q < |objects| ==> SameKind(AddAll(objects, es)[q], objects[q])
    ensures forall q :: 0 <= q < |objects| ==> SameKind(FinishAll(objects, es)[q], objects[q])
  {
    if es != [] { AllKeepKinds(objects, es[..|es| - 1]); }
  }

  predicate SameKind(a: Object, b: Object) { a.transaction == b.transaction && a.started == b.started }

  /** Only an accepted start marks an object as started. */
  lemma StartKeepsKinds(s: State, query: nat, present: Present, accepted: bool)
    requires query < |s.objects|
    ensures var t, o := Started(s, query, present, accepted), s.objects[query];
      |t.objects| == |s.objects| && forall q :: 0 <= q < |s.objects| ==>
        && t.objects[q].transaction == s.objects[q].transaction
        && t.objects[q].started == (s.objects[q].started || (q == query && accepted && !(o.transaction && o.started)))
  {
    var data, t := |s.executions|, Build(s, query, present);
    AllKeepKinds(s.objects, EntriesOf(s.objects[query].added));
    FinishKeepsKinds(t, data);
    FinishKeepsKinds(t.(objects := AddRunning(t.objects, Entry(query, data))), data);
  }

  lemma FinishKeepsKinds(s: State, data: nat)
    requires data < |s.executions|
    ensures forall q :: 0 <= q < |s.objects| ==> SameKind(Finish(s, data).objects[q], s.objects[q])
  {
    AllKeepKinds(s.objects, EntriesOf(s.executions[data].children));
  }

  lemma CloseKeepsStaged(s: State, data: nat)
    requires Staged(s) && data < |s.executions|
    ensures Staged(Closed(s, data))
  {
    var e := s.executions[data];
    FinishKeepsAdded(s, data);
    FinishKeepsKinds(s, data);
    forall x | x in Closed(s, data).open ensures x in s.open {
      WithoutMember(WithoutAll(s.open, EntriesOf(e.children)), Entry(e.owner, data), x);
      WithoutAllMember(s.open, EntriesOf(e.children), x);
    }
  }

  lemma AddQueryKeepsStaged(s: State, transaction: nat, query: nat)
    requires Listed(s) && Staged(s) && transaction < |s.objects| && query < |s.objects| && s.objects[transaction].transaction
    ensures Staged(QueryAdded(s, transaction, query))
  {
    var o, a, t := s.objects[transaction], Added(s.registry.Next(), query, |s.executions|), QueryAdded(s, transaction, query);
    var e := Entry(query, |s.executions|);
    assert EntriesOf(o.added + [a]) == EntriesOf(o.added) + [e];
    assert e !in s.open;
    forall u | 0 <= u < |s.objects| ensures e !in EntriesOf(s.objects[u].added) {
      assert AddedKnown(s.objects[u].added, |s.objects|, |s.executions|);
    }
  }

  lemma NewKeepsStaged(s: State, isTransaction: bool)
    requires Staged(s)
    ensures Staged(After(s, New(isTransaction)))
  {
    assert EntriesOf([]) == [];
  }

  lemma ClearKeepsStaged(s: State, query: nat)
    requires Staged(s) && query < |s.objects|
    ensures Staged(Cleared(s, query)) && Staged(Destroyed(s, query))
  {
    assert EntriesOf([]) == [];
  }

  lemma StepKeepsStaged(s: State, step: Step)
    requires Listed(s) && Staged(s)
    ensures Staged(After(s, step))
  {
    match step {
      case New(isTransaction) => NewKeepsStaged(s, isTransaction);
      case Start(o, present, accepted) => if o < |s.objects| { StartKeepsStaged(s, o, present, accepted); }
      case AddQuery(t, q) => if t < |s.objects| && q < |s.objects| && s.objects[t].transaction { AddQueryKeepsStaged(s, t, q); }
      case ClearQueries(t) => if t < |s.objects| { ClearKeepsStaged(s, t); }
      case Close(data) => if data < |s.executions| { CloseKeepsStaged(s, data); }
      case Destroy(o) => if o < |s.objects| { ClearKeepsStaged(s, o); }
      case HoldResult => ResultKeepsStaged(s, step);
      case FreeResult => ResultKeepsStaged(s, step);
    }
  }

  lemma ResultKeepsStaged(s: State, step: Step)
    requires Staged(s) && (step.HoldResult? || step.FreeResult?)
    ensures Staged(After(s, step))
  {
    assert After(s, step).objects == s.objects && After(s, step).open == s.open;
  }

  // ---------------------------------------------------------------- every run

  /** Over every run: a query's running list has no duplicates and holds exactly its open executions but those
      that a restart took off it. */
  lemma {:induction false} ListsLoseOnlyToRestarts(pool: seq<nat>, steps: seq<Step>)
    ensures var s := Run(pool, steps); Listed(s) && Staged(s) && Accounted(s, Lost(pool, steps))
  {
    if steps != [] {
      var rest, step := steps[..|steps| - 1], steps[|steps| - 1];
      ListsLoseOnlyToRestarts(pool, rest);
      var s, lost := Run(pool, rest), Lost(pool, rest);
      if Restarts(s, step) { RestartStep(s, lost, step); } else { PlainStep(s, lost, step); }
      StepKeepsStaged(s, step);
    }
  }

  /** After any run, a start that the database refuses leaves every list as it was, unless it is a restart. */
  lemma RefusedStartInAnyRun(pool: seq<nat>, steps: seq<Step>, query: nat, present: Present)
    requires var s := Run(pool, steps); query < |s.objects| && !Restarts(s, Start(query, present, false))
    ensures var s := Run(pool, steps);
      forall q :: 0 <= q < |s.objects| ==> Started(s, query, present, false).objects[q].running == s.objects[q].running
  {
    var s := Run(pool, steps);
    ListsLoseOnlyToRestarts(pool, steps);
    ShadowExact(s);
    RefusedStartChangesNothing(Shadow(s), query, present);
    NobodyReadsOpen(s, Shadow(s).open, Start(query, present, false));
  }
}
