/** What the restriction of LuaRunningLists keeps out: starting a transaction again while its children are
    open. The start is refused, but the running lists of its children's queries change. */
module LuaRestarts {
  import opened Sequences
  import opened RunningLists
  import opened LuaReferences
  import opened LuaBookkeeping
  import opened LuaRunningLists

  // ---------------------------------------------------------------- one list

  /** finishQueryData for each of `kids` in turn. */
  function FinishEach(running: seq<nat>, kids: seq<nat>): seq<nat> {
    if kids == [] then running else FinishList(FinishEach(running, kids[..|kids| - 1]), kids[|kids| - 1])
  }

  /** The list without any of `kids`. */
  function Left(running: seq<nat>, kids: seq<nat>): seq<nat> {
    if kids == [] then running else Without(Left(running, kids[..|kids| - 1]), kids[|kids| - 1])
  }

  /** A child stays on the list exactly when all that is before it are children of the transaction
      added before it. */
  predicate Stays(running: seq<nat>, kids: seq<nat>, i: nat)
    requires i < |kids|
  {
    exists j :: 0 <= j < |running| && running[j] == kids[i] && forall m :: 0 <= m < j ==> running[m] in kids[..i]
  }

  /** The children that stay, in the order in which they were added. */
  function Staying(running: seq<nat>, kids: seq<nat>, n: nat): seq<nat>
    requires n <= |kids|
  {
    if n == 0 then []
    else Staying(running, kids, n - 1) + if Stays(running, kids, n - 1) then [kids[n - 1]] else []
  }

  lemma {:induction false} LeftMember(running: seq<nat>, kids: seq<nat>, x: nat)
    ensures x in Left(running, kids) <==> x in running && x !in kids
  {
    if kids != [] {
      var rest, last := kids[..|kids| - 1], kids[|kids| - 1];
      LeftMember(running, rest, x);
      WithoutMember(Left(running, rest), last, x);
      assert kids == rest + [last];
    }
  }

  lemma {:induction false} StayingMember(running: seq<nat>, kids: seq<nat>, n: nat, x: nat)
    requires n <= |kids|
    ensures x in Staying(running, kids, n) <==> exists i :: 0 <= i < n && kids[i] == x && Stays(running, kids, i)
  {
    if n > 0 {
      StayingMember(running, kids, n - 1, x);
      var a, b := Staying(running, kids, n - 1), if Stays(running, kids, n - 1) then [kids[n - 1]] else [];
      assert Staying(running, kids, n) == a + b && (x in a + b <==> x in a || x in b);
      if exists i :: 0 <= i < n && kids[i] == x && Stays(running, kids, i) {
        var i :| 0 <= i < n && kids[i] == x && Stays(running, kids, i);
        if i == n - 1 { assert x in b; } else { assert x in a; }
      }
    }
  }

  /** The front of what is left is the first element that is not among the children. */
  lemma {:induction false} LeftFront(running: seq<nat>, kids: seq<nat>, j: nat)
    requires j < |running| && running[j] !in kids && forall m :: 0 <= m < j ==> running[m] in kids
    ensures Left(running, kids) != [] && Left(running, kids)[0] == running[j]
  {
    LeftSplit(running, kids, j);
  }

  lemma {:induction false} LeftSplit(running: seq<nat>, kids: seq<nat>, j: nat)
    requires j < |running| && running[j] !in kids && forall m :: 0 <= m < j ==> running[m] in kids
    ensures exists tail :: Left(running, kids) == [running[j]] + tail
  {
    var front, back := running[..j], running[j + 1..];
    assert running == front + ([running[j]] + back);
    LeftAppend(front, [running[j]] + back, kids);
    LeftAppend([running[j]], back, kids);
    LeftOfOne(running[j], kids);
    NothingLeft(front, kids);
    assert Left(running, kids) == [running[j]] + Left(back, kids);
  }

  lemma {:induction false} LeftAppend(a: seq<nat>, b: seq<nat>, kids: seq<nat>)
    ensures Left(a + b, kids) == Left(a, kids) + Left(b, kids)
  {
    if kids != [] {
      LeftAppend(a, b, kids[..|kids| - 1]);
      WithoutAppend(Left(a, kids[..|kids| - 1]), Left(b, kids[..|kids| - 1]), kids[|kids| - 1]);
    }
  }

  lemma {:induction false} LeftOfOne(x: nat, kids: seq<nat>)
    ensures Left([x], kids) == if x in kids then [] else [x]
  {
    if kids != [] {
      var rest, last := kids[..|kids| - 1], kids[|kids| - 1];
      LeftOfOne(x, rest);
      assert kids == rest + [last];
      WithoutOne(x, last);
    }
  }

  lemma {:induction false} NothingLeft(s: seq<nat>, kids: seq<nat>)
    requires forall m :: 0 <= m < |s| ==> s[m] in kids
    ensures Left(s, kids) == []
  {
    if s == [] {
      NothingTaken(s, kids);
    } else {
      NothingLeft(s[1..], kids);
      LeftOfOne(s[0], kids);
      LeftAppend([s[0]], s[1..], kids);
      assert s == [s[0]] + s[1..];
    }
  }

  /** ... and a child that is at the front of what is left is one that stays. */
  lemma FrontStays(running: seq<nat>, kids: seq<nat>, n: nat)
    requires NoDuplicates(running) && NoDuplicates(kids) && n < |kids|
    ensures var left := Left(running, kids[..n]); left != [] && left[0] == kids[n] <==> Stays(running, kids, n)
  {
    var left := Left(running, kids[..n]);
    assert kids[n] !in kids[..n];
    if Stays(running, kids, n) {
      var j :| 0 <= j < |running| && running[j] == kids[n] && forall m :: 0 <= m < j ==> running[m] in kids[..n];
      LeftFront(running, kids[..n], j);
    }
    if left != [] && left[0] == kids[n] {
      LeftMember(running, kids[..n], kids[n]);
      assert kids[n] in left;
      var j := FirstOutside(running, kids[..n]);
      LeftFront(running, kids[..n], j);
    }
  }

  lemma {:induction false} FirstOutside(running: seq<nat>, kids: seq<nat>) returns (j: nat)
    requires exists x :: x in running && x !in kids
    ensures j < |running| && running[j] !in kids && forall m :: 0 <= m < j ==> running[m] in kids
  {
    j := 0;
    if running[0] in kids {
      var x :| x in running && x !in kids;
      assert x in running[1..];
      j := FirstOutside(running[1..], kids);
      j := j + 1;
      assert forall m :: 0 < m < j ==> running[m] == running[1..][m - 1];
    }
  }

  lemma NotStaying(running: seq<nat>, kids: seq<nat>, n: nat)
    requires NoDuplicates(kids) && n < |kids|
    ensures kids[n] !in Staying(running, kids, n) && kids[n] !in kids[n + 1..]
  {
    StayingMember(running, kids, n, kids[n]);
  }

  /** Where the list stands after `n` of the children have been finished. */
  lemma {:induction false} FinishedSoFar(running: seq<nat>, kids: seq<nat>, n: nat)
    requires NoDuplicates(running) && NoDuplicates(kids) && n <= |kids|
    ensures FinishEach(running + kids, kids[..n]) == Left(running, kids[..n]) + (Staying(running, kids, n) + kids[n..])
  {
    if n == 0 {
      assert kids[..0] == [] && kids[0..] == kids && [] + kids == kids;
    } else {
      FinishedSoFar(running, kids, n - 1);
      assert kids[..n][..n - 1] == kids[..n - 1];
      assert kids[n - 1..] == [kids[n - 1]] + kids[n..];
      FinishedNext(running, kids, n);
    }
  }

  lemma FinishedNext(running: seq<nat>, kids: seq<nat>, n: nat)
    requires NoDuplicates(running) && NoDuplicates(kids) && 0 < n <= |kids|
    ensures FinishList(Left(running, kids[..n - 1]) + (Staying(running, kids, n - 1) + ([kids[n - 1]] + kids[n..])), kids[n - 1])
         == Without(Left(running, kids[..n - 1]), kids[n - 1]) + (Staying(running, kids, n) + kids[n..])
  {
    var left, stay, c, more := Left(running, kids[..n - 1]), Staying(running, kids, n - 1), kids[n - 1], kids[n..];
    FrontStays(running, kids, n - 1);
    NotStaying(running, kids, n - 1);
    if left != [] && left[0] == c {
      FrontFinished(running, kids, n - 1, left, stay, more);
    } else {
      OtherFinished(left, stay, c, more);
      if stay == [] && left == [] { assert Without(left, c) == []; }
      assert stay + [] == stay;
    }
  }

  lemma FrontFinished(running: seq<nat>, kids: seq<nat>, n: nat, left: seq<nat>, stay: seq<nat>, more: seq<nat>)
    requires NoDuplicates(running) && n < |kids| && left == Left(running, kids[..n]) && left != [] && left[0] == kids[n]
    ensures FinishList(left + (stay + ([kids[n]] + more)), kids[n]) == Without(left, kids[n]) + (stay + [kids[n]] + more)
  {
    LeftDistinct(running, kids[..n]);
    FrontTaken(left, kids[n], stay + ([kids[n]] + more));
    assert stay + ([kids[n]] + more) == stay + [kids[n]] + more;
  }

  lemma FrontTaken(left: seq<nat>, c: nat, tail: seq<nat>)
    requires NoDuplicates(left) && left != [] && left[0] == c
    ensures FinishList(left + tail, c) == Without(left, c) + tail
  {
    assert c !in left[1..];
    WithoutAbsent(left[1..], c);
    assert (left + tail)[1..] == left[1..] + tail;
  }

  lemma {:induction false} LeftDistinct(running: seq<nat>, kids: seq<nat>)
    requires NoDuplicates(running)
    ensures NoDuplicates(Left(running, kids))
  {
    if kids != [] {
      LeftDistinct(running, kids[..|kids| - 1]);
      WithoutKeepsDistinct(Left(running, kids[..|kids| - 1]), kids[|kids| - 1]);
    }
  }

  lemma {:induction false} WithoutKeepsDistinct(s: seq<nat>, x: nat)
    requires NoDuplicates(s)
    ensures NoDuplicates(Without(s, x))
  {
    if s != [] {
      WithoutKeepsDistinct(s[1..], x);
      assert s[0] !in s[1..];
      WithoutMember(s[1..], x, s[0]);
    }
  }

  lemma OtherFinished(left: seq<nat>, stay: seq<nat>, c: nat, more: seq<nat>)
    requires !(left != [] && left[0] == c) && c !in stay && c !in more
    ensures FinishList(left + (stay + ([c] + more)), c) == Without(left, c) + (stay + more)
  {
    var all := left + (stay + ([c] + more));
    if left == [] && stay == [] {
      assert all == [c] + more;
    } else {
      assert all[0] == if left != [] then left[0] else stay[0];
      OtherTakenOut(left, stay, c, more);
    }
  }

  lemma OtherTakenOut(left: seq<nat>, stay: seq<nat>, c: nat, more: seq<nat>)
    requires c !in stay && c !in more
    ensures Without(left + (stay + ([c] + more)), c) == Without(left, c) + (stay + more)
  {
    FirstTakenOut(c, more);
    WithoutAbsent(stay, c);
    WithoutAppend(stay, [c] + more, c);
    WithoutAppend(left, stay + ([c] + more), c);
  }

  lemma FirstTakenOut(c: nat, more: seq<nat>)
    requires c !in more
    ensures Without([c] + more, c) == more
  {
    WithoutAbsent(more, c);
    assert ([c] + more)[1..] == more;
  }

  /** The list after a refused restart: what are not children of the transaction, then the children that stay. */
  lemma FinishedAll(running: seq<nat>, kids: seq<nat>)
    requires NoDuplicates(running) && NoDuplicates(kids)
    ensures FinishEach(running + kids, kids) == Left(running, kids) + Staying(running, kids, |kids|)
  {
    FinishedSoFar(running, kids, |kids|);
    assert kids[..|kids|] == kids && kids[|kids|..] == [];
    assert Staying(running, kids, |kids|) + [] == Staying(running, kids, |kids|);
  }

  // ---------------------------------------------------------------- the step

  lemma {:induction false} AddAllRunning(objects: seq<Object>, es: seq<Entry>, q: nat)
    requires q < |objects|
    ensures AddAll(objects, es)[q].running == objects[q].running + Datas(es, q)
  {
    if es == [] {
      assert objects[q].running + [] == objects[q].running;
    } else {
      AddAllRunning(objects, es[..|es| - 1], q);
      AppendAssociates(objects[q].running, Datas(es[..|es| - 1], q), [es[|es| - 1].data]);
    }
  }

  lemma {:induction false} FinishAllRunning(objects: seq<Object>, es: seq<Entry>, q: nat)
    requires q < |objects|
    ensures FinishAll(objects, es)[q].running == FinishEach(objects[q].running, Datas(es, q))
  {
    if es != [] {
      var rest, last := es[..|es| - 1], es[|es| - 1];
      FinishAllRunning(objects, rest, q);
      if last.query == q {
        assert (Datas(rest, q) + [last.data])[..|Datas(rest, q)|] == Datas(rest, q);
      } else {
        assert Datas(es, q) == Datas(rest, q);
      }
    }
  }

  /** The children of a transaction on one query, in the order in which they were added. */
  function KidsOn(o: Object, q: nat): seq<nat> { Datas(EntriesOf(o.added), q) }

  lemma NewDataAbsent(s: State, q: nat, es: seq<Entry>)
    requires Listed(s) && q < |s.objects| && Known(es, |s.objects|, |s.executions|)
    ensures |s.executions| !in s.objects[q].running && |s.executions| !in Datas(es, q)
  {
    forall d | d in s.objects[q].running ensures d < |s.executions| { assert Entry(q, d) in s.open; }
    DatasMember(es, q, |s.executions|);
  }

  lemma FinishListAbsent(running: seq<nat>, d: nat)
    requires d !in running
    ensures FinishList(running, d) == running
  {
    WithoutAbsent(running, d);
  }

  /** Starting a started transaction again throws, and leaves on every query's list first what are not
      children of the transaction and then those of its children that stay. */
  lemma RestartLeaves(s: State, t: nat, present: Present, accepted: bool, q: nat)
    requires Listed(s) && t < |s.objects| && s.objects[t].transaction && s.objects[t].started && q < |s.objects|
    ensures var r, k := s.objects[q].running, KidsOn(s.objects[t], q);
      Started(s, t, present, accepted).objects[q].running == Left(r, k) + Staying(r, k, |k|)
  {
    var o, data, es := s.objects[t], |s.executions|, EntriesOf(s.objects[t].added);
    var r, k := s.objects[q].running, Datas(es, q);
    assert AddedKnown(o.added, |s.objects|, |s.executions|);
    DatasDistinct(es, q);
    var built := Build(s, t, present);
    AddAllRunning(s.objects, es, q);
    FinishAllRunning(built.objects, es, q);
    FinishedAll(r, k);
    NewDataAbsent(s, q, es);
    var after := Left(r, k) + Staying(r, k, |k|);
    LeftMember(r, k, data);
    StayingMember(r, k, |k|, data);
    FinishListAbsent(after, data);
  }

  /** Which executions the restart takes off their query's list although they are still open: exactly the
      transaction's children that have before them on the list anything but children added before them. */
  lemma RestartDropsExactly(s: State, t: nat, present: Present, accepted: bool, q: nat, x: nat)
    requires Listed(s) && t < |s.objects| && s.objects[t].transaction && s.objects[t].started && q < |s.objects|
    requires x in s.objects[q].running
    ensures var r, k := s.objects[q].running, KidsOn(s.objects[t], q);
      x !in Started(s, t, present, accepted).objects[q].running <==>
        x in k && forall i :: 0 <= i < |k| && k[i] == x ==> !Stays(r, k, i)
  {
    var r, k := s.objects[q].running, KidsOn(s.objects[t], q);
    RestartLeaves(s, t, present, accepted, q);
    LeftMember(r, k, x);
    StayingMember(r, k, |k|, x);
  }

  // ---------------------------------------------------------------- when nothing changes

  /** The children that are on the list, in the order in which they were added. */
  function Open(running: seq<nat>, kids: seq<nat>, n: nat): seq<nat>
    requires n <= |kids|
  {
    if n == 0 then [] else Open(running, kids, n - 1) + if kids[n - 1] in running then [kids[n - 1]] else []
  }

  lemma {:induction false} OpenMember(running: seq<nat>, kids: seq<nat>, n: nat, x: nat)
    requires n <= |kids|
    ensures x in Open(running, kids, n) <==> x in running && x in kids[..n]
  {
    if n > 0 {
      OpenMember(running, kids, n - 1, x);
      assert kids[..n] == kids[..n - 1] + [kids[n - 1]];
    }
  }

  lemma {:induction false} OpenPrefix(running: seq<nat>, kids: seq<nat>, m: nat, n: nat)
    requires m <= n <= |kids|
    ensures Open(running, kids, m) <= Open(running, kids, n)
    decreases n
  {
    if m < n { OpenPrefix(running, kids, m, n - 1); }
  }

  lemma {:induction false} AllStay(running: seq<nat>, kids: seq<nat>, n: nat)
    requires n <= |kids| && Open(running, kids, |kids|) == running
    ensures Staying(running, kids, n) == Open(running, kids, n)
  {
    if n > 0 {
      AllStay(running, kids, n - 1);
      if kids[n - 1] in running { NextStays(running, kids, n); } else { AbsentStaysNot(running, kids, n - 1); }
    }
  }

  lemma AbsentStaysNot(running: seq<nat>, kids: seq<nat>, i: nat)
    requires i < |kids| && kids[i] !in running
    ensures !Stays(running, kids, i)
  {
  }

  lemma NextStays(running: seq<nat>, kids: seq<nat>, n: nat)
    requires 0 < n <= |kids| && Open(running, kids, |kids|) == running && kids[n - 1] in running
    ensures Stays(running, kids, n - 1)
  {
    var before := Open(running, kids, n - 1);
    OpenPrefix(running, kids, n, |kids|);
    assert running[|before|] == kids[n - 1];
    forall m | 0 <= m < |before| ensures running[m] in kids[..n - 1] {
      assert running[m] == before[m];
      OpenMember(running, kids, n - 1, running[m]);
    }
  }

  lemma StaysIsListed(running: seq<nat>, kids: seq<nat>, i: nat)
    requires i < |kids| && Stays(running, kids, i)
    ensures kids[i] in running
  {
  }

  lemma {:induction false} StayingLength(running: seq<nat>, kids: seq<nat>, n: nat)
    requires n <= |kids|
    ensures |Staying(running, kids, n)| <= |Open(running, kids, n)|
    ensures |Staying(running, kids, n)| == |Open(running, kids, n)| ==> Staying(running, kids, n) == Open(running, kids, n)
  {
    if n > 0 {
      StayingLength(running, kids, n - 1);
      if Stays(running, kids, n - 1) { StaysIsListed(running, kids, n - 1); }
    }
  }

  lemma {:induction false} StayingAll(running: seq<nat>, kids: seq<nat>, n: nat, i: nat)
    requires i < n <= |kids| && |Staying(running, kids, n)| == |Open(running, kids, n)| && kids[i] in running
    ensures Stays(running, kids, i)
  {
    StayingLength(running, kids, n - 1);
    if i < n - 1 {
      if Stays(running, kids, n - 1) { StaysIsListed(running, kids, n - 1); }
      StayingAll(running, kids, n - 1, i);
    }
  }

  lemma {:induction false} WithoutLength(s: seq<nat>, x: nat)
    requires NoDuplicates(s)
    ensures |Without(s, x)| == |s| - if x in s then 1 else 0
  {
    if s != [] {
      WithoutLength(s[1..], x);
      assert s[0] !in s[1..] && (x in s <==> s[0] == x || x in s[1..]);
    }
  }

  lemma {:induction false} LeftLength(running: seq<nat>, kids: seq<nat>, n: nat)
    requires NoDuplicates(running) && NoDuplicates(kids) && n <= |kids|
    ensures |Left(running, kids[..n])| + |Open(running, kids, n)| == |running|
  {
    if n > 0 {
      LeftLength(running, kids, n - 1);
      assert kids[..n][..n - 1] == kids[..n - 1] && kids[n - 1] !in kids[..n - 1];
      LeftDistinct(running, kids[..n - 1]);
      WithoutLength(Left(running, kids[..n - 1]), kids[n - 1]);
      LeftMember(running, kids[..n - 1], kids[n - 1]);
    }
  }

  lemma {:induction false} FirstOpen(running: seq<nat>, kids: seq<nat>, n: nat) returns (i: nat)
    requires n <= |kids| && Open(running, kids, n) != []
    ensures i < n && kids[i] in running && Open(running, kids, n)[0] == kids[i]
    ensures forall x :: x in kids[..i] ==> x !in running
  {
    if Open(running, kids, n - 1) != [] {
      i := FirstOpen(running, kids, n - 1);
    } else {
      i := n - 1;
      forall x | x in kids[..i] ensures x !in running { OpenMember(running, kids, n - 1, x); }
    }
  }

  /** When every open child stays, the first of them is at the front. */
  lemma FirstAtFront(running: seq<nat>, kids: seq<nat>)
    requires Open(running, kids, |kids|) != [] && running != []
    requires forall i :: 0 <= i < |kids| && kids[i] in running ==> Stays(running, kids, i)
    ensures running[0] == Open(running, kids, |kids|)[0] && running[0] in kids
  {
    var i := FirstOpen(running, kids, |kids|);
    StaysFirst(running, kids, i);
  }

  lemma StaysFirst(running: seq<nat>, kids: seq<nat>, i: nat)
    requires i < |kids| && running != [] && Stays(running, kids, i) && forall x :: x in kids[..i] ==> x !in running
    ensures running[0] == kids[i]
  {
    var j :| 0 <= j < |running| && running[j] == kids[i] && forall m :: 0 <= m < j ==> running[m] in kids[..i];
    assert running[0] in running && running[0] !in kids[..i];
  }

  /** The list is unchanged exactly when none of the transaction's children is on it, or they are, in the
      order in which they were added, all that is on it. */
  lemma UnchangedExactly(running: seq<nat>, kids: seq<nat>)
    requires NoDuplicates(running) && NoDuplicates(kids)
    ensures Left(running, kids) + Staying(running, kids, |kids|) == running <==>
      var open := Open(running, kids, |kids|); open == [] || open == running
  {
    var n := |kids|;
    var left, stay, open := Left(running, kids), Staying(running, kids, n), Open(running, kids, n);
    assert kids[..n] == kids;
    LeftLength(running, kids, n);
    StayingLength(running, kids, n);
    if open == [] {
      NoneOpen(running, kids);
    } else if open == running {
      AllStay(running, kids, n);
      assert left == [];
    } else if left + stay == running {
      assert |stay| == |open|;
      forall i | 0 <= i < |kids| && kids[i] in running ensures Stays(running, kids, i) { StayingAll(running, kids, n, i); }
      FirstAtFront(running, kids);
      LeftMember(running, kids, running[0]);
    }
  }

  lemma NoneOpen(running: seq<nat>, kids: seq<nat>)
    requires Open(running, kids, |kids|) == []
    ensures Left(running, kids) == running && Staying(running, kids, |kids|) == []
  {
    assert kids[..|kids|] == kids;
    StayingLength(running, kids, |kids|);
    forall x | x in kids ensures x !in running { OpenMember(running, kids, |kids|, x); }
    NothingTaken(running, kids);
  }

  lemma {:induction false} NothingTaken(running: seq<nat>, kids: seq<nat>)
    requires forall x :: x in kids ==> x !in running
    ensures Left(running, kids) == running
  {
    if kids != [] {
      NothingTaken(running, kids[..|kids| - 1]);
      WithoutAbsent(running, kids[|kids| - 1]);
    }
  }

  /** A refused restart leaves a query's list as it was exactly when none of the transaction's children is
      on it, or they are, in order, all that is on it. */
  lemma RestartChangesNothingExactly(s: State, t: nat, present: Present, accepted: bool, q: nat)
    requires Listed(s) && t < |s.objects| && s.objects[t].transaction && s.objects[t].started && q < |s.objects|
    ensures var r, k := s.objects[q].running, KidsOn(s.objects[t], q);
      Started(s, t, present, accepted).objects[q].running == r <==> Open(r, k, |k|) == [] || Open(r, k, |k|) == r
  {
    assert AddedKnown(s.objects[t].added, |s.objects|, |s.executions|);
    DatasDistinct(EntriesOf(s.objects[t].added), q);
    RestartLeaves(s, t, present, accepted, q);
    UnchangedExactly(s.objects[q].running, KidsOn(s.objects[t], q));
  }

  // ---------------------------------------------------------------- a run

  const NoCallbacks := Present(false, false, false, false)

  lemma Then(pool: seq<nat>, run: seq<Step>, s: State, step: Step) returns (next: seq<Step>, t: State)
    requires s == Run(pool, run) && Exact(s) && Allowed(s, step)
    ensures next == run + [step] && t == After(s, step) && t == Run(pool, next) && Exact(t)
  {
    next, t := run + [step], After(s, step);
    assert next[..|next| - 1] == run;
    StepExact(s, step);
  }

  lemma StartsPlain(s: State, q: nat)
    requires q < |s.objects| && s.objects[q].added == [] && !s.objects[q].started
    ensures var o, t := s.objects[q], After(s, Start(q, NoCallbacks, true));
      && t.objects == s.objects[q := o.(running := o.running + [|s.executions|], started := true)]
      && |t.executions| == |s.executions| + 1 && t.open == s.open + [Entry(q, |s.executions|)]
  {
    assert EntriesOf([]) == [];
    assert s.open + [] == s.open;
  }

  lemma StartsWithChild(s: State, t: nat, e: Entry)
    requires t < |s.objects| && e.query < |s.objects| && e.query != t
    requires EntriesOf(s.objects[t].added) == [e] && !s.objects[t].started
    ensures var o, u := s.objects[t], After(s, Start(t, NoCallbacks, true));
      && |u.objects| == |s.objects| && u.objects[e.query] == s.objects[e.query].(running := s.objects[e.query].running + [e.data])
      && u.objects[t] == o.(running := o.running + [|s.executions|], started := true)
  {
    assert [e][..0] == [];
    assert AddAll(s.objects, [e]) == AddRunning(s.objects, e);
  }

  lemma Made(pool: seq<nat>) returns (run: seq<Step>, s: State)
    ensures s == Run(pool, run) && Exact(s) && |s.objects| == 2 && s.executions == [] && s.open == []
    ensures s.objects[0].running == [] && s.objects[0].added == [] && !s.objects[0].started
    ensures s.objects[1].transaction && s.objects[1].added == [] && !s.objects[1].started
  {
    run, s := [], Initial(pool);
    run, s := Then(pool, run, s, New(false));
    run, s := Then(pool, run, s, New(true));
  }

  /** A query with one execution, and a transaction to which it is added. */
  lemma Prepared(pool: seq<nat>) returns (run: seq<Step>, s: State)
    ensures s == Run(pool, run) && Exact(s) && |s.objects| == 2
    ensures s.objects[0].running == [0] && s.objects[1].transaction && !s.objects[1].started
    ensures EntriesOf(s.objects[1].added) == [Entry(0, 1)] && s.open == [Entry(0, 0)]
  {
    run, s := Made(pool);
    StartsPlain(s, 0);
    run, s := Then(pool, run, s, Start(0, NoCallbacks, true));
    assert s.objects[1].added == [] && |s.executions| == 1;
    run, s := Then(pool, run, s, AddQuery(1, 0));
  }

  /** A pending transaction is started again: the start is refused, and its child, which is behind another
      execution of the same query, is lost from the query's list although it is still open. */
  lemma RestartLosesChild(pool: seq<nat>) returns (run: seq<Step>)
    ensures var s := Run(pool, run);
      && |s.objects| == 2 && s.objects[1].transaction && s.objects[1].started
      && s.objects[0].running == [0, 1] && Entry(0, 1) in s.open
      && After(s, Start(1, NoCallbacks, true)).objects[0].running == [0]
  {
    var s;
    run, s := Prepared(pool);
    StartsWithChild(s, 1, Entry(0, 1));
    run, s := Then(pool, run, s, Start(1, NoCallbacks, true));
    assert s.objects[0].running == [0, 1];
    DatasMember(s.open, 0, 1);
    OneChildRestarted(s, 1);
    SecondOfTwo();
  }

  /** The transaction at 1 has one child, of the query at 0. */
  lemma OneChildRestarted(s: State, x: nat)
    requires Exact(s) && |s.objects| == 2 && s.objects[1].transaction && s.objects[1].started
    requires EntriesOf(s.objects[1].added) == [Entry(0, x)]
    ensures var r := s.objects[0].running;
      After(s, Start(1, NoCallbacks, true)).objects[0].running == Left(r, [x]) + Staying(r, [x], 1)
  {
    OnlyKid(x);
    ExactIsListed(s);
    RestartLeaves(s, 1, NoCallbacks, true, 0);
  }

  lemma OnlyKid(x: nat)
    ensures Datas([Entry(0, x)], 0) == [x]
  {
    DatasAppend([], Entry(0, x), 0);
    assert [] + [Entry(0, x)] == [Entry(0, x)];
  }

  lemma SecondOfTwo()
    ensures Left([0, 1], [1]) + Staying([0, 1], [1], 1) == [0]
  {
    assert [1][..0] == [] && Left([0, 1], [1]) == Without([0, 1], 1);
    WithoutOne(1, 1);
    assert [0, 1][1..] == [1] && Without([0, 1], 1) == [0];
    assert !Stays([0, 1], [1], 0) by {
      assert [0, 1][0] !in [1][..0];
    }
  }

  /** A pending transaction whose child is followed by another execution of the same query. */
  lemma ChildFirst(pool: seq<nat>) returns (run: seq<Step>, s: State)
    ensures s == Run(pool, run) && Exact(s) && |s.objects| == 2
    ensures s.objects[0].running == [0, 2] && s.objects[1].transaction && s.objects[1].started
    ensures EntriesOf(s.objects[1].added) == [Entry(0, 0)]
  {
    run, s := ChildAlone(pool);
    StartsPlain(s, 0);
    run, s := Then(pool, run, s, Start(0, NoCallbacks, true));
  }

  lemma ChildAdded(pool: seq<nat>) returns (run: seq<Step>, s: State)
    ensures s == Run(pool, run) && Exact(s) && |s.objects| == 2 && |s.executions| == 1 && s.open == []
    ensures s.objects[0].running == [] && s.objects[0].added == [] && !s.objects[0].started
    ensures s.objects[1].transaction && !s.objects[1].started && EntriesOf(s.objects[1].added) == [Entry(0, 0)]
  {
    run, s := Made(pool);
    run, s := Then(pool, run, s, AddQuery(1, 0));
  }

  lemma ChildAlone(pool: seq<nat>) returns (run: seq<Step>, s: State)
    ensures s == Run(pool, run) && Exact(s) && |s.objects| == 2 && |s.executions| == 2
    ensures s.objects[0].running == [0] && s.objects[0].added == [] && !s.objects[0].started
    ensures s.objects[1].transaction && s.objects[1].started && EntriesOf(s.objects[1].added) == [Entry(0, 0)]
  {
    run, s := ChildAdded(pool);
    StartsWithChild(s, 1, Entry(0, 0));
    run, s := Then(pool, run, s, Start(1, NoCallbacks, true));
  }

  /** A restart may also change the order: the child at the front stays, but goes to the back. */
  lemma RestartReorders(pool: seq<nat>) returns (run: seq<Step>)
    ensures var s := Run(pool, run);
      && |s.objects| == 2 && s.objects[1].transaction && s.objects[1].started && Datas(s.open, 0) == [0, 2]
      && After(s, Start(1, NoCallbacks, true)).objects[0].running == [2, 0]
  {
    var s;
    run, s := ChildFirst(pool);
    assert s.objects[0].running == Datas(s.open, 0);
    OneChildRestarted(s, 0);
    FirstOfTwo();
  }

  lemma FirstOfTwo()
    ensures Left([0, 2], [0]) + Staying([0, 2], [0], 1) == [2, 0]
  {
    assert [0][..0] == [] && Left([0, 2], [0]) == Without([0, 2], 0);
    WithoutOne(2, 0);
    assert [0, 2][1..] == [2] && Without([0, 2], 0) == [2];
    assert Stays([0, 2], [0], 0) by { assert [0, 2][0] == 0; }
  }
}
