/** What every hand-over of QueryLifecycle keeps: no execution is lost, invented or run twice. */
module LifecyclePlaces {
  import opened Sequences
  import opened QueryLifecycle

  function Count(s: seq<Id>, d: Id): nat { multiset(s)[d] }

  /** How often `d` is past the queue and the worker. */
  function Settled(p: Places, d: Id): nat {
    Count(p.finished, d) + Count(p.holding, d) + Count(p.toDeliver, d) + Count(p.delivered, d)
  }

  function Copies(p: Places, d: Id): nat {
    Count(p.queue, d) + Count(p.hands, d) + Settled(p, d)
  }

  /** Every accepted execution is in one place, plus one extra copy per fallback. */
  ghost predicate Custody(p: Places) {
    forall d :: Copies(p, d) == Count(p.accepted, d) + Count(p.fallbacks, d)
  }

  /** The elements of `ids` whose mark is set. */
  function Chosen(ids: seq<Id>, marks: seq<bool>): seq<Id>
    requires |ids| == |marks|
  {
    if ids == [] then []
    else Chosen(ids[..|ids| - 1], marks[..|marks| - 1]) + (if marks[|marks| - 1] then [ids[|ids| - 1]] else [])
  }

  predicate Balanced(accepted: nat, queue: nat, taken: nat, retired: nat) {
    accepted <= 1 && accepted == queue + taken + retired
  }

  /** Accepted executions leave the queue at most once, taken or retired; the executed ones are
      the taken ones marked as run, in the order they were taken. */
  ghost predicate Ledger(p: Places) {
    && (forall d :: Balanced(Count(p.accepted, d), Count(p.queue, d), Count(p.taken, d), Count(p.retired, d)))
    && (forall d :: d in p.fallbacks ==> d in p.accepted)
    && |p.ran| == |p.taken|
    && p.executed == Chosen(p.taken, p.ran)
  }

  predicate LastTaken(p: Places, d: Id) {
    p.taken != [] && p.taken[|p.taken| - 1] == d && |p.ran| == |p.taken| && !p.ran[|p.ran| - 1]
  }

  /** What a move needs of the thread that makes it. */
  predicate Proper(p: Places, m: Move) {
    match m
    case Admit(d) => d !in p.accepted
    case BeginStatement(d) => LastTaken(p, d)
    case Fallback(d) => d in p.accepted
    case _ => true
  }

  lemma ChosenAppend(ids: seq<Id>, marks: seq<bool>, d: Id, b: bool)
    requires |ids| == |marks|
    ensures Chosen(ids + [d], marks + [b]) == Chosen(ids, marks) + (if b then [d] else [])
  {
    assert (ids + [d])[..|ids|] == ids && (marks + [b])[..|marks|] == marks;
  }

  lemma {:induction false} ChosenAmong(ids: seq<Id>, marks: seq<bool>)
    requires |ids| == |marks|
    ensures multiset(Chosen(ids, marks)) <= multiset(ids)
  {
    if ids != [] {
      ChosenAmong(ids[..|ids| - 1], marks[..|marks| - 1]);
      assert ids == ids[..|ids| - 1] + [ids[|ids| - 1]];
    }
  }

  lemma RemovedOnce(p: Places, x: Id)
    requires Ledger(p) && x in p.queue
    ensures forall d :: Count(p.queue, d) == Count(Without(p.queue, x), d) + if d == x then 1 else 0
  {
    WithoutMultiset(p.queue, x);
    assert Count(p.accepted, x) <= 1 && Count(p.queue, x) >= 1;
    assert Count(p.accepted, x) == Count(p.queue, x) + Count(p.taken, x) + Count(p.retired, x);
  }

  lemma Append(s: seq<Id>, t: seq<Id>, d: Id)
    ensures Count(s + t, d) == Count(s, d) + Count(t, d)
  {
  }

  /** Taking the element at `i` out of `s`. */
  lemma Split(s: seq<Id>, i: nat)
    requires i < |s|
    ensures forall d :: Count(s, d) == Count(s[..i] + s[i + 1..], d) + if d == s[i] then 1 else 0
  {
    assert s == s[..i] + [s[i]] + s[i + 1..];
  }

  lemma SplitFirst(s: seq<Id>)
    requires s != []
    ensures forall d :: Count(s, d) == Count(s[1..], d) + if d == s[0] then 1 else 0
  {
    Split(s, 0);
    assert s[..0] + s[1..] == s[1..];
  }

  lemma FrontKeepsCustody(p: Places, m: Move)
    requires Custody(p) && (m.TakeFront? || m.PutHand?)
    ensures Custody(Moved(p, m))
  {
    if m.TakeFront? {
      if p.queue != [] { TakeKeepsCustody(p); }
    } else if p.hands != [] {
      PutKeepsCustody(p);
    }
  }

  lemma TakeKeepsCustody(p: Places)
    requires Custody(p) && p.queue != []
    ensures Custody(Moved(p, TakeFront))
  {
    SplitFirst(p.queue);
    CustodyFollows(p, Moved(p, TakeFront));
  }

  lemma PutKeepsCustody(p: Places)
    requires Custody(p) && p.hands != []
    ensures Custody(Moved(p, PutHand))
  {
    SplitFirst(p.hands);
    CustodyFollows(p, Moved(p, PutHand));
  }

  lemma HandKeepsCustody(p: Places, i: nat)
    requires Custody(p)
    ensures Custody(Moved(p, Hand(i)))
  {
    if i < |p.toDeliver| {
      var q := Moved(p, Hand(i));
      HandCounts(p, i);
      assert forall d :: Count(q.toDeliver, d) + Count(q.delivered, d) == Count(p.toDeliver, d) + Count(p.delivered, d);
      CustodyFollows(p, q);
    }
  }

  lemma HandCounts(p: Places, i: nat)
    requires i < |p.toDeliver|
    ensures var q := Moved(p, Hand(i));
      forall d :: Count(q.toDeliver, d) + Count(q.delivered, d) == Count(p.toDeliver, d) + Count(p.delivered, d)
  {
    Split(p.toDeliver, i);
    forall d { CountGrows(p.delivered, p.toDeliver[i], d); }
  }

  lemma CountGrows(s: seq<Id>, x: Id, d: Id)
    ensures Count(s + [x], d) == Count(s, d) + if d == x then 1 else 0
  {
  }

  lemma FinishHeldKeepsCustody(p: Places)
    requires Custody(p)
    ensures Custody(Moved(p, FinishHeld))
  {
    if p.holding != [] {
      SplitFirst(p.holding);
      CustodyFollows(p, Moved(p, FinishHeld));
    }
  }

  lemma CustodyFollows(p: Places, q: Places)
    requires Custody(p)
    requires forall d :: Copies(q, d) + Count(p.accepted, d) + Count(p.fallbacks, d)
                         == Copies(p, d) + Count(q.accepted, d) + Count(q.fallbacks, d)
    ensures Custody(q)
  {
  }

  /** The moves that take one execution out of the middle of the queue, or reorder it. */
  lemma RemovalKeepsCustody(p: Places, m: Move)
    requires Custody(p) && Ledger(p) && (m.AbortOne? || m.CompleteQueued? || m.SwapFront?)
    ensures Custody(Moved(p, m))
  {
    if m.SwapFront? {
      SwapKeepsCustody(p, m.d);
    } else if m.d in p.queue {
      RemovedOnce(p, m.d);
      LeavingKeepsCustody(p, Moved(p, m), m.d);
    }
  }

  lemma SwapKeepsCustody(p: Places, d: Id)
    requires Custody(p)
    ensures Custody(Moved(p, SwapFront(d)))
  {
    SwappedToFrontKeeps(p.queue, Is(d));
    CustodyFollows(p, Moved(p, SwapFront(d)));
  }

  /** One execution goes from the queue to the callbacks or to the finished list. */
  lemma LeavingKeepsCustody(p: Places, q: Places, x: Id)
    requires Custody(p) && (q == Moved(p, AbortOne(x)) || q == Moved(p, CompleteQueued(x))) && x in p.queue
    requires forall d :: Count(p.queue, d) == Count(q.queue, d) + if d == x then 1 else 0
    ensures Custody(q)
  {
    assert q == p.(queue := q.queue, toDeliver := p.toDeliver + [x], retired := q.retired)
      || q == p.(queue := q.queue, finished := p.finished + [x], retired := q.retired);
    forall d ensures Copies(q, d) == Copies(p, d) {
      CountGrows(p.toDeliver, x, d);
      CountGrows(p.finished, x, d);
    }
  }

  lemma MoveKeepsCustody(p: Places, m: Move)
    requires Custody(p) && Ledger(p)
    ensures Custody(Moved(p, m))
  {
    if m.TakeFront? || m.PutHand? {
      FrontKeepsCustody(p, m);
    } else if m.FinishHeld? {
      FinishHeldKeepsCustody(p);
    } else if m.Hand? {
      HandKeepsCustody(p, m.i);
    } else if m.AbortOne? || m.CompleteQueued? || m.SwapFront? {
      RemovalKeepsCustody(p, m);
    } else {
      CustodyFollows(p, Moved(p, m));
    }
  }

  lemma WorkerKeepsLedger(p: Places, m: Move)
    requires Ledger(p) && Proper(p, m) && (m.TakeFront? || m.BeginStatement?)
    ensures Ledger(Moved(p, m))
  {
    if m.BeginStatement? {
      assert p.ran[|p.ran| - 1 := true][..|p.ran| - 1] == p.ran[..|p.ran| - 1];
    } else {
      TakeKeepsLedger(p);
    }
  }

  lemma TakeKeepsLedger(p: Places)
    requires Ledger(p)
    ensures Ledger(Moved(p, TakeFront))
  {
    if p.queue != [] {
      SplitFirst(p.queue);
      ChosenAppend(p.taken, p.ran, p.queue[0], false);
    }
  }

  lemma RemovalKeepsLedger(p: Places, q: Places, x: Id)
    requires Ledger(p) && x in p.queue
    requires q == p.(queue := Without(p.queue, x), retired := p.retired + [x], toDeliver := q.toDeliver, finished := q.finished)
    ensures Ledger(q)
  {
    RemovedOnce(p, x);
    forall d ensures Balanced(Count(q.accepted, d), Count(q.queue, d), Count(q.taken, d), Count(q.retired, d)) {
      Append(p.retired, [x], d);
    }
  }

  lemma SwapKeepsLedger(p: Places, x: Id)
    requires Ledger(p)
    ensures Ledger(Moved(p, SwapFront(x)))
  {
    SwappedToFrontKeeps(p.queue, Is(x));
  }

  lemma AdmitKeepsLedger(p: Places, x: Id)
    requires Ledger(p) && x !in p.accepted
    ensures Ledger(Moved(p, Admit(x)))
  {
    assert x !in multiset(p.accepted);
    forall d ensures Count(p.accepted + [x], d) == Count(p.accepted, d) + if d == x then 1 else 0 {}
  }

  lemma MoveKeepsLedger(p: Places, m: Move)
    requires Ledger(p) && Proper(p, m)
    ensures Ledger(Moved(p, m))
  {
    match m {
      case TakeFront => WorkerKeepsLedger(p, m);
      case BeginStatement(_) => WorkerKeepsLedger(p, m);
      case AbortOne(d) => if d in p.queue { RemovalKeepsLedger(p, Moved(p, m), d); }
      case CompleteQueued(d) => if d in p.queue { RemovalKeepsLedger(p, Moved(p, m), d); }
      case SwapFront(d) => SwapKeepsLedger(p, d);
      case Admit(d) => AdmitKeepsLedger(p, d);
      case _ =>
    }
  }

  lemma HandKeepsSettled(p: Places, i: nat, d: Id)
    ensures Settled(Moved(p, Hand(i)), d) == Settled(p, d)
  {
    if i < |p.toDeliver| { Split(p.toDeliver, i); }
  }

  /** What is past the worker stays there. */
  lemma MoveKeepsSettled(p: Places, m: Move, d: Id)
    ensures Settled(Moved(p, m), d) >= Settled(p, d)
  {
    if m.Hand? {
      HandKeepsSettled(p, m.i, d);
    } else if m.FinishHeld? && p.holding != [] {
      SplitFirst(p.holding);
    }
  }
}
