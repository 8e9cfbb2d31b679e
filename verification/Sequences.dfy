/** Facts about sequences used by the queue, the worker and the lifecycle model. */
module Sequences {

  /** The elements of `s` that satisfy `keep`, in their order. */
  function Filter<T>(s: seq<T>, keep: T -> bool): seq<T> {
    if s == [] then []
    else (if keep(s[0]) then [s[0]] else []) + Filter(s[1..], keep)
  }

  function Not<T>(p: T -> bool): T -> bool {
    x => !p(x)
  }

  /** `s` with every occurrence of `x` taken out. */
  function Without<T(==)>(s: seq<T>, x: T): seq<T> {
    if s == [] then []
    else (if s[0] == x then [] else [s[0]]) + Without(s[1..], x)
  }

  /** The position of the first element satisfying `want`, or `|s|`. */
  function FirstIndex<T>(s: seq<T>, want: T -> bool): (i: nat)
    ensures i <= |s|
    ensures i < |s| ==> want(s[i])
    ensures forall k :: 0 <= k < i ==> !want(s[k])
  {
    if s == [] || want(s[0]) then 0 else 1 + FirstIndex(s[1..], want)
  }

  function Swap<T>(s: seq<T>, i: nat, j: nat): seq<T>
    requires i < |s| && j < |s|
  {
    s[i := s[j]][j := s[i]]
  }

  /** What swapping the first match to the front makes of a queue. */
  function SwappedToFront<T>(s: seq<T>, want: T -> bool): seq<T> {
    var i := FirstIndex(s, want);
    if 0 < i < |s| then Swap(s, 0, i) else s
  }

  lemma {:induction false} FilterAppend<T>(s: seq<T>, t: seq<T>, keep: T -> bool)
    ensures Filter(s + t, keep) == Filter(s, keep) + Filter(t, keep)
  {
    if s == [] {
      assert s + t == t;
    } else {
      assert (s + t)[1..] == s[1..] + t;
      FilterAppend(s[1..], t, keep);
      AppendAssociates(if keep(s[0]) then [s[0]] else [], Filter(s[1..], keep), Filter(t, keep));
    }
  }

  lemma AppendAssociates<T>(a: seq<T>, b: seq<T>, c: seq<T>)
    ensures a + b + c == a + (b + c)
  {
  }

  /** Filtering keeps exactly the matching elements, as often as they occurred. */
  lemma {:induction false} FilterMember<T>(s: seq<T>, keep: T -> bool, i: nat)
    requires i < |Filter(s, keep)|
    ensures Filter(s, keep)[i] in s && keep(Filter(s, keep)[i])
  {
    var n := if keep(s[0]) then 1 else 0;
    if i >= n { FilterMember(s[1..], keep, i - n); }
  }

  lemma {:induction false} FilterMultiplicity<T(!new)>(s: seq<T>, keep: T -> bool)
    ensures forall x :: multiset(Filter(s, keep))[x] == if keep(x) then multiset(s)[x] else 0
  {
    if s != [] {
      FilterMultiplicity(s[1..], keep);
      assert s == [s[0]] + s[1..];
    }
  }

  /** The result of filtering has full length exactly when nothing was dropped. */
  lemma {:induction false} FilterLength<T>(s: seq<T>, keep: T -> bool)
    ensures |Filter(s, keep)| <= |s|
    ensures |Filter(s, keep)| == |s| <==> forall i :: 0 <= i < |s| ==> keep(s[i])
  {
    if s != [] {
      FilterLength(s[1..], keep);
      assert forall i :: 0 < i < |s| ==> s[i] == s[1..][i - 1];
    }
  }

  lemma {:induction false} WithoutMultiset<T(!new)>(s: seq<T>, x: T)
    ensures multiset(Without(s, x)) == multiset(s)[x := 0]
    ensures x !in Without(s, x)
    ensures forall y :: y in Without(s, x) <==> y in s && y != x
  {
    if s != [] {
      WithoutMultiset(s[1..], x);
      assert s == [s[0]] + s[1..];
      assert multiset(s) == multiset{s[0]} + multiset(s[1..]);
      assert multiset(Without(s, x)) == multiset(if s[0] == x then [] else [s[0]]) + multiset(Without(s[1..], x));
    }
    forall y ensures y in Without(s, x) <==> y in s && y != x {
      assert y in Without(s, x) <==> y in multiset(Without(s, x));
      assert y in s <==> y in multiset(s);
    }
  }

  lemma WithoutMember<T(!new)>(s: seq<T>, x: T, y: T)
    ensures y in Without(s, x) <==> y in s && y != x
  {
    WithoutMultiset(s, x);
  }

  lemma {:induction false} WithoutAppend<T>(s: seq<T>, t: seq<T>, x: T)
    ensures Without(s + t, x) == Without(s, x) + Without(t, x)
  {
    if s == [] {
      assert s + t == t;
    } else {
      assert (s + t)[1..] == s[1..] + t;
      WithoutAppend(s[1..], t, x);
    }
  }

  lemma {:induction false} WithoutAbsent<T>(s: seq<T>, x: T)
    ensures Without(s, x) == s <==> x !in s
  {
    if s != [] {
      WithoutAbsent(s[1..], x);
      assert x in s <==> s[0] == x || x in s[1..];
      if s[0] == x { WithoutShrinks(s[1..], x); }
    }
  }

  lemma {:induction false} WithoutShrinks<T>(s: seq<T>, x: T)
    ensures |Without(s, x)| <= |s|
  {
    if s != [] { WithoutShrinks(s[1..], x); }
  }

  lemma SwapKeepsMultiset<T>(s: seq<T>, i: nat, j: nat)
    requires i < |s| && j < |s|
    ensures multiset(Swap(s, i, j)) == multiset(s)
  {
  }

  /** Swapping to the front keeps every element, and moves only the front and the first match. */
  lemma SwappedToFrontKeeps<T>(s: seq<T>, want: T -> bool)
    ensures multiset(SwappedToFront(s, want)) == multiset(s)
    ensures |SwappedToFront(s, want)| == |s|
    ensures forall k :: 0 < k < |s| && k != FirstIndex(s, want) ==> SwappedToFront(s, want)[k] == s[k]
    ensures s != [] && FirstIndex(s, want) < |s| ==>
      want(SwappedToFront(s, want)[0]) && SwappedToFront(s, want)[FirstIndex(s, want)] == s[0]
  {
    var i := FirstIndex(s, want);
    if 0 < i < |s| { SwapKeepsMultiset(s, 0, i); }
  }
}
