/** Which execution may be cancelled, and when (pg/src/postgres/ActiveQueryState.cpp). */
module ActiveQueryStates {
  import opened QueryDatas

  /** How PQcancel ends: the request got through, it failed and the flag was withdrawn, or it is still
      under way when the flags are read. */
  datatype Fate = Delivered | Failed | UnderWay

  /** One attempt at cancelling: on the guarded execution or on its published alias, whether
      PQgetCancel gave a handle, and how PQcancel ends with it. */
  datatype Attempt = Attempt(onAlias: bool, handle: bool, fate: Fate)

  /** The flag an attempt leaves on the execution it matches: also an earlier flag is
      withdrawn when the attempt fails. */
  function Flagged(a: Attempt): bool { a.handle && !a.fate.Failed? }

  /** The flag after a run of attempts, starting from `flag`. */
  function FlagAfter(attempts: seq<Attempt>, onAlias: bool, flag: bool): bool
    decreases |attempts|
  {
    if attempts == [] then flag
    else
      var last := attempts[|attempts| - 1];
      if last.onAlias == onAlias then Flagged(last) else FlagAfter(attempts[..|attempts| - 1], onAlias, flag)
  }

  class ActiveQueryState {
    var activeData: QueryData?
    var activeAliases: seq<QueryData>
    var activeConnection: bool

    /** A Guard object is alive. */
    ghost var guarded: bool
    /** The most aliases published at one time so far. */
    ghost var mostAliases: nat

    ghost predicate Valid()
      reads this
    {
      && (guarded <==> activeConnection) && (guarded <==> activeData != null)
      && (!guarded ==> activeAliases == [])
      && |activeAliases| <= mostAliases
    }

    /** `data` is under guard and no alias is published. */
    ghost predicate Open(data: QueryData)
      reads this
    {
      Valid() && guarded && activeData == data && activeAliases == []
    }

    constructor ()
      ensures Valid() && !guarded && mostAliases == 0
    {
      activeData, activeAliases, activeConnection, guarded, mostAliases := null, [], false, false, 0;
    }

    /** The Guard's constructor. */
    method Enter(data: QueryData)
      requires Valid() && !guarded
      modifies this
      ensures Valid() && guarded && activeData == data && activeAliases == [] && mostAliases == old(mostAliases)
    {
      activeData, activeConnection, guarded := data, true, true;
    }

    /** The Guard's destructor. */
    method Leave()
      requires Valid()
      modifies this
      ensures Valid() && !guarded && activeData == null && mostAliases == old(mostAliases)
    {
      activeData, activeAliases, activeConnection, guarded := null, [], false, false;
    }

    /** To be called only when no Guard is alive, since it would withdraw the Guard's data. */
    method Clear()
      requires Valid() && !guarded
      modifies this
      ensures Valid() && !guarded && mostAliases == old(mostAliases)
    {
      activeData, activeAliases, activeConnection := null, [], false;
    }

    method AddAlias(data: QueryData)
      requires Valid()
      modifies this`activeAliases, this`mostAliases
      ensures Valid()
      ensures activeAliases == if guarded then old(activeAliases) + [data] else old(activeAliases)
      ensures mostAliases == if |activeAliases| > old(mostAliases) then |activeAliases| else old(mostAliases)
    {
      if activeConnection {
        activeAliases := activeAliases + [data];
        if |activeAliases| > mostAliases { mostAliases := |activeAliases|; }
      }
    }

    /** `std::remove` and `erase`. */
    method RemoveAlias(data: QueryData)
      requires Valid()
      modifies this`activeAliases
      ensures Valid() && activeAliases == WithoutData(old(activeAliases), data)
    {
      var kept := [];
      for i := 0 to |activeAliases|
        invariant activeAliases == old(activeAliases) && |kept| <= i
        invariant kept == WithoutData(activeAliases[..i], data)
      {
        assert activeAliases[..i + 1][..i] == activeAliases[..i];
        if activeAliases[i] != data { kept := kept + [activeAliases[i]]; }
      }
      assert activeAliases[..|activeAliases|] == activeAliases;
      activeAliases := kept;
    }

    predicate Matches(data: QueryData)
      reads this
    {
      activeConnection && (activeData == data || data in activeAliases)
    }

    /** The part of cancel under the mutex. Only the guarded execution and the published aliases can be
        cancelled; any other execution is left untouched. */
    method BeginCancel(data: QueryData, handle: bool) returns (began: bool)
      requires Valid()
      modifies data`cancellationRequested
      ensures began <==> Matches(data) && handle
      ensures data.cancellationRequested == if Matches(data) then handle else old(data.cancellationRequested)
    {
      var matchesActive := activeData == data || data in activeAliases;
      if !matchesActive || !activeConnection { return false; }
      data.cancellationRequested := true;
      if !handle {
        data.cancellationRequested := false;
        return false;
      }
      return true;
    }

    /** The rest of cancel, after PQcancel and outside the mutex: until then the flag is up. */
    static method EndCancel(data: QueryData, delivered: bool) returns (requested: bool)
      modifies data`cancellationRequested
      ensures requested == delivered
      ensures data.cancellationRequested == (delivered && old(data.cancellationRequested))
    {
      if delivered { return true; }
      data.cancellationRequested := false;
      return false;
    }

    method Cancel(data: QueryData, handle: bool, delivered: bool) returns (requested: bool)
      requires Valid()
      modifies data`cancellationRequested
      ensures requested <==> Matches(data) && handle && delivered
      ensures data.cancellationRequested == if Matches(data) then requested else old(data.cancellationRequested)
    {
      var began := BeginCancel(data, handle);
      if !began { return false; }
      requested := EndCancel(data, delivered);
    }

    /** An attempt as far as it gets. */
    method Try(data: QueryData, a: Attempt)
      requires Valid() && Matches(data)
      modifies data`cancellationRequested
      ensures data.cancellationRequested == Flagged(a)
    {
      if a.fate.UnderWay? {
        var began := BeginCancel(data, a.handle);
      } else {
        var requested := Cancel(data, a.handle, a.fate.Delivered?);
      }
    }

    /** The Lua thread's attempts while a command of the guarded execution runs. */
    method Window(attempts: seq<Attempt>)
      requires Valid() && guarded && |activeAliases| <= 1 && activeData !in activeAliases
      modifies activeData`cancellationRequested, (set d | d in activeAliases)`cancellationRequested
      ensures activeData.cancellationRequested == FlagAfter(attempts, false, old(activeData.cancellationRequested))
      ensures activeAliases != [] ==>
        activeAliases[0].cancellationRequested == FlagAfter(attempts, true, old(activeAliases[0].cancellationRequested))
    {
      for i := 0 to |attempts|
        invariant activeData.cancellationRequested == FlagAfter(attempts[..i], false, old(activeData.cancellationRequested))
        invariant activeAliases != [] ==>
          activeAliases[0].cancellationRequested == FlagAfter(attempts[..i], true, old(activeAliases[0].cancellationRequested))
      {
        assert attempts[..i + 1][..i] == attempts[..i];
        var a := attempts[i];
        if !a.onAlias {
          Try(activeData, a);
        } else if activeAliases != [] {
          Try(activeAliases[0], a);
        }
      }
      assert attempts[..|attempts|] == attempts;
    }
  }

  function WithoutData(s: seq<QueryData>, x: QueryData): seq<QueryData> {
    if s == [] then []
    else WithoutData(s[..|s| - 1], x) + if s[|s| - 1] == x then [] else [s[|s| - 1]]
  }

  /** The attempt at `i` is the last one aimed at this execution. */
  predicate LastOn(attempts: seq<Attempt>, onAlias: bool, i: nat) {
    i < |attempts| && attempts[i].onAlias == onAlias && forall j :: i < j < |attempts| ==> attempts[j].onAlias != onAlias
  }

  /** Starting unflagged, an execution is flagged exactly when the last attempt on it had a handle and has
      not failed: a delivered attempt does not count any more once a later one fails. */
  lemma {:induction false} FlaggedExactly(attempts: seq<Attempt>, onAlias: bool)
    ensures FlagAfter(attempts, onAlias, false) <==> exists i: nat :: LastOn(attempts, onAlias, i) && Flagged(attempts[i])
  {
    if attempts != [] {
      var n := |attempts| - 1;
      if attempts[n].onAlias == onAlias {
        assert LastOn(attempts, onAlias, n);
      } else {
        FlaggedExactly(attempts[..n], onAlias);
        forall i: nat ensures LastOn(attempts, onAlias, i) <==> LastOn(attempts[..n], onAlias, i) {
          if LastOn(attempts, onAlias, i) { assert i != n; }
        }
      }
    }
  }
}
