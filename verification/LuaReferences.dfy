/** The Lua references an execution and a transaction object own, and their creation and release
    (pg/src/lua/LuaIQuery.cpp, LuaTransaction.cpp, LuaObject.cpp). */
module LuaReferences {

  // ---------------------------------------------------------------- the Lua registry

  /** What a reference is to. */
  datatype LuaValue = DatabaseTable | QueryTable | ResultTable | Callback(name: string)

  /** References handed out and not yet given back, and the two counters of LuaObject. `pool` holds
      the numbers Lua would hand out next: any that is not 0 and not live, so a freed number may
      come again. `misused` records that a number was freed that was not live. `values` has what each
      live number refers to. */
  datatype Registry = Registry(live: multiset<nat>, created: nat, freed: nat, top: nat, pool: seq<nat>, misused: bool,
                               values: map<nat, LuaValue>) {
    ghost predicate Valid() {
      && top > 0 && !misused && created == freed + |live|
      && forall r :: live[r] <= (if 0 < r < top then 1 else 0)
    }

    function Next(): nat {
      if pool != [] && pool[0] != 0 && pool[0] !in live then pool[0] else top
    }

    /** LuaReferenceCreate, with the value on top of the stack. */
    function Created(value: LuaValue): Registry {
      var r := Next();
      Registry(live + multiset{r}, created + 1, freed, if r < top then top else r + 1, if pool == [] then [] else pool[1..],
               misused, values[r := value])
    }

    /** LuaReferenceFree. */
    function Freed(ref: nat): Registry {
      Registry(live - multiset{ref}, created, freed + 1, top, pool, misused || ref !in live, values - {ref})
    }

    /** As the callers do it: 0 stands for no reference. */
    function FreedIfSet(ref: nat): Registry { if ref != 0 then Freed(ref) else this }
  }

  lemma CreatedValid(g: Registry, value: LuaValue)
    requires g.Valid()
    ensures g.Created(value).Valid() && g.Next() != 0 && g.live[g.Next()] == 0
    ensures g.Created(value).live == g.live + multiset{g.Next()}
  {
    assert g.live[g.top] == 0;
  }

  lemma FreedValid(g: Registry, ref: nat)
    requires g.Valid() && ref in g.live
    ensures g.Freed(ref).Valid() && g.Freed(ref).live == g.live - multiset{ref}
  {
    assert |g.live - multiset{ref}| == |g.live| - 1;
  }

  class LuaState {
    var registry: Registry

    constructor (pool: seq<nat>)
      ensures registry == Registry(multiset{}, 0, 0, 1, pool, false, map[]) && registry.Valid()
    {
      registry := Registry(multiset{}, 0, 0, 1, pool, false, map[]);
    }

    method LuaReferenceCreate(value: LuaValue) returns (ref: nat)
      modifies this
      ensures ref == old(registry).Next() && registry == old(registry).Created(value)
    {
      ref := registry.Next();
      registry := registry.Created(value);
    }

    method LuaReferenceFree(ref: nat)
      modifies this
      ensures registry == old(registry).Freed(ref)
    {
      registry := registry.Freed(ref);
    }
  }

  // ---------------------------------------------------------------- an execution's references

  datatype Refs = Refs(table: nat, success: nat, error: nat, abort: nat, onData: nat) {
    /** In the order of their release. */
    function All(): seq<nat> { [table] + [success] + [error] + [abort] + [onData] }
  }

  const NoRefs := Refs(0, 0, 0, 0, 0)

  function One(ref: nat): multiset<nat> { if ref == 0 then multiset{} else multiset{ref} }

  /** The references among `refs`, 0 being none. */
  function Held(refs: seq<nat>): multiset<nat> {
    if refs == [] then multiset{} else Held(refs[..|refs| - 1]) + One(refs[|refs| - 1])
  }

  /** The registry after releasing `refs`, one by one. */
  function Released(g: Registry, refs: seq<nat>): Registry {
    if refs == [] then g else Released(g, refs[..|refs| - 1]).FreedIfSet(refs[|refs| - 1])
  }

  /** Which callbacks the query's Lua table has. */
  datatype Present = Present(success: bool, error: bool, abort: bool, onData: bool)

  /** In the order of their creation: the table always, a callback only if it has no reference yet. */
  function Wanted(present: Present, refs: Refs): seq<bool> {
    [true, present.success && refs.success == 0, present.abort && refs.abort == 0,
     present.onData && refs.onData == 0, present.error && refs.error == 0]
  }

  /** What is referenced at each place of that order. */
  function ValueAt(k: nat): LuaValue {
    match k
    case 0 => QueryTable
    case 1 => Callback("onSuccess")
    case 2 => Callback("onAborted")
    case 3 => Callback("onData")
    case _ => Callback("onError")
  }

  function MaybeCreated(g: Registry, wanted: bool, value: LuaValue): Registry { if wanted then g.Created(value) else g }

  function MaybeRef(g: Registry, wanted: bool): nat { if wanted then g.Next() else 0 }

  /** The registry after creating a reference for each that is wanted, one by one. */
  function Grown(g: Registry, wanted: seq<bool>): Registry {
    if wanted == [] then g
    else
      var k := |wanted| - 1;
      MaybeCreated(Grown(g, wanted[..k]), wanted[k], ValueAt(k))
  }

  function RefAt(g: Registry, wanted: seq<bool>, k: nat): nat
    requires k < |wanted|
  {
    MaybeRef(Grown(g, wanted[..k]), wanted[k])
  }

  function Either(before: nat, created: nat): nat { if before != 0 then before else created }

  /** The references after referenceCallbacks; the registry is Grown(g, Wanted(present, refs)). */
  function Referenced(g: Registry, refs: Refs, present: Present): Refs {
    var w := Wanted(present, refs);
    Refs(RefAt(g, w, 0), Either(refs.success, RefAt(g, w, 1)), Either(refs.error, RefAt(g, w, 4)),
         Either(refs.abort, RefAt(g, w, 2)), Either(refs.onData, RefAt(g, w, 3)))
  }

  class LuaCallbackReferences {
    var successReference: nat
    var errorReference: nat
    var abortReference: nat
    var onDataReference: nat
    var tableReference: nat

    function Value(): Refs
      reads this
    {
      Refs(tableReference, successReference, errorReference, abortReference, onDataReference)
    }

    constructor ()
      ensures Value() == NoRefs
    {
      successReference, errorReference, abortReference, onDataReference, tableReference := 0, 0, 0, 0, 0;
    }

    /** getFunctionReference: a reference if the table has a function under the callback's name. */
    static method GetFunctionReference(lua: LuaState, isFunction: bool, name: string) returns (ref: nat)
      modifies lua
      ensures lua.registry == MaybeCreated(old(lua.registry), isFunction, Callback(name))
      ensures ref == MaybeRef(old(lua.registry), isFunction)
    {
      if isFunction { ref := lua.LuaReferenceCreate(Callback(name)); } else { ref := 0; }
    }

    method ReferenceIfMissing(lua: LuaState, ref: nat, isFunction: bool, name: string,
                              ghost g: Registry, ghost w: seq<bool>, ghost k: nat)
      returns (now: nat)
      requires k < |w| && w[k] == (isFunction && ref == 0) && lua.registry == Grown(g, w[..k]) && ValueAt(k) == Callback(name)
      modifies lua
      ensures lua.registry == Grown(g, w[..k + 1]) && now == Either(ref, RefAt(g, w, k))
    {
      assert w[..k + 1][..k] == w[..k];
      now := ref;
      if ref == 0 { now := GetFunctionReference(lua, isFunction, name); }
    }

    method ReferenceCallbacks(lua: LuaState, present: Present)
      modifies this, lua
      ensures lua.registry == Grown(old(lua.registry), Wanted(present, old(Value())))
      ensures Value() == Referenced(old(lua.registry), old(Value()), present)
    {
      ghost var g, w := lua.registry, Wanted(present, Value());
      tableReference := lua.LuaReferenceCreate(QueryTable);
      FirstCreated(g, w);
      successReference := ReferenceIfMissing(lua, successReference, present.success, "onSuccess", g, w, 1);
      abortReference := ReferenceIfMissing(lua, abortReference, present.abort, "onAborted", g, w, 2);
      onDataReference := ReferenceIfMissing(lua, onDataReference, present.onData, "onData", g, w, 3);
      errorReference := ReferenceIfMissing(lua, errorReference, present.error, "onError", g, w, 4);
      assert w[..5] == w;
    }

    method FreeIfSet(lua: LuaState, ref: nat, ghost g: Registry, ghost done: seq<nat>)
      requires lua.registry == Released(g, done)
      modifies lua
      ensures lua.registry == Released(g, done + [ref])
    {
      assert (done + [ref])[..|done|] == done;
      if ref != 0 { lua.LuaReferenceFree(ref); }
    }

    /** The part of finishLuaQueryData that releases an execution's references. */
    method Release(lua: LuaState)
      modifies this, lua
      ensures lua.registry == Released(old(lua.registry), old(Value().All())) && Value() == NoRefs
    {
      ghost var g := lua.registry;
      FreeIfSet(lua, tableReference, g, []);
      assert [] + [tableReference] == [tableReference];
      FreeIfSet(lua, successReference, g, [tableReference]);
      FreeIfSet(lua, errorReference, g, [tableReference] + [successReference]);
      FreeIfSet(lua, abortReference, g, [tableReference] + [successReference] + [errorReference]);
      FreeIfSet(lua, onDataReference, g, [tableReference] + [successReference] + [errorReference] + [abortReference]);
      tableReference, successReference, errorReference, abortReference, onDataReference := 0, 0, 0, 0, 0;
    }
  }

  lemma ReleasedNext(g: Registry, refs: seq<nat>, i: nat)
    requires i < |refs|
    ensures Released(g, refs[..i + 1]) == Released(g, refs[..i]).FreedIfSet(refs[i])
  {
    assert refs[..i + 1][..i] == refs[..i];
  }

  lemma FirstCreated(g: Registry, w: seq<bool>)
    requires w != [] && w[0]
    ensures Grown(g, w[..1]) == g.Created(QueryTable) && RefAt(g, w, 0) == g.Next()
  {
    assert w[..1][..0] == [] && w[..0] == [];
  }

  // ---------------------------------------------------------------- a transaction's added queries

  /** An added query: the reference to its table, the query, and the data built for it. */
  datatype Added = Added(ref: nat, query: nat, data: nat)

  function RefsOf(added: seq<Added>): (refs: seq<nat>)
    ensures |refs| == |added| && forall i :: 0 <= i < |added| ==> refs[i] == added[i].ref
  {
    seq(|added|, i requires 0 <= i < |added| => added[i].ref)
  }

  class LuaTransaction {
    var addedQueries: seq<Added>

    constructor ()
      ensures addedQueries == []
    {
      addedQueries := [];
    }

    method AddQuery(lua: LuaState, query: nat, data: nat)
      modifies this, lua
      ensures lua.registry == old(lua.registry).Created(QueryTable)
      ensures addedQueries == old(addedQueries) + [Added(old(lua.registry).Next(), query, data)]
    {
      var ref := lua.LuaReferenceCreate(QueryTable);
      addedQueries := addedQueries + [Added(ref, query, data)];
    }

    method ClearAddedQueries(lua: LuaState)
      modifies this, lua
      ensures lua.registry == Released(old(lua.registry), RefsOf(old(addedQueries))) && addedQueries == []
    {
      ghost var refs := RefsOf(addedQueries);
      for i := 0 to |addedQueries|
        invariant |addedQueries| == |old(addedQueries)|
        invariant lua.registry == Released(old(lua.registry), refs[..i])
        invariant forall k :: i <= k < |addedQueries| ==> addedQueries[k] == old(addedQueries)[k]
      {
        ReleasedNext(old(lua.registry), refs, i);
        assert refs[i] == addedQueries[i].ref;
        if addedQueries[i].ref != 0 {
          lua.LuaReferenceFree(addedQueries[i].ref);
          addedQueries := addedQueries[i := addedQueries[i].(ref := 0)];
        }
      }
      assert refs[..|addedQueries|] == refs;
      addedQueries := [];
    }
  }

  // ---------------------------------------------------------------- nothing leaks, nothing is freed twice

  lemma FreedIfSetHeld(g: Registry, ref: nat)
    requires g.Valid() && One(ref) <= g.live
    ensures g.FreedIfSet(ref).Valid() && g.FreedIfSet(ref).live == g.live - One(ref)
  {
    if ref != 0 { FreedValid(g, ref); }
  }

  /** Releasing gives back exactly what was held, each reference once. */
  lemma {:induction false} ReleasedExactly(g: Registry, refs: seq<nat>)
    requires g.Valid() && Held(refs) <= g.live
    ensures Released(g, refs).Valid() && Released(g, refs).live == g.live - Held(refs)
    ensures Released(g, refs).created == g.created
  {
    if refs != [] {
      var n := |refs| - 1;
      assert Held(refs[..n]) <= Held(refs);
      ReleasedExactly(g, refs[..n]);
      FreedIfSetHeld(Released(g, refs[..n]), refs[n]);
    }
  }

  lemma MaybeCreatedHeld(g: Registry, wanted: bool, value: LuaValue)
    requires g.Valid()
    ensures MaybeCreated(g, wanted, value).Valid()
    ensures MaybeCreated(g, wanted, value).live == g.live + One(MaybeRef(g, wanted))
  {
    if wanted { CreatedValid(g, value); }
  }

  function NewRefs(g: Registry, wanted: seq<bool>): (refs: seq<nat>)
    ensures |refs| == |wanted|
  {
    if wanted == [] then []
    else NewRefs(g, wanted[..|wanted| - 1]) + [MaybeRef(Grown(g, wanted[..|wanted| - 1]), wanted[|wanted| - 1])]
  }

  lemma {:induction false} GrownExactly(g: Registry, wanted: seq<bool>)
    requires g.Valid()
    ensures Grown(g, wanted).Valid() && Grown(g, wanted).freed == g.freed
    ensures Grown(g, wanted).live == g.live + Held(NewRefs(g, wanted))
  {
    if wanted != [] {
      var n := |wanted| - 1;
      GrownExactly(g, wanted[..n]);
      MaybeCreatedHeld(Grown(g, wanted[..n]), wanted[n], ValueAt(n));
      assert NewRefs(g, wanted)[..n] == NewRefs(g, wanted[..n]);
    }
  }

  lemma {:induction false} NewRefsAt(g: Registry, wanted: seq<bool>, k: nat)
    requires k < |wanted|
    ensures NewRefs(g, wanted)[k] == RefAt(g, wanted, k)
  {
    var n := |wanted| - 1;
    if k < n {
      NewRefsAt(g, wanted[..n], k);
      assert wanted[..n][..k] == wanted[..k];
    }
  }

  lemma HeldOfFive(a: nat, b: nat, c: nat, d: nat, e: nat)
    ensures Held([a] + [b] + [c] + [d] + [e]) == One(a) + One(b) + One(c) + One(d) + One(e)
  {
    HeldGrows([], a);
    assert [] + [a] == [a];
    HeldGrows([a], b);
    HeldGrows([a] + [b], c);
    HeldGrows([a] + [b] + [c], d);
    HeldGrows([a] + [b] + [c] + [d], e);
  }

  lemma HeldGrows(refs: seq<nat>, ref: nat)
    ensures Held(refs + [ref]) == Held(refs) + One(ref)
  {
    assert (refs + [ref])[..|refs|] == refs;
  }

  /** Referencing the callbacks of a new execution creates exactly what it then holds. */
  lemma ReferencedExactly(g: Registry, present: Present)
    requires g.Valid()
    ensures var w := Wanted(present, NoRefs);
      && Grown(g, w).Valid() && Grown(g, w).freed == g.freed
      && Grown(g, w).live == g.live + Held(Referenced(g, NoRefs, present).All())
  {
    GrownExactly(g, Wanted(present, NoRefs));
    NewRefsAreThose(g, Wanted(present, NoRefs), Referenced(g, NoRefs, present));
  }

  lemma NewRefsAreThose(g: Registry, w: seq<bool>, r: Refs)
    requires |w| == 5
    requires r == Refs(RefAt(g, w, 0), RefAt(g, w, 1), RefAt(g, w, 4), RefAt(g, w, 2), RefAt(g, w, 3))
    ensures Held(NewRefs(g, w)) == Held(r.All())
  {
    NewRefsAt(g, w, 0);
    NewRefsAt(g, w, 1);
    NewRefsAt(g, w, 2);
    NewRefsAt(g, w, 3);
    NewRefsAt(g, w, 4);
    assert NewRefs(g, w) == [r.table] + [r.success] + [r.abort] + [r.onData] + [r.error];
    HeldInAnyOrder(r.table, r.success, r.error, r.abort, r.onData);
  }

  lemma HeldInAnyOrder(a: nat, b: nat, c: nat, d: nat, e: nat)
    ensures Held([a] + [b] + [d] + [e] + [c]) == Held([a] + [b] + [c] + [d] + [e])
  {
    HeldOfFive(a, b, c, d, e);
    HeldOfFive(a, b, d, e, c);
  }

  predicate RefersTo(g: Registry, ref: nat, value: LuaValue) { ref in g.live && ref in g.values && g.values[ref] == value }

  lemma GrownStep(g: Registry, w: seq<bool>, n: nat)
    requires 0 < n <= |w|
    ensures Grown(g, w[..n]) == MaybeCreated(Grown(g, w[..n - 1]), w[n - 1], ValueAt(n - 1))
  {
    assert w[..n][..n - 1] == w[..n - 1];
  }

  lemma CreatedKeeps(g: Registry, wanted: bool, made: LuaValue, ref: nat, value: LuaValue)
    requires g.Valid() && RefersTo(g, ref, value)
    ensures RefersTo(MaybeCreated(g, wanted, made), ref, value)
  {
    CreatedValid(g, made);
  }

  /** What is live stays so, and refers to the same, while more is created. */
  lemma {:induction false} GrownKeeps(g: Registry, w: seq<bool>, m: nat, n: nat, ref: nat, value: LuaValue)
    requires g.Valid() && m <= n <= |w| && RefersTo(Grown(g, w[..m]), ref, value)
    ensures RefersTo(Grown(g, w[..n]), ref, value)
    decreases n
  {
    if m < n {
      GrownKeeps(g, w, m, n - 1, ref, value);
      GrownExactly(g, w[..n - 1]);
      GrownStep(g, w, n);
      CreatedKeeps(Grown(g, w[..n - 1]), w[n - 1], ValueAt(n - 1), ref, value);
    }
  }

  /** `ref` is a reference exactly when `wanted`, and then to `value`. */
  predicate Keeps(g: Registry, ref: nat, wanted: bool, value: LuaValue) {
    if wanted then ref != 0 && RefersTo(g, ref, value) else ref == 0
  }

  lemma KeepsAt(g: Registry, w: seq<bool>, k: nat)
    requires g.Valid() && k < |w|
    ensures Keeps(Grown(g, w), RefAt(g, w, k), w[k], ValueAt(k))
  {
    GrownExactly(g, w[..k]);
    CreatedValid(Grown(g, w[..k]), ValueAt(k));
    assert w[..|w|] == w;
    if w[k] {
      GrownStep(g, w, k + 1);
      GrownKeeps(g, w, k + 1, |w|, RefAt(g, w, k), ValueAt(k));
    }
  }

  /** A new execution references its query's table, and each callback the table has, and only those, under the field that is
      read when the callback is due. */
  lemma OwnCallbacks(g: Registry, present: Present)
    requires g.Valid()
    ensures var r, h := Referenced(g, NoRefs, present), Grown(g, Wanted(present, NoRefs));
      && Keeps(h, r.table, true, QueryTable)
      && Keeps(h, r.success, present.success, Callback("onSuccess")) && Keeps(h, r.error, present.error, Callback("onError"))
      && Keeps(h, r.abort, present.abort, Callback("onAborted")) && Keeps(h, r.onData, present.onData, Callback("onData"))
  {
    var w := Wanted(present, NoRefs);
    KeepsAt(g, w, 0);
    KeepsAt(g, w, 1);
    KeepsAt(g, w, 2);
    KeepsAt(g, w, 3);
    KeepsAt(g, w, 4);
  }

  /** A callback that has a reference already keeps it. */
  lemma KeptCallbacks(g: Registry, refs: Refs, present: Present)
    ensures var r := Referenced(g, refs, present);
      && (refs.success != 0 ==> r.success == refs.success) && (refs.error != 0 ==> r.error == refs.error)
      && (refs.abort != 0 ==> r.abort == refs.abort) && (refs.onData != 0 ==> r.onData == refs.onData)
  {
  }

  /** Closing frees exactly what referencing created; closing again frees nothing. */
  lemma CloseUndoesReference(g: Registry, present: Present)
    requires g.Valid()
    ensures var grown := Grown(g, Wanted(present, NoRefs));
      var closed := Released(grown, Referenced(g, NoRefs, present).All());
      && closed.Valid() && closed.live == g.live
      && closed.freed - g.freed == grown.created - g.created
      && Released(closed, NoRefs.All()) == closed
  {
    ReferencedExactly(g, present);
    var grown, refs := Grown(g, Wanted(present, NoRefs)), Referenced(g, NoRefs, present).All();
    ReleaseUndoes(grown, g.live, refs);
    var closed := Released(grown, refs);
    CountersAgree(g, grown, closed);
    NoneReleased(closed);
  }

  lemma NoneReleased(g: Registry)
    ensures Released(g, NoRefs.All()) == g
  {
    NothingReleased(g, NoRefs.All());
  }

  lemma CountersAgree(g: Registry, grown: Registry, closed: Registry)
    requires g.Valid() && grown.Valid() && closed.Valid()
    requires closed.live == g.live && closed.created == grown.created
    ensures closed.freed - g.freed == grown.created - g.created
  {
  }

  lemma ReleaseUndoes(grown: Registry, live: multiset<nat>, refs: seq<nat>)
    requires grown.Valid() && grown.live == live + Held(refs)
    ensures var closed := Released(grown, refs); closed.Valid() && closed.live == live && closed.created == grown.created
  {
    TakenBack(live, Held(refs));
    ReleasedExactly(grown, refs);
  }

  lemma TakenBack(a: multiset<nat>, b: multiset<nat>)
    ensures b <= a + b && (a + b) - b == a
  {
  }

  lemma {:induction false} NothingReleased(g: Registry, refs: seq<nat>)
    requires forall i :: 0 <= i < |refs| ==> refs[i] == 0
    ensures Released(g, refs) == g && Held(refs) == multiset{}
  {
    if refs != [] { NothingReleased(g, refs[..|refs| - 1]); }
  }
}
