/** Parameters of a prepared query: setting, snapshot, and the dense vector that is sent
    (pg/src/postgres/PreparedQuery.cpp). */
module PreparedQueries {
  import opened QueryTypes
  import opened Results
  import opened QueryDatas
  import opened Libpq
  import opened LibpqExecutor

  datatype FieldType = NumberField | StringField | BooleanField | NullField

  /** A field is shared by the query and its snapshots, and never changed. */
  class PreparedQueryField {
    const index: nat
    const fieldType: FieldType
    const value: string

    constructor (index: nat, fieldType: FieldType, value: string)
      ensures this.index == index && this.fieldType == fieldType && this.value == value
    {
      this.index, this.fieldType, this.value := index, fieldType, value;
    }
  }

  type ParameterMap = map<nat, PreparedQueryField>

  /** A Lua number as 17-digit text; infinities and NaN have none. */
  datatype Number = Finite(text: string) | NotFinite

  const IndexError := "Index must be greater than 0"
  const NulTextError := "pg: prepared text parameters cannot contain embedded NUL bytes"
  const FiniteError := "pg: prepared numeric parameters must be finite"

  class PreparedQuery {
    const query: string
    var parameters: ParameterMap

    constructor (query: string)
      ensures this.query == query && parameters == map[]
    {
      this.query, parameters := query, map[];
    }

    method ClearParameters()
      modifies this`parameters
      ensures parameters == map[]
    {
      parameters := map[];
    }

    method SetNumber(index: nat, value: Number) returns (r: Result<PreparedQueryField>)
      modifies this`parameters
      ensures r.Ok? <==> index >= 1 && value.Finite?
      ensures r.Err? ==> r.message == (if index < 1 then IndexError else FiniteError) && parameters == old(parameters)
      ensures r.Ok? ==> IsStored(r.value, index, NumberField, value.text) && parameters == old(parameters)[index := r.value]
    {
      if index < 1 { return Err(IndexError); }
      if value.NotFinite? { return Err(FiniteError); }
      var field := Store(index, NumberField, value.text);
      return Ok(field);
    }

    method SetString(index: nat, value: string) returns (r: Result<PreparedQueryField>)
      modifies this`parameters
      ensures r.Ok? <==> index >= 1 && !ContainsNul(value)
      ensures r.Err? ==> r.message == (if index < 1 then IndexError else NulTextError) && parameters == old(parameters)
      ensures r.Ok? ==> IsStored(r.value, index, StringField, value) && parameters == old(parameters)[index := r.value]
    {
      if index < 1 { return Err(IndexError); }
      if ContainsNul(value) { return Err(NulTextError); }
      var field := Store(index, StringField, value);
      return Ok(field);
    }

    method SetBoolean(index: nat, value: bool) returns (r: Result<PreparedQueryField>)
      modifies this`parameters
      ensures r.Ok? <==> index >= 1
      ensures r.Err? ==> r.message == IndexError && parameters == old(parameters)
      ensures r.Ok? ==> IsStored(r.value, index, BooleanField, if value then "true" else "false")
                        && parameters == old(parameters)[index := r.value]
    {
      if index < 1 { return Err(IndexError); }
      var field := Store(index, BooleanField, if value then "true" else "false");
      return Ok(field);
    }

    method SetNull(index: nat) returns (r: Result<PreparedQueryField>)
      modifies this`parameters
      ensures r.Ok? <==> index >= 1
      ensures r.Err? ==> r.message == IndexError && parameters == old(parameters)
      ensures r.Ok? ==> IsStored(r.value, index, NullField, "") && parameters == old(parameters)[index := r.value]
    {
      if index < 1 { return Err(IndexError); }
      var field := Store(index, NullField, "");
      return Ok(field);
    }

    /** A new field object takes the place of the old one. */
    method Store(index: nat, fieldType: FieldType, text: string) returns (field: PreparedQueryField)
      modifies this`parameters
      ensures fresh(field) && IsStored(field, index, fieldType, text)
      ensures parameters == old(parameters)[index := field]
    {
      field := new PreparedQueryField(index, fieldType, text);
      parameters := parameters[index := field];
    }

    /** The map is copied, the fields are not. */
    method SnapshotParameters() returns (snapshot: ParameterMap)
      ensures snapshot == parameters
    {
      snapshot := parameters;
    }

    /** The largest index that is set, or 0. */
    static method MaxParameterIndex(params: ParameterMap) returns (max: nat)
      ensures IsMax(params, max)
    {
      max := 0;
      var left := params.Keys;
      while left != {}
        invariant left <= params.Keys
        invariant max == 0 || max in params
        invariant forall k :: k in params && k !in left ==> k <= max
        decreases left
      {
        var key :| key in left;
        left := left - {key};
        if key > max { max := key; }
      }
    }

    static method DenseParameters(params: ParameterMap) returns (dense: seq<Option<string>>)
      ensures IsDense(params, dense)
    {
      var count := MaxParameterIndex(params);
      dense := [];
      for i := 1 to count + 1
        invariant |dense| == i - 1
        invariant forall k :: 0 < k < i ==> dense[k - 1] == Slot(params, k)
      {
        var parameter: Option<string> := None;
        if i in params && params[i].fieldType != NullField {
          parameter := Some(params[i].value);
        }
        dense := dense + [parameter];
      }
    }

    method ExecuteStatement(conn: Connection, data: QueryData, params: ParameterMap)
      returns (outcome: Outcome, ghost sent: seq<Option<string>>)
      requires conn.state.Ready()
      modifies conn, data`results
      ensures conn.state.Ready() && IsDense(params, sent)
      ensures var e := RunStatement(old(conn.state), Statement(query, sent));
        conn.state == e.conn && outcome == e.outcome && data.results == old(data.results) + e.appended
    {
      var dense := DenseParameters(params);
      sent := dense;
      outcome := ExecuteParams(conn, query, dense, data);
    }
  }

  predicate IsStored(field: PreparedQueryField, index: nat, fieldType: FieldType, text: string) {
    field.index == index && field.fieldType == fieldType && field.value == text
  }

  predicate IsMax(params: ParameterMap, max: nat) {
    (max == 0 || max in params) && forall k :: k in params ==> k <= max
  }

  /** What is sent at index `i`. */
  function Slot(params: ParameterMap, i: nat): Option<string> {
    if i in params && params[i].fieldType != NullField then Some(params[i].value) else None
  }

  ghost predicate IsDense(params: ParameterMap, dense: seq<Option<string>>) {
    IsMax(params, |dense|) && forall i :: 0 < i <= |dense| ==> dense[i - 1] == Slot(params, i)
  }

  /** The vector is determined: its length is the largest index, and it holds text exactly where
      a field that is not null was set. */
  lemma DenseDetermined(params: ParameterMap, a: seq<Option<string>>, b: seq<Option<string>>)
    requires IsDense(params, a) && IsDense(params, b)
    ensures a == b
  {
    assert |a| == |b|;
    forall k | 0 <= k < |a| ensures a[k] == b[k] {
      assert a[k + 1 - 1] == Slot(params, k + 1) == b[k + 1 - 1];
    }
  }

  // ---------------------------------------------------------------- over whole runs

  /** What Lua does to one prepared query. A refused call does nothing. */
  datatype Use = SetField(index: nat, field: PreparedQueryField) | Clear | Start

  /** The query's parameters, and the snapshot each execution was started with. */
  datatype History = History(params: ParameterMap, started: seq<ParameterMap>)

  function Played(uses: seq<Use>): History {
    if uses == [] then History(map[], [])
    else
      var h := Played(uses[..|uses| - 1]);
      match uses[|uses| - 1]
      case SetField(index, field) => h.(params := h.params[index := field])
      case Clear => h.(params := map[])
      case Start => h.(started := h.started + [h.params])
  }

  /** The field last set at `index`, looking back to the last clearing. */
  function LastSet(uses: seq<Use>, index: nat): Option<PreparedQueryField> {
    if uses == [] then None
    else
      match uses[|uses| - 1]
      case SetField(i, field) => if i == index then Some(field) else LastSet(uses[..|uses| - 1], index)
      case Clear => None
      case Start => LastSet(uses[..|uses| - 1], index)
  }

  lemma {:induction false} ParamsAreLastSet(uses: seq<Use>, index: nat)
    ensures var p := Played(uses).params;
      LastSet(uses, index) == if index in p then Some(p[index]) else None
  {
    if uses != [] { ParamsAreLastSet(uses[..|uses| - 1], index); }
  }

  lemma {:induction false} StartedStays(a: seq<Use>, b: seq<Use>)
    ensures Played(a).started <= Played(a + b).started
  {
    if b == [] {
      assert a + b == a;
    } else {
      StartedStays(a, b[..|b| - 1]);
      assert (a + b)[..|a + b| - 1] == a + b[..|b| - 1];
    }
  }

  /** Whatever is set or cleared afterwards, an execution sends what was last set when it was
      started: text where that field was not null, and NULL elsewhere. */
  lemma SentIsWhatWasSet(a: seq<Use>, b: seq<Use>, dense: seq<Option<string>>, i: nat)
    requires var n := |Played(a).started|;
      n < |Played(a + [Start] + b).started| && IsDense(Played(a + [Start] + b).started[n], dense)
    requires 0 < i <= |dense|
    ensures dense[i - 1] ==
      var field := LastSet(a, i); if field.None? || field.value.fieldType == NullField then None else Some(field.value.value)
  {
    StartedStays(a + [Start], b);
    assert (a + [Start])[..|a|] == a;
    assert Played(a + [Start]).started == Played(a).started + [Played(a).params];
    ParamsAreLastSet(a, i);
    var snapshot := Played(a + [Start] + b).started[|Played(a).started|];
    assert snapshot == Played(a + [Start]).started[|Played(a).started|] == Played(a).params;
    assert dense[i - 1] == Slot(snapshot, i);
  }
}
