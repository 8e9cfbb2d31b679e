/** What libpq reads back from a connection string, and which setting wins. */
module ConnectionConfigTheorems {
  import opened QueryTypes
  import opened Conninfo
  import opened ConnectionConfigs

  // ---------------------------------------------------------------- printing, then parsing

  /** The settings of a configuration in order, a keyword with an empty value being no setting. */
  function Wanted(v: Settings): seq<Pair> { WantedFirst(v) + v.optionTable + WantedLast(v) }

  function WantedFirst(v: Settings): seq<Pair> {
    [Pair("host", if v.unixSocket == "" then v.host else v.unixSocket)] + [Pair("user", v.username)]
    + [Pair("password", v.password)] + [Pair("dbname", v.database)] + [Pair("port", Number(v.port))]
  }

  function WantedLast(v: Settings): seq<Pair> {
    [Pair("connect_timeout", Number(v.connectTimeout))] + [Pair("sslmode", Mode(v.sslMode))]
    + [Pair("sslkey", v.ssl.key)] + [Pair("sslcert", v.ssl.cert)] + [Pair("sslrootcert", v.ssl.ca)]
  }

  function Number(n: nat): string { if n == 0 then "" else Decimal(n) }

  function Mode(mode: Option<SSLMode>): string { if mode.None? then "" else ModeName(mode.value) }

  function NonEmpty(pairs: seq<Pair>): seq<Pair> {
    if pairs == [] then []
    else NonEmpty(pairs[..|pairs| - 1]) + if pairs[|pairs| - 1].value == "" then [] else [pairs[|pairs| - 1]]
  }

  lemma {:induction false} NonEmptyAppend(a: seq<Pair>, b: seq<Pair>)
    ensures NonEmpty(a + b) == NonEmpty(a) + NonEmpty(b)
  {
    if b == [] {
      assert a + b == a;
    } else {
      assert (a + b)[..|a + b| - 1] == a + b[..|b| - 1];
      NonEmptyAppend(a, b[..|b| - 1]);
    }
  }

  /** Entries that print well and stand for the non-empty pairs among `pairs`. */
  predicate Stands(es: seq<Entry>, pairs: seq<Pair>) { AllPrintable(es) && PairsOf(es) == NonEmpty(pairs) }

  lemma {:induction false} PairsAppend(a: seq<Entry>, b: seq<Entry>)
    ensures PairsOf(a + b) == PairsOf(a) + PairsOf(b)
  {
    if a == [] {
      assert a + b == b;
    } else {
      assert (a + b)[1..] == a[1..] + b;
      PairsAppend(a[1..], b);
    }
  }

  lemma StandsAppend(a: seq<Entry>, p: seq<Pair>, b: seq<Entry>, q: seq<Pair>)
    requires Stands(a, p) && Stands(b, q)
    ensures Stands(a + b, p + q)
  {
    PairsAppend(a, b);
    NonEmptyAppend(p, q);
  }

  lemma OneStands(e: Entry)
    requires Printable(e) && e.text != ""
    ensures Stands([e], [PairOf(e)])
  {
    assert [e][1..] == [] && [PairOf(e)][..0] == [];
  }

  lemma NoneStands(key: string)
    ensures Stands([], [Pair(key, "")])
  {
    assert [Pair(key, "")][..0] == [];
  }

  lemma AddStands(key: string, value: string)
    requires IsSafeKey(key)
    ensures Stands(OneEntry(key, value), [Pair(key, value)])
  {
    if value == "" { NoneStands(key); } else { OneStands(Quoted(key, value)); }
  }

  lemma NumberStands(key: string, n: nat)
    requires IsSafeKey(key)
    ensures Stands(if n == 0 then [] else [Bare(key, Decimal(n))], [Pair(key, Number(n))])
  {
    if n == 0 {
      NoneStands(key);
    } else {
      DecimalReadsBack(n);
      OneStands(Bare(key, Decimal(n)));
    }
  }

  lemma ModeNamePlain(mode: SSLMode)
    ensures IsPlain(ModeName(mode))
  {
  }

  lemma ModeStands(mode: Option<SSLMode>)
    ensures Stands(ModeEntry(mode), [Pair("sslmode", Mode(mode))])
  {
    if mode.None? {
      NoneStands("sslmode");
    } else {
      ModeNamePlain(mode.value);
      OneStands(Bare("sslmode", ModeName(mode.value)));
    }
  }

  lemma {:induction false} TableStands(table: seq<Pair>)
    requires forall i :: 0 <= i < |table| ==> IsSafeKey(table[i].key)
    ensures Stands(TableEntries(table), table)
  {
    if table != [] {
      var rest, last := table[..|table| - 1], table[|table| - 1];
      TableStands(rest);
      AddStands(last.key, last.value);
      StandsAppend(TableEntries(rest), rest, OneEntry(last.key, last.value), [last]);
      assert rest + [last] == table;
    }
  }

  lemma FiveStand(a: seq<Entry>, p: seq<Pair>, b: seq<Entry>, q: seq<Pair>, c: seq<Entry>, r: seq<Pair>,
                  d: seq<Entry>, s: seq<Pair>, e: seq<Entry>, t: seq<Pair>)
    requires Stands(a, p) && Stands(b, q) && Stands(c, r) && Stands(d, s) && Stands(e, t)
    ensures Stands(a + b + c + d + e, p + q + r + s + t)
  {
    StandsAppend(a, p, b, q);
    StandsAppend(a + b, p + q, c, r);
    StandsAppend(a + b + c, p + q + r, d, s);
    StandsAppend(a + b + c + d, p + q + r + s, e, t);
  }

  lemma FirstStands(v: Settings)
    ensures Stands(PositionalEntries(v), WantedFirst(v))
  {
    var host := if v.unixSocket == "" then v.host else v.unixSocket;
    AddStands("host", host);
    AddStands("user", v.username);
    AddStands("password", v.password);
    AddStands("dbname", v.database);
    NumberStands("port", v.port);
    FiveStand(OneEntry("host", host), [Pair("host", host)], OneEntry("user", v.username), [Pair("user", v.username)],
              OneEntry("password", v.password), [Pair("password", v.password)], OneEntry("dbname", v.database), [Pair("dbname", v.database)],
              if v.port == 0 then [] else [Bare("port", Decimal(v.port))], [Pair("port", Number(v.port))]);
  }

  lemma LastStands(v: Settings)
    ensures Stands(DerivedEntries(v), WantedLast(v))
  {
    NumberStands("connect_timeout", v.connectTimeout);
    ModeStands(v.sslMode);
    AddStands("sslkey", v.ssl.key);
    AddStands("sslcert", v.ssl.cert);
    AddStands("sslrootcert", v.ssl.ca);
    FiveStand(TimeoutEntry(v.connectTimeout), [Pair("connect_timeout", Number(v.connectTimeout))],
              ModeEntry(v.sslMode), [Pair("sslmode", Mode(v.sslMode))], OneEntry("sslkey", v.ssl.key), [Pair("sslkey", v.ssl.key)],
              OneEntry("sslcert", v.ssl.cert), [Pair("sslcert", v.ssl.cert)], OneEntry("sslrootcert", v.ssl.ca), [Pair("sslrootcert", v.ssl.ca)]);
  }

  lemma EntriesStand(v: Settings)
    requires forall i :: 0 <= i < |v.optionTable| ==> IsSafeKey(v.optionTable[i].key)
    ensures Stands(Entries(v), Wanted(v))
  {
    FirstStands(v);
    TableStands(v.optionTable);
    LastStands(v);
    StandsAppend(PositionalEntries(v), WantedFirst(v), TableEntries(v.optionTable), v.optionTable);
    StandsAppend(PositionalEntries(v) + TableEntries(v.optionTable), WantedFirst(v) + v.optionTable, DerivedEntries(v), WantedLast(v));
  }

  /** For every configuration that could be built from parts, libpq reads back exactly the settings
      that are not empty, in order and with their values untouched. */
  lemma RoundTrip(v: Settings)
    requires Accepted(v) && v.raw == None
    ensures Parse(Built(v)) == Some(NonEmpty(Wanted(v)))
  {
    assert forall i :: 0 <= i < |v.optionTable| ==> GoodOption(v.optionTable[i]);
    EntriesStand(v);
    ParsedBack(Entries(v));
  }

  // ---------------------------------------------------------------- nothing is cut off

  lemma {:induction false} EscapedNulFree(value: string)
    ensures NulFree(value) ==> NulFree(Escaped(value))
  {
    if value != "" {
      assert value == [value[0]] + value[1..];
      EscapedNulFree(value[1..]);
    }
  }

  lemma {:induction false} ShownNulFree(es: seq<Entry>)
    requires forall i :: 0 <= i < |es| ==> GoodOption(PairOf(es[i]))
    ensures NulFree(AllShown(es))
  {
    if es != [] {
      assert GoodOption(PairOf(es[0]));
      EscapedNulFree(es[0].text);
      ShownNulFree(es[1..]);
    }
  }

  predicate AllGood(pairs: seq<Pair>) { forall i :: 0 <= i < |pairs| ==> GoodOption(pairs[i]) }

  lemma {:induction false} GoodPairsStay(pairs: seq<Pair>)
    requires AllGood(pairs)
    ensures AllGood(NonEmpty(pairs))
  {
    if pairs != [] { GoodPairsStay(pairs[..|pairs| - 1]); }
  }

  lemma {:induction false} PairsAt(es: seq<Entry>, i: nat)
    requires i < |es|
    ensures |PairsOf(es)| == |es| && PairsOf(es)[i] == PairOf(es[i])
  {
    if i > 0 { PairsAt(es[1..], i - 1); } else if |es| > 1 { PairsAt(es[1..], 0); }
  }

  lemma NumberNulFree(n: nat)
    ensures NulFree(Number(n))
  {
    DecimalReadsBack(n);
  }

  lemma FiveGood(p: Pair, q: Pair, r: Pair, s: Pair, t: Pair)
    requires GoodOption(p) && GoodOption(q) && GoodOption(r) && GoodOption(s) && GoodOption(t)
    ensures AllGood([p] + [q] + [r] + [s] + [t])
  {
  }

  lemma WantedFirstGood(v: Settings)
    requires Accepted(v)
    ensures AllGood(WantedFirst(v))
  {
    NumberNulFree(v.port);
    FiveGood(Pair("host", if v.unixSocket == "" then v.host else v.unixSocket), Pair("user", v.username),
             Pair("password", v.password), Pair("dbname", v.database), Pair("port", Number(v.port)));
  }

  lemma ModeNulFree(mode: Option<SSLMode>)
    ensures NulFree(Mode(mode))
  {
  }

  lemma WantedLastGood(v: Settings)
    requires Accepted(v)
    ensures AllGood(WantedLast(v))
  {
    NumberNulFree(v.connectTimeout);
    ModeNulFree(v.sslMode);
    FiveGood(Pair("connect_timeout", Number(v.connectTimeout)), Pair("sslmode", Mode(v.sslMode)),
             Pair("sslkey", v.ssl.key), Pair("sslcert", v.ssl.cert), Pair("sslrootcert", v.ssl.ca));
  }

  /** No connection string contains a NUL, so the C string libpq is given is the whole of it. */
  lemma NothingCutOff(v: Settings)
    requires Accepted(v)
    ensures NulFree(Built(v))
  {
    if v.raw == None {
      WantedFirstGood(v);
      WantedLastGood(v);
      EntriesStand(v);
      GoodPairsStay(Wanted(v));
      var es := Entries(v);
      forall i | 0 <= i < |es| ensures GoodOption(PairOf(es[i])) {
        PairsAt(es, i);
        assert GoodOption(NonEmpty(Wanted(v))[i]);
      }
      ShownNulFree(es);
    }
  }

  // ---------------------------------------------------------------- precedence

  /** The settings libpq ends up with. */
  function EffectiveSettings(v: Settings): map<string, string> { Effective(NonEmpty(Wanted(v))) }

  function TableMap(v: Settings): map<string, string> { Effective(NonEmpty(v.optionTable)) }

  function DerivedMap(v: Settings): map<string, string> { Effective(NonEmpty(WantedLast(v))) }

  /** Derived settings override the option table, which overrides positional settings. */
  lemma Precedence(v: Settings)
    ensures EffectiveSettings(v) == Effective(NonEmpty(WantedFirst(v))) + TableMap(v) + DerivedMap(v)
  {
    EffectiveOfBoth(WantedFirst(v), v.optionTable);
    EffectiveOfBoth(WantedFirst(v) + v.optionTable, WantedLast(v));
  }

  lemma EffectiveOfBoth(a: seq<Pair>, b: seq<Pair>)
    ensures Effective(NonEmpty(a + b)) == Effective(NonEmpty(a)) + Effective(NonEmpty(b))
  {
    NonEmptyAppend(a, b);
    EffectiveAppend(NonEmpty(a), NonEmpty(b));
  }

  /** An option given in the table takes effect exactly when no derived setting has its keyword with
      another value. */
  lemma TableTakesEffectExactly(v: Settings, key: string)
    requires key in TableMap(v)
    ensures key in EffectiveSettings(v)
    ensures EffectiveSettings(v)[key] == TableMap(v)[key] <==> key !in DerivedMap(v) || DerivedMap(v)[key] == TableMap(v)[key]
  {
    Precedence(v);
  }

  function One(p: Pair): map<string, string> { if p.value == "" then map[] else map[p.key := p.value] }

  lemma OneEffective(p: Pair)
    ensures Effective(NonEmpty([p])) == One(p)
  {
    assert [p][..0] == [];
    assert NonEmpty([p]) == if p.value == "" then [] else [p];
  }

  /** What the settings give for one keyword; the empty string is no setting. */
  function Setting(ps: seq<Pair>, key: string): string {
    var m := Effective(NonEmpty(ps)); if key in m then m[key] else ""
  }

  lemma OtherKeeps(ps: seq<Pair>, q: Pair, key: string)
    requires q.key != key
    ensures key in Effective(NonEmpty(ps + [q])) <==> key in Effective(NonEmpty(ps))
    ensures Setting(ps + [q], key) == Setting(ps, key)
  {
    OneEffective(q);
    EffectiveOfBoth(ps, [q]);
  }

  /** The first of five settings survives when the others have other keywords. */
  lemma FirstOfFive(p: Pair, q: Pair, r: Pair, s: Pair, t: Pair)
    requires p.key !in {q.key, r.key, s.key, t.key}
    ensures var m := Effective(NonEmpty([p] + [q] + [r] + [s] + [t]));
      (p.key in m <==> p.value != "") && (p.value != "" ==> m[p.key] == p.value)
  {
    OneEffective(p);
    assert Setting([p], p.key) == p.value;
    OtherKeeps([p], q, p.key);
    OtherKeeps([p] + [q], r, p.key);
    OtherKeeps([p] + [q] + [r], s, p.key);
    OtherKeeps([p] + [q] + [r] + [s], t, p.key);
  }

  lemma DerivedTimeout(v: Settings)
    ensures "connect_timeout" in DerivedMap(v) <==> v.connectTimeout != 0
    ensures v.connectTimeout != 0 ==> DerivedMap(v)["connect_timeout"] == Decimal(v.connectTimeout)
  {
    assert "connect_timeout"[0] == 'c' && "sslmode"[0] == 's' && "sslkey"[0] == 's' && "sslcert"[0] == 's' && "sslrootcert"[0] == 's';
    FirstOfFive(Pair("connect_timeout", Number(v.connectTimeout)), Pair("sslmode", Mode(v.sslMode)),
                Pair("sslkey", v.ssl.key), Pair("sslcert", v.ssl.cert), Pair("sslrootcert", v.ssl.ca));
    DecimalReadsBack(v.connectTimeout);
  }

  lemma DerivedMode(v: Settings)
    requires v.sslMode.Some?
    ensures "sslmode" in DerivedMap(v) && DerivedMap(v)["sslmode"] == ModeName(v.sslMode.value)
  {
    var p, q := Pair("connect_timeout", Number(v.connectTimeout)), Pair("sslmode", Mode(v.sslMode));
    var r, s, t := Pair("sslkey", v.ssl.key), Pair("sslcert", v.ssl.cert), Pair("sslrootcert", v.ssl.ca);
    ModeNotEmpty(v.sslMode.value);
    OneEffective(q);
    EffectiveOfBoth([p], [q]);
    assert Setting([p] + [q], "sslmode") == q.value;
    OtherModes();
    OtherKeeps([p] + [q], r, "sslmode");
    OtherKeeps([p] + [q] + [r], s, "sslmode");
    OtherKeeps([p] + [q] + [r] + [s], t, "sslmode");
  }

  lemma ModeNotEmpty(mode: SSLMode)
    ensures ModeName(mode) != ""
  {
  }

  lemma OtherModes()
    ensures "sslmode" !in {"sslkey", "sslcert", "sslrootcert"}
  {
    assert "sslmode"[3] == 'm' && "sslkey"[3] == 'k' && "sslcert"[3] == 'c' && "sslrootcert"[3] == 'r';
  }

  /** The SSL mode that was set is the one libpq is given, whatever the option table says, under the name that libpq
      documents for it (section 34.1.2 of the PostgreSQL documentation). */
  lemma ModeExactly(v: Settings)
    requires v.sslMode.Some?
    ensures "sslmode" in EffectiveSettings(v) && EffectiveSettings(v)["sslmode"] ==
      match v.sslMode.value
      case Disabled => "disable"
      case Preferred => "prefer"
      case Required => "require"
      case VerifyCa => "verify-ca"
      case VerifyIdentity => "verify-full"
  {
    DerivedMode(v);
    DerivedWins(v, "sslmode");
  }

  /** A timeout in the option table takes effect exactly when the configured one is 0 or happens to
      be the same; the default of 10 seconds overrides it. */
  lemma TableTimeoutTakesEffectExactly(v: Settings)
    requires "connect_timeout" in TableMap(v)
    ensures "connect_timeout" in EffectiveSettings(v)
    ensures EffectiveSettings(v)["connect_timeout"] == TableMap(v)["connect_timeout"] <==>
      v.connectTimeout == 0 || Decimal(v.connectTimeout) == TableMap(v)["connect_timeout"]
  {
    DerivedTimeout(v);
    TableTakesEffectExactly(v, "connect_timeout");
  }

  /** A table that asks for 3 seconds waits for 10. */
  lemma DefaultTimeoutWins() returns (v: Settings)
    ensures v == Defaults.(optionTable := [Pair("connect_timeout", "3")]) && Accepted(v)
    ensures "connect_timeout" in EffectiveSettings(v) && EffectiveSettings(v)["connect_timeout"] == "10"
  {
    v := Defaults.(optionTable := [Pair("connect_timeout", "3")]);
    DerivedTimeout(v);
    DerivedWins(v, "connect_timeout");
    TenRead();
  }

  lemma DerivedWins(v: Settings, key: string)
    requires key in DerivedMap(v)
    ensures key in EffectiveSettings(v) && EffectiveSettings(v)[key] == DerivedMap(v)[key]
  {
    Precedence(v);
  }

  lemma TenRead()
    ensures Decimal(10) == "10"
  {
  }
}
