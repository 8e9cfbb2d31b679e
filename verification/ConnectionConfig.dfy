/** Durable connection options and the connection string built from them
    (pg/src/postgres/ConnectionConfig.cpp). */
module ConnectionConfigs {
  import opened QueryTypes
  import opened Results
  import opened Sequences
  import opened Conninfo

  datatype SSLMode = Disabled | Preferred | Required | VerifyCa | VerifyIdentity

  datatype SSLSettings = SSLSettings(key: string, cert: string, ca: string, capath: string, cipher: string)

  const NoSSL := SSLSettings("", "", "", "", "")

  /** The fields of a configuration, as a value. */
  datatype Settings = Settings(
    database: string, host: string, username: string, password: string, unixSocket: string, port: nat,
    raw: Option<string>, optionTable: seq<Pair>, sslMode: Option<SSLMode>, ssl: SSLSettings, connectTimeout: nat)

  predicate NulFree(s: string) { '\0' !in s }

  predicate GoodOption(p: Pair) { IsSafeKey(p.key) && NulFree(p.value) }

  /** What every configuration that could be built satisfies. */
  predicate Accepted(v: Settings) {
    && (v.raw.Some? ==> NulFree(v.raw.value))
    && NulFree(v.host) && NulFree(v.username) && NulFree(v.password) && NulFree(v.database) && NulFree(v.unixSocket)
    && (forall i :: 0 <= i < |v.optionTable| ==> GoodOption(v.optionTable[i]))
    && NulFree(v.ssl.key) && NulFree(v.ssl.cert) && NulFree(v.ssl.ca)
  }

  const Defaults := Settings("", "", "", "", "", 0, None, [], None, NoSSL, 10)

  const ParameterError := "pg: connection parameters cannot contain embedded NUL bytes"
  const StringError := "pg: connection string cannot contain embedded NUL bytes"
  const KeyError := "pg: invalid libpq option key in connection option table"
  const ValueError := "pg: libpq option values cannot contain embedded NUL bytes"
  const EquivalentError := "pg: capath and cipher SSL settings do not have exact libpq equivalents"
  const SSLError := "pg: SSL settings cannot contain embedded NUL bytes"

  function RawError(optionName: string): string {
    "pg: " + optionName + "() cannot modify a raw connection string; put the option in the connection string"
  }

  /** The position of the first option that is refused, or the number of options. */
  function FirstBad(options: seq<Pair>): (i: nat)
    ensures i <= |options| && forall k :: 0 <= k < i ==> GoodOption(options[k])
    ensures i < |options| ==> !GoodOption(options[i])
  {
    if options == [] || !GoodOption(options[0]) then 0 else 1 + FirstBad(options[1..])
  }

  // ---------------------------------------------------------------- what is printed

  function ModeName(mode: SSLMode): string {
    match mode
    case Disabled => "disable"
    case Preferred => "prefer"
    case Required => "require"
    case VerifyCa => "verify-ca"
    case VerifyIdentity => "verify-full"
  }

  function OneEntry(key: string, value: string): seq<Entry> {
    if value == "" then [] else [Quoted(key, value)]
  }

  /** The entries of an option table: empty values are left out. */
  function TableEntries(table: seq<Pair>): seq<Entry> {
    if table == [] then []
    else TableEntries(table[..|table| - 1]) + OneEntry(table[|table| - 1].key, table[|table| - 1].value)
  }

  function PositionalEntries(v: Settings): seq<Entry> {
    OneEntry("host", if v.unixSocket == "" then v.host else v.unixSocket) + OneEntry("user", v.username)
    + OneEntry("password", v.password) + OneEntry("dbname", v.database)
    + if v.port != 0 then [Bare("port", Decimal(v.port))] else []
  }

  function TimeoutEntry(timeout: nat): seq<Entry> {
    if timeout > 0 then [Bare("connect_timeout", Decimal(timeout))] else []
  }

  function ModeEntry(mode: Option<SSLMode>): seq<Entry> {
    if mode.Some? then [Bare("sslmode", ModeName(mode.value))] else []
  }

  function DerivedEntries(v: Settings): seq<Entry> {
    TimeoutEntry(v.connectTimeout) + ModeEntry(v.sslMode)
    + OneEntry("sslkey", v.ssl.key) + OneEntry("sslcert", v.ssl.cert) + OneEntry("sslrootcert", v.ssl.ca)
  }

  /** Positional settings, then the option table, then derived settings. */
  function Entries(v: Settings): seq<Entry> {
    PositionalEntries(v) + TableEntries(v.optionTable) + DerivedEntries(v)
  }

  function Built(v: Settings): string { if v.raw.Some? then v.raw.value else AllShown(Entries(v)) }

  // ---------------------------------------------------------------- the class

  class ConnectionConfig {
    var database: string
    var host: string
    var username: string
    var password: string
    var unixSocket: string
    var port: nat
    var rawConnectionString: Option<string>
    var optionTable: seq<Pair>
    var sslMode: Option<SSLMode>
    var sslSettings: SSLSettings
    var connectTimeout: nat

    function Value(): Settings
      reads this
    {
      Settings(database, host, username, password, unixSocket, port, rawConnectionString, optionTable,
               sslMode, sslSettings, connectTimeout)
    }

    constructor ()
      ensures Value() == Defaults && Accepted(Value())
    {
      database, host, username, password, unixSocket, port := "", "", "", "", "", 0;
      rawConnectionString, optionTable, sslMode, sslSettings, connectTimeout := None, [], None, NoSSL, 10;
    }

    static method Positional(host: string, username: string, password: string, database: string, port: nat, unixSocket: string)
      returns (r: Result<ConnectionConfig>)
      ensures r.Ok? <==> NulFree(host) && NulFree(username) && NulFree(password) && NulFree(database) && NulFree(unixSocket)
      ensures r.Err? ==> r.message == ParameterError
      ensures r.Ok? ==> fresh(r.value) && Accepted(r.value.Value())
      ensures r.Ok? ==> r.value.Value() == Defaults.(host := host, username := username, password := password,
                                                      database := database, port := port, unixSocket := unixSocket)
    {
      if !NulFree(host) || !NulFree(username) || !NulFree(password) || !NulFree(database) || !NulFree(unixSocket) {
        return Err(ParameterError);
      }
      var config := new ConnectionConfig();
      config.host, config.username, config.password := host, username, password;
      config.database, config.port, config.unixSocket := database, port, unixSocket;
      return Ok(config);
    }

    static method RawString(connectionString: string) returns (r: Result<ConnectionConfig>)
      ensures r.Ok? <==> NulFree(connectionString)
      ensures r.Err? ==> r.message == StringError
      ensures r.Ok? ==> fresh(r.value) && Accepted(r.value.Value())
      ensures r.Ok? ==> r.value.Value() == Defaults.(raw := Some(connectionString))
    {
      if !NulFree(connectionString) { return Err(StringError); }
      var config := new ConnectionConfig();
      config.rawConnectionString := Some(connectionString);
      return Ok(config);
    }

    /** The first refused option decides the message. */
    static method Options(options: seq<Pair>) returns (r: Result<ConnectionConfig>)
      ensures r.Ok? <==> FirstBad(options) == |options|
      ensures r.Err? ==> r.message == if IsSafeKey(options[FirstBad(options)].key) then ValueError else KeyError
      ensures r.Ok? ==> fresh(r.value) && Accepted(r.value.Value())
      ensures r.Ok? ==> r.value.Value() == Defaults.(optionTable := options)
    {
      var config := new ConnectionConfig();
      for i := 0 to |options|
        invariant config.Value() == Defaults
        invariant forall k :: 0 <= k < i ==> GoodOption(options[k])
      {
        assert GoodOption(options[i]) || i == FirstBad(options);
        var safe := IsSafeOptionKey(options[i].key);
        if !safe { return Err(KeyError); }
        if !NulFree(options[i].value) { return Err(ValueError); }
      }
      config.optionTable := options;
      return Ok(config);
    }

    static method IsSafeOptionKey(key: string) returns (safe: bool)
      ensures safe <==> IsSafeKey(key)
    {
      if key == "" { return false; }
      for i := 0 to |key|
        invariant forall k :: 0 <= k < i ==> IsKeyChar(key[k])
      {
        if !IsKeyChar(key[i]) { return false; }
      }
      return true;
    }

    method SetConnectTimeout(timeout: nat) returns (r: Result<()>)
      modifies this`connectTimeout
      ensures r == if rawConnectionString.Some? then Err(RawError("setConnectTimeout")) else Ok(())
      ensures Value() == if r.Ok? then old(Value()).(connectTimeout := timeout) else old(Value())
      ensures Accepted(old(Value())) ==> Accepted(Value())
    {
      if rawConnectionString.Some? { return Err(RawError("setConnectTimeout")); }
      connectTimeout := timeout;
      return Ok(());
    }

    method SetSSLMode(mode: SSLMode) returns (r: Result<()>)
      modifies this`sslMode
      ensures r == if rawConnectionString.Some? then Err(RawError("setSSLMode")) else Ok(())
      ensures Value() == if r.Ok? then old(Value()).(sslMode := Some(mode)) else old(Value())
      ensures Accepted(old(Value())) ==> Accepted(Value())
    {
      if rawConnectionString.Some? { return Err(RawError("setSSLMode")); }
      sslMode := Some(mode);
      return Ok(());
    }

    method SetSSLSettings(settings: SSLSettings) returns (r: Result<()>)
      modifies this`sslSettings
      ensures r == if rawConnectionString.Some? then Err(RawError("setSSLSettings"))
                   else if settings.capath != "" || settings.cipher != "" then Err(EquivalentError)
                   else if NulFree(settings.key) && NulFree(settings.cert) && NulFree(settings.ca) then Ok(())
                   else Err(SSLError)
      ensures Value() == if r.Ok? then old(Value()).(ssl := settings) else old(Value())
      ensures Accepted(old(Value())) ==> Accepted(Value())
    {
      if rawConnectionString.Some? { return Err(RawError("setSSLSettings")); }
      if settings.capath != "" || settings.cipher != "" { return Err(EquivalentError); }
      if !NulFree(settings.key) || !NulFree(settings.cert) || !NulFree(settings.ca) { return Err(SSLError); }
      sslSettings := settings;
      return Ok(());
    }

    static method QuoteConninfoValue(value: string) returns (out: string)
      ensures out == "'" + Escaped(value) + "'"
    {
      out := "'";
      for i := 0 to |value|
        invariant out == "'" + Escaped(value[..i])
      {
        EscapedGrows(value, i);
        if value[i] == '\\' || value[i] == '\'' { out := out + ['\\']; }
        out := out + [value[i]];
      }
      assert value[..|value|] == value;
      out := out + ['\''];
    }

    /** The local function `add` of buildConnectionString. */
    static method Add(ss: string, key: string, value: string, ghost es: seq<Entry>) returns (out: string)
      requires ss == AllShown(es)
      ensures out == AllShown(es + OneEntry(key, value))
    {
      AddShown(es, key, value);
      if value == "" { return ss; }
      var quoted := QuoteConninfoValue(value);
      out := ss + (key + "=" + quoted + " ");
    }

    static method AddBare(ss: string, key: string, text: string, ghost es: seq<Entry>) returns (out: string)
      requires ss == AllShown(es)
      ensures out == AllShown(es + [Bare(key, text)])
    {
      BareShown(es, key, text);
      out := ss + (key + "=" + text + " ");
    }

    method BuildConnectionString() returns (ss: string)
      ensures ss == Built(Value())
    {
      if rawConnectionString.Some? { return rawConnectionString.value; }
      ss := BuildPositional();
      ghost var es := PositionalEntries(Value());
      assert es + TableEntries([]) == es;
      for i := 0 to |optionTable|
        invariant ss == AllShown(es + TableEntries(optionTable[..i]))
      {
        ghost var option := optionTable[i];
        assert optionTable[..i + 1][..i] == optionTable[..i];
        AppendAssociates(es, TableEntries(optionTable[..i]), OneEntry(option.key, option.value));
        ss := Add(ss, optionTable[i].key, optionTable[i].value, es + TableEntries(optionTable[..i]));
      }
      assert optionTable[..|optionTable|] == optionTable;
      ss := BuildDerived(ss, es + TableEntries(optionTable));
    }

    method BuildPositional() returns (ss: string)
      ensures ss == AllShown(PositionalEntries(Value()))
    {
      ghost var es := OneEntry("host", if unixSocket == "" then host else unixSocket);
      assert [] + es == es;
      ss := Add("", "host", if unixSocket == "" then host else unixSocket, []);
      ss := Add(ss, "user", username, es);
      es := es + OneEntry("user", username);
      ss := Add(ss, "password", password, es);
      es := es + OneEntry("password", password);
      ss := Add(ss, "dbname", database, es);
      es := es + OneEntry("dbname", database);
      assert es + [] == es;
      if port != 0 { ss := AddBare(ss, "port", Decimal(port), es); }
    }

    method BuildDerived(start: string, ghost before: seq<Entry>) returns (ss: string)
      requires start == AllShown(before)
      ensures ss == AllShown(before + DerivedEntries(Value()))
    {
      ss := start;
      ghost var es := before + TimeoutEntry(connectTimeout);
      assert before + [] == before;
      if connectTimeout > 0 { ss := AddBare(ss, "connect_timeout", Decimal(connectTimeout), before); }
      assert es + [] == es;
      if sslMode.Some? { ss := AddBare(ss, "sslmode", ModeName(sslMode.value), es); }
      es := es + ModeEntry(sslMode);
      ss := Add(ss, "sslkey", sslSettings.key, es);
      es := es + OneEntry("sslkey", sslSettings.key);
      ss := Add(ss, "sslcert", sslSettings.cert, es);
      es := es + OneEntry("sslcert", sslSettings.cert);
      ss := Add(ss, "sslrootcert", sslSettings.ca, es);
      Regroup(before, TimeoutEntry(connectTimeout), ModeEntry(sslMode),
              OneEntry("sslkey", sslSettings.key), OneEntry("sslcert", sslSettings.cert), OneEntry("sslrootcert", sslSettings.ca));
    }
  }

  lemma Regroup(a: seq<Entry>, b: seq<Entry>, c: seq<Entry>, d: seq<Entry>, e: seq<Entry>, f: seq<Entry>)
    ensures a + b + c + d + e + f == a + (b + c + d + e + f)
  {
    AppendAssociates(a, b, c);
    AppendAssociates(a, b + c, d);
    AppendAssociates(a, b + c + d, e);
    AppendAssociates(a, b + c + d + e, f);
  }

  lemma BareShown(es: seq<Entry>, key: string, text: string)
    ensures AllShown(es + [Bare(key, text)]) == AllShown(es) + (key + "=" + text + " ")
  {
    ShownAppend(es, [Bare(key, text)]);
    OneShown(Bare(key, text));
  }

  lemma AddShown(es: seq<Entry>, key: string, value: string)
    ensures AllShown(es + OneEntry(key, value)) ==
      AllShown(es) + if value == "" then "" else key + "=" + ("'" + Escaped(value) + "'") + " "
  {
    ShownAppend(es, OneEntry(key, value));
    if value != "" { OneShown(Quoted(key, value)); }
  }

  lemma {:induction false} EscapedGrows(value: string, i: nat)
    requires i < |value|
    ensures Escaped(value[..i + 1]) == Escaped(value[..i]) + Escaped([value[i]])
    ensures Escaped([value[i]]) == (if value[i] == '\\' || value[i] == '\'' then ['\\'] else []) + [value[i]]
  {
    assert [value[i]][1..] == "";
    if i == 0 {
      assert value[..1] == [value[0]];
    } else {
      EscapedGrows(value[1..], i - 1);
      assert value[1..][..i] == value[..i + 1][1..];
      assert value[1..][..i - 1] == value[..i][1..];
    }
  }

  lemma {:induction false} ShownAppend(es: seq<Entry>, fs: seq<Entry>)
    ensures AllShown(es + fs) == AllShown(es) + AllShown(fs)
  {
    if es == [] {
      assert es + fs == fs;
    } else {
      assert (es + fs)[1..] == es[1..] + fs;
      ShownAppend(es[1..], fs);
    }
  }

  lemma OneShown(e: Entry)
    ensures AllShown([e]) == Shown(e)
  {
    assert [e][1..] == [];
  }
}
