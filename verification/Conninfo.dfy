/** The keyword/value connection strings of libpq: a parser after section 34.1.1.1 of the
    PostgreSQL documentation, and what printing settings in that format must satisfy. */
module Conninfo {
  import opened QueryTypes
  import opened Characters

  datatype Pair = Pair(key: string, value: string)

  // ---------------------------------------------------------------- the parser

  function SkipBlanks(s: string): (r: string)
    ensures |r| <= |s|
  {
    if s != "" && IsSpace(s[0]) then SkipBlanks(s[1..]) else s
  }

  /** The keyword: up to white space, an equal sign or the end. */
  function Keyword(s: string): (k: string)
    ensures |k| <= |s|
  {
    if s == "" || s[0] == '=' || IsSpace(s[0]) then "" else [s[0]] + Keyword(s[1..])
  }

  /** A value and what follows it. */
  datatype Read = Read(value: string, rest: string)

  /** A bare value ends at white space; a backslash takes the next character as it is. */
  function BareValue(s: string): (r: Read)
    ensures |r.rest| <= |s|
  {
    if s == "" then Read("", "")
    else if IsSpace(s[0]) then Read("", s[1..])
    else if s[0] == '\\' then
      if |s| == 1 then Read("", "")
      else var r := BareValue(s[2..]); r.(value := [s[1]] + r.value)
    else var r := BareValue(s[1..]); r.(value := [s[0]] + r.value)
  }

  /** A quoted value, its opening quote read; `None` when it never closes. */
  function QuotedValue(s: string): (r: Option<Read>)
    ensures r.Some? ==> |r.value.rest| < |s|
  {
    if s == "" then None
    else if s[0] == '\'' then Some(Read("", s[1..]))
    else if s[0] == '\\' then
      if |s| == 1 then None
      else
        var r := QuotedValue(s[2..]);
        if r == None then None else Some(r.value.(value := [s[1]] + r.value.value))
    else
      var r := QuotedValue(s[1..]);
      if r == None then None else Some(r.value.(value := [s[0]] + r.value.value))
  }

  function ReadValue(v: string): (r: Option<Read>)
    ensures r.Some? ==> |r.value.rest| <= |v|
  {
    if v != "" && v[0] == '\'' then QuotedValue(v[1..]) else Some(BareValue(v))
  }

  /** `None` for a missing equal sign or an unterminated quote. */
  function Parse(s: string): Option<seq<Pair>>
    decreases |s|
  {
    var t := SkipBlanks(s);
    if t == "" then Some([])
    else
      var key := Keyword(t);
      var u := SkipBlanks(t[|key|..]);
      if u == "" || u[0] != '=' then None
      else
        var v := SkipBlanks(u[1..]);
        var read := ReadValue(v);
        if read == None then None
        else
          var more := Parse(read.value.rest);
          if more == None then None else Some([Pair(key, read.value.value)] + more.value)
  }

  // ---------------------------------------------------------------- what is printed

  /** A setting as printed: bare, or in quotes with quotes and backslashes escaped. */
  datatype Entry = Bare(key: string, text: string) | Quoted(key: string, text: string)

  predicate IsKeyChar(c: char) { '0' <= c <= '9' || 'a' <= c <= 'z' || 'A' <= c <= 'Z' || c == '_' }

  predicate IsSafeKey(key: string) { key != "" && forall i :: 0 <= i < |key| ==> IsKeyChar(key[i]) }

  /** An option key is safe exactly when it is not empty and made of digits, letters and underscores. */
  lemma SafeKeyExactly(key: string)
    ensures IsSafeKey(key) <==> key != "" && forall i :: 0 <= i < |key| ==>
      key[i] in Digits || key[i] in Small || key[i] in Capitals || key[i] == '_'
  {
    forall i | 0 <= i < |key|
      ensures IsKeyChar(key[i]) <==> key[i] in Digits || key[i] in Small || key[i] in Capitals || key[i] == '_'
    {
      KeyCharExactly(key[i]);
    }
  }

  lemma KeyCharExactly(c: char)
    ensures IsKeyChar(c) <==> c in Digits || c in Small || c in Capitals || c == '_'
  {
    if '0' <= c <= '9' { DigitAt((c - '0') as nat); }
    if 'a' <= c <= 'z' { LetterAt((c - 'a') as nat); }
    if 'A' <= c <= 'Z' { LetterAt((c - 'A') as nat); }
    forall k: nat | k < |Digits| ensures IsKeyChar(Digits[k]) { DigitAt(k); }
    forall k: nat | k < |Small| ensures IsKeyChar(Small[k]) && IsKeyChar(Capitals[k]) { LetterAt(k); }
  }

  predicate IsPlain(text: string) {
    text != "" && text[0] != '\'' && forall i :: 0 <= i < |text| ==> text[i] != '\\' && !IsSpace(text[i])
  }

  predicate Printable(e: Entry) { IsSafeKey(e.key) && (e.Bare? ==> IsPlain(e.text)) }

  function Escaped(value: string): string {
    if value == "" then ""
    else (if value[0] == '\\' || value[0] == '\'' then ['\\'] else []) + [value[0]] + Escaped(value[1..])
  }

  function Shown(e: Entry): string {
    match e
    case Bare(key, text) => key + "=" + text + " "
    case Quoted(key, text) => key + "=" + ("'" + Escaped(text) + "'") + " "
  }

  function AllShown(es: seq<Entry>): string {
    if es == [] then "" else Shown(es[0]) + AllShown(es[1..])
  }

  function PairOf(e: Entry): Pair { Pair(e.key, e.text) }

  function PairsOf(es: seq<Entry>): seq<Pair> {
    if es == [] then [] else [PairOf(es[0])] + PairsOf(es[1..])
  }

  predicate AllPrintable(es: seq<Entry>) { forall i :: 0 <= i < |es| ==> Printable(es[i]) }

  // ---------------------------------------------------------------- printing, then parsing

  lemma {:induction false} KeywordRead(key: string, rest: string)
    requires forall i :: 0 <= i < |key| ==> IsKeyChar(key[i])
    ensures Keyword(key + "=" + rest) == key
  {
    var s := key + "=" + rest;
    if key != "" {
      assert s[1..] == key[1..] + "=" + rest;
      KeywordRead(key[1..], rest);
    }
  }

  lemma {:induction false} BareRead(text: string, rest: string)
    requires forall i :: 0 <= i < |text| ==> text[i] != '\\' && !IsSpace(text[i])
    ensures BareValue(text + (" " + rest)) == Read(text, rest)
  {
    var s := text + (" " + rest);
    if text != "" {
      assert s[1..] == text[1..] + (" " + rest);
      BareRead(text[1..], rest);
    } else {
      assert s[1..] == rest;
    }
  }

  lemma EscapeRead(c: char, tail: string, r: Read)
    requires QuotedValue(tail) == Some(r)
    ensures QuotedValue(['\\', c] + tail) == Some(r.(value := [c] + r.value))
    ensures c != '\\' && c != '\'' ==> QuotedValue([c] + tail) == Some(r.(value := [c] + r.value))
  {
    var s := ['\\', c] + tail;
    assert s[1] == c && s[2..] == tail;
    assert ([c] + tail)[1..] == tail;
  }

 lemma {:induction false} QuotedRead(value: string, rest: string)
    ensures QuotedValue(Escaped(value) + ("'" + rest)) == Some(Read(value, rest))
  {
    if value == "" {
      ClosingQuote(rest);
    } else {
      QuotedRead(value[1..], rest);
      EscapedFront(value, "'" + rest);
      OneMoreRead(Escaped(value) + ("'" + rest), value[0], Escaped(value[1..]) + ("'" + rest), Read(value[1..], rest));
      assert [value[0]] + value[1..] == value;
    }
  }

  lemma ClosingQuote(rest: string)
    ensures QuotedValue(Escaped("") + ("'" + rest)) == Some(Read("", rest))
  {
    assert Escaped("") + ("'" + rest) == "'" + rest && ("'" + rest)[1..] == rest;
  }

  /** A character, escaped if it needs to be, before what is read as `r`. */
  lemma OneMoreRead(s: string, c: char, tail: string, r: Read)
    requires QuotedValue(tail) == Some(r) && s == (if c == '\\' || c == '\'' then ['\\', c] else [c]) + tail
    ensures QuotedValue(s) == Some(r.(value := [c] + r.value))
  {
    EscapeRead(c, tail, r);
  }

  lemma EscapedFront(value: string, rest: string)
    requires value != ""
    ensures Escaped(value) + rest ==
      (if value[0] == '\\' || value[0] == '\'' then ['\\', value[0]] else [value[0]]) + (Escaped(value[1..]) + rest)
  {
  }
  lemma FirstParts(key: string, v: string)
    requires IsSafeKey(key) && v != "" && !IsSpace(v[0])
    ensures var s := key + "=" + v;
      SkipBlanks(s) == s && Keyword(s) == key && SkipBlanks(s[|key|..]) == "=" + v && SkipBlanks(v) == v
  {
    var s := key + "=" + v;
    KeywordRead(key, v);
    KeyStarts(key, v);
    NoBlanks(s);
    NoBlanks(v);
    NoBlanks("=" + v);
  }

  lemma KeyStarts(key: string, v: string)
    requires IsSafeKey(key)
    ensures var s := key + "=" + v; s != "" && !IsSpace(s[0]) && s[|key|..] == "=" + v
  {
    assert IsKeyChar(key[0]) && (key + "=" + v)[0] == key[0];
  }

  lemma NoBlanks(s: string)
    requires s != "" && !IsSpace(s[0])
    ensures SkipBlanks(s) == s
  {
  }

  /** How the parser reads a setting. */
  lemma ParseSetting(key: string, v: string)
    requires IsSafeKey(key) && v != "" && !IsSpace(v[0]) && ReadValue(v).Some?
    ensures var read := ReadValue(v).value;
      Parse(key + "=" + v) == if Parse(read.rest) == None then None else Some([Pair(key, read.value)] + Parse(read.rest).value)
  {
    FirstParts(key, v);
    assert ("=" + v)[1..] == v;
  }

  lemma OneParsed(e: Entry, rest: string)
    requires Printable(e)
    ensures Parse(Shown(e) + rest) == if Parse(rest) == None then None else Some([PairOf(e)] + Parse(rest).value)
  {
    match e {
      case Bare(key, text) =>
        var v := text + (" " + rest);
        BareRead(text, rest);
        assert Shown(e) + rest == key + "=" + v;
        assert v[0] == text[0];
        ParseSetting(key, v);
      case Quoted(key, text) =>
        var inside := Escaped(text) + ("'" + (" " + rest));
        QuotedRead(text, " " + rest);
        assert Shown(e) + rest == key + "=" + ("'" + inside);
        assert ("'" + inside)[1..] == inside;
        ParseSetting(key, "'" + inside);
        assert (" " + rest)[1..] == rest;
        BlankFirst(rest);
    }
  }

  lemma BlankFirst(rest: string)
    ensures Parse(" " + rest) == Parse(rest)
  {
    assert SkipBlanks(" " + rest) == SkipBlanks((" " + rest)[1..]) == SkipBlanks(rest);
    SkipBlanksOnce(rest);
  }

  lemma SkipBlanksOnce(s: string)
    ensures SkipBlanks(SkipBlanks(s)) == SkipBlanks(s)
  {
  }

  /** Whatever is printed is parsed back, pair by pair and in order. */
  lemma {:induction false} ParsedBack(es: seq<Entry>)
    requires AllPrintable(es)
    ensures Parse(AllShown(es)) == Some(PairsOf(es))
  {
    if es != [] {
      assert forall i :: 0 <= i < |es[1..]| ==> es[1..][i] == es[i + 1];
      ParsedBack(es[1..]);
      OneParsed(es[0], AllShown(es[1..]));
    }
  }

  // ---------------------------------------------------------------- numbers

  function Digit(d: nat): char
    requires d < 10
  {
    '0' + d as char
  }

  function Decimal(n: nat): string {
    if n < 10 then [Digit(n)] else Decimal(n / 10) + [Digit(n % 10)]
  }

  function DecimalValue(s: string): nat {
    if s == "" then 0
    else if '0' <= s[|s| - 1] <= '9' then 10 * DecimalValue(s[..|s| - 1]) + (s[|s| - 1] - '0') as nat
    else 0
  }

  /** A printed number reads back as itself and needs no quotes. */
  lemma {:induction false} DecimalReadsBack(n: nat)
    ensures DecimalValue(Decimal(n)) == n && IsPlain(Decimal(n))
    ensures forall i :: 0 <= i < |Decimal(n)| ==> '0' <= Decimal(n)[i] <= '9'
  {
    if n < 10 {
      assert Decimal(n)[..0] == "";
    } else {
      DecimalReadsBack(n / 10);
      assert Decimal(n)[..|Decimal(n)| - 1] == Decimal(n / 10);
    }
  }

  // ---------------------------------------------------------------- which setting counts

  /** A later setting of the same keyword replaces an earlier one. */
  function Effective(pairs: seq<Pair>): map<string, string> {
    if pairs == [] then map[]
    else
      var last := pairs[|pairs| - 1];
      Effective(pairs[..|pairs| - 1])[last.key := last.value]
  }

  lemma {:induction false} EffectiveAppend(a: seq<Pair>, b: seq<Pair>)
    ensures Effective(a + b) == Effective(a) + Effective(b)
  {
    if b == [] {
      assert a + b == a;
    } else {
      assert (a + b)[..|a + b| - 1] == a + b[..|b| - 1];
      EffectiveAppend(a, b[..|b| - 1]);
    }
  }
}
