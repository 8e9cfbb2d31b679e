/** The leading keyword of an SQL string and the rejection of transaction control
    (pg/src/postgres/Query.cpp, repeated in PreparedQuery.cpp). */
module SqlScanner {
  import opened QueryTypes
  import opened Characters

  predicate IsUpper(c: char) { 'A' <= c <= 'Z' }

  predicate IsAlpha(c: char) { IsUpper(c) || 'a' <= c <= 'z' }

  function ToLower(c: char): char {
    if IsUpper(c) then c - 'A' + 'a' else c
  }

  function Lower(s: string): string {
    if s == "" then "" else [ToLower(s[0])] + Lower(s[1..])
  }

  predicate Opens(s: string, a: char, b: char) { |s| >= 2 && s[0] == a && s[1] == b }

  // ---------------------------------------------------------------- what is skipped

  function SkipSpaces(s: string): (r: string)
    ensures |r| <= |s|
  {
    if s != "" && IsSpace(s[0]) then SkipSpaces(s[1..]) else s
  }

  predicate EndsLine(c: char) { c == '\n' || c == '\r' }

  /** Up to the end of the line, which stays. */
  function SkipLine(s: string): (r: string)
    ensures |r| <= |s|
  {
    if s == "" || EndsLine(s[0]) then s else SkipLine(s[1..])
  }

  /** Past the first closing mark; an unclosed comment is skipped up to its last character. */
  function SkipBlock(s: string): (r: string)
    ensures |r| <= |s|
  {
    if |s| < 2 then s else if Opens(s, '*', '/') then s[2..] else SkipBlock(s[1..])
  }

  function SkipTrivia(s: string): (r: string)
    ensures |r| <= |s|
    decreases |s|
  {
    var t := SkipSpaces(s);
    if Opens(t, '-', '-') then SkipTrivia(SkipLine(t[2..]))
    else if Opens(t, '/', '*') then SkipTrivia(SkipBlock(t[2..]))
    else t
  }

  function Word(s: string): (w: string)
    ensures |w| <= |s| && w == s[..|w|]
  {
    if s != "" && IsAlpha(s[0]) then [s[0]] + Word(s[1..]) else ""
  }

  function LeadingKeyword(sql: string): string { Lower(Word(SkipTrivia(sql))) }

  predicate IsControlWord(w: string) {
    w == "begin" || w == "start" || w == "commit" || w == "end" || w == "rollback" || w == "abort"
  }

  predicate IsTransactionControl(sql: string) { IsControlWord(LeadingKeyword(sql)) }

  // ---------------------------------------------------------------- the scanner

  lemma {:induction false} SpacesFrom(s: string, i: nat, j: nat)
    requires i <= j <= |s|
    requires forall k :: i <= k < j ==> IsSpace(s[k])
    ensures SkipSpaces(s[i..]) == SkipSpaces(s[j..])
    decreases j - i
  {
    if i < j { SpacesFrom(s, i + 1, j); }
  }

  lemma {:induction false} LineFrom(s: string, i: nat, j: nat)
    requires i <= j <= |s|
    requires forall k :: i <= k < j ==> !EndsLine(s[k])
    ensures SkipLine(s[i..]) == SkipLine(s[j..])
    decreases j - i
  {
    if i < j { LineFrom(s, i + 1, j); }
  }

  predicate ClosesAt(s: string, i: nat) { i + 1 < |s| && s[i] == '*' && s[i + 1] == '/' }

  predicate Inside(s: string, i: nat) { i + 1 < |s| && !ClosesAt(s, i) }

  lemma {:induction false} BlockFrom(s: string, i: nat, j: nat)
    requires i <= j <= |s|
    requires forall k :: i <= k < j ==> Inside(s, k)
    ensures SkipBlock(s[i..]) == SkipBlock(s[j..])
    decreases j - i
  {
    if i < j {
      assert Inside(s, i);
      assert s[i..][1..] == s[i + 1..];
      BlockFrom(s, i + 1, j);
    }
  }

  lemma {:induction false} LowerAt(s: string)
    ensures |Lower(s)| == |s|
    ensures forall k :: 0 <= k < |s| ==> Lower(s)[k] == ToLower(s[k])
  {
    if s != "" { LowerAt(s[1..]); }
  }

  lemma {:induction false} WordFrom(s: string, i: nat)
    requires i <= |s|
    requires forall k :: 0 <= k < i ==> IsAlpha(s[k])
    requires i < |s| ==> !IsAlpha(s[i])
    ensures Word(s) == s[..i]
  {
    if i > 0 { WordFrom(s[1..], i - 1); }
  }

  /** The index-advancing loops compute the recursive definition. */
  method ScanLeadingKeyword(sql: string) returns (keyword: string)
    ensures keyword == LeadingKeyword(sql)
  {
    var index := ScanTrivia(sql);
    var start := index;
    while index < |sql| && IsAlpha(sql[index])
      invariant start <= index <= |sql|
      invariant forall k :: start <= k < index ==> IsAlpha(sql[k])
    {
      index := index + 1;
    }
    WordFrom(sql[start..], index - start);
    assert sql[start..][..index - start] == sql[start..index];
    keyword := sql[start..index];
    LowerAt(keyword);
    ghost var word := keyword;
    for i := 0 to |keyword|
      invariant |keyword| == |word|
      invariant forall k :: 0 <= k < i ==> keyword[k] == ToLower(word[k])
      invariant forall k :: i <= k < |word| ==> keyword[k] == word[k]
    {
      keyword := keyword[i := ToLower(keyword[i])];
    }
    assert keyword == Lower(word);
  }

  method ScanTrivia(sql: string) returns (index: nat)
    ensures index <= |sql| && sql[index..] == SkipTrivia(sql)
  {
    index := 0;
    while index < |sql|
      invariant index <= |sql|
      invariant SkipTrivia(sql[index..]) == SkipTrivia(sql)
      decreases |sql| - index
    {
      ghost var before := sql[index..];
      index := ScanSpaces(sql, index);
      assert Opens(sql[index..], '-', '-') ==> sql[index..][2..] == sql[index + 2..];
      assert Opens(sql[index..], '/', '*') ==> sql[index..][2..] == sql[index + 2..];
      if index + 1 < |sql| && sql[index] == '-' && sql[index + 1] == '-' {
        index := ScanLine(sql, index + 2);
      } else if index + 1 < |sql| && sql[index] == '/' && sql[index + 1] == '*' {
        index := ScanBlock(sql, index + 2);
      } else {
        assert SkipTrivia(before) == sql[index..];
        return;
      }
    }
    assert sql[index..] == "";
  }

  method ScanSpaces(sql: string, start: nat) returns (index: nat)
    requires start <= |sql|
    ensures start <= index <= |sql| && sql[index..] == SkipSpaces(sql[start..])
  {
    index := start;
    while index < |sql| && IsSpace(sql[index])
      invariant start <= index <= |sql|
      invariant forall k :: start <= k < index ==> IsSpace(sql[k])
    {
      index := index + 1;
    }
    SpacesFrom(sql, start, index);
  }

  method ScanLine(sql: string, start: nat) returns (index: nat)
    requires start <= |sql|
    ensures start <= index <= |sql| && sql[index..] == SkipLine(sql[start..])
  {
    index := start;
    while index < |sql| && sql[index] != '\n' && sql[index] != '\r'
      invariant start <= index <= |sql|
      invariant forall k :: start <= k < index ==> !EndsLine(sql[k])
    {
      index := index + 1;
    }
    LineFrom(sql, start, index);
  }

  method ScanBlock(sql: string, start: nat) returns (index: nat)
    requires start <= |sql|
    ensures start <= index <= |sql| && sql[index..] == SkipBlock(sql[start..])
  {
    index := start;
    while index + 1 < |sql| && !(sql[index] == '*' && sql[index + 1] == '/')
      invariant start <= index <= |sql|
      invariant forall k :: start <= k < index ==> Inside(sql, k)
    {
      index := index + 1;
    }
    BlockFrom(sql, start, index);
    if index + 1 < |sql| {
      assert sql[index..][2..] == sql[index + 2..];
      index := index + 2;
    }
  }

  // ---------------------------------------------------------------- what the scanner is for

  /** White space, a line comment with its line end, or a closed block comment that closes once. */
  datatype Trivia = Space(c: char) | LineComment(text: string, end: char) | BlockComment(body: string)

  predicate WellFormed(t: Trivia) {
    match t
    case Space(c) => IsSpace(c)
    case LineComment(text, end) => EndsLine(end) && forall i :: 0 <= i < |text| ==> !EndsLine(text[i])
    case BlockComment(body) => forall i :: 0 <= i < |body| ==> !ClosesAt(body + "*/", i)
  }

  function Shown(t: Trivia): string {
    match t
    case Space(c) => [c]
    case LineComment(text, end) => "--" + text + [end]
    case BlockComment(body) => "/*" + body + "*/"
  }

  function Text(ts: seq<Trivia>): string {
    if ts == [] then "" else Shown(ts[0]) + Text(ts[1..])
  }

  predicate AllWellFormed(ts: seq<Trivia>) { forall i :: 0 <= i < |ts| ==> WellFormed(ts[i]) }

  lemma {:induction false} LineSkipped(text: string, end: char, rest: string)
    requires WellFormed(LineComment(text, end))
    ensures SkipLine(text + [end] + rest) == [end] + rest
  {
    var s := text + [end] + rest;
    LineFrom(s, 0, |text|);
    assert s[0..] == s && s[|text|..] == [end] + rest;
  }

  lemma BlockSkipped(body: string, rest: string)
    requires WellFormed(BlockComment(body))
    ensures SkipBlock(body + "*/" + rest) == rest
  {
    var s := body + "*/" + rest;
    forall k | 0 <= k < |body| ensures Inside(s, k) {
      assert !ClosesAt(body + "*/", k);
      assert s[k] == (body + "*/")[k] && s[k + 1] == (body + "*/")[k + 1];
    }
    BlockFrom(s, 0, |body|);
    assert s[0..] == s && s[|body|..] == "*/" + rest;
    assert ("*/" + rest)[2..] == rest;
  }

  lemma SpaceSkipped(c: char, rest: string)
    requires IsSpace(c)
    ensures SkipTrivia([c] + rest) == SkipTrivia(rest)
  {
    assert ([c] + rest)[1..] == rest;
  }

  lemma LineCommentSkipped(text: string, end: char, rest: string)
    requires WellFormed(LineComment(text, end))
    ensures SkipTrivia("--" + text + [end] + rest) == SkipTrivia(rest)
  {
    var s := "--" + text + [end] + rest;
    assert s[2..] == text + [end] + rest && SkipSpaces(s) == s;
    LineSkipped(text, end, rest);
    SpaceSkipped(end, rest);
  }

  lemma BlockCommentSkipped(body: string, rest: string)
    requires WellFormed(BlockComment(body))
    ensures SkipTrivia("/*" + body + "*/" + rest) == SkipTrivia(rest)
  {
    var s := "/*" + body + "*/" + rest;
    assert s[2..] == body + "*/" + rest && SkipSpaces(s) == s;
    BlockSkipped(body, rest);
  }

  lemma OneSkipped(t: Trivia, rest: string)
    requires WellFormed(t)
    ensures SkipTrivia(Shown(t) + rest) == SkipTrivia(rest)
  {
    match t {
      case Space(c) => SpaceSkipped(c, rest);
      case LineComment(text, end) => LineCommentSkipped(text, end, rest);
      case BlockComment(body) => BlockCommentSkipped(body, rest);
    }
  }

  /** Prepending white space and closed comments changes nothing. */
  lemma {:induction false} TriviaChangesNothing(ts: seq<Trivia>, rest: string)
    requires AllWellFormed(ts)
    ensures SkipTrivia(Text(ts) + rest) == SkipTrivia(rest)
    ensures IsTransactionControl(Text(ts) + rest) <==> IsTransactionControl(rest)
  {
    if ts == [] {
      assert Text(ts) + rest == rest;
    } else {
      assert Text(ts) + rest == Shown(ts[0]) + (Text(ts[1..]) + rest);
      OneSkipped(ts[0], Text(ts[1..]) + rest);
      TriviaChangesNothing(ts[1..], rest);
    }
  }

  // ---------------------------------------------------------------- letter case

  predicate SameLetters(s: string, t: string) {
    |s| == |t| && forall i :: 0 <= i < |s| ==> ToLower(s[i]) == ToLower(t[i])
  }

  lemma SameKind(c: char, d: char)
    requires ToLower(c) == ToLower(d)
    ensures IsSpace(c) == IsSpace(d) && IsAlpha(c) == IsAlpha(d) && EndsLine(c) == EndsLine(d)
    ensures (c == '-') == (d == '-') && (c == '/') == (d == '/') && (c == '*') == (d == '*')
  {
  }

  lemma SameTail(s: string, t: string, i: nat)
    requires SameLetters(s, t) && i <= |s|
    ensures SameLetters(s[i..], t[i..])
    ensures s != "" ==> ToLower(s[0]) == ToLower(t[0])
  {
  }

  lemma {:induction false} SameSkipSpaces(s: string, t: string)
    requires SameLetters(s, t)
    ensures SameLetters(SkipSpaces(s), SkipSpaces(t))
  {
    if s != "" {
      SameTail(s, t, 1);
      SameKind(s[0], t[0]);
      if IsSpace(s[0]) { SameSkipSpaces(s[1..], t[1..]); }
    }
  }

  lemma {:induction false} SameSkipLine(s: string, t: string)
    requires SameLetters(s, t)
    ensures SameLetters(SkipLine(s), SkipLine(t))
  {
    if s != "" {
      SameTail(s, t, 1);
      SameKind(s[0], t[0]);
      if !EndsLine(s[0]) { SameSkipLine(s[1..], t[1..]); }
    }
  }

  lemma {:induction false} SameSkipBlock(s: string, t: string)
    requires SameLetters(s, t)
    ensures SameLetters(SkipBlock(s), SkipBlock(t))
  {
    if |s| >= 2 {
      SameKind(s[0], t[0]);
      SameKind(s[1], t[1]);
      if Opens(s, '*', '/') {
        SameTail(s, t, 2);
      } else {
        SameTail(s, t, 1);
        SameSkipBlock(s[1..], t[1..]);
      }
    }
  }

  lemma {:induction false} SameSkipTrivia(s: string, t: string)
    requires SameLetters(s, t)
    ensures SameLetters(SkipTrivia(s), SkipTrivia(t))
    decreases |s|
  {
    SameSkipSpaces(s, t);
    var u, v := SkipSpaces(s), SkipSpaces(t);
    if |u| >= 2 {
      SameKind(u[0], v[0]);
      SameKind(u[1], v[1]);
      SameTail(u, v, 2);
      if Opens(u, '-', '-') {
        SameSkipLine(u[2..], v[2..]);
        SameSkipTrivia(SkipLine(u[2..]), SkipLine(v[2..]));
      } else if Opens(u, '/', '*') {
        SameSkipBlock(u[2..], v[2..]);
        SameSkipTrivia(SkipBlock(u[2..]), SkipBlock(v[2..]));
      }
    }
  }

  lemma {:induction false} SameWord(s: string, t: string)
    requires SameLetters(s, t)
    ensures Lower(Word(s)) == Lower(Word(t))
  {
    if s != "" {
      SameTail(s, t, 1);
      SameKind(s[0], t[0]);
      if IsAlpha(s[0]) { SameWord(s[1..], t[1..]); }
    }
  }

  /** Changing letter case changes nothing. */
  lemma CaseChangesNothing(s: string, t: string)
    requires SameLetters(s, t)
    ensures LeadingKeyword(s) == LeadingKeyword(t)
    ensures IsTransactionControl(s) <==> IsTransactionControl(t)
  {
    SameSkipTrivia(s, t);
    SameWord(SkipTrivia(s), SkipTrivia(t));
  }

  // ---------------------------------------------------------------- exactly what is rejected

  predicate Alphabetic(w: string) { forall i :: 0 <= i < |w| ==> IsAlpha(w[i]) }

  /** `sql` is white space and closed comments, then the whole word `w`, then something else. */
  predicate ReadsAs(sql: string, ts: seq<Trivia>, w: string, rest: string) {
    && AllWellFormed(ts) && Alphabetic(w)
    && (rest != "" ==> !IsAlpha(rest[0]))
    && sql == Text(ts) + (w + rest)
  }

  lemma {:induction false} WordOf(s: string)
    ensures Alphabetic(Word(s))
    ensures var rest := s[|Word(s)|..]; rest != "" ==> !IsAlpha(rest[0])
  {
    if s != "" && IsAlpha(s[0]) {
      WordOf(s[1..]);
      assert s[|Word(s)|..] == s[1..][|Word(s[1..])|..];
    }
  }

  lemma {:induction false} SpacesSplit(s: string) returns (ts: seq<Trivia>)
    ensures AllWellFormed(ts) && s == Text(ts) + SkipSpaces(s)
  {
    ts := [];
    if s != "" && IsSpace(s[0]) {
      var more := SpacesSplit(s[1..]);
      ts := [Space(s[0])] + more;
      assert Text(ts) == [s[0]] + Text(more);
      assert s == [s[0]] + s[1..];
    }
  }

  lemma {:induction false} LineSplit(s: string) returns (text: string)
    ensures s == text + SkipLine(s)
    ensures forall i :: 0 <= i < |text| ==> !EndsLine(text[i])
    ensures SkipLine(s) != "" ==> EndsLine(SkipLine(s)[0])
  {
    text := "";
    if s != "" && !EndsLine(s[0]) {
      text := LineSplit(s[1..]);
      text := [s[0]] + text;
      assert s == [s[0]] + s[1..];
    }
  }

  predicate HasClose(s: string) {
    |s| >= 2 && (Opens(s, '*', '/') || HasClose(s[1..]))
  }

  lemma {:induction false} BlockSplit(s: string) returns (body: string)
    ensures HasClose(s) ==> WellFormed(BlockComment(body)) && s == body + "*/" + SkipBlock(s)
    ensures !HasClose(s) ==> |SkipBlock(s)| <= 1
  {
    body := "";
    if |s| >= 2 && !Opens(s, '*', '/') {
      var inner := BlockSplit(s[1..]);
      body := [s[0]] + inner;
      if HasClose(s) {
        assert s == [s[0]] + s[1..] == body + "*/" + SkipBlock(s);
        forall i | 0 <= i < |body| ensures !ClosesAt(body + "*/", i) {
          if i == 0 {
            assert (body + "*/")[1] == (inner + "*/")[0] == s[1];
          } else {
            assert !ClosesAt(inner + "*/", i - 1);
            assert (body + "*/")[1..] == inner + "*/";
          }
        }
      }
    } else if |s| >= 2 {
      assert s == "*/" + s[2..];
    }
  }

  lemma {:induction false} TextAppend(ts: seq<Trivia>, us: seq<Trivia>)
    ensures Text(ts + us) == Text(ts) + Text(us)
  {
    if ts == [] {
      assert ts + us == us;
    } else {
      assert (ts + us)[1..] == ts[1..] + us;
      TextAppend(ts[1..], us);
    }
  }

  lemma Joined(ts: seq<Trivia>, us: seq<Trivia>, rest: string)
    ensures Text(ts + us) + rest == Text(ts) + (Text(us) + rest)
  {
    TextAppend(ts, us);
  }

  lemma OneText(t: Trivia)
    ensures Text([t]) == Shown(t)
  {
    assert [t][1..] == [];
    assert Text([t]) == Shown(t) + "";
  }

  lemma JoinedOne(ts: seq<Trivia>, t: Trivia, rest: string)
    ensures Text(ts + [t]) + rest == Text(ts) + (Shown(t) + rest)
  {
    Joined(ts, [t], rest);
    OneText(t);
  }

  lemma FirstLine(t: string) returns (c: Trivia, rest: string)
    requires Opens(t, '-', '-') && SkipSpaces(t) == t
    ensures |rest| < |t|
    ensures SkipTrivia(t) == "" || (WellFormed(c) && t == Shown(c) + rest && SkipTrivia(t) == SkipTrivia(rest))
  {
    c, rest := Space(' '), "";
    var text := LineSplit(t[2..]);
    var line := SkipLine(t[2..]);
    if line != "" {
      c, rest := LineComment(text, line[0]), line[1..];
      assert t[2..] == text + ([line[0]] + rest);
      LineShown(t, text, line[0], rest);
      LineCommentSkipped(text, line[0], rest);
    }
  }

  lemma LineShown(t: string, text: string, end: char, rest: string)
    requires Opens(t, '-', '-') && t[2..] == text + ([end] + rest)
    ensures t == Shown(LineComment(text, end)) + rest
  {
    assert t == "--" + t[2..];
  }

  lemma FirstBlock(t: string) returns (c: Trivia, rest: string)
    requires Opens(t, '/', '*') && SkipSpaces(t) == t
    ensures |rest| < |t|
    ensures |SkipTrivia(t)| <= 1 || (WellFormed(c) && t == Shown(c) + rest && SkipTrivia(t) == SkipTrivia(rest))
  {
    var body := BlockSplit(t[2..]);
    c, rest := BlockComment(body), SkipBlock(t[2..]);
    assert t == "/*" + t[2..];
  }

  lemma {:induction false} SpacesIdempotent(s: string)
    ensures SkipSpaces(SkipSpaces(s)) == SkipSpaces(s) && SkipTrivia(SkipSpaces(s)) == SkipTrivia(s)
  {
    if s != "" && IsSpace(s[0]) { SpacesIdempotent(s[1..]); }
  }

  /** What is skipped is white space and closed comments, unless an unclosed comment
      leaves at most one character. */
  lemma {:induction false} SkippedSplit(s: string) returns (ts: seq<Trivia>)
    ensures |SkipTrivia(s)| <= 1 || (AllWellFormed(ts) && s == Text(ts) + SkipTrivia(s))
    decreases |s|
  {
    ts := SpacesSplit(s);
    var t := SkipSpaces(s);
    SpacesIdempotent(s);
    if Opens(t, '-', '-') || Opens(t, '/', '*') {
      var c, rest;
      if Opens(t, '-', '-') { c, rest := FirstLine(t); } else { c, rest := FirstBlock(t); }
      var us := SkippedSplit(rest);
      if |SkipTrivia(s)| > 1 {
        JoinedOne(ts, c, rest);
        Joined(ts + [c], us, SkipTrivia(s));
      }
      ts := ts + [c] + us;
    }
  }

  lemma {:induction false} WordRead(w: string, rest: string)
    requires Alphabetic(w) && (rest != "" ==> !IsAlpha(rest[0])) && w != ""
    ensures LeadingKeyword(w + rest) == Lower(w)
  {
    var s := w + rest;
    assert s[0] == w[0] && IsAlpha(s[0]);
    WordFrom(s, |w|);
    assert SkipTrivia(s) == s;
  }

  /** A child's SQL is rejected exactly when, after white space and closed comments, its
      first whole word is one of the six control words in any letter case. */
  lemma RejectedExactly(sql: string)
    ensures IsTransactionControl(sql) <==>
      exists ts, w, rest :: ReadsAs(sql, ts, w, rest) && IsControlWord(Lower(w))
  {
    if IsTransactionControl(sql) {
      var ts, w, rest := ControlReadsAs(sql);
    }
    forall ts, w, rest | ReadsAs(sql, ts, w, rest) && IsControlWord(Lower(w)) ensures IsTransactionControl(sql) {
      ReadsAsControl(sql, ts, w, rest);
    }
  }

  lemma ControlReadsAs(sql: string) returns (ts: seq<Trivia>, w: string, rest: string)
    requires IsTransactionControl(sql)
    ensures ReadsAs(sql, ts, w, rest) && IsControlWord(Lower(w))
  {
    ts := SkippedSplit(sql);
    var tail := SkipTrivia(sql);
    w := Word(tail);
    LowerAt(w);
    WordOf(tail);
    rest := tail[|w|..];
    assert tail == w + rest;
  }

  lemma ReadsAsControl(sql: string, ts: seq<Trivia>, w: string, rest: string)
    requires ReadsAs(sql, ts, w, rest) && IsControlWord(Lower(w))
    ensures IsTransactionControl(sql)
  {
    LowerAt(w);
    WordRead(w, rest);
    TriviaChangesNothing(ts, w + rest);
  }

  // ---------------------------------------------------------------- nested comments

  /** Past a block comment whose opening mark has been read, as section 4.1.5 of the PostgreSQL
      documentation has it: comments nest, and an unclosed one is an error. */
  function SkipNested(s: string, depth: nat): (r: Option<string>)
    ensures r.Some? ==> |r.value| <= |s|
    decreases |s|
  {
    if depth == 0 then Some(s)
    else if |s| < 2 then None
    else if Opens(s, '*', '/') then SkipNested(s[2..], depth - 1)
    else if Opens(s, '/', '*') then SkipNested(s[2..], depth + 1)
    else SkipNested(s[1..], depth)
  }

  lemma {:induction false} LaterCloses(s: string)
    requires s != "" && HasClose(s[1..])
    ensures HasClose(s) && |SkipBlock(s[1..])| <= |SkipBlock(s)| <= |s| - 2
  {
    var t := s[1..];
    if Opens(s, '*', '/') {
    } else if !Opens(t, '*', '/') {
      LaterCloses(t);
    }
  }

  /** A nesting reader never stops before the first closing mark, and stops after it at depth two or more. */
  lemma {:induction false} NestedStopsLater(s: string, depth: nat)
    requires depth > 0 && SkipNested(s, depth).Some?
    ensures HasClose(s) && |SkipNested(s, depth).value| <= |SkipBlock(s)|
    ensures depth > 1 ==> |SkipNested(s, depth).value| < |SkipBlock(s)|
    decreases |s|
  {
    if Opens(s, '*', '/') {
      if depth > 1 {
        NestedStopsLater(s[2..], depth - 1);
        SkipBlockShort(s[2..]);
      }
    } else if Opens(s, '/', '*') {
      NestedStopsLater(s[2..], depth + 1);
      assert s[1..][1..] == s[2..];
      LaterCloses(s[1..]);
      LaterCloses(s);
    } else {
      NestedStopsLater(s[1..], depth);
      LaterCloses(s);
    }
  }

  lemma {:induction false} SkipBlockShort(s: string)
    requires HasClose(s)
    ensures |SkipBlock(s)| <= |s| - 2
  {
    if !Opens(s, '*', '/') { SkipBlockShort(s[1..]); }
  }

  /** No opening mark before the first closing mark. */
  predicate Flat(s: string) {
    |s| >= 2 && !Opens(s, '/', '*') && (Opens(s, '*', '/') || Flat(s[1..]))
  }

  /** The scanner and the server leave a block comment at the same place exactly when no second
      comment opens inside it. */
  lemma {:induction false} SameCommentExactlyWhenFlat(s: string)
    requires HasClose(s)
    ensures SkipNested(s, 1) == Some(SkipBlock(s)) <==> Flat(s)
  {
    if Opens(s, '*', '/') {
    } else if Opens(s, '/', '*') {
      if SkipNested(s, 1).Some? {
        NestedStopsLater(s[2..], 2);
        assert s[1..][1..] == s[2..];
        LaterCloses(s[1..]);
        LaterCloses(s);
      }
    } else {
      SameCommentExactlyWhenFlat(s[1..]);
    }
  }

  lemma ServerSkipsNested()
    ensures SkipNested("/**/*/commit", 1) == Some("commit")
  {
    var u := "/**/*/commit";
    assert Opens(u, '/', '*') && u[2..] == "*/*/commit";
    assert u[2..][2..] == "*/commit" && u[2..][2..][2..] == "commit";
    assert SkipNested("commit", 0) == Some("commit");
    assert SkipNested("*/commit", 1) == Some("commit");
  }

  /** Inside a nested comment the scanner stops too early: here the server runs COMMIT
      but the scanner reads no keyword at all. */
  lemma NestedCommentHidesCommit()
    ensures SkipNested("/**/*/commit", 1) == Some("commit")
    ensures !IsTransactionControl("/*" + "/**/*/commit")
  {
    ServerSkipsNested();
    ScannerLeavesNested();
    BlockOpened("/**/*/commit");
    StarIsNoWord("commit");
  }

  lemma BlockOpened(u: string)
    ensures SkipTrivia("/*" + u) == SkipTrivia(SkipBlock(u))
  {
    var sql := "/*" + u;
    assert SkipSpaces(sql) == sql && sql[2..] == u;
  }

  lemma StarIsNoWord(rest: string)
    ensures var s := "*/" + rest; SkipTrivia(s) == s && Word(s) == ""
  {
  }

  lemma ScannerLeavesNested()
    ensures SkipBlock("/**/*/commit") == "*/commit"
  {
    var u := "/**/*/commit";
    assert u[1..] == "**/*/commit" && u[1..][1..] == "*/*/commit";
    assert SkipBlock(u) == SkipBlock(u[1..]) == SkipBlock("*/*/commit") == "*/commit";
  }

  // ---------------------------------------------------------------- letters and words, one by one

  lemma LettersExactly(c: char)
    ensures IsAlpha(c) <==> c in Small || c in Capitals
  {
    if 'a' <= c <= 'z' { LetterAt((c - 'a') as nat); }
    if 'A' <= c <= 'Z' { LetterAt((c - 'A') as nat); }
    forall k: nat | k < |Small| ensures IsAlpha(Small[k]) && IsAlpha(Capitals[k]) { LetterAt(k); }
  }

  lemma LowerExactly(c: char)
    ensures forall k :: 0 <= k < 26 && c == Capitals[k] ==> ToLower(c) == Small[k]
    ensures c !in Capitals ==> ToLower(c) == c
  {
    forall k: nat | k < 26 && c == Capitals[k] ensures ToLower(c) == Small[k] { LetterAt(k); }
    if IsUpper(c) { LetterAt((c - 'A') as nat); }
  }

  /** SQL is refused exactly when, after white space and closed comments, its first whole word is BEGIN, START, COMMIT,
      END, ROLLBACK or ABORT in any case. */
  lemma SixWordsExactly(sql: string)
    ensures IsTransactionControl(sql) <==>
      exists ts, w, rest :: ReadsAs(sql, ts, w, rest) && Lower(w) in {"begin", "start", "commit", "end", "rollback", "abort"}
  {
    RejectedExactly(sql);
    if exists ts, w, rest :: ReadsAs(sql, ts, w, rest) && Lower(w) in {"begin", "start", "commit", "end", "rollback", "abort"} {
      var ts, w, rest :| ReadsAs(sql, ts, w, rest) && Lower(w) in {"begin", "start", "commit", "end", "rollback", "abort"};
      assert ReadsAs(sql, ts, w, rest) && IsControlWord(Lower(w));
    }
    if IsTransactionControl(sql) {
      var ts, w, rest := ControlReadsAs(sql);
      assert ReadsAs(sql, ts, w, rest) && Lower(w) in {"begin", "start", "commit", "end", "rollback", "abort"};
    }
  }
}
