/** What the server takes for transaction control, after sections 4.1.1 and 4.1.5 of the PostgreSQL
    documentation, and exactly when it slips through the scanner. */
module SqlServer {
  import opened QueryTypes
  import opened Characters
  import opened SqlScanner

  // ---------------------------------------------------------------- the server's reading

  /** Past white space and comments, which nest, and if `empty` past empty statements too;
      `None` for a comment that never closes. */
  function ServerSkip(s: string, empty: bool): (r: Option<string>)
    ensures r.Some? ==> |r.value| <= |s|
    decreases |s|
  {
    if s == "" then Some(s)
    else if IsSpace(s[0]) || (empty && s[0] == ';') then ServerSkip(s[1..], empty)
    else if Opens(s, '-', '-') then ServerSkip(SkipLine(s[2..]), empty)
    else if Opens(s, '/', '*') then
      var r := SkipNested(s[2..], 1);
      if r == None then None else ServerSkip(r.value, empty)
    else Some(s)
  }

  predicate StartsIdentifier(c: char) { IsAlpha(c) || c == '_' || c >= '\U{80}' }

  predicate InIdentifier(c: char) { StartsIdentifier(c) || '0' <= c <= '9' || c == '$' }

  function IdentifierTail(s: string): (w: string)
    ensures |w| <= |s|
  {
    if s != "" && InIdentifier(s[0]) then [s[0]] + IdentifierTail(s[1..]) else ""
  }

  /** A key word or identifier as a whole. */
  function Identifier(s: string): (w: string)
    ensures |w| <= |s|
  {
    if s != "" && StartsIdentifier(s[0]) then IdentifierTail(s) else ""
  }

  /** The first word of the first statement that is not empty, and what follows it. */
  datatype First = First(word: string, rest: string)

  function FirstWord(s: string, empty: bool): First {
    var r := ServerSkip(s, empty);
    if r == None then First("", "")
    else var w := Identifier(r.value); First(Lower(w), r.value[|w|..])
  }

  /** The statement is one of those that control transactions: by its first word, or PREPARE TRANSACTION. */
  predicate ServerControls(sql: string) {
    var first := FirstWord(sql, true);
    || IsControlWord(first.word) || first.word == "savepoint" || first.word == "release"
    || (first.word == "prepare" && FirstWord(first.rest, false).word == "transaction")
  }

  // ---------------------------------------------------------------- where the two readings part

  /** What both readers come to: something to read, an empty statement, or a block comment in which another
      opens, where the scanner goes on behind the first closing mark. */
  datatype Parting = Agree(tail: string) | EmptyStatement | InsideComment(inside: string)

  function Part(s: string): Parting
    decreases |s|
  {
    if s == "" then Agree(s)
    else if IsSpace(s[0]) then Part(s[1..])
    else if s[0] == ';' then EmptyStatement
    else if Opens(s, '-', '-') then Part(SkipLine(s[2..]))
    else if Opens(s, '/', '*') then
      if Flat(s[2..]) then Part(SkipBlock(s[2..])) else InsideComment(SkipBlock(s[2..]))
    else Agree(s)
  }

  /** How the scanner goes on from there. */
  predicate ScansAs(s: string, p: Parting) {
    match p
    case Agree(tail) => SkipTrivia(s) == tail
    case EmptyStatement => SkipTrivia(s) != "" && SkipTrivia(s)[0] == ';'
    case InsideComment(inside) => SkipTrivia(s) == SkipTrivia(inside)
  }

  lemma {:induction false} ScannerParts(s: string)
    ensures ScansAs(s, Part(s))
    decreases |s|
  {
    if s == "" {
    } else if IsSpace(s[0]) {
      ScannerParts(s[1..]);
      assert s == [s[0]] + s[1..];
      SpaceSkipped(s[0], s[1..]);
    } else if s[0] == ';' {
      assert SkipSpaces(s) == s;
    } else if Opens(s, '-', '-') {
      assert SkipSpaces(s) == s;
      ScannerParts(SkipLine(s[2..]));
    } else if Opens(s, '/', '*') {
      assert SkipSpaces(s) == s;
      if Flat(s[2..]) { ScannerParts(SkipBlock(s[2..])); }
    } else {
      assert SkipSpaces(s) == s;
    }
  }

  lemma {:induction false} FlatCloses(s: string)
    requires Flat(s)
    ensures HasClose(s)
  {
    if !Opens(s, '*', '/') { FlatCloses(s[1..]); }
  }

  lemma {:induction false} ServerAgrees(s: string)
    ensures Part(s).Agree? ==> ServerSkip(s, true) == Some(Part(s).tail)
    decreases |s|
  {
    if s == "" {
    } else if IsSpace(s[0]) {
      ServerAgrees(s[1..]);
    } else if Opens(s, '-', '-') {
      ServerAgrees(SkipLine(s[2..]));
    } else if Opens(s, '/', '*') && Flat(s[2..]) {
      FlatCloses(s[2..]);
      SameCommentExactlyWhenFlat(s[2..]);
      ServerAgrees(SkipBlock(s[2..]));
    }
  }

  // ---------------------------------------------------------------- words

  /** A word of small letters only. */
  predicate IsSmall(w: string) { w != "" && forall k :: 0 <= k < |w| ==> 'a' <= w[k] <= 'z' }

  lemma ControlWordsAreSmall(w: string)
    requires IsControlWord(w) || w == "savepoint" || w == "release" || w == "prepare"
    ensures IsSmall(w)
  {
  }

  lemma {:induction false} TailIsWord(s: string)
    requires Alphabetic(IdentifierTail(s))
    ensures Word(s) == IdentifierTail(s)
  {
    if s != "" && InIdentifier(s[0]) {
      var w := IdentifierTail(s);
      assert w[0] == s[0] && w[1..] == IdentifierTail(s[1..]);
      assert forall i :: 0 <= i < |w| - 1 ==> w[1..][i] == w[i + 1];
      TailIsWord(s[1..]);
    }
  }

  /** Where the server reads a word of letters only, the scanner reads the same word. */
  lemma SameWordRead(s: string)
    requires IsSmall(Lower(Identifier(s)))
    ensures Lower(Word(s)) == Lower(Identifier(s))
  {
    var w := Identifier(s);
    LowerAt(w);
    forall k | 0 <= k < |w| ensures IsAlpha(w[k]) { assert 'a' <= Lower(w)[k] <= 'z'; }
    assert w == IdentifierTail(s);
    TailIsWord(s);
  }

  // ---------------------------------------------------------------- exactly what slips through

  /** A statement that controls transactions slips through the scanner exactly when an empty statement comes
      first; or a block comment in which another opens comes first, and what stands in it behind the first
      closing mark does not itself look like control; or neither, and its word is not one of the six. */
  lemma SlipsThroughExactly(sql: string)
    requires ServerControls(sql)
    ensures !IsTransactionControl(sql) <==>
      match Part(sql)
      case EmptyStatement => true
      case InsideComment(inside) => !IsTransactionControl(inside)
      case Agree(_) => !IsControlWord(FirstWord(sql, true).word)
  {
    ScannerParts(sql);
    if Part(sql).Agree? {
      ServerAgrees(sql);
      ControlWordsAreSmall(FirstWord(sql, true).word);
      SameWordRead(Part(sql).tail);
    }
  }

  lemma {:induction false} WholeTail(w: string, rest: string)
    requires Alphabetic(w) && (rest == "" || !InIdentifier(rest[0]))
    ensures IdentifierTail(w + rest) == w
  {
    if w == "" {
      assert w + rest == rest;
    } else {
      assert (w + rest)[1..] == w[1..] + rest;
      WholeTail(w[1..], rest);
    }
  }

  lemma WholeWord(w: string, rest: string)
    requires w != "" && Alphabetic(w) && (rest == "" || !InIdentifier(rest[0]))
    ensures Identifier(w + rest) == w
  {
    WholeTail(w, rest);
    assert (w + rest)[0] == w[0];
  }

  lemma {:induction false} SmallStays(w: string)
    requires forall k :: 0 <= k < |w| ==> 'a' <= w[k] <= 'z'
    ensures Lower(w) == w
  {
    if w != "" { SmallStays(w[1..]); }
  }

  /** A word of small letters, not followed by more of an identifier, is read as it is. */
  lemma SmallWordRead(w: string, rest: string, empty: bool)
    requires IsSmall(w) && (rest == "" || !InIdentifier(rest[0]))
    ensures ServerSkip(w + rest, empty) == Some(w + rest) && FirstWord(w + rest, empty) == First(w, rest)
    ensures Part(w + rest) == Agree(w + rest)
  {
    assert (w + rest)[0] == w[0];
    WholeWord(w, rest);
    SmallStays(w);
    assert (w + rest)[|w|..] == rest;
  }

  /** An empty statement in front of COMMIT. */
  lemma EmptyStatementHidesCommit()
    ensures ServerControls(";commit") && !IsTransactionControl(";commit")
  {
    SmallWordRead("commit", "", true);
    assert "commit" + "" == "commit" && ";commit"[1..] == "commit";
    SlipsThroughExactly(";commit");
  }

  lemma SpacesRead(w: string, rest: string)
    requires IsSmall(w) && (rest == "" || !InIdentifier(rest[0]))
    ensures FirstWord([' '] + (w + rest), false) == First(w, rest)
  {
    assert ([' '] + (w + rest))[1..] == w + rest;
    SmallWordRead(w, rest, false);
  }

  /** PREPARE TRANSACTION is not one of the six words. */
  lemma PrepareSlipsThrough(id: string)
    requires id == "" || !InIdentifier(id[0])
    ensures var sql := "prepare" + ([' '] + ("transaction" + id)); ServerControls(sql) && !IsTransactionControl(sql)
  {
    SmallWordRead("prepare", [' '] + ("transaction" + id), true);
    SpacesRead("transaction", id);
    SlipsThroughExactly("prepare" + ([' '] + ("transaction" + id)));
  }

  lemma InsideRead()
    ensures Part("/*" + "/**/commit*/commit") == InsideComment("commit*/commit")
  {
    var u := "/**/commit*/commit";
    var sql := "/*" + u;
    assert sql[2..] == u && !Flat(u);
    assert u[1..] == "**/commit*/commit" && u[1..][1..] == "*/commit*/commit";
    assert u[1..][1..][2..] == "commit*/commit";
    assert SkipBlock(u) == SkipBlock(u[1..]) == SkipBlock(u[1..][1..]) == "commit*/commit";
  }

  lemma InsideRefused()
    ensures IsTransactionControl("commit" + "*/commit")
  {
    WordRead("commit", "*/commit");
    SmallStays("commit");
  }

  /** A nested comment does not always hide what follows it: here the scanner refuses what it takes
      for a statement inside the comment. */
  lemma NestedCommentMayBeRefused()
    ensures Part("/*" + "/**/commit*/commit").InsideComment? && IsTransactionControl("/*" + "/**/commit*/commit")
  {
    InsideRead();
    ScannerParts("/*" + "/**/commit*/commit");
    InsideRefused();
    assert "commit*/commit" == "commit" + "*/commit";
  }
}
