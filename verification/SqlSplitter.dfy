/**
 * The statement splitter of the migration runner (db/_runner.ts:115-208):
 * its loops, proved to compute the chunks of the lexical function, and the
 * round trips of what it returns.
 */
module SqlSplitter {
  import opened SqlLexer
  import opened Text

  // ---- what is kept of the chunks ----

  /** Each chunk trimmed, the empty ones left out. */
  function Trims(chunks: seq<string>): seq<string> {
    if chunks == [] then []
    else (if Trim(chunks[0]) == "" then [] else [Trim(chunks[0])]) + Trims(chunks[1..])
  }

  /** Everything up to the next line feed dropped. */
  function DropLine(s: string): (r: string)
    ensures |r| <= |s|
  {
    if s == "" || s[0] == '\n' then s else DropLine(s[1..])
  }

  function StripLineComments(s: string): string
    decreases |s|
  {
    if s == "" then ""
    else if Pair(s, '-', '-') then StripLineComments(DropLine(s[2..]))
    else [s[0]] + StripLineComments(s[1..])
  }

  /** The position of the first `*` `/` in `s`; |s| if there is none. */
  function BlockEnd(s: string): (n: nat)
    ensures n < |s| ==> n + 2 <= |s| && Pair(s[n..], '*', '/')
    ensures n <= |s|
  {
    if s == "" then 0 else if Pair(s, '*', '/') then 0 else 1 + BlockEnd(s[1..])
  }

  function StripBlockComments(s: string): string
    decreases |s|
  {
    if s == "" then ""
    else if Pair(s, '/', '*') && BlockEnd(s[2..]) < |s| - 2 then StripBlockComments(s[BlockEnd(s[2..]) + 4..])
    else [s[0]] + StripBlockComments(s[1..])
  }

  predicate IsCommentary(c: char) { IsSpace(c) || c == '-' || c == '/' || c == '*' }

  /** A statement is kept exactly if, its comments stripped, something else than white space, dashes, slashes and stars is left. */
  lemma KeepsIffVisible(s: string)
    ensures Keeps(s) <==> exists c :: c in StripBlockComments(StripLineComments(s)) && !IsSpace(c) && c !in "-/*"
  {
    var left := StripBlockComments(StripLineComments(s));
    if Keeps(s) {
      var k :| 0 <= k < |left| && !IsCommentary(left[k]);
      assert left[k] in left;
    }
  }

  predicate HasVisible(s: string) { exists k :: 0 <= k < |s| && !IsCommentary(s[k]) }

  predicate Keeps(s: string) { HasVisible(StripBlockComments(StripLineComments(s))) }

  function Kept(statements: seq<string>): seq<string> {
    if statements == [] then []
    else (if Keeps(statements[0]) then [statements[0]] else []) + Kept(statements[1..])
  }

  /** What splitting `sql` has to return. */
  function Statements(sql: string): seq<string> { Kept(Trims(Chunks(sql, Top))) }

  // ---- the scanner ----

  /** The chunks still to come when `current` has been collected and `sql` is read from `i` on in state `l`. */
  ghost function Pending(current: string, sql: string, i: nat, l: Lex): (r: seq<string>)
    requires i <= |sql|
    ensures r != []
  {
    Prepend(current, Chunks(sql[i..], l))
  }

  lemma Advance(current: string, sql: string, i: nat, l: Lex)
    requires i < |sql| && !CutsHere(sql[i..], l)
    ensures Pending(current, sql, i, l) == Pending(current + [sql[i]], sql, i + 1, Step(sql[i..], l))
  {
    var s := sql[i..];
    assert s[1..] == sql[i + 1..];
    PrependTwice(current, [s[0]], Chunks(s[1..], Step(s, l)));
  }

  lemma {:induction false} SkipRun(current: string, sql: string, i: nat, mode: Mode, k: nat)
    requires i + k <= |sql|
    ensures Pending(current, sql, i, Lex(mode, k)) == Pending(current + sql[i..i + k], sql, i + k, Lex(mode, 0))
    decreases k
  {
    if k == 0 {
      assert current + sql[i..i] == current;
    } else {
      Advance(current, sql, i, Lex(mode, k));
      SkipRun(current + [sql[i]], sql, i + 1, mode, k - 1);
      assert current + [sql[i]] + sql[i + 1..i + k] == current + sql[i..i + k];
    }
  }

  lemma {:induction false} DollarRun(current: string, sql: string, i: nat, end: nat, tag: Tag)
    requires i <= end <= |sql|
    requires forall k :: i <= k < end ==> !(tag <= sql[k..])
    ensures Pending(current, sql, i, Lex(Dollar(tag), 0)) == Pending(current + sql[i..end], sql, end, Lex(Dollar(tag), 0))
    decreases end - i
  {
    if i == end {
      assert current + sql[i..end] == current;
    } else {
      Advance(current, sql, i, Lex(Dollar(tag), 0));
      DollarRun(current + [sql[i]], sql, i + 1, end, tag);
      assert current + [sql[i]] + sql[i + 1..end] == current + sql[i..end];
    }
  }

  /** At the end of the text the state no longer matters; a line feed ends a line comment and is nothing at the top. */
  lemma Resume(current: string, sql: string, i: nat, l: Lex)
    requires i <= |sql|
    requires i == |sql| || (l == Lex(LineComment, 0) && (sql[i] == '\n' || Pair(sql[i..], '-', '-')))
    ensures Pending(current, sql, i, l) == Pending(current, sql, i, Top)
  {
  }

  method ReadLineComment(sql: string, start: nat, collected: string) returns (i: nat, current: string)
    requires start < |sql| && Pair(sql[start..], '-', '-')
    ensures start < i <= |sql|
    ensures Pending(current, sql, i, Top) == Pending(collected, sql, start, Top)
  {
    i, current := start, collected;
    Resume(current, sql, i, Lex(LineComment, 0));
    while i < |sql| && sql[i] != '\n'
      invariant start <= i <= |sql|
      invariant i == start ==> sql[i] != '\n'
      invariant Pending(current, sql, i, Lex(LineComment, 0)) == Pending(collected, sql, start, Top)
    {
      Advance(current, sql, i, Lex(LineComment, 0));
      current := current + [sql[i]];
      i := i + 1;
    }
    Resume(current, sql, i, Lex(LineComment, 0));
  }

  /** A token of two characters. */
  lemma PairIsRead(current: string, sql: string, i: nat, l: Lex, mode: Mode, text: string)
    requires i + 2 <= |sql| && !CutsHere(sql[i..], l) && Step(sql[i..], l) == Lex(mode, 1)
    requires |text| == 2 && sql[i] == text[0] && sql[i + 1] == text[1]
    ensures Pending(current, sql, i, l) == Pending(current + text, sql, i + 2, Lex(mode, 0))
  {
    Advance(current, sql, i, l);
    SkipRun(current + [sql[i]], sql, i + 1, mode, 1);
    assert current + [sql[i]] + sql[i + 1..i + 2] == current + text;
  }

  method ReadBlockComment(sql: string, start: nat, collected: string) returns (i: nat, current: string)
    requires start < |sql| && Pair(sql[start..], '/', '*')
    ensures start < i <= |sql|
    ensures Pending(current, sql, i, Top) == Pending(collected, sql, start, Top)
  {
    PairIsRead(collected, sql, start, Top, BlockComment, "/*");
    current := collected + "/*";
    i := start + 2;
    while i < |sql| && !(sql[i] == '*' && i + 1 < |sql| && sql[i + 1] == '/')
      invariant start < i <= |sql|
      invariant Pending(current, sql, i, Lex(BlockComment, 0)) == Pending(collected, sql, start, Top)
    {
      Advance(current, sql, i, Lex(BlockComment, 0));
      current := current + [sql[i]];
      i := i + 1;
    }
    if i < |sql| {
      PairIsRead(current, sql, i, Lex(BlockComment, 0), Normal, "*/");
      current := current + "*/";
      i := i + 2;
    } else {
      Resume(current, sql, i, Lex(BlockComment, 0));
    }
  }

  method ReadString(sql: string, start: nat, collected: string) returns (i: nat, current: string)
    requires start < |sql| && sql[start] == '\''
    ensures start < i <= |sql|
    ensures Pending(current, sql, i, Top) == Pending(collected, sql, start, Top)
  {
    Advance(collected, sql, start, Top);
    current := collected + [sql[start]];
    i := start + 1;
    while i < |sql|
      invariant start < i <= |sql|
      invariant Pending(current, sql, i, Lex(Quote, 0)) == Pending(collected, sql, start, Top)
    {
      if sql[i] == '\'' && i + 1 < |sql| && sql[i + 1] == '\'' {
        PairIsRead(current, sql, i, Lex(Quote, 0), Quote, "''");
        current := current + "''";
        i := i + 2;
        continue;
      }
      Advance(current, sql, i, Lex(Quote, 0));
      current := current + [sql[i]];
      if sql[i] == '\'' {
        i := i + 1;
        return;
      }
      i := i + 1;
    }
    Resume(current, sql, i, Lex(Quote, 0));
  }

  /** Where `tag` first occurs in `sql` at or after `from`, if it does. */
  function IndexOf(sql: string, tag: string, from: nat): (n: int)
    requires from <= |sql| && tag != ""
    ensures n == -1 ==> forall k :: from <= k <= |sql| ==> !(tag <= sql[k..])
    ensures n != -1 ==> from <= n && n + |tag| <= |sql| && tag <= sql[n..] && forall k :: from <= k < n ==> !(tag <= sql[k..])
    decreases |sql| - from
  {
    if tag <= sql[from..] then from
    else if from == |sql| then -1
    else IndexOf(sql, tag, from + 1)
  }

  lemma OpeningTag(current: string, sql: string, i: nat)
    requires i < |sql| && sql[i] == '$' && TagLength(sql[i..]) > 0
    ensures var n := TagLength(sql[i..]);
      && i + n <= |sql|
      && Pending(current, sql, i, Top) == Pending(current + sql[i..][..n], sql, i + n, Lex(Dollar(sql[i..][..n]), 0))
  {
    var n := TagLength(sql[i..]);
    Advance(current, sql, i, Top);
    TagBegins(sql[i..]);
    SkipRun(current + [sql[i]], sql, i + 1, Dollar(sql[i..][..n]), n - 1);
    assert current + [sql[i]] + sql[i + 1..i + n] == current + sql[i..][..n];
  }

  lemma TagBegins(s: string)
    requires s != "" && s[0] == '$' && TagLength(s) > 0
    ensures Step(s, Top) == Lex(Dollar(s[..TagLength(s)]), TagLength(s) - 1)
  {
  }

  lemma ClosingTag(current: string, sql: string, end: nat, tag: Tag)
    requires end + |tag| <= |sql| && tag <= sql[end..]
    ensures Pending(current, sql, end, Lex(Dollar(tag), 0)) == Pending(current + sql[end..end + |tag|], sql, end + |tag|, Top)
  {
    Advance(current, sql, end, Lex(Dollar(tag), 0));
    SkipRun(current + [sql[end]], sql, end + 1, Normal, |tag| - 1);
    assert current + [sql[end]] + sql[end + 1..end + |tag|] == current + sql[end..end + |tag|];
  }

  lemma Closed(current: string, sql: string, i: nat, end: nat, tag: Tag)
    requires i <= end && end + |tag| <= |sql| && tag <= sql[end..]
    requires forall k :: i <= k < end ==> !(tag <= sql[k..])
    ensures Pending(current, sql, i, Lex(Dollar(tag), 0)) == Pending(current + sql[i..end + |tag|], sql, end + |tag|, Top)
  {
    DollarRun(current, sql, i, end, tag);
    ClosingTag(current + sql[i..end], sql, end, tag);
    assert current + sql[i..end] + sql[end..end + |tag|] == current + sql[i..end + |tag|];
  }

  lemma Unclosed(current: string, sql: string, i: nat, tag: Tag)
    requires i <= |sql|
    requires forall k :: i <= k <= |sql| ==> !(tag <= sql[k..])
    ensures Pending(current, sql, i, Lex(Dollar(tag), 0)) == Pending(current + sql[i..], sql, |sql|, Top)
  {
    DollarRun(current, sql, i, |sql|, tag);
    assert sql[i..|sql|] == sql[i..];
    Resume(current + sql[i..], sql, |sql|, Lex(Dollar(tag), 0));
  }

  /** From behind the opening tag to behind the closing one, or to the end of the text. */
  method ReadDollarBody(sql: string, start: nat, collected: string, tag: Tag) returns (i: nat, current: string)
    requires start <= |sql|
    ensures start <= i <= |sql|
    ensures Pending(current, sql, i, Top) == Pending(collected, sql, start, Lex(Dollar(tag), 0))
  {
    var end := IndexOf(sql, tag, start);
    if end == -1 {
      Unclosed(collected, sql, start, tag);
      current := collected + sql[start..];
      i := |sql|;
    } else {
      Closed(collected, sql, start, end, tag);
      current := collected + sql[start..end + |tag|];
      i := end + |tag|;
    }
  }

  method ReadDollarString(sql: string, start: nat, collected: string) returns (i: nat, current: string)
    requires start < |sql| && sql[start] == '$' && TagLength(sql[start..]) > 0
    ensures start < i <= |sql|
    ensures Pending(current, sql, i, Top) == Pending(collected, sql, start, Top)
  {
    var length := TagLength(sql[start..]);
    var tag: Tag := sql[start..][..length];
    OpeningTag(collected, sql, start);
    i, current := ReadDollarBody(sql, start + length, collected + tag, tag);
  }

  lemma {:induction false} TrimsConcat(a: seq<string>, b: seq<string>)
    ensures Trims(a + b) == Trims(a) + Trims(b)
  {
    if a == [] {
      assert a + b == b;
    } else {
      assert (a + b)[1..] == a[1..] + b;
      TrimsConcat(a[1..], b);
    }
  }

  /** A statement semicolon closes the current chunk. */
  lemma CutHere(current: string, sql: string, i: nat)
    requires i < |sql| && sql[i] == ';'
    ensures Pending(current, sql, i, Top) == [current] + Pending("", sql, i + 1, Top)
  {
    assert sql[i..][1..] == sql[i + 1..];
    var rest := Chunks(sql[i + 1..], Top);
    assert current + "" == current && "" + rest[0] == rest[0];
    assert ([""] + rest)[1..] == rest;
  }

  lemma CloseChunk(raw: seq<string>, current: string, more: seq<string>)
    ensures raw + ([current] + more) == raw + [current] + more
    ensures Trims(raw + [current]) == Trims(raw) + (if Trim(current) == "" then [] else [Trim(current)])
  {
    TrimsConcat(raw, [current]);
    assert Trims([current][1..]) == [];
  }

  /** One turn of the loop at anything but a semicolon: a comment, a string, a dollar string or a character is copied. */
  method ReadToken(sql: string, start: nat, collected: string) returns (i: nat, current: string)
    requires start < |sql| && sql[start] != ';'
    ensures start < i <= |sql|
    ensures Pending(current, sql, i, Top) == Pending(collected, sql, start, Top)
  {
    var ch := sql[start];
    if ch == '-' && start + 1 < |sql| && sql[start + 1] == '-' {
      i, current := ReadLineComment(sql, start, collected);
    } else if ch == '/' && start + 1 < |sql| && sql[start + 1] == '*' {
      i, current := ReadBlockComment(sql, start, collected);
    } else if ch == '\'' {
      i, current := ReadString(sql, start, collected);
    } else if ch == '$' && TagLength(sql[start..]) > 0 {
      i, current := ReadDollarString(sql, start, collected);
    } else {
      Advance(collected, sql, start, Top);
      i, current := start + 1, collected + [ch];
    }
  }

  /** The scanner computes exactly the chunks of the lexical function, trimmed and filtered. */
  method SplitSqlStatements(sql: string) returns (result: seq<string>)
    ensures result == Statements(sql)
  {
    var statements: seq<string> := [];
    var current := "";
    var i := 0;
    ghost var raw: seq<string> := [];
    assert sql[0..] == sql && "" + Chunks(sql, Top)[0] == Chunks(sql, Top)[0];
    while i < |sql|
      invariant i <= |sql|
      invariant statements == Trims(raw)
      invariant Chunks(sql, Top) == raw + Pending(current, sql, i, Top)
    {
      if sql[i] != ';' {
        i, current := ReadToken(sql, i, current);
        continue;
      }
      CutHere(current, sql, i);
      CloseChunk(raw, current, Pending("", sql, i + 1, Top));
      var trimmed := Trim(current);
      if trimmed != "" { statements := statements + [trimmed]; }
      raw := raw + [current];
      current := "";
      i := i + 1;
    }
    LastChunk(raw, current, sql, i);
    var tail := Trim(current);
    if tail != "" { statements := statements + [tail]; }
    assert statements == Trims(Chunks(sql, Top));
    result := Kept(statements);
  }

  lemma LastChunk(raw: seq<string>, current: string, sql: string, i: nat)
    requires i == |sql| && Chunks(sql, Top) == raw + Pending(current, sql, i, Top)
    ensures Chunks(sql, Top) == raw + [current]
    ensures Trims(Chunks(sql, Top)) == Trims(raw) + (if Trim(current) == "" then [] else [Trim(current)])
  {
    assert Pending(current, sql, i, Top) == [current] by { assert current + "" == current; }
    CloseChunk(raw, current, []);
  }

  // ---- round trips ----

  /** A statement as the splitter returns it. */
  ghost predicate Settled(t: string) {
    |Chunks(t, Top)| == 1 && t != "" && Trim(t) == t && Keeps(t)
  }

  /** A line feed behind it brings the lexer back to the top. */
  ghost predicate ClosedByNewline(t: string) {
    After(t, Top) == Top || After(t, Top) == Lex(LineComment, 0)
  }

  ghost predicate Printable(list: seq<string>) {
    list == [] || (Settled(list[0]) && (|list| > 1 ==> ClosedByNewline(list[0])) && Printable(list[1..]))
  }

  lemma {:induction false} TrimStartReads(c: string)
    ensures |Chunks(TrimStart(c), Top)| == |Chunks(c, Top)|
    ensures After(TrimStart(c), Top) == After(c, Top)
    ensures TrimStart(c) == "" || !IsSpace(TrimStart(c)[0])
  {
    if c != "" && IsSpace(c[0]) {
      assert TagLength(c) == 0 && Step(c, Top) == Top;
      TrimStartReads(c[1..]);
    }
  }

  lemma TrimIsIdempotent(c: string)
    ensures Trim(Trim(c)) == Trim(c)
  {
    TrimStartReads(c);
    assert Trim(c) != "" ==> Trim(c)[0] == TrimStart(c)[0];
  }

  /** Dropping white space from the end of a text without a cut. */
  lemma DroppedSpaceCutsNothing(t: string, w: string, l: Lex)
    requires |Chunks(t + w, l)| == 1 && forall c <- w :: IsSpace(c)
    ensures |Chunks(t, l)| == 1
  {
    if w == "" {
      assert t + w == t;
    } else {
      assert w[0] in w;
      ReadsOn(t, w, l);
    }
  }

  lemma DroppedSpaceLeavesClosed(t: string, w: string)
    requires After(t + w, Top) == Top && forall c <- w :: IsSpace(c)
    ensures ClosedByNewline(t)
  {
    if w == "" {
      assert t + w == t;
    } else {
      assert w[0] in w;
      ReadsOn(t, w, Top);
      NeverInsideAToken(t, Top);
      SpaceToTop(w, After(t, Top));
    }
  }

  lemma TrimmedChunk(c: string)
    requires |Chunks(c, Top)| == 1
    ensures |Chunks(Trim(c), Top)| == 1
    ensures After(c, Top) == Top ==> ClosedByNewline(Trim(c))
  {
    TrimStartReads(c);
    TrimmedEnd(TrimStart(c));
  }

  lemma TrimmedEnd(u: string)
    requires |Chunks(u, Top)| == 1
    ensures |Chunks(TrimEnd(u), Top)| == 1
    ensures After(u, Top) == Top ==> ClosedByNewline(TrimEnd(u))
  {
    var t := TrimEnd(u);
    var w := u[|t|..];
    assert u == t + w;
    forall c <- w ensures IsSpace(c) {
      var k :| 0 <= k < |w| && w[k] == c;
      assert c == u[|t| + k];
    }
    DroppedSpaceCutsNothing(t, w, Top);
    if After(u, Top) == Top { DroppedSpaceLeavesClosed(t, w); }
  }

  function Only(t: string): seq<string> { if t != "" && Keeps(t) then [t] else [] }

  lemma FirstStatement(c: string, rest: seq<string>)
    ensures Kept(Trims([c] + rest)) == Only(Trim(c)) + Kept(Trims(rest))
  {
    var t := Trim(c);
    var more := Trims(rest);
    assert ([c] + rest)[1..] == rest;
    if t == "" {
      assert Trims([c] + rest) == more;
    } else {
      assert Trims([c] + rest) == [t] + more;
      assert ([t] + more)[1..] == more;
    }
  }

  lemma PrintableCons(t: string, rest: seq<string>)
    requires Printable(rest) && Settled(t) && (rest != [] ==> ClosedByNewline(t))
    ensures Printable([t] + rest)
  {
    assert ([t] + rest)[1..] == rest;
  }

  lemma FirstIsPrintable(c: string, rest: seq<string>)
    requires |Chunks(c, Top)| == 1 && (rest != [] ==> After(c, Top) == Top)
    requires Printable(Kept(Trims(rest)))
    ensures Printable(Kept(Trims([c] + rest)))
  {
    TrimmedChunk(c);
    TrimIsIdempotent(c);
    FirstStatement(c, rest);
    var t := Trim(c);
    if t != "" && Keeps(t) {
      PrintableCons(t, Kept(Trims(rest)));
    } else {
      assert Only(t) + Kept(Trims(rest)) == Kept(Trims(rest));
    }
  }

  lemma {:induction false} StatementsArePrintable(s: string)
    ensures Printable(Statements(s))
    decreases |s|
  {
    var cs := Chunks(s, Top);
    FirstChunk(s, Top);
    if |cs| > 1 { StatementsArePrintable(s[|cs[0]| + 1..]); }
    FirstIsPrintable(cs[0], cs[1..]);
    assert cs == [cs[0]] + cs[1..];
  }

  lemma TrimsIgnoreLeadingNewline(chunks: seq<string>)
    requires chunks != []
    ensures Trims(Prepend("\n", chunks)) == Trims(chunks)
  {
    assert ("\n" + chunks[0])[1..] == chunks[0];
    assert Prepend("\n", chunks)[1..] == chunks[1..];
  }

  lemma TrimIgnoresTrailingNewline(t: string)
    requires t != "" && Trim(t) == t
    ensures Trim(t + "\n") == t
  {
    TrimStartReads(t);
    assert t[0] == TrimStart(t)[0];
    assert (t + "\n")[..|t|] == t;
  }

  /** The chunks of a statement, the separator and more text. */
  lemma SeparatorCuts(t: string, more: string)
    requires |Chunks(t, Top)| == 1 && ClosedByNewline(t)
    ensures Chunks(t + "\n;\n" + more, Top) == [t + "\n"] + Prepend("\n", Chunks(more, Top))
  {
    var sep := "\n;\n" + more;
    assert t + "\n;\n" + more == t + sep;
    UncutPrefix(t, sep, Top);
    var l := After(t, Top);
    assert sep[1..] == ";\n" + more && sep[1..][1..] == "\n" + more && ("\n" + more)[1..] == more;
    assert Step(sep, l) == Top;
    var last := Chunks(sep[1..][1..], Top);
    assert last == Prepend("\n", Chunks(more, Top));
    assert Chunks(sep[1..], Top) == [""] + last;
    assert Chunks(sep, l) == Prepend("\n", [""] + last);
    assert ([""] + last)[1..] == last && "\n" + "" == "\n";
  }

  lemma {:induction false} PrintedSplitsBack(list: seq<string>)
    requires Printable(list)
    ensures Statements(Join(list, "\n;\n")) == list
  {
    if list == [] {
      assert Trims([""]) == [];
    } else if |list| == 1 {
      FirstChunk(list[0], Top);
      FirstStatement(list[0], []);
      assert Chunks(list[0], Top) == [list[0]] + [];
    } else {
      var t := list[0];
      var more := Join(list[1..], "\n;\n");
      SeparatorCuts(t, more);
      FirstStatement(t + "\n", Prepend("\n", Chunks(more, Top)));
      TrimIgnoresTrailingNewline(t);
      TrimsIgnoreLeadingNewline(Chunks(more, Top));
      PrintedSplitsBack(list[1..]);
    }
  }

  /** Printing what was split, one statement to a line, and splitting it again gives the same list. */
  lemma SplitPrintSplit(sql: string)
    ensures Statements(Join(Statements(sql), "\n;\n")) == Statements(sql)
  {
    StatementsArePrintable(sql);
    PrintedSplitsBack(Statements(sql));
  }

  lemma {:induction false} PrintableElement(list: seq<string>, t: string)
    requires Printable(list) && t in list
    ensures Settled(t)
  {
    if t != list[0] { PrintableElement(list[1..], t); }
  }

  /** A returned statement is one statement: split by itself it comes back unchanged. */
  lemma StatementIsOneStatement(sql: string, t: string)
    requires t in Statements(sql)
    ensures Statements(t) == [t]
  {
    StatementsArePrintable(sql);
    PrintableElement(Statements(sql), t);
    SettledSplitsBack(t);
  }

  lemma SettledSplitsBack(t: string)
    requires Settled(t)
    ensures Statements(t) == [t]
  {
    assert [t][1..] == [] && Printable([t]) && Join([t], "\n;\n") == t;
    PrintedSplitsBack([t]);
  }
}
