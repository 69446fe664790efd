/**
 * What the splitter's last step keeps (db/_runner.ts:202-207). It is meant to
 * drop the statements that are comments only. It strips line comments first
 * and block comments second, so a `--` inside a block comment can take the
 * comment's end away. Here is exactly for which statements it still judges right.
 */
module SqlFilter {
  import opened SqlLexer
  import opened SqlSplitter
  import opened Text

  /** A character outside all comments that is not commentary: the statement has something to execute. */
  ghost predicate HasCode(s: string, l: Lex) {
    s != "" && ((l == Top && !IsCommentary(s[0])) || HasCode(s[1..], Step(s, l)))
  }

  predicate NoDashes(p: string) {
    forall k :: 0 <= k < |p| - 1 ==> !(p[k] == '-' && p[k + 1] == '-')
  }

  function LastLine(p: string): string
    decreases |p|
  {
    if DropLine(p) == "" then p else LastLine(DropLine(p)[1..])
  }

  /** There is no end of a block comment in `s`. */
  predicate NeverEnds(s: string) { BlockEnd(s) == |s| }

  /** The text inside the closed block comment that `s` begins with, and what is behind it. */
  function Inside(s: string): string
    requires |s| >= 2
  {
    s[2..][..BlockEnd(s[2..])]
  }

  function Behind(s: string): string
    requires |s| >= 2 && !NeverEnds(s[2..])
  {
    s[2..][BlockEnd(s[2..]) + 2..]
  }

  /**
   * What the filter sees of a block comment whose last line has dashes:
   * `left` of the comment's own text, and the lines `below`. The comment runs
   * on to the next end of a comment there, if there is one.
   */
  predicate SeesCode(left: string, below: string) {
    if NeverEnds(below) then HasVisible(left) || HasVisible(below)
    else HasVisible(StripBlockComments(below[BlockEnd(below) + 2..]))
  }

  /**
   * The comments in front of the first code character do not mislead the
   * filter. For a comment with dashes on its last line this only unfolds the
   * filter once and compares; the guard to check beforehand is PlainlyCommented.
   */
  ghost predicate JudgedRight(s: string)
    decreases |s|
  {
    if s == "" then true
    else if Pair(s, '-', '-') then JudgedRight(DropLine(s[2..]))
    else if Pair(s, '/', '*') then
      if NeverEnds(s[2..]) then !HasVisible(StripLineComments(s[2..]))
      else if NoDashes(LastLine(Inside(s))) then JudgedRight(Behind(s))
      else HasCode(Behind(s), Top) <==> SeesCode(StripLineComments(Inside(s)), StripLineComments(DropLine(Behind(s))))
    else !IsCommentary(s[0]) || JudgedRight(s[1..])
  }

  /** Every block comment in front of the first code character is closed and has no `--` on its last line. */
  predicate PlainlyCommented(s: string)
    decreases |s|
  {
    if s == "" then true
    else if Pair(s, '-', '-') then PlainlyCommented(DropLine(s[2..]))
    else if Pair(s, '/', '*') then
      !NeverEnds(s[2..]) && NoDashes(LastLine(Inside(s))) && PlainlyCommented(Behind(s))
    else !IsCommentary(s[0]) || PlainlyCommented(s[1..])
  }

  // ---- comments hide what is in them ----

  lemma {:induction false} LineHidesCode(s: string)
    ensures HasCode(s, Lex(LineComment, 0)) <==> HasCode(DropLine(s), Top)
  {
    if s != "" {
      if s[0] == '\n' { assert Step(s, Top) == Top; } else { LineHidesCode(s[1..]); }
    }
  }

  lemma {:induction false} BlockHidesCode(s: string)
    ensures HasCode(s, Lex(BlockComment, 0)) <==> !NeverEnds(s) && HasCode(s[BlockEnd(s) + 2..], Top)
  {
    if s == "" {
    } else if Pair(s, '*', '/') {
      assert Step(s[1..], Lex(Normal, 1)) == Top;
      assert s[1..][1..] == s[2..];
    } else {
      BlockHidesCode(s[1..]);
      if !NeverEnds(s) { assert s[1..][BlockEnd(s[1..]) + 2..] == s[BlockEnd(s) + 2..]; }
    }
  }

  /** So behind a comment the code is what is behind the comment. */
  lemma CommentHidesCode(s: string)
    requires Pair(s, '/', '*')
    ensures HasCode(s, Top) <==> !NeverEnds(s[2..]) && HasCode(Behind(s), Top)
  {
    assert s[1..][1..] == s[2..] && Step(s[1..], Lex(BlockComment, 1)) == Lex(BlockComment, 0);
    BlockHidesCode(s[2..]);
  }

  // ---- stripping line comments ----

  lemma {:induction false} DropLineStops(s: string)
    ensures DropLine(s) == "" || DropLine(s)[0] == '\n'
  {
    if s != "" && s[0] != '\n' { DropLineStops(s[1..]); }
  }

  lemma {:induction false} DropLineConcat(s: string, x: string)
    ensures DropLine(s + x) == if DropLine(s) == "" then DropLine(x) else DropLine(s) + x
  {
    if s == "" {
      assert s + x == x;
    } else if s[0] != '\n' {
      assert (s + x)[1..] == s[1..] + x;
      DropLineConcat(s[1..], x);
    }
  }

  lemma DashesEndLater(s: string)
    requires Pair(s, '-', '-')
    ensures DropLine(s) == DropLine(s[2..])
    ensures DropLine(s) != "" ==> LastLine(s) == LastLine(DropLine(s[2..]))
  {
    assert s[1..][1..] == s[2..];
    DropLineStops(s[2..]);
  }

  lemma LastLineOfRest(s: string)
    requires s != "" && !Pair(s, '-', '-')
    ensures NoDashes(LastLine(s)) <==> NoDashes(LastLine(s[1..]))
  {
    if s[0] != '\n' && DropLine(s) == "" {
      assert LastLine(s) == s && LastLine(s[1..]) == s[1..];
      NoDashesOfRest(s);
    }
  }

  lemma NoDashesOfRest(s: string)
    requires s != "" && !Pair(s, '-', '-')
    ensures NoDashes(s) <==> NoDashes(s[1..])
  {
    var r := s[1..];
    if NoDashes(r) {
      forall k | 0 <= k < |s| - 1 ensures !(s[k] == '-' && s[k + 1] == '-') {
        if k > 0 { assert r[k - 1] == s[k] && r[k - 1 + 1] == s[k + 1]; }
      }
    }
    if NoDashes(s) {
      forall k | 0 <= k < |r| - 1 ensures !(r[k] == '-' && r[k + 1] == '-') {
        assert r[k] == s[k + 1] && r[k + 1] == s[k + 1 + 1];
      }
    }
  }

  lemma StripOneCharacter(u: string, x: string)
    requires u != "" && !Pair(u, '-', '-') && (|u| > 1 || x == "" || x[0] != '-')
    ensures StripLineComments(u + x) == [u[0]] + StripLineComments(u[1..] + x)
  {
    var s := u + x;
    assert s[1..] == u[1..] + x;
    assert |s| > 1 ==> s[1] == (if |u| > 1 then u[1] else x[0]);
  }

  lemma StripOneLine(u: string, x: string)
    requires Pair(u, '-', '-')
    ensures StripLineComments(u + x) == StripLineComments(if DropLine(u) == "" then DropLine(x) else DropLine(u[2..]) + x)
  {
    DashesEndLater(u);
    assert Pair(u + x, '-', '-') && (u + x)[2..] == u[2..] + x;
    DropLineConcat(u[2..], x);
  }

  /** Up to a line without dashes, stripping goes through text by text. */
  lemma {:induction false} StripPasses(u: string, x: string)
    requires NoDashes(LastLine(u)) && (x == "" || x[0] != '-')
    ensures StripLineComments(u + x) == StripLineComments(u) + StripLineComments(x)
    decreases |u|
  {
    if u == "" {
      assert u + x == x;
    } else if Pair(u, '-', '-') {
      DashesEndLater(u);
      DashesOnTheOnlyLine(u);
      StripOneLine(u, x);
      StripPasses(DropLine(u[2..]), x);
    } else {
      LastLineOfRest(u);
      StripOneCharacter(u, x);
      StripPasses(u[1..], x);
      Associate([u[0]], StripLineComments(u[1..]), StripLineComments(x));
    }
  }

  lemma Associate(a: string, b: string, c: string)
    ensures a + (b + c) == a + b + c
  {
  }

  lemma DashesOnTheOnlyLine(u: string)
    requires Pair(u, '-', '-')
    ensures DropLine(u) == "" ==> !NoDashes(LastLine(u))
  {
    assert u[0] == '-' && u[0 + 1] == '-';
  }

  /** From a line with dashes on, everything up to the next line feed goes. */
  lemma {:induction false} StripSwallows(u: string, x: string)
    requires !NoDashes(LastLine(u))
    ensures StripLineComments(u + x) == StripLineComments(u) + StripLineComments(DropLine(x))
    decreases |u|
  {
    if Pair(u, '-', '-') {
      DashesEndLater(u);
      StripOneLine(u, x);
      if DropLine(u[2..]) != "" { StripSwallows(DropLine(u[2..]), x); }
    } else {
      LastLineOfRest(u);
      assert |u| >= 2;
      StripOneCharacter(u, x);
      StripSwallows(u[1..], x);
      Associate([u[0]], StripLineComments(u[1..]), StripLineComments(DropLine(x)));
    }
  }

  /** The first character that is left is the first one, or a line feed. */
  lemma StripStartsAlike(s: string)
    ensures var r := StripLineComments(s); r != "" ==> r[0] == '\n' || (s != "" && r[0] == s[0])
  {
    if Pair(s, '-', '-') {
      var line := DropLine(s[2..]);
      DropLineStops(s[2..]);
      if line != "" { assert StripLineComments(line)[0] == '\n'; }
    }
  }

  lemma {:induction false} NeverEndsDropped(s: string)
    requires NeverEnds(s)
    ensures NeverEnds(DropLine(s))
  {
    if s != "" && s[0] != '\n' { NeverEndsDropped(s[1..]); }
  }

  lemma NeverEndsLater(s: string)
    requires NeverEnds(s) && s != ""
    ensures NeverEnds(s[1..]) && !Pair(s, '*', '/')
  {
  }

  lemma NeverEndsCons(c: char, v: string)
    requires NeverEnds(v) && !(c == '*' && v != "" && v[0] == '/')
    ensures NeverEnds([c] + v)
  {
    assert ([c] + v)[1..] == v;
  }

  /** Stripping line comments makes no end of a block comment. */
  lemma {:induction false} StripMakesNoEnd(u: string)
    requires NeverEnds(u)
    ensures NeverEnds(StripLineComments(u))
    decreases |u|
  {
    if u == "" {
    } else if Pair(u, '-', '-') {
      assert u[1..][1..] == u[2..];
      NeverEndsLater(u);
      NeverEndsLater(u[1..]);
      NeverEndsDropped(u[2..]);
      StripMakesNoEnd(DropLine(u[2..]));
    } else {
      NeverEndsLater(u);
      StripMakesNoEnd(u[1..]);
      StripStartsAlike(u[1..]);
      NeverEndsCons(u[0], StripLineComments(u[1..]));
    }
  }

  // ---- stripping block comments ----

  lemma {:induction false} EndBehind(v: string, t: string)
    requires NeverEnds(v)
    ensures BlockEnd(v + "*/" + t) == |v|
  {
    var s := v + "*/" + t;
    if v == "" {
      assert s == "*/" + t && Pair(s, '*', '/');
    } else {
      assert s[1..] == v[1..] + "*/" + t;
      assert s[0] == v[0] && s[1] == (if |v| > 1 then v[1] else '*');
      EndBehind(v[1..], t);
    }
  }

  lemma {:induction false} EndFurtherOn(v: string, t: string)
    requires NeverEnds(v) && (t == "" || t[0] == '\n')
    ensures BlockEnd(v + t) == |v| + BlockEnd(t)
  {
    if v == "" {
      assert v + t == t;
    } else {
      assert (v + t)[1..] == v[1..] + t;
      if |v| > 1 { assert (v + t)[1] == v[1]; }
      EndFurtherOn(v[1..], t);
    }
  }

  lemma {:induction false} UpToTheEnd(s: string)
    ensures NeverEnds(s[..BlockEnd(s)])
  {
    if s != "" && !Pair(s, '*', '/') {
      var p := s[..BlockEnd(s)];
      assert p[1..] == s[1..][..BlockEnd(s[1..])];
      UpToTheEnd(s[1..]);
    }
  }

  lemma {:induction false} NothingToStrip(y: string)
    requires NeverEnds(y)
    ensures StripBlockComments(y) == y
    decreases |y|
  {
    if y != "" {
      if |y| >= 2 { assert y[1..][1..] == y[2..]; }
      NothingToStrip(y[1..]);
    }
  }

  /** What is left of a block comment and the text `z` behind its opening. */
  lemma StripOpened(z: string)
    ensures StripBlockComments("/*" + z)
         == if NeverEnds(z) then "/*" + z else StripBlockComments(z[BlockEnd(z) + 2..])
  {
    var s := "/*" + z;
    assert s[2..] == z && s[1..] == "*" + z && ("*" + z)[1..] == z;
    if NeverEnds(z) {
      NothingToStrip(z);
      assert StripBlockComments("*" + z) == "*" + z;
      assert "/" + ("*" + z) == "/*" + z;
    } else {
      assert s[BlockEnd(z) + 4..] == z[BlockEnd(z) + 2..];
    }
  }

  lemma VisibleBehind(c: char, z: string)
    ensures HasVisible([c] + z) <==> !IsCommentary(c) || HasVisible(z)
  {
    var s := [c] + z;
    if !IsCommentary(c) { assert !IsCommentary(s[0]); }
    if HasVisible(z) {
      var k :| 0 <= k < |z| && !IsCommentary(z[k]);
      assert !IsCommentary(s[k + 1]);
    }
    assert forall k :: 0 < k < |s| ==> s[k] == z[k - 1];
  }

  lemma VisibleInEither(a: string, b: string)
    ensures HasVisible(a + b) <==> HasVisible(a) || HasVisible(b)
  {
    var s := a + b;
    if HasVisible(a) {
      var k :| 0 <= k < |a| && !IsCommentary(a[k]);
      assert !IsCommentary(s[k]);
    }
    if HasVisible(b) {
      var k :| 0 <= k < |b| && !IsCommentary(b[k]);
      assert !IsCommentary(s[|a| + k]);
    }
    if HasVisible(s) {
      var k :| 0 <= k < |s| && !IsCommentary(s[k]);
      assert if k < |a| then !IsCommentary(a[k]) else !IsCommentary(b[k - |a|]);
    }
  }

  lemma VisibleOpened(z: string)
    ensures HasVisible("/*" + z) <==> HasVisible(z)
  {
    assert "/*" + z == ['/'] + (['*'] + z);
    VisibleBehind('*', z);
    VisibleBehind('/', ['*'] + z);
  }

  // ---- the filter on what a statement begins with ----

  lemma StripOpening(s: string)
    requires Pair(s, '/', '*')
    ensures StripLineComments(s) == "/*" + StripLineComments(s[2..])
  {
    assert s[1..][1..] == s[2..];
    assert "/" + ("*" + StripLineComments(s[2..])) == "/*" + StripLineComments(s[2..]);
  }

  lemma Opened(s: string)
    requires Pair(s, '/', '*') && !NeverEnds(s[2..])
    ensures NeverEnds(Inside(s)) && s[2..] == Inside(s) + ("*/" + Behind(s))
  {
    UpToTheEnd(s[2..]);
    var n := BlockEnd(s[2..]);
    assert s[2..][n..][..2] == "*/";
  }

  /** A comment that is never closed. */
  lemma KeepsUnclosed(s: string)
    requires Pair(s, '/', '*') && NeverEnds(s[2..])
    ensures Keeps(s) <==> HasVisible(StripLineComments(s[2..]))
  {
    StripOpening(s);
    StripMakesNoEnd(s[2..]);
    StripOpened(StripLineComments(s[2..]));
    VisibleOpened(StripLineComments(s[2..]));
  }

  /** A closed comment without dashes on its last line goes away. */
  lemma KeepsPlain(s: string)
    requires Pair(s, '/', '*') && !NeverEnds(s[2..]) && NoDashes(LastLine(Inside(s)))
    ensures Keeps(s) <==> Keeps(Behind(s))
  {
    var u, y := Inside(s), Behind(s);
    var v, t := StripLineComments(u), StripLineComments(y);
    Opened(s);
    StripOpening(s);
    StripPasses(u, "*/" + y);
    assert ("*/" + y)[1..] == "/" + y && ("/" + y)[1..] == y;
    assert StripLineComments("*/" + y) == "*/" + t by { assert "*" + ("/" + t) == "*/" + t; }
    StripMakesNoEnd(u);
    EndBehind(v, t);
    assert v + ("*/" + t) == v + "*/" + t;
    StripOpened(v + "*/" + t);
    assert (v + "*/" + t)[|v| + 2..] == t;
  }

  lemma StripDashed(s: string)
    requires Pair(s, '/', '*') && !NeverEnds(s[2..]) && !NoDashes(LastLine(Inside(s)))
    ensures StripLineComments(s) == "/*" + (StripLineComments(Inside(s)) + StripLineComments(DropLine(Behind(s))))
  {
    Opened(s);
    StripOpening(s);
    StripSwallows(Inside(s), "*/" + Behind(s));
    DropLineConcat("*/", Behind(s));
    assert DropLine("*/") == "" by { assert "*/"[1..] == "/" && "/"[1..] == ""; }
  }

  lemma EndBelow(left: string, below: string)
    requires NeverEnds(left) && (below == "" || below[0] == '\n')
    ensures NeverEnds(left + below) <==> NeverEnds(below)
    ensures !NeverEnds(below) ==> (left + below)[BlockEnd(left + below) + 2..] == below[BlockEnd(below) + 2..]
  {
    EndFurtherOn(left, below);
  }

  lemma SeenBelow(left: string, below: string, z: string)
    requires z == left + below && (NeverEnds(z) <==> NeverEnds(below))
    requires !NeverEnds(below) ==> z[BlockEnd(z) + 2..] == below[BlockEnd(below) + 2..]
    ensures HasVisible(StripBlockComments("/*" + z)) <==> SeesCode(left, below)
  {
    StripOpened(z);
    VisibleOpened(z);
    VisibleInEither(left, below);
  }

  /** A closed comment with dashes on its last line goes on below that line. */
  lemma KeepsDashed(s: string)
    requires Pair(s, '/', '*') && !NeverEnds(s[2..]) && !NoDashes(LastLine(Inside(s)))
    ensures Keeps(s) <==> SeesCode(StripLineComments(Inside(s)), StripLineComments(DropLine(Behind(s))))
  {
    Opened(s);
    StripDashed(s);
    StripMakesNoEnd(Inside(s));
    DropLineStops(Behind(s));
    StripStartsAlike(DropLine(Behind(s)));
    var left, below := StripLineComments(Inside(s)), StripLineComments(DropLine(Behind(s)));
    EndBelow(left, below);
    SeenBelow(left, below, left + below);
  }

  /** A leading line comment changes neither side. */
  lemma LineCommentIsNeutral(s: string)
    requires Pair(s, '-', '-')
    ensures Keeps(s) == Keeps(DropLine(s[2..])) && HasCode(s, Top) == HasCode(DropLine(s[2..]), Top)
  {
    assert s[1..][1..] == s[2..] && Step(s[1..], Lex(LineComment, 0)) == Lex(LineComment, 0);
    LineHidesCode(s[2..]);
  }

  lemma BlockStripPasses(c: char, y: string)
    requires !Pair([c] + y, '/', '*')
    ensures StripBlockComments([c] + y) == [c] + StripBlockComments(y)
  {
    assert ([c] + y)[1..] == y;
  }

  lemma OtherCharacterStays(s: string)
    requires s != "" && !Pair(s, '-', '-') && !Pair(s, '/', '*')
    ensures StripBlockComments(StripLineComments(s)) == [s[0]] + StripBlockComments(StripLineComments(s[1..]))
  {
    StripStartsAlike(s[1..]);
    BlockStripPasses(s[0], StripLineComments(s[1..]));
  }

  lemma OtherCharacter(s: string)
    requires s != "" && !Pair(s, '-', '-') && !Pair(s, '/', '*')
    ensures Keeps(s) <==> !IsCommentary(s[0]) || Keeps(s[1..])
    ensures HasCode(s, Top) <==> !IsCommentary(s[0]) || HasCode(s[1..], Top)
  {
    OtherCharacterStays(s);
    VisibleBehind(s[0], StripBlockComments(StripLineComments(s[1..])));
    assert IsCommentary(s[0]) ==> Step(s, Top) == Top;
  }

  // ---- exactly when the filter is right ----

  /** For every statement: it is kept exactly when it has code, if and only if its leading comments do not mislead the filter. */
  lemma {:induction false} FilterIsRightIff(s: string)
    ensures (Keeps(s) <==> HasCode(s, Top)) <==> JudgedRight(s)
    decreases |s|
  {
    if s == "" {
    } else if Pair(s, '-', '-') {
      LineCommentIsNeutral(s);
      FilterIsRightIff(DropLine(s[2..]));
    } else if Pair(s, '/', '*') {
      CommentHidesCode(s);
      if NeverEnds(s[2..]) {
        KeepsUnclosed(s);
      } else if NoDashes(LastLine(Inside(s))) {
        KeepsPlain(s);
        FilterIsRightIff(Behind(s));
      } else {
        KeepsDashed(s);
      }
    } else {
      OtherCharacter(s);
      if IsCommentary(s[0]) { FilterIsRightIff(s[1..]); }
    }
  }

  lemma {:induction false} PlainIsRight(s: string)
    requires PlainlyCommented(s)
    ensures JudgedRight(s)
    decreases |s|
  {
    if s == "" {
    } else if Pair(s, '-', '-') {
      PlainIsRight(DropLine(s[2..]));
    } else if Pair(s, '/', '*') {
      PlainIsRight(Behind(s));
    } else if IsCommentary(s[0]) {
      PlainIsRight(s[1..]);
    }
  }

  /** In particular for closed comments without `--` on their last line. */
  lemma PlainStatementsAreJudgedRight(s: string)
    requires PlainlyCommented(s)
    ensures Keeps(s) <==> HasCode(s, Top)
  {
    PlainIsRight(s);
    FilterIsRightIff(s);
  }

  /** So of a file's chunks, each is returned exactly when it has code, if and only if it is judged right. */
  lemma CommentsAreAllThatIsDropped(sql: string, t: string)
    requires t in Trims(Chunks(sql, Top))
    ensures (t in Statements(sql) <==> HasCode(t, Top)) <==> JudgedRight(t)
  {
    FilterIsRightIff(t);
    KeptIsAFilter(Trims(Chunks(sql, Top)), t);
  }

  lemma {:induction false} KeptIsAFilter(list: seq<string>, t: string)
    ensures t in Kept(list) <==> t in list && Keeps(t)
  {
    if list != [] { KeptIsAFilter(list[1..], t); }
  }

  lemma {:induction false} DropsWholeLine(s: string)
    requires '\n' !in s
    ensures DropLine(s) == ""
  {
    if s != "" { DropsWholeLine(s[1..]); }
  }

  /**
   * Any comment with `--` on its last line and code on that line: the
   * statement is dropped exactly when nothing visible is left of the comment
   * in front of its dashes.
   */
  lemma DashesInABlockCommentDropCode(comment: string, code: string)
    requires NeverEnds(comment) && !NoDashes(LastLine(comment))
    requires HasCode(code, Top) && '\n' !in code
    ensures HasCode("/*" + comment + "*/" + code, Top)
    ensures !Keeps("/*" + comment + "*/" + code) <==> !HasVisible(StripLineComments(comment))
  {
    var s := "/*" + comment + "*/" + code;
    var rest := comment + "*/" + code;
    assert s == "/*" + rest && s[2..] == rest;
    EndBehind(comment, code);
    assert rest[..|comment|] == comment && rest[|comment| + 2..] == code;
    assert Inside(s) == comment && Behind(s) == code;
    CommentHidesCode(s);
    KeepsDashed(s);
    DropsWholeLine(code);
    assert StripLineComments("") == "" && NeverEnds("");
  }
}
