/**
 * What the characters of a migration file mean, one character at a time and
 * independently of the splitter: the lexical structure of PostgreSQL that
 * db/_runner.ts:115-201 covers (quotes, dollar quotes, comments that do not
 * nest).
 */
module SqlLexer {
  import opened Text

  // ---- characters ----

  predicate IsIdentStart(c: char) { 'A' <= c <= 'Z' || 'a' <= c <= 'z' || c == '_' }

  predicate IsIdent(c: char) { IsIdentStart(c) || '0' <= c <= '9' }

  predicate IsTagChar(c: char) { IsIdent(c) || c == '$' }

  /** A character that no token of two or more characters contains. */
  predicate Inert(c: char) { !IsTagChar(c) && c != '-' && c != '/' && c != '*' && c != '\'' }

  predicate Pair(s: string, a: char, b: char) { |s| >= 2 && s[0] == a && s[1] == b }

  // ---- dollar tags ----

  type Tag = t: string | |t| >= 2 && t[0] == '$' && (forall c <- t :: IsTagChar(c)) witness "$$"

  function IdentLength(s: string): (n: nat)
    ensures n <= |s| && forall k :: 0 <= k < n ==> IsIdent(s[k])
  {
    if s == "" || !IsIdent(s[0]) then 0 else 1 + IdentLength(s[1..])
  }

  /** Length of the tag `s` begins with, `$$` or `$name$`; 0 if it begins with none. */
  function TagLength(s: string): (n: nat)
    ensures n <= |s| && n != 1
    ensures n > 0 ==> s[0] == '$' && forall c <- s[..n] :: IsTagChar(c)
  {
    if s == "" || s[0] != '$' then 0
    else
      var k := 1 + (if |s| > 1 && IsIdentStart(s[1]) then IdentLength(s[1..]) else 0);
      if k < |s| && s[k] == '$' then k + 1 else 0
  }

  /** What may stand between the dollars: nothing, or a letter or underscore and then letters, digits and underscores. */
  predicate IsName(name: string) {
    name == "" || (
      && ('A' <= name[0] <= 'Z' || 'a' <= name[0] <= 'z' || name[0] == '_')
      && forall c <- name :: 'A' <= c <= 'Z' || 'a' <= c <= 'z' || c == '_' || '0' <= c <= '9')
  }

  /** `s` begins with `$name$`. */
  predicate BeginsWithTag(s: string, name: string) { IsName(name) && "$" + name + "$" <= s }

  lemma {:induction false} IdentLengthOf(s: string, n: nat)
    requires n <= |s| && (forall c <- s[..n] :: IsIdent(c)) && (n < |s| ==> !IsIdent(s[n]))
    ensures IdentLength(s) == n
  {
    if n > 0 {
      assert s[0] in s[..n];
      assert s[1..][..n - 1] == s[..n][1..];
      IdentLengthOf(s[1..], n - 1);
    }
  }

  /** A tag is a dollar, a name or nothing, and a dollar; and every text that begins so begins with that tag. */
  lemma TagGrammar(s: string, name: string)
    ensures BeginsWithTag(s, name) <==> TagLength(s) == |name| + 2 && s[..TagLength(s)] == "$" + name + "$"
  {
    if BeginsWithTag(s, name) {
      var tag := "$" + name + "$";
      assert s[..|tag|] == tag && s[1 + |name|] == tag[1 + |name|] == '$';
      assert s[1..][..|name|] == name;
      if name == "" { assert s[1] == '$'; } else {
        assert s[1] == name[0];
        IdentLengthOf(s[1..], |name|);
      }
    }
    if TagLength(s) == |name| + 2 && s[..TagLength(s)] == "$" + name + "$" {
      TagHasAName(s);
      SameName(s, name);
    }
  }

  lemma SameName(s: string, name: string)
    requires |s| >= |name| + 2 && s[..|name| + 2] == "$" + name + "$"
    ensures s[1..|name| + 1] == name
  {
    assert s[1..|name| + 1] == s[..|name| + 2][1..|name| + 1];
  }

  lemma TagHasAName(s: string)
    requires TagLength(s) > 0
    ensures TagLength(s) >= 2 && BeginsWithTag(s, s[1..TagLength(s) - 1])
  {
    var n := TagLength(s);
    var name := s[1..n - 1];
    forall c <- name ensures IsIdent(c) {
      var k :| 0 <= k < |name| && name[k] == c;
      assert s[1..][k] == c;
    }
    assert "$" + name + "$" == s[..n];
  }

  /** A text begins with a tag exactly if it begins with some `$name$`. */
  lemma TagIffNamed(s: string)
    ensures TagLength(s) > 0 <==> exists name :: BeginsWithTag(s, name)
  {
    if TagLength(s) > 0 { TagHasAName(s); }
    if name :| BeginsWithTag(s, name) { TagGrammar(s, name); }
  }

  // ---- the lexical function ----

  datatype Mode = Normal | LineComment | BlockComment | Quote | Dollar(tag: Tag)

  /** Before a character: after `skip` more characters of the current token, `mode` applies. */
  datatype Lex = Lex(mode: Mode, skip: nat)

  const Top := Lex(Normal, 0)

  /** The state after the first character of `s`, the text still to be read. */
  function Step(s: string, l: Lex): Lex
    requires s != ""
  {
    if l.skip > 0 then l.(skip := l.skip - 1)
    else
      match l.mode
      case Normal =>
        if Pair(s, '-', '-') then Lex(LineComment, 0)
        else if Pair(s, '/', '*') then Lex(BlockComment, 1)
        else if s[0] == '\'' then Lex(Quote, 0)
        else if TagLength(s) > 0 then Lex(Dollar(s[..TagLength(s)]), TagLength(s) - 1)
        else Top
      case LineComment => if s[0] == '\n' then Top else l
      case BlockComment => if Pair(s, '*', '/') then Lex(Normal, 1) else l
      case Quote =>
        if Pair(s, '\'', '\'') then Lex(Quote, 1)
        else if s[0] == '\'' then Top
        else l
      case Dollar(tag) => if tag <= s then Lex(Normal, |tag| - 1) else l
  }

  /** The state after all of `s`. */
  function After(s: string, l: Lex): Lex {
    if s == "" then l else After(s[1..], Step(s, l))
  }

  /** The state in front of character `i`. */
  function LexAt(s: string, l: Lex, i: nat): Lex
    requires i <= |s|
  {
    if i == 0 then l else LexAt(s[1..], Step(s, l), i - 1)
  }

  /** A semicolon that ends a statement. */
  predicate IsCut(s: string, i: nat)
    requires i < |s|
  {
    LexAt(s, Top, i) == Top && s[i] == ';'
  }

  predicate CutsHere(s: string, l: Lex)
    requires s != ""
  {
    l == Top && s[0] == ';'
  }

  /** `s`, read from state `l`, cut up at its statement semicolons. */
  function Chunks(s: string, l: Lex): (r: seq<string>)
    ensures r != []
  {
    if s == "" then [""]
    else if CutsHere(s, l) then [""] + Chunks(s[1..], l)
    else Prepend([s[0]], Chunks(s[1..], Step(s, l)))
  }

  function Prepend(text: string, chunks: seq<string>): (r: seq<string>)
    requires chunks != []
    ensures r != []
  {
    [text + chunks[0]] + chunks[1..]
  }

  function Join(parts: seq<string>, separator: string): string {
    if parts == [] then ""
    else if |parts| == 1 then parts[0]
    else parts[0] + separator + Join(parts[1..], separator)
  }

  // ---- what the chunks are ----

  lemma PrependTwice(a: string, b: string, chunks: seq<string>)
    requires chunks != []
    ensures Prepend(a, Prepend(b, chunks)) == Prepend(a + b, chunks)
  {
    assert a + (b + chunks[0]) == a + b + chunks[0];
  }

  /** Nothing is lost and nothing is added: the chunks joined by `;` are the input, for every string. */
  lemma {:induction false} ChunksAreLossless(s: string, l: Lex)
    ensures Join(Chunks(s, l), ";") == s
  {
    if s == "" {
    } else if CutsHere(s, l) {
      var rest := Chunks(s[1..], l);
      ChunksAreLossless(s[1..], l);
      assert ([""] + rest)[1..] == rest;
      assert s == "" + ";" + s[1..];
    } else {
      var rest := Chunks(s[1..], Step(s, l));
      ChunksAreLossless(s[1..], Step(s, l));
      assert s == [s[0]] + s[1..];
      if |rest| > 1 {
        assert Prepend([s[0]], rest)[1..] == rest[1..];
        assert [s[0]] + (rest[0] + ";" + Join(rest[1..], ";")) == [s[0]] + rest[0] + ";" + Join(rest[1..], ";");
      }
    }
  }

  /** Where the chunks but the last end, the first of them starting at `base`. */
  function Ends(chunks: seq<string>, base: nat): seq<nat> {
    if |chunks| <= 1 then [] else [base + |chunks[0]|] + Ends(chunks[1..], base + |chunks[0]| + 1)
  }

  lemma EndsOfPrepend(c: char, chunks: seq<string>, base: nat)
    requires chunks != []
    ensures Ends(Prepend([c], chunks), base) == Ends(chunks, base + 1)
  {
    assert Prepend([c], chunks)[1..] == chunks[1..];
  }

  lemma {:induction false} EndsAreCutsFrom(s: string, l: Lex, base: nat, i: nat)
    ensures i in Ends(Chunks(s, l), base) <==> base <= i < base + |s| && CutsHere(s[i - base..], LexAt(s, l, i - base))
    decreases |s|
  {
    if s == "" {
    } else if CutsHere(s, l) {
      var rest := Chunks(s[1..], l);
      assert Step(s, l) == l;
      EndsAreCutsFrom(s[1..], l, base + 1, i);
      assert ([""] + rest)[1..] == rest;
      if base < i < base + |s| { assert s[1..][i - (base + 1)..] == s[i - base..]; }
    } else {
      EndsAreCutsFrom(s[1..], Step(s, l), base + 1, i);
      EndsOfPrepend(s[0], Chunks(s[1..], Step(s, l)), base);
      if base < i < base + |s| { assert s[1..][i - (base + 1)..] == s[i - base..]; }
    }
  }

  /** The chunks end at the statement semicolons, at all of them and at nothing else. */
  lemma ChunksEndExactlyAtCuts(s: string, i: nat)
    ensures i in Ends(Chunks(s, Top), 0) <==> i < |s| && IsCut(s, i)
  {
    EndsAreCutsFrom(s, Top, 0, i);
  }

  // ---- dollar quotes hide what is in them ----

  lemma {:induction false} LexOn(s: string, l: Lex, i: nat, m: nat)
    requires i + m <= |s|
    ensures LexAt(s, l, i + m) == LexAt(s[i..], LexAt(s, l, i), m)
    decreases i
  {
    if i > 0 {
      LexOn(s[1..], Step(s, l), i - 1, m);
      assert s[1..][i - 1..] == s[i..];
    }
  }

  lemma {:induction false} SkipsOn(s: string, l: Lex, m: nat)
    requires m <= l.skip && m <= |s|
    ensures LexAt(s, l, m) == l.(skip := l.skip - m)
    decreases m
  {
    if m > 0 { SkipsOn(s[1..], Step(s, l), m - 1); }
  }

  /** Nothing but the tag ends the string. */
  lemma {:induction false} StaysInside(s: string, tag: Tag, m: nat)
    requires m <= |s| && forall k | 0 <= k < m :: !(tag <= s[k..])
    ensures LexAt(s, Lex(Dollar(tag), 0), m) == Lex(Dollar(tag), 0)
    decreases m
  {
    if m > 0 {
      assert s[0..] == s;
      forall k | 0 <= k < m - 1 ensures !(tag <= s[1..][k..]) { assert s[1..][k..] == s[k + 1..]; }
      StaysInside(s[1..], tag, m - 1);
    }
  }

  /** The text at `i` is in front of the first recurrence of `tag` at or after `from`, or there is none. */
  ghost predicate BeforeTag(s: string, tag: string, from: nat, i: nat)
    requires from <= i <= |s|
  {
    forall k | from <= k < i :: !(tag <= s[k..])
  }

  /** The opening tag is one token. */
  lemma TagIsRead(u: string, m: nat)
    requires 1 <= m <= TagLength(u)
    ensures LexAt(u, Top, m) == Lex(Dollar(u[..TagLength(u)]), TagLength(u) - m)
  {
    assert u[0] == '$';
    SkipsOn(u[1..], Step(u, Top), m - 1);
  }

  /** Inside a string that opens with the tag of length `n` at the start of `u`. */
  lemma InsideDollars(u: string, m: nat)
    requires TagLength(u) > 0 && TagLength(u) <= m <= |u| && BeforeTag(u, u[..TagLength(u)], TagLength(u), m)
    ensures LexAt(u, Top, m) == Lex(Dollar(u[..TagLength(u)]), 0)
  {
    var n := TagLength(u);
    var tag: Tag := u[..n];
    TagIsRead(u, n);
    LexOn(u, Top, n, m - n);
    forall k | 0 <= k < m - n ensures !(tag <= u[n..][k..]) { assert u[n..][k..] == u[n + k..]; }
    StaysInside(u[n..], tag, m - n);
  }

  lemma NotTopInDollars(u: string, m: nat)
    requires TagLength(u) > 0 && m < |u| && (m >= TagLength(u) ==> BeforeTag(u, u[..TagLength(u)], TagLength(u), m))
    ensures LexAt(u, Top, m) != Top || u[m] != ';'
  {
    if m == 0 { assert u[0] == '$'; }
    else if m < TagLength(u) { TagIsRead(u, m); }
    else { InsideDollars(u, m); }
  }

  lemma TopBehindDollars(u: string, m: nat)
    requires TagLength(u) > 0 && TagLength(u) <= m <= |u| && BeforeTag(u, u[..TagLength(u)], TagLength(u), m)
    requires u[..TagLength(u)] <= u[m..]
    ensures LexAt(u, Top, m + TagLength(u)) == Top
  {
    var n := TagLength(u);
    InsideDollars(u, m);
    LexOn(u, Top, m, n);
    SkipsOn(u[m..][1..], Step(u[m..], Lex(Dollar(u[..n]), 0)), n - 1);
  }

  lemma UncutInDollars(s: string, i: nat, k: nat, j: nat)
    requires i <= k < j <= |s| && LexAt(s, Top, i) == Top
    requires var u := s[i..]; var n := TagLength(u); 0 < n <= j - i && BeforeTag(u, u[..n], n, j - i)
    ensures !IsCut(s, k)
  {
    LexOn(s, Top, i, k - i);
    NotTopInDollars(s[i..], k - i);
  }

  /**
   * A semicolon between a tag `$name$` that opens a string and the first
   * recurrence of that very tag never ends a statement, whatever else the
   * string holds; behind the recurrence the text is code again.
   */
  lemma DollarStringIsNeverCut(s: string, i: nat, name: string, j: nat)
    requires i <= |s| && LexAt(s, Top, i) == Top && BeginsWithTag(s[i..], name)
    requires i + |name| + 2 <= j <= |s| && BeforeTag(s, "$" + name + "$", i + |name| + 2, j)
    ensures forall k | i <= k < j :: k !in Ends(Chunks(s, Top), 0)
    ensures "$" + name + "$" <= s[j..] ==> LexAt(s, Top, j + |name| + 2) == Top
  {
    OpensDollars(s, i, name, j);
    forall k | i <= k < j ensures k !in Ends(Chunks(s, Top), 0) {
      ChunksEndExactlyAtCuts(s, k);
      UncutInDollars(s, i, k, j);
    }
    if "$" + name + "$" <= s[j..] { CodeBehindDollars(s, i, j); }
  }

  lemma OpensDollars(s: string, i: nat, name: string, j: nat)
    requires i <= |s| && BeginsWithTag(s[i..], name)
    requires i + |name| + 2 <= j <= |s| && BeforeTag(s, "$" + name + "$", i + |name| + 2, j)
    ensures var u := s[i..]; var n := TagLength(u); n == |name| + 2 && u[..n] == "$" + name + "$" && BeforeTag(u, u[..n], n, j - i)
  {
    TagGrammar(s[i..], name);
    BeforeTagInRest(s, "$" + name + "$", i, |name| + 2, j);
  }

  lemma CodeBehindDollars(s: string, i: nat, j: nat)
    requires i <= j <= |s| && LexAt(s, Top, i) == Top
    requires var u := s[i..]; var n := TagLength(u); 0 < n <= j - i && BeforeTag(u, u[..n], n, j - i) && u[..n] <= s[j..]
    ensures j + TagLength(s[i..]) <= |s| && LexAt(s, Top, j + TagLength(s[i..])) == Top
  {
    var u, n, m := s[i..], TagLength(s[i..]), j - i;
    assert u[m..] == s[j..];
    assert |u[..n]| == n <= |s[j..]|;
    TopBehindDollars(u, m);
    TopIsTop(s, i, m + n);
    assert i + (m + n) == j + n;
  }

  lemma TopIsTop(s: string, i: nat, m: nat)
    requires i + m <= |s| && LexAt(s, Top, i) == Top && LexAt(s[i..], Top, m) == Top
    ensures LexAt(s, Top, i + m) == Top
  {
    LexOn(s, Top, i, m);
  }

  lemma BeforeTagInRest(s: string, tag: string, i: nat, n: nat, j: nat)
    requires i + n <= j <= |s| && BeforeTag(s, tag, i + n, j)
    ensures BeforeTag(s[i..], tag, n, j - i)
  {
    forall k | n <= k < j - i ensures !(tag <= s[i..][k..]) { assert s[i..][k..] == s[i + k..]; }
  }

  // ---- reading a text alone or in front of something ----

  lemma {:induction false} IdentLengthLocal(t: string, x: string)
    requires x != "" && Inert(x[0])
    ensures IdentLength(t + x) == IdentLength(t)
  {
    if t == "" {
      assert t + x == x;
    } else {
      assert (t + x)[1..] == t[1..] + x;
      IdentLengthLocal(t[1..], x);
    }
  }

  lemma TagLengthLocal(t: string, x: string)
    requires t != "" && x != "" && Inert(x[0])
    ensures TagLength(t + x) == TagLength(t)
  {
    assert (t + x)[1..] == t[1..] + x;
    IdentLengthLocal(t[1..], x);
  }

  lemma TagLocal(tag: Tag, t: string, x: string)
    requires x != "" && Inert(x[0])
    ensures tag <= t + x <==> tag <= t
  {
    assert (t + x)[|t|] == x[0];
    assert |tag| > |t| ==> tag[|t|] in tag && tag[|t|] != (t + x)[|t|];
    assert |tag| <= |t| ==> (t + x)[..|tag|] == t[..|tag|];
  }

  lemma StepLocal(t: string, x: string, l: Lex)
    requires t != "" && x != "" && Inert(x[0])
    ensures Step(t + x, l) == Step(t, l)
  {
    TagLengthLocal(t, x);
    assert (t + x)[..TagLength(t)] == t[..TagLength(t)];
    if l.mode.Dollar? { TagLocal(l.mode.tag, t, x); }
    if |t| == 1 {
      assert (t + x)[1] == x[0];
      assert !Pair(t + x, '-', '-') && !Pair(t + x, '/', '*') && !Pair(t + x, '*', '/') && !Pair(t + x, '\'', '\'');
    } else {
      assert (t + x)[0] == t[0] && (t + x)[1] == t[1];
    }
  }

  /** A text without a cut, read in front of `x`, is the same text and leads to the same state. */
  lemma {:induction false} UncutPrefix(t: string, x: string, l: Lex)
    requires x != "" && Inert(x[0])
    ensures After(t + x, l) == After(x, After(t, l))
    ensures |Chunks(t, l)| == 1 ==> Chunks(t + x, l) == Prepend(t, Chunks(x, After(t, l)))
    ensures |Chunks(t, l)| <= |Chunks(t + x, l)|
    decreases |t|
  {
    if t == "" {
      assert t + x == x;
      assert "" + Chunks(x, l)[0] == Chunks(x, l)[0];
    } else {
      assert (t + x)[1..] == t[1..] + x;
      StepLocal(t, x, l);
      if CutsHere(t, l) {
        assert Step(t, l) == l;
        UncutPrefix(t[1..], x, l);
      } else {
        UncutPrefix(t[1..], x, Step(t, l));
        PrependTwice([t[0]], t[1..], Chunks(x, After(t, l)));
        assert [t[0]] + t[1..] == t;
      }
    }
  }

  lemma ReadsOn(t: string, x: string, l: Lex)
    requires x != "" && Inert(x[0])
    ensures After(t + x, l) == After(x, After(t, l)) && 1 <= |Chunks(t, l)| <= |Chunks(t + x, l)|
  {
    UncutPrefix(t, x, l);
  }

  /** What the first chunk is when another one follows. */
  ghost predicate CutOff(c: string, s: string, l: Lex, others: seq<string>) {
    && After(c, l) == Top
    && |c| < |s| && s[..|c|] == c && s[|c|] == ';'
    && others == Chunks(s[|c| + 1..], Top)
  }

  lemma CutOffGrows(c: string, s: string, l: Lex, others: seq<string>)
    requires s != "" && CutOff(c, s[1..], Step(s, l), others)
    ensures CutOff([s[0]] + c, s, l, others) && Step([s[0]] + c, l) == Step(s, l)
  {
    var head := [s[0]] + c;
    var tail := s[1..][|c|..];
    assert s[|head| + 1..] == s[1..][|c| + 1..];
    assert s == head + tail;
    assert head[1..] == c;
    StepLocal(head, tail, l);
  }

  /** Taken by itself the first chunk has no cut; unless it is the last, it leaves the lexer at the top. */
  lemma {:induction false} FirstChunk(s: string, l: Lex)
    ensures var cs := Chunks(s, l);
      && |Chunks(cs[0], l)| == 1
      && (|cs| == 1 ==> cs[0] == s)
      && (|cs| > 1 ==> CutOff(cs[0], s, l, cs[1..]))
    decreases |s|
  {
    var cs := Chunks(s, l);
    if s == "" {
    } else if CutsHere(s, l) {
      assert cs[1..] == Chunks(s[1..], l);
    } else {
      var rest := Chunks(s[1..], Step(s, l));
      FirstChunk(s[1..], Step(s, l));
      assert cs[0] == [s[0]] + rest[0] && cs[0][1..] == rest[0] && cs[1..] == rest[1..];
      if |cs| > 1 {
        CutOffGrows(rest[0], s, l, rest[1..]);
      } else {
        assert cs[0] == s;
      }
    }
  }

  /** A token is only entered when all of it is there, so no text ends inside one. */
  lemma {:induction false} NeverInsideAToken(s: string, l: Lex)
    requires l.skip <= |s|
    ensures After(s, l).skip == 0
  {
    if s != "" {
      assert Step(s, l).skip <= |s| - 1;
      NeverInsideAToken(s[1..], Step(s, l));
    }
  }

  lemma NoTagHere(tag: Tag, w: string)
    requires w != "" && w[0] != '$'
    ensures !(tag <= w)
  {
    assert tag[0] != w[0];
  }

  /** White space that leads to the top began there or in a line comment. */
  lemma {:induction false} SpaceToTop(w: string, l: Lex)
    requires forall c <- w :: IsSpace(c)
    requires l.skip == 0 && After(w, l) == Top
    ensures l == Top || l == Lex(LineComment, 0)
  {
    if w != "" {
      assert w[0] in w;
      assert TagLength(w) == 0;
      if !l.mode.Normal? && !l.mode.LineComment? {
        if l.mode.Dollar? { NoTagHere(l.mode.tag, w); }
        assert Step(w, l) == l;
      }
      if Step(w, l) == l { SpaceToTop(w[1..], l); }
    }
  }
}
