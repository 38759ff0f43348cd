/**
 Laws about cutting and joining texts under the scanner.

 A text can be cut between two lexemes without disturbing either side, and two
 texts can be joined where the second opens with a quote, except that quoted
 text meeting the same quote becomes one: a doubled quote is an escaped one.
 */
module LexerLaws {
  import opened Wrappers
  import opened Lexer

  // ── the searches, on a prefix and on an extension ───────────────────────

  lemma Tail(a: string, r: string, n: nat)
    requires n <= |a|
    ensures (a + r)[n..] == a[n..] + r
  {
  }

  lemma Take(a: string, r: string, n: nat)
    requires n <= |a|
    ensures (a + r)[..n] == a[..n]
  {
  }

  /** One step of the walk through quoted text. */
  lemma CloseOnce(s: string, q: char, e: Escaping)
    ensures Close(s, q, e) ==
            if e == Backslash && |s| >= 2 && s[0] == '\\' then Plus(2, Close(s[2..], q, e))
            else if s == "" then None
            else if s[0] != q then Plus(1, Close(s[1..], q, e))
            else if |s| >= 2 && s[1] == q then Plus(2, Close(s[2..], q, e))
            else Some(1)
  {
  }

  /** The same step, where the text goes on with `r`. */
  lemma CloseOnceJoined(a: string, r: string, q: char, e: Escaping)
    requires a != ""
    ensures Close(a + r, q, e) ==
            if |a| == 1 && r != "" && ((e == Backslash && a[0] == '\\') || (a[0] == q && r[0] == q)) then
              Plus(2, Close(r[1..], q, e))
            else if e == Backslash && |a| >= 2 && a[0] == '\\' then Plus(2, Close(a[2..] + r, q, e))
            else if a[0] != q then Plus(1, Close(a[1..] + r, q, e))
            else if |a| >= 2 && a[1] == q then Plus(2, Close(a[2..] + r, q, e))
            else Some(1)
  {
    hide Close;
    CloseOnce(a + r, q, e);
    Tail(a, r, 1);
    if |a| >= 2 { Tail(a, r, 2); } else if r != "" { assert (a + r)[2..] == r[1..]; }
  }

  lemma {:induction false} ClosePrefix(a: string, r: string, q: char, e: Escaping)
    ensures var n := Close(a + r, q, e);
            n.Some? && n.value <= |a| ==> Close(a, q, e) == n
    decreases |a|
  {
    hide Close;
    if a != "" {
      CloseOnce(a, q, e);
      CloseOnceJoined(a, r, q, e);
      ClosePrefix(a[1..], r, q, e);
      if |a| >= 2 { ClosePrefix(a[2..], r, q, e); }
    }
  }

  lemma {:induction false} CloseExtend(a: string, r: string, q: char, e: Escaping)
    requires IsQuote(q) && Close(a, q, e).Some?
    requires Close(a, q, e).value == |a| && r != "" ==> r[0] != q
    ensures Close(a + r, q, e) == Close(a, q, e)
    decreases |a|
  {
    hide Close;
    CloseOnce(a, q, e);
    CloseOnce("", q, e);
    CloseOnceJoined(a, r, q, e);
    if (e == Backslash && |a| >= 2 && a[0] == '\\') || (a[0] == q && |a| >= 2 && a[1] == q) {
      CloseExtend(a[2..], r, q, e);
    } else if a[0] != q {
      CloseExtend(a[1..], r, q, e);
    }
  }

  /** Quoted text that ends where the same quote comes next has not ended. */
  lemma {:induction false} CloseMerge(a: string, r: string, q: char, e: Escaping)
    requires Close(a, q, e) == Some(|a|) && r != "" && r[0] == q
    ensures Close(a + r, q, e) == Plus(|a| + 1, Close(r[1..], q, e))
    decreases |a|
  {
    hide Close;
    CloseOnce(a, q, e);
    CloseOnce("", q, e);
    CloseOnceJoined(a, r, q, e);
    if (e == Backslash && |a| >= 2 && a[0] == '\\') || (a[0] == q && |a| >= 2 && a[1] == q) {
      CloseMerge(a[2..], r, q, e);
    } else if a[0] != q {
      CloseMerge(a[1..], r, q, e);
    }
  }

  lemma StandsAtPrefix(a: string, r: string, needle: string, at: nat)
    requires at + |needle| <= |a|
    ensures StandsAt(a + r, needle, at) <==> StandsAt(a, needle, at)
  {
    assert (a + r)[at..at + |needle|] == a[at..at + |needle|];
  }

  /** The first place is the first place, however the text goes on. */
  lemma FindPrefix(a: string, r: string, needle: string, from: nat)
    requires needle != ""
    ensures var n := Find(a + r, needle, from);
            n.Some? && n.value + |needle| <= |a| ==> Find(a, needle, from) == n
    ensures Find(a, needle, from).Some? ==> Find(a + r, needle, from) == Find(a, needle, from)
  {
    var long, short := Find(a + r, needle, from), Find(a, needle, from);
    hide Find;
    if long.Some? && long.value + |needle| <= |a| { StandsAtPrefix(a, r, needle, long.value); }
    if short.Some? { StandsAtPrefix(a, r, needle, short.value); }
  }

  lemma {:induction false} LineEndJoin(a: string, r: string)
    ensures a != "" && a[LineEnd(a) - 1] == '\n' ==> LineEnd(a + r) == LineEnd(a)
    ensures LineEnd(a + r) <= |a| && r != "" ==> LineEnd(a) == LineEnd(a + r)
    decreases |a|
  {
    if a != "" {
      Tail(a, r, 1);
      LineEndJoin(a[1..], r);
    }
  }

  lemma {:induction false} WordLengthJoin(a: string, r: string)
    ensures WordLength(a) < |a| || r == "" || !IsWordUnit(r[0]) ==> WordLength(a + r) == WordLength(a)
    ensures WordLength(a + r) <= |a| ==> WordLength(a) == WordLength(a + r)
    decreases |a|
  {
    if a != "" {
      Tail(a, r, 1);
      WordLengthJoin(a[1..], r);
    } else {
      assert a + r == r;
    }
  }

  lemma {:induction false} DollarTagJoin(a: string, r: string, end: nat)
    requires 1 <= end <= |a|
    ensures DollarTag(a, end).Some? ==> DollarTag(a + r, end) == DollarTag(a, end)
    ensures DollarTag(a, end).None? && (r == "" || IsQuote(r[0])) ==> DollarTag(a + r, end).None?
    ensures DollarTag(a + r, end).None? ==> DollarTag(a, end).None?
    ensures DollarTag(a + r, end).Some? && DollarTag(a + r, end).value <= |a| ==>
              DollarTag(a, end) == DollarTag(a + r, end)
    decreases |a| - end
  {
    if end < |a| {
      assert (a + r)[end] == a[end];
      if a[end] != '$' { DollarTagJoin(a, r, end + 1); }
    } else {
      assert r != "" ==> (a + r)[end] == r[0];
    }
  }

  // ── one lexeme, on a prefix and on an extension ─────────────────────────

  /** Opened by a quote rather than a dollar: the text the doubled-quote rule is about. */
  predicate IsRegion(x: Lexeme) {
    x.Quoted? && x.text != "" && IsQuote(x.text[0])
  }

  /** The next text takes nothing from `x`, which ended where that text begins. */
  predicate Keeps(x: Lexeme, next: string) {
    && (x.Comment? ==> x.text != "" && (x.text[|x.text| - 1] == '\n' || x.text[0] == '/'))
    && (IsRegion(x) && next != "" ==> next[0] != x.text[0])
  }

  lemma FirstPrefixQuote(a: string, r: string, e: Escaping)
    requires a != "" && IsQuote(a[0])
    requires First(a + r, e).Success? && |First(a + r, e).value.Text()| <= |a|
    ensures First(a, e) == First(a + r, e)
  {
    hide Close;
    Tail(a, r, 1);
    ClosePrefix(a[1..], r, a[0], e);
    Take(a, r, |First(a + r, e).value.Text()|);
  }

  lemma FirstPrefixDollar(a: string, r: string, e: Escaping)
    requires a != "" && a[0] == '$'
    requires First(a + r, e).Success? && |First(a + r, e).value.Text()| <= |a|
    ensures First(a, e) == First(a + r, e)
  {
    hide Find, DollarTag;
    DollarTagJoin(a, r, 1);
    var tag := DollarTag(a + r, 1);
    if tag.Some? {
      Take(a, r, tag.value);
      FindPrefix(a, r, (a + r)[..tag.value], tag.value);
      Take(a, r, |First(a + r, e).value.Text()|);
    }
  }

  /** A lexeme that ends within `a` is the one `a` alone opens with. */
  lemma FirstPrefix(a: string, r: string, e: Escaping)
    requires a != ""
    requires First(a + r, e).Success? && |First(a + r, e).value.Text()| <= |a|
    ensures First(a, e) == First(a + r, e)
  {
    hide Find, DollarTag, Close, LineEnd, WordLength;
    if IsQuote(a[0]) {
      FirstPrefixQuote(a, r, e);
    } else if a[0] == '$' {
      FirstPrefixDollar(a, r, e);
    } else {
      assert (a + r)[0] == a[0] && (|a| > 1 ==> (a + r)[1] == a[1]);
      if r == "" {
        assert a + r == a;
      } else {
        LineEndJoin(a, r);
        WordLengthJoin(a, r);
        FindPrefix(a, r, "*/", 2);
        Take(a, r, |First(a + r, e).value.Text()|);
      }
    }
  }

  lemma FirstExtendQuote(a: string, r: string, e: Escaping)
    requires a != "" && IsQuote(a[0]) && First(a, e).Success?
    requires |First(a, e).value.Text()| == |a| ==> Keeps(First(a, e).value, r)
    ensures First(a + r, e) == First(a, e)
  {
    hide Close;
    Tail(a, r, 1);
    assert First(a, e).value.Text()[0] == a[0];
    CloseExtend(a[1..], r, a[0], e);
    Take(a, r, |First(a, e).value.Text()|);
  }

  lemma FirstExtendDollar(a: string, r: string, e: Escaping)
    requires a != "" && a[0] == '$' && First(a, e).Success?
    requires r == "" || IsQuote(r[0])
    ensures First(a + r, e) == First(a, e)
  {
    hide Find, DollarTag;
    DollarTagJoin(a, r, 1);
    var tag := DollarTag(a, 1);
    if tag.Some? {
      Take(a, r, tag.value);
      FindPrefix(a, r, a[..tag.value], tag.value);
      Take(a, r, |First(a, e).value.Text()|);
    }
  }

  /** The lexeme a text opens with stays where a quote follows, unless the quote merges with it. */
  lemma FirstExtend(a: string, r: string, e: Escaping)
    requires a != "" && First(a, e).Success?
    requires r == "" || IsQuote(r[0])
    requires |First(a, e).value.Text()| == |a| ==> Keeps(First(a, e).value, r)
    ensures First(a + r, e) == First(a, e)
  {
    hide Find, DollarTag, Close, LineEnd, WordLength;
    if r == "" {
      assert a + r == a;
    } else if IsQuote(a[0]) {
      FirstExtendQuote(a, r, e);
    } else if a[0] == '$' {
      FirstExtendDollar(a, r, e);
    } else {
      assert (a + r)[0] == a[0] && (|a| > 1 ==> (a + r)[1] == a[1]) && (|a| == 1 ==> (a + r)[1] == r[0]);
      LineEndJoin(a, r);
      WordLengthJoin(a, r);
      FindPrefix(a, r, "*/", 2);
      Take(a, r, |First(a, e).value.Text()|);
    }
  }

  /** Where quoted text meets the same quote, one lexeme covers both. */
  lemma FirstMerge(a: string, r: string, e: Escaping)
    requires a != "" && r != "" && IsQuote(a[0]) && r[0] == a[0]
    requires First(a, e) == Success(Quoted(a))
    ensures First(r, e).Success? ==> First(a + r, e) == Success(Quoted(a + First(r, e).value.Text()))
  {
    hide Close;
    Tail(a, r, 1);
    CloseMerge(a[1..], r, a[0], e);
    if First(r, e).Success? {
      var n := |First(r, e).value.Text()|;
      assert (a + r)[..|a| + n] == a + r[..n];
    }
  }

  // ── cutting ─────────────────────────────────────────────────────────────

  /** How much of `s` its first lexeme takes. */
  function Width(s: string, e: Escaping): (n: nat)
    requires s != "" && First(s, e).Success?
    ensures 0 < n <= |s|
  {
    |First(s, e).value.Text()|
  }

  /** Whether `n` lies between two lexemes of `s`. */
  predicate Cut(s: string, n: nat, e: Escaping)
    decreases |s|
  {
    n == 0
    || (s != "" && First(s, e).Success? && Width(s, e) <= n && Cut(s[Width(s, e)..], n - Width(s, e), e))
  }

  lemma LexCons(s: string, e: Escaping)
    requires s != "" && First(s, e).Success?
    ensures Lex(s, e) == Lexed([First(s, e).value] + Lex(s[Width(s, e)..], e).lexemes, Lex(s[Width(s, e)..], e).error)
  {
    LexStep(s, e);
  }

  /** A cut parts the lexemes of the whole into those of the two parts. */
  lemma {:induction false} CutSplits(s: string, n: nat, e: Escaping)
    requires Cut(s, n, e)
    ensures n <= |s| && Lex(s[..n], e).error == None
    ensures Lex(s, e) == Lexed(Lex(s[..n], e).lexemes + Lex(s[n..], e).lexemes, Lex(s[n..], e).error)
    decreases |s|
  {
    hide First, Lex, Width;
    if n == 0 {
      assert s[..0] == "" && s[0..] == s;
      assert Lex("", e) == Lexed([], None) by { LexEmpty(e); }
      assert [] + Lex(s, e).lexemes == Lex(s, e).lexemes;
    } else {
      var k := Width(s, e);
      WidthIs(s, e);
      CutSplits(s[k..], n - k, e);
      DropDrop(s, k, n - k);
      assert s[..n] + s[n..] == s;
      FirstPrefix(s[..n], s[n..], e);
      WidthIs(s[..n], e);
      LexCons(s, e);
      LexCons(s[..n], e);
      assert s[..n][k..] == s[k..][..n - k];
      Regroup([First(s, e).value], Lex(s[k..][..n - k], e).lexemes, Lex(s[n..], e).lexemes);
    }
  }

  lemma LexEmpty(e: Escaping)
    ensures Lex("", e) == Lexed([], None)
  {
  }

  lemma WidthIs(s: string, e: Escaping)
    requires s != "" && First(s, e).Success?
    ensures Width(s, e) == |First(s, e).value.Text()| && 0 < Width(s, e) <= |s|
  {
  }

  lemma {:induction false} CutThenCut(s: string, n: nat, m: nat, e: Escaping)
    requires Cut(s, n, e) && n <= |s| && Cut(s[n..], m, e)
    ensures Cut(s, n + m, e)
    decreases |s|
  {
    hide First, Width;
    if n == 0 {
      assert s[0..] == s;
    } else {
      var k := Width(s, e);
      WidthIs(s, e);
      DropDrop(s, k, n - k);
      CutThenCut(s[k..], n - k, m, e);
    }
  }

  /** Of two cuts the second is one of what follows the first. */
  lemma {:induction false} CutAfterCut(s: string, n: nat, m: nat, e: Escaping)
    requires Cut(s, n, e) && Cut(s, m, e) && n <= m
    ensures n <= |s| && Cut(s[n..], m - n, e)
    decreases |s|
  {
    hide First, Width;
    if n == 0 {
      assert s[0..] == s;
    } else {
      var k := Width(s, e);
      WidthIs(s, e);
      CutSplits(s, n, e);
      CutAfterCut(s[k..], n - k, m - k, e);
      DropDrop(s, k, n - k);
    }
  }

  lemma {:induction false} CutAtEnd(s: string, e: Escaping)
    ensures Lex(s, e).error == None <==> Cut(s, |s|, e)
    decreases |s|
  {
    hide First, Width;
    if s != "" && First(s, e).Success? {
      WidthIs(s, e);
      CutAtEnd(s[Width(s, e)..], e);
      LexCons(s, e);
    }
  }

  // ── joining ─────────────────────────────────────────────────────────────

  predicate SameRegion(x: Lexeme, y: Lexeme) {
    IsRegion(x) && IsRegion(y) && x.text[0] == y.text[0]
  }

  /** `x` before `z`, as one lexeme with the first of `z` where the two are quoted alike. */
  function Before(x: Lexeme, z: seq<Lexeme>): seq<Lexeme> {
    if z != [] && SameRegion(x, z[0]) then [Quoted(x.text + z[0].text)] + z[1..] else [x] + z
  }

  function Onto(l: seq<Lexeme>, z: seq<Lexeme>): seq<Lexeme> {
    if l == [] then z else Before(l[0], Onto(l[1..], z))
  }

  /** Neighbouring quoted texts with the same quote, made one. */
  function Merged(l: seq<Lexeme>): seq<Lexeme> {
    Onto(l, [])
  }

  lemma {:induction false} OntoOnto(a: seq<Lexeme>, b: seq<Lexeme>, z: seq<Lexeme>)
    ensures Onto(a + b, z) == Onto(a, Onto(b, z))
  {
    if a == [] {
      assert [] + b == b;
    } else {
      assert (a + b)[1..] == a[1..] + b;
      OntoOnto(a[1..], b, z);
    }
  }

  lemma RegionEnds(s: string, e: Escaping)
    requires s != "" && First(s, e).Success?
    requires IsRegion(First(s, e).value) && Width(s, e) < |s|
    ensures s[Width(s, e)] != First(s, e).value.text[0]
  {
    assert IsQuote(s[0]);
    CloseEnds(s[1..], s[0], e);
  }

  lemma {:induction false} CloseEnds(s: string, q: char, e: Escaping)
    ensures var n := Close(s, q, e); n.Some? && n.value < |s| ==> s[n.value] != q
    decreases |s|
  {
    hide Close;
    CloseOnce(s, q, e);
    if s != "" {
      CloseEnds(s[1..], q, e);
      if |s| >= 2 { CloseEnds(s[2..], q, e); }
    }
  }

  lemma CommentEnds(s: string, e: Escaping)
    requires s != "" && First(s, e).Success? && Width(s, e) < |s|
    ensures var x := First(s, e).value;
            x.Comment? ==> x.text != "" && (x.text[|x.text| - 1] == '\n' || x.text[0] == '/')
  {
    hide Find, DollarTag, Close, WordLength;
  }

  lemma FirstOpens(s: string, e: Escaping)
    requires s != "" && First(s, e).Success?
    ensures var x := First(s, e).value;
            && x.Text() != "" && x.Text()[0] == s[0]
            && (IsQuote(s[0]) <==> IsRegion(x))
  {
    hide Find, DollarTag, Close, WordLength;
  }

  lemma LexOpens(s: string, e: Escaping)
    ensures var l := Lex(s, e).lexemes;
            l != [] ==> s != "" && First(s, e) == Success(l[0]) && l[0].Text() != "" && l[0].Text()[0] == s[0]
  {
    hide First;
    if s != "" && First(s, e).Success? {
      LexCons(s, e);
      FirstOpens(s, e);
    }
  }

  /** The scanner itself leaves no two neighbours to merge. */
  lemma {:induction false} LexMerged(s: string, e: Escaping)
    ensures Merged(Lex(s, e).lexemes) == Lex(s, e).lexemes
    decreases |s|
  {
    hide First, Width, Lex;
    if s != "" && First(s, e).Success? {
      LexCons(s, e);
      WidthIs(s, e);
      var rest := s[Width(s, e)..];
      LexMerged(rest, e);
      LexOpens(rest, e);
      if rest != "" && IsRegion(First(s, e).value) { RegionEnds(s, e); }
      assert Lex(s, e).lexemes[1..] == Lex(rest, e).lexemes;
    } else {
      LexStuck(s, e);
    }
  }

  lemma LexStuck(s: string, e: Escaping)
    requires s == "" || First(s, e).Failure?
    ensures Lex(s, e).lexemes == []
    ensures s != "" ==> Lex(s, e).error == Some(First(s, e).error)
  {
  }

  lemma DropPast(a: string, b: string, k: nat)
    requires k <= |b|
    ensures (a + b)[|a| + k..] == b[k..] && b[0..] == b
  {
  }

  /** One quoted text in front of any text that scans. */
  lemma QuotedThen(q: string, t: string, e: Escaping)
    requires q != "" && IsQuote(q[0]) && First(q, e) == Success(Quoted(q))
    requires Lex(t, e).error == None
    ensures Lex(q + t, e) == Lexed(Before(Quoted(q), Lex(t, e).lexemes), None)
  {
    hide First, Lex, Width;
    if t != "" && First(t, e).Failure? { LexStuck(t, e); }
    if t != "" && t[0] == q[0] {
      FirstMerge(q, t, e);
      FirstOpens(t, e);
      LexCons(q + t, e);
      LexCons(t, e);
      WidthIs(t, e);
      WidthIs(q + t, e);
      DropPast(q, t, Width(t, e));
      assert Lex(t, e).lexemes[1..] == Lex(t[Width(t, e)..], e).lexemes;
    } else {
      QuotedKept(q, t, e);
      LexCons(q + t, e);
      WidthIs(q + t, e);
      DropPast(q, t, 0);
      LexOpens(t, e);
    }
  }

  lemma QuotedKept(q: string, t: string, e: Escaping)
    requires q != "" && IsQuote(q[0]) && First(q, e) == Success(Quoted(q))
    requires t != "" ==> t[0] != q[0]
    ensures First(q + t, e) == First(q, e)
  {
    hide First;
    FirstExtendQuote(q, t, e);
  }

  /**
   Where a text was cut, what followed can be replaced by anything that opens
   with a quote and scans: the front is read as before, and the two quoted
   texts that may now meet are one.
   */
  lemma {:induction false} Join(a: string, was: string, u: string, e: Escaping)
    requires was != "" && Cut(a + was, |a|, e)
    requires u != "" && IsQuote(u[0]) && Lex(u, e).error == None
    ensures Lex(a + u, e) == Lexed(Onto(Lex(a, e).lexemes, Lex(u, e).lexemes), None)
    decreases |a|
  {
    hide First, Lex, Width;
    if a == "" {
      LexEmpty(e);
      assert a + u == u;
    } else {
      var s := a + was;
      WidthIs(s, e);
      var k := Width(s, e);
      FirstPrefix(a, was, e);
      WidthIs(a, e);
      Tail(a, was, k);
      Tail(a, u, k);
      Join(a[k..], was, u, e);
      LexCons(a, e);
      assert Lex(a, e).lexemes[1..] == Lex(a[k..], e).lexemes;
      JoinOne(a, was, u, e);
    }
  }

  lemma JoinOne(a: string, was: string, u: string, e: Escaping)
    requires was != "" && a != "" && First(a + was, e).Success? && Width(a + was, e) <= |a|
    requires First(a, e) == First(a + was, e)
    requires u != "" && IsQuote(u[0]) && Lex(u, e).error == None
    requires Lex(a[Width(a, e)..] + u, e).error == None
    ensures Lex(a + u, e) == Lexed(Before(First(a, e).value, Lex(a[Width(a, e)..] + u, e).lexemes), None)
  {
    hide First, Lex, Width;
    var x, k := First(a, e).value, Width(a, e);
    WidthIs(a, e);
    WidthIs(a + was, e);
    CommentEnds(a + was, e);
    FirstOpens(a, e);
    var rest := a[k..] + u;
    LexOpens(rest, e);
    if k == |a| && IsRegion(x) {
      assert x.text == a by { TextIs(a, e); }
      assert rest == u;
      QuotedThen(a, u, e);
    } else {
      FirstExtend(a, u, e);
      LexCons(a + u, e);
      WidthIs(a + u, e);
      Tail(a, u, k);
      if IsRegion(x) {
        RegionEnds(a + was, e);
        assert (a + was)[k] == a[k] == rest[0];
      }
    }
  }

  lemma TextIs(s: string, e: Escaping)
    requires s != "" && First(s, e).Success?
    ensures First(s, e).value.Text() == s[..Width(s, e)]
  {
  }
}
