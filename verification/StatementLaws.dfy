/**
 What `parse` keeps: the statement, the whole statement, and nothing another
 reading could find a second one in.
 */
module StatementLaws {
  import opened Wrappers
  import opened Lexer
  import opened LexerLaws
  import opened Positions
  import opened Statements

  predicate HasCode(l: seq<Lexeme>) {
    l != [] && (l[0].IsCode() || HasCode(l[1..]))
  }

  predicate NoSemicolon(l: seq<Lexeme>) {
    l == [] || (!l[0].Semicolon? && NoSemicolon(l[1..]))
  }

  /** Whether some code of `l`, which begins at `at`, lies in the range. */
  predicate CodeWithin(l: seq<Lexeme>, at: nat, lo: nat, hi: nat) {
    l != []
    && ((l[0].IsCode() && lo <= at && at + |l[0].Text()| <= hi)
        || CodeWithin(l[1..], at + |l[0].Text()|, lo, hi))
  }

  // ── lists of lexemes ────────────────────────────────────────────────────

  lemma {:induction false} AppendedWords(a: seq<Lexeme>, b: seq<Lexeme>)
    ensures Words(a + b) == Words(a) + Words(b)
  {
    hide Lexeme.Text;
    if a == [] {
      assert a + b == b;
    } else {
      assert (a + b)[1..] == a[1..] + b;
      AppendedWords(a[1..], b);
    }
  }

  lemma {:induction false} AppendedTexts(a: seq<Lexeme>, b: seq<Lexeme>)
    ensures Texts(a + b) == Texts(a) + Texts(b)
  {
    hide Lexeme.Text;
    if a == [] {
      assert a + b == b;
    } else {
      assert (a + b)[1..] == a[1..] + b;
      AppendedTexts(a[1..], b);
    }
  }

  lemma {:induction false} AppendedCode(a: seq<Lexeme>, b: seq<Lexeme>)
    ensures HasCode(a + b) <==> HasCode(a) || HasCode(b)
  {
    hide Lexeme.IsCode;
    if a == [] {
      assert a + b == b;
    } else {
      assert (a + b)[1..] == a[1..] + b;
      AppendedCode(a[1..], b);
    }
  }

  lemma {:induction false} AppendedSemicolons(a: seq<Lexeme>, b: seq<Lexeme>)
    ensures NoSemicolon(a + b) <==> NoSemicolon(a) && NoSemicolon(b)
  {
    hide Lexeme.Text;
    if a == [] {
      assert a + b == b;
    } else {
      assert (a + b)[1..] == a[1..] + b;
      AppendedSemicolons(a[1..], b);
    }
  }

  lemma Appended(a: seq<Lexeme>, b: seq<Lexeme>)
    ensures Words(a + b) == Words(a) + Words(b)
    ensures HasCode(a + b) <==> HasCode(a) || HasCode(b)
    ensures NoSemicolon(a + b) <==> NoSemicolon(a) && NoSemicolon(b)
    ensures Texts(a + b) == Texts(a) + Texts(b)
  {
    hide *;
    AppendedWords(a, b);
    AppendedTexts(a, b);
    AppendedCode(a, b);
    AppendedSemicolons(a, b);
  }

  lemma One(x: Lexeme)
    ensures Words([x]) == if x.Word? then [x.text] else []
    ensures HasCode([x]) <==> x.IsCode()
    ensures NoSemicolon([x]) <==> !x.Semicolon?
    ensures Texts([x]) == x.Text()
  {
    hide Lexeme.Text, Lexeme.IsCode;
    assert [x][1..] == [];
  }

  lemma Nil()
    ensures Words([]) == [] && !HasCode([]) && NoSemicolon([])
  {
  }

  lemma {:induction false} NoCodeNoWords(l: seq<Lexeme>)
    requires !HasCode(l)
    ensures Words(l) == []
  {
    if l != [] { NoCodeNoWords(l[1..]); }
  }

  lemma {:induction false} WithinAppended(a: seq<Lexeme>, b: seq<Lexeme>, at: nat, lo: nat, hi: nat)
    ensures CodeWithin(a + b, at, lo, hi)
            <==> CodeWithin(a, at, lo, hi) || CodeWithin(b, at + |Texts(a)|, lo, hi)
  {
    hide Lexeme.Text, Lexeme.IsCode;
    if a == [] {
      assert a + b == b;
    } else {
      assert (a + b)[1..] == a[1..] + b;
      WithinAppended(a[1..], b, at + |a[0].Text()|, lo, hi);
    }
  }

  lemma {:induction false} WithinShifted(l: seq<Lexeme>, at: nat, lo: nat, hi: nat, d: nat)
    ensures CodeWithin(l, at + d, lo + d, hi + d) <==> CodeWithin(l, at, lo, hi)
  {
    hide Lexeme.Text, Lexeme.IsCode;
    if l != [] { WithinShifted(l[1..], at + |l[0].Text()|, lo, hi, d); }
  }

  lemma {:induction false} WithinAll(l: seq<Lexeme>, at: nat, lo: nat, hi: nat)
    requires lo <= at && at + |Texts(l)| <= hi
    ensures CodeWithin(l, at, lo, hi) <==> HasCode(l)
  {
    hide Lexeme.Text, Lexeme.IsCode;
    if l != [] { WithinAll(l[1..], at + |l[0].Text()|, lo, hi); }
  }

  /** Lexemes of a scanned text take up room, so none lies in a range that begins past the text. */
  lemma {:induction false} WithinPast(s: string, e: Escaping, at: nat, lo: nat, hi: nat)
    requires at + |s| <= lo
    ensures !CodeWithin(Lex(s, e).lexemes, at, lo, hi)
    decreases |s|
  {
    hide First, Lex, Width;
    if s != "" && First(s, e).Success? {
      LexCons(s, e);
      WidthIs(s, e);
      WithinPast(s[Width(s, e)..], e, at + Width(s, e), lo, hi);
      assert Lex(s, e).lexemes[1..] == Lex(s[Width(s, e)..], e).lexemes;
    } else {
      LexStuck(s, e);
    }
  }

  /** Nor in one that ends before it begins. */
  lemma {:induction false} WithinBefore(s: string, e: Escaping, at: nat, lo: nat, hi: nat)
    requires hi <= at
    ensures !CodeWithin(Lex(s, e).lexemes, at, lo, hi)
    decreases |s|
  {
    hide First, Lex, Width;
    if s != "" && First(s, e).Success? {
      LexCons(s, e);
      WidthIs(s, e);
      WithinBefore(s[Width(s, e)..], e, at + Width(s, e), lo, hi);
      assert Lex(s, e).lexemes[1..] == Lex(s[Width(s, e)..], e).lexemes;
    } else {
      LexStuck(s, e);
    }
  }

  // ── spans ───────────────────────────────────────────────────────────────

  predicate IsStatement(s: string, e: Escaping) {
    Lex(s, e).error == None && NoSemicolon(Lex(s, e).lexemes) && HasCode(Lex(s, e).lexemes)
  }

  predicate SpanOf(text: string, p: Span, e: Escaping) {
    && p.0 <= p.1 <= |text| && Cut(text, p.0, e) && Cut(text, p.1, e)
    && IsStatement(text[p.0..p.1], e)
  }

  /** The open statement grows by one lexeme. */
  lemma Grow(text: string, e: Escaping, start: nat, at: nat)
    requires start <= at < |text| && Cut(text, start, e) && Cut(text, at, e)
    requires First(text[at..], e).Success?
    ensures var w := Width(text[at..], e);
            && at + w <= |text| && Cut(text, at + w, e)
            && Lex(text[start..at + w], e)
               == Lexed(Lex(text[start..at], e).lexemes + [First(text[at..], e).value], None)
  {
    hide First, Lex, Width, Cut;
    var s, n, w := text[start..], at - start, Width(text[at..], e);
    WidthIs(text[at..], e);
    CutBehindFirst(text[at..], e);
    assert text[at..][w..] == text[at + w..];
    CutThenCut(text, at, w, e);
    CutAfterCut(text, start, at, e);
    CutAfterCut(text, start, at + w, e);
    CutSplits(s, n, e);
    CutSplits(s, n + w, e);
    DropDrop(text, start, n);
    DropDrop(text, start, n + w);
    LexCons(text[at..], e);
    assert s[..n] == text[start..at] && s[..n + w] == text[start..at + w];
    var x := [First(text[at..], e).value];
    Regroup(Lex(s[..n], e).lexemes, x, Lex(s[n + w..], e).lexemes);
    SameFront(Lex(s[..n + w], e).lexemes, Lex(s[..n], e).lexemes + x, Lex(s[n + w..], e).lexemes);
  }

  lemma CutBehindFirst(s: string, e: Escaping)
    requires s != "" && First(s, e).Success?
    ensures Cut(s, Width(s, e), e)
  {
    hide First;
    assert Cut(s[Width(s, e)..], 0, e);
  }

  lemma SameFront<T>(a: seq<T>, b: seq<T>, rest: seq<T>)
    requires a + rest == b + rest
    ensures a == b
  {
    assert |a + rest| == |b + rest|;
    assert a == (a + rest)[..|a|] == (b + rest)[..|b|] == b;
  }

  /** Every span is a statement on its own, and a single one holds all the words. */
  lemma {:induction false} SpansAreStatements(text: string, e: Escaping, start: nat, at: nat, code: bool)
    requires Lex(text, e).error == None
    requires start <= at <= |text| && Cut(text, start, e) && Cut(text, at, e)
    requires NoSemicolon(Lex(text[start..at], e).lexemes) && code == HasCode(Lex(text[start..at], e).lexemes)
    requires Lex(text[start..at], e).error == None
    ensures var spans := Spans(Lex(text[at..], e).lexemes, at, start, code);
            && (forall p :: p in spans ==> SpanOf(text, p, e))
            && (|spans| == 1 ==>
                  && SpanOf(text, spans[0], e)
                  && Words(Lex(text[spans[0].0..spans[0].1], e).lexemes)
                     == Words(Lex(text[start..at], e).lexemes) + Words(Lex(text[at..], e).lexemes))
            && (|spans| == 0 ==> Words(Lex(text[start..at], e).lexemes) + Words(Lex(text[at..], e).lexemes) == [])
    decreases |text| - at
  {
    hide First, Lex, Width, Lexeme.Text, Lexeme.IsCode, Words, HasCode, NoSemicolon, Texts, Cut;
    Nil();
    CutSplits(text, at, e);
    if at == |text| {
      assert text[at..] == "";
      LexEmpty(e);
      if !code { NoCodeNoWords(Lex(text[start..at], e).lexemes); }
    } else {
      if First(text[at..], e).Failure? { LexStuck(text[at..], e); }
      var w, x := Width(text[at..], e), First(text[at..], e).value;
      var part, rest := Lex(text[start..at], e).lexemes, Lex(text[at + w..], e).lexemes;
      WidthIs(text[at..], e);
      Grow(text, e, start, at);
      LexCons(text[at..], e);
      DropDrop(text, at, w);
      assert Lex(text[at..], e).lexemes[1..] == rest;
      Appended([x], rest);
      Appended(part, [x]);
      One(x);
      if x.Semicolon? {
        SemicolonText(x);
        assert text[at + 1..at + 1] == "";
        LexEmpty(e);
        SpansAreStatements(text, e, at + 1, at + 1, false);
        if !code { NoCodeNoWords(part); }
      } else {
        SpansAreStatements(text, e, start, at + w, code || x.IsCode());
        Regroup(Words(part), Words([x]), Words(rest));
      }
    }
  }

  // ── trimming ────────────────────────────────────────────────────────────

  lemma WhiteFirst(s: string, e: Escaping)
    requires s != "" && IsWhite(s[0])
    ensures First(s, e) == Success(if IsSpace(s[0]) then Space(s[0]) else Code(s[0]))
  {
  }

  lemma WhiteStep(s: string, k: nat, e: Escaping)
    requires s != "" && IsWhite(s[0]) && 1 <= k <= |s|
    requires Cut(s[1..], k - 1, e) && Words(Lex(s[1..][..k - 1], e).lexemes) == []
    ensures Cut(s, k, e) && Words(Lex(s[..k], e).lexemes) == []
  {
    hide First, Lex, Width, Words;
    WhiteFirst(s, e);
    WidthIs(s, e);
    assert s[..k][0] == s[0] && s[..k][1..] == s[1..][..k - 1];
    WhiteFirst(s[..k], e);
    WidthIs(s[..k], e);
    LexCons(s[..k], e);
    One(First(s, e).value);
    Appended([First(s, e).value], Lex(s[1..][..k - 1], e).lexemes);
  }

  /** White space in front comes off one lexeme at a time. */
  lemma {:induction false} TrimStartCuts(s: string, e: Escaping)
    ensures var k := |s| - |TrimStart(s)|;
            Cut(s, k, e) && Words(Lex(s[..k], e).lexemes) == []
    decreases |s|
  {
    hide *;
    TrimStartStep(s);
    if s != "" && IsWhite(s[0]) {
      TrimStartCuts(s[1..], e);
      WhiteStep(s, |s| - |TrimStart(s)|, e);
    } else {
      CutNothing(s, e);
    }
  }

  lemma TrimStartStep(s: string)
    ensures TrimStart(s) == if s != "" && IsWhite(s[0]) then TrimStart(s[1..]) else s
  {
  }

  lemma CutNothing(s: string, e: Escaping)
    ensures Cut(s, 0, e) && Words(Lex(s[..0], e).lexemes) == []
  {
    assert s[..0] == "";
  }

  /** What one white unit at the end was: a lexeme, or the end of a line comment. */
  predicate LostLast(before: seq<Lexeme>, after: seq<Lexeme>, c: char) {
    || (before == after + [Space(c)])
    || (before == after + [Code(c)])
    || (after != [] && |before| == |after| && before[..|after| - 1] == after[..|after| - 1]
        && before[|after| - 1].Comment? && after[|after| - 1].Comment?)
  }

  lemma LastAlone(s: string, e: Escaping)
    requires s != "" && IsWhite(s[|s| - 1]) && First(s, e).Success? && Width(s, e) == |s|
    ensures if |s| == 1 then First(s, e).value == Space(s[0]) || First(s, e).value == Code(s[0])
            else First(s, e).value.Comment? && First(s[..|s| - 1], e) == Success(Comment(s[..|s| - 1]))
  {
    hide Find, DollarTag, Close;
    if |s| == 1 {
      WhiteFirst(s, e);
    } else if s[0] == '-' && s[1] == '-' {
      var t := s[..|s| - 1];
      assert t[0] == '-' && t[1] == '-';
      assert s == t + [s[|s| - 1]];
      LineEndWhole(t, [s[|s| - 1]]);
      assert t[..|t|] == t;
    } else {
      assert s[..2] == [s[0], s[1]];
      LongEnds(s, e);
    }
  }

  /** Nothing longer than a unit ends in white space, but for a line comment. */
  lemma LongEnds(s: string, e: Escaping)
    requires |s| > 1 && First(s, e).Success? && Width(s, e) == |s| && s[..2] != "--"
    ensures !IsWhite(s[|s| - 1])
  {
    hide Find, DollarTag, Close, WordLength, LineEnd;
    assert s[..2] == [s[0], s[1]];
    if IsQuote(s[0]) || s[0] == '$' {
      QuotedEnds(s, e);
    } else if s[0] == '/' && s[1] == '*' {
      var at := Find(s, "*/", 2).value;
      assert s[at..at + 2][1] == s[at + 1];
    } else if IsWordStart(s[0]) {
      assert IsWordUnit(s[WordLength(s) - 1]);
    }
  }

  lemma {:induction false} LineEndWhole(t: string, r: string)
    requires r != "" && LineEnd(t + r) > |t|
    ensures LineEnd(t) == |t|
  {
    if t != "" {
      Tail(t, r, 1);
      LineEndWhole(t[1..], r);
    }
  }

  lemma QuotedEnds(s: string, e: Escaping)
    requires s != "" && First(s, e).Success? && Width(s, e) == |s| && |s| > 1
    requires IsQuote(s[0]) || s[0] == '$'
    ensures !IsWhite(s[|s| - 1])
  {
    hide Find, Close;
    if s[0] == '$' {
      DollarEnds(s, 1);
    }
  }

  lemma {:induction false} DollarEnds(s: string, end: nat)
    requires 1 <= end
    ensures DollarTag(s, end).Some? ==> s[DollarTag(s, end).value - 1] == '$'
    decreases |s| - end
  {
    if end < |s| && s[end] != '$' { DollarEnds(s, end + 1); }
  }

  lemma {:induction false} DropLast(s: string, e: Escaping)
    requires s != "" && IsWhite(s[|s| - 1]) && Lex(s, e).error == None
    ensures Lex(s[..|s| - 1], e).error == None
    ensures LostLast(Lex(s, e).lexemes, Lex(s[..|s| - 1], e).lexemes, s[|s| - 1])
    decreases |s|
  {
    hide First, Lex, Width;
    var t, c := s[..|s| - 1], s[|s| - 1];
    if First(s, e).Failure? { LexStuck(s, e); }
    WidthIs(s, e);
    var w, x := Width(s, e), First(s, e).value;
    LexCons(s, e);
    if w == |s| {
      LastAlone(s, e);
      assert s[w..] == "";
      LexEmpty(e);
      if |s| == 1 {
        assert t == "";
        assert [] + [x] == [x];
      } else {
        WidthIs(t, e);
        LexCons(t, e);
        assert t[|t|..] == "";
      }
    } else {
      assert s == t + [c];
      FirstPrefix(t, [c], e);
      WidthIs(t, e);
      LexCons(t, e);
      assert s[w..][..|s| - w - 1] == t[w..];
      DropLast(s[w..], e);
      LostLater(x, Lex(s[w..], e).lexemes, Lex(t[w..], e).lexemes, c);
    }
  }

  lemma LostLater(x: Lexeme, before: seq<Lexeme>, after: seq<Lexeme>, c: char)
    requires LostLast(before, after, c)
    ensures LostLast([x] + before, [x] + after, c)
  {
    if before == after + [Space(c)] {
      Regroup([x], after, [Space(c)]);
    } else if before == after + [Code(c)] {
      Regroup([x], after, [Code(c)]);
    } else {
      assert ([x] + before)[..|after|] == [x] + before[..|after| - 1];
      assert ([x] + after)[..|after|] == [x] + after[..|after| - 1];
    }
  }

  lemma LostNothing(before: seq<Lexeme>, after: seq<Lexeme>, c: char, hi: nat)
    requires LostLast(before, after, c) && hi < |Texts(before)|
    ensures Words(after) == Words(before)
    ensures NoSemicolon(before) ==> NoSemicolon(after)
    ensures CodeWithin(after, 0, 0, hi) <==> CodeWithin(before, 0, 0, hi)
  {
    hide Words, HasCode, NoSemicolon, CodeWithin, Texts;
    if before == after + [Space(c)] || before == after + [Code(c)] {
      var x := before[|after|];
      assert before == after + [x];
      Appended(after, [x]);
      One(x);
      WithinAppended(after, [x], 0, 0, hi);
      WithinOne(x, |Texts(after)|, 0, hi);
    } else {
      var n := |after| - 1;
      assert before == before[..n] + [before[n]];
      assert after == after[..n] + [after[n]];
      Appended(before[..n], [before[n]]);
      Appended(after[..n], [after[n]]);
      One(before[n]);
      One(after[n]);
      WithinAppended(before[..n], [before[n]], 0, 0, hi);
      WithinAppended(after[..n], [after[n]], 0, 0, hi);
      WithinOne(before[n], |Texts(before[..n])|, 0, hi);
      WithinOne(after[n], |Texts(before[..n])|, 0, hi);
    }
  }

  lemma WithinOne(x: Lexeme, at: nat, lo: nat, hi: nat)
    ensures CodeWithin([x], at, lo, hi) <==> x.IsCode() && lo <= at && at + |x.Text()| <= hi
  {
    assert [x][1..] == [];
  }

  /** White space behind comes off without disturbing what is left. */
  lemma {:induction false} TrimEndKeeps(s: string, e: Escaping)
    requires Lex(s, e).error == None
    ensures var t := TrimEnd(s);
            && Lex(t, e).error == None
            && Words(Lex(t, e).lexemes) == Words(Lex(s, e).lexemes)
            && (NoSemicolon(Lex(s, e).lexemes) ==> NoSemicolon(Lex(t, e).lexemes))
            && (HasCode(Lex(t, e).lexemes) <==> CodeWithin(Lex(s, e).lexemes, 0, 0, |t|))
    decreases |s|
  {
    hide Lex;
    TextsOfLex(s, e);
    if s != "" && IsWhite(s[|s| - 1]) {
      DropLast(s, e);
      TrimEndKeeps(s[..|s| - 1], e);
      LostNothing(Lex(s, e).lexemes, Lex(s[..|s| - 1], e).lexemes, s[|s| - 1], |TrimEnd(s)|);
    } else {
      WithinAll(Lex(s, e).lexemes, 0, 0, |s|);
    }
  }

  // ── the laws ────────────────────────────────────────────────────────────

  /** The range of an accepted text that is kept. */
  function KeptRange(raw: string, e: Escaping): (r: Span)
    requires Validate(raw, e).Success?
    ensures r.0 <= r.1 <= |raw|
    ensures Validate(raw, e).value.text == raw[r.0..r.1]
    ensures Validate(raw, e).value.start == AfterText(raw[..r.0])
  {
    hide Lex, Spans, AfterText, Kept, Sole;
    Kept(raw, Sole(raw, e))
  }

  /** Some code of the text lies in what is kept of it. */
  predicate KeepsCode(raw: string, e: Escaping)
    requires Validate(raw, e).Success?
  {
    CodeWithin(Lex(raw, e).lexemes, 0, KeptRange(raw, e).0, KeptRange(raw, e).1)
  }

  /** The one span of an accepted text, cut out of it. */
  lemma AcceptedSpan(raw: string, e: Escaping) returns (span: Span)
    requires Validate(raw, e).Success?
    ensures Lex(raw, e).error == None && SpanOf(raw, span, e)
    ensures KeptRange(raw, e) == Kept(raw, span)
    ensures Words(Lex(raw[span.0..span.1], e).lexemes) == Words(Lex(raw, e).lexemes)
  {
    hide Lex, Spans, AfterText, IsStatement, Kept;
    assert raw[0..] == raw && raw[0..0] == "";
    LexEmpty(e);
    SpansAreStatements(raw, e, 0, 0, false);
    span := Spans(Lex(raw, e).lexemes, 0, 0, false)[0];
  }

  /** What is kept scans, holds no boundary, and has the words of the whole text. */
  lemma KeptScans(raw: string, e: Escaping)
    requires Validate(raw, e).Success?
    ensures var l := Lex(Validate(raw, e).value.text, e);
            && l.error == None && NoSemicolon(l.lexemes)
            && Words(l.lexemes) == Words(Lex(raw, e).lexemes)
            && (HasCode(l.lexemes) <==> KeepsCode(raw, e))
  {
    hide Lex, Cut, Words, HasCode, NoSemicolon, CodeWithin, TrimStart, TrimEnd, Validate, KeptRange, Kept,
         IsStatement, KeepsCode;
    var span := AcceptedSpan(raw, e);
    var s := raw[span.0..span.1];
    KeptText(raw, span);
    TrimmedStatement(s, e);
    KeptCode(raw, e, span, |TrimEnd(TrimStart(s))|);
    KeptIs(raw, e, span);
  }

  lemma KeptIs(raw: string, e: Escaping, span: Span)
    requires Validate(raw, e).Success? && span.0 <= span.1 <= |raw| && KeptRange(raw, e) == Kept(raw, span)
    ensures var t := TrimStart(raw[span.0..span.1]);
            && |t| <= span.1 - span.0 && |TrimEnd(t)| <= |t|
            && (KeepsCode(raw, e) <==> CodeWithin(Lex(raw, e).lexemes, 0, span.1 - |t|, span.1 - |t| + |TrimEnd(t)|))
  {
    hide Lex, CodeWithin, KeptRange, TrimStart, TrimEnd, Validate;
  }

  /** Trimming leaves a statement's words alone, and puts no boundary in. */
  lemma TrimmedStatement(s: string, e: Escaping)
    requires IsStatement(s, e)
    ensures var t := TrimStart(s);
            var r := Lex(TrimEnd(t), e);
            && Cut(s, |s| - |t|, e) && Lex(t, e).error == None
            && r.error == None && NoSemicolon(r.lexemes) && Words(r.lexemes) == Words(Lex(s, e).lexemes)
            && (HasCode(r.lexemes) <==> CodeWithin(Lex(t, e).lexemes, 0, 0, |TrimEnd(t)|))
  {
    hide Lex, Cut, Words, HasCode, NoSemicolon, CodeWithin, TrimStart, TrimEnd;
    var t := TrimStart(s);
    var k := |s| - |t|;
    TrimStartCuts(s, e);
    CutSplits(s, k, e);
    Appended(Lex(s[..k], e).lexemes, Lex(t, e).lexemes);
    TrimEndKeeps(t, e);
  }

  /** Code of the middle of three texts, found among the lexemes of all three. */
  lemma WithinMiddle(raw: string, e: Escaping, a: nat, b: nat, lo: nat, hi: nat)
    requires a <= b <= |raw| && Cut(raw, a, e) && Cut(raw, b, e) && a <= lo && hi <= b
    ensures CodeWithin(Lex(raw, e).lexemes, 0, lo, hi) <==> CodeWithin(Lex(raw[a..b], e).lexemes, a, lo, hi)
  {
    hide First, Lex, CodeWithin, Width, Cut;
    CutAfterCut(raw, a, b, e);
    CutSplits(raw, a, e);
    CutSplits(raw[a..], b - a, e);
    assert raw[a..][..b - a] == raw[a..b];
    DropDrop(raw, a, b - a);
    var front, middle, back := Lex(raw[..a], e).lexemes, Lex(raw[a..b], e).lexemes, Lex(raw[b..], e).lexemes;
    TextsOfLex(raw[..a], e);
    TextsOfLex(raw[a..b], e);
    WithinAppended(front, middle + back, 0, lo, hi);
    WithinAppended(middle, back, a, lo, hi);
    WithinPast(raw[..a], e, 0, lo, hi);
    WithinBefore(raw[b..], e, b, lo, hi);
  }

  /** Code in the kept range is code of what is left when the front has come off. */
  lemma KeptCode(raw: string, e: Escaping, span: Span, n: nat)
    requires SpanOf(raw, span, e)
    requires var s := raw[span.0..span.1]; n <= |TrimStart(s)| && Cut(s, |s| - |TrimStart(s)|, e)
    ensures var t := TrimStart(raw[span.0..span.1]);
            CodeWithin(Lex(raw, e).lexemes, 0, span.1 - |t|, span.1 - |t| + n) <==>
                CodeWithin(Lex(t, e).lexemes, 0, 0, n)
  {
    hide First, Lex, CodeWithin, Width, Cut, IsStatement, TrimStart;
    var (a, b) := span;
    var s := raw[a..b];
    var t := TrimStart(s);
    var k := |s| - |t|;
    WithinMiddle(raw, e, a, b, a + k, a + k + n);
    CutSplits(s, k, e);
    TextsOfLex(s[..k], e);
    WithinAppended(Lex(s[..k], e).lexemes, Lex(t, e).lexemes, a, a + k, a + k + n);
    WithinPast(s[..k], e, a, a + k, a + k + n);
    WithinShifted(Lex(t, e).lexemes, 0, 0, n, a + k);
  }

  lemma {:induction false} SpansOfOne(l: seq<Lexeme>, at: nat, start: nat, code: bool)
    requires NoSemicolon(l)
    ensures Spans(l, at, start, code) == if code || HasCode(l) then [(start, at + |Texts(l)|)] else []
  {
    hide Lexeme.Text, Lexeme.IsCode;
    if l != [] { SpansOfOne(l[1..], at + |l[0].Text()|, start, code || l[0].IsCode()); }
  }

  lemma TrimmedStays(s: string)
    requires s == "" || (!IsWhite(s[0]) && !IsWhite(s[|s| - 1]))
    ensures TrimStart(s) == s && TrimEnd(s) == s
  {
  }

  lemma KeptIsTrimmed(raw: string, e: Escaping)
    requires Validate(raw, e).Success?
    ensures var t := Validate(raw, e).value.text; t == "" || (!IsWhite(t[0]) && !IsWhite(t[|t| - 1]))
  {
    hide *;
    var span := AcceptedSpan(raw, e);
    SpanBounds(raw, span, e);
    KeptText(raw, span);
    TrimmedEnds(raw[span.0..span.1]);
  }

  lemma SpanBounds(raw: string, span: Span, e: Escaping)
    requires SpanOf(raw, span, e)
    ensures span.0 <= span.1 <= |raw|
  {
  }

  lemma TrimmedEnds(s: string)
    ensures var t := TrimEnd(TrimStart(s)); t == "" || (!IsWhite(t[0]) && !IsWhite(t[|t| - 1]))
  {
    hide TrimStart, TrimEnd;
    var k := TrimStart(s);
    assert TrimEnd(k) != "" ==> TrimEnd(k)[0] == k[0];
  }

  /** A trimmed text with no boundary in it is accepted as it stands, if it has any code. */
  lemma TrimmedIsKept(t: string, e: Escaping)
    requires Lex(t, e).error == None && NoSemicolon(Lex(t, e).lexemes)
    requires t == "" || (!IsWhite(t[0]) && !IsWhite(t[|t| - 1]))
    ensures Validate(t, e) == if HasCode(Lex(t, e).lexemes) then Success(Validated(t, e, FIRST)) else Failure(Empty)
  {
    hide Lex, Spans, HasCode, NoSemicolon, TrimStart, TrimEnd, IsWhite, Texts, Validate;
    TextsOfLex(t, e);
    SpansOfOne(Lex(t, e).lexemes, 0, 0, false);
    if HasCode(Lex(t, e).lexemes) {
      WholeKept(t);
      ValidateOne(t, e);
      Whole(t);
    } else {
      ValidateNone(t, e);
    }
  }

  lemma ValidateOne(t: string, e: Escaping)
    requires Lex(t, e).error == None && Spans(Lex(t, e).lexemes, 0, 0, false) == [(0, |t|)]
    requires Kept(t, (0, |t|)) == (0, |t|)
    ensures Validate(t, e) == Success(Validated(t[0..|t|], e, FIRST))
  {
    hide Lex, Spans, Kept;
    assert t[..0] == "";
  }

  lemma ValidateNone(t: string, e: Escaping)
    requires Lex(t, e).error == None && Spans(Lex(t, e).lexemes, 0, 0, false) == []
    ensures Validate(t, e) == Failure(Empty)
  {
    hide Lex, Spans;
  }

  lemma WholeKept(t: string)
    requires t == "" || (!IsWhite(t[0]) && !IsWhite(t[|t| - 1]))
    ensures Kept(t, (0, |t|)) == (0, |t|)
  {
    hide TrimStart, TrimEnd, IsWhite;
    TrimmedStays(t);
    Whole(t);
  }

  lemma Whole(t: string)
    ensures t[0..|t|] == t
  {
  }

  /**
   Validation is a fixpoint. What is kept of an accepted text is accepted again,
   as the same text, exactly when some code of the text lies in what is kept;
   otherwise there is nothing to run.
   */
  lemma ValidationIsAFixpoint(raw: string, e: Escaping)
    requires Validate(raw, e).Success?
    ensures var kept := Validate(raw, e).value.text;
            Validate(kept, e) == if KeepsCode(raw, e) then Success(Validated(kept, e, FIRST)) else Failure(Empty)
  {
    hide *;
    KeptScans(raw, e);
    KeptIsTrimmed(raw, e);
    TrimmedIsKept(Validate(raw, e).value.text, e);
  }

  /** What is kept says what the whole text says: its kind is the kind of the text's own words. */
  lemma KindIsOfTheSource(raw: string, e: Escaping)
    requires Validate(raw, e).Success?
    ensures KindOf(Words(Lex(Validate(raw, e).value.text, e).lexemes)) == KindOf(Words(Lex(raw, e).lexemes))
  {
    hide *;
    KeptScans(raw, e);
  }

  /** A server's position in the statement is the same character of the text it came from. */
  lemma PositionsMapBack(raw: string, e: Escaping, k: nat)
    requires Validate(raw, e).Success? && KeptRange(raw, e).0 + k <= MAX_U32
    ensures var sql := Validate(raw, e).value;
            1 <= k <= |sql.text| ==>
              && OffsetIn(sql.text, k).Some?
              && OffsetIn(raw, KeptRange(raw, e).0 + k) == Some(InSource(sql.start, OffsetIn(sql.text, k).value))
  {
    hide *;
    var (lo, hi) := KeptRange(raw, e);
    ErrorsLandInTheSource(raw, lo, raw[lo..hi], k);
  }

  // ── when it is a fixpoint ───────────────────────────────────────────────

  /** White space `trim` takes off and the scanner takes for code. */
  predicate IsExotic(c: char) { IsWhite(c) && !IsSpace(c) }

  /** A lone vertical tab is accepted as a statement, and kept as nothing. */
  lemma AVerticalTabIsAccepted(e: Escaping)
    ensures Validate("\U{b}", e) == Success(Validated("", e, Position(1, 2)))
    ensures Validate("", e) == Failure(Empty)
  {
    var s := "\U{b}";
    WhiteFirst(s, e);
    LexStep(s, e);
    LexEmpty(e);
    assert Lex(s, e) == Lexed([Code('\U{b}')], None);
    var l := [Code('\U{b}')];
    assert l[1..] == [];
    assert Spans(l, 0, 0, false) == [(0, 1)];
    assert s[0..1] == s && s[1..] == "" && s[..0] == "" && s[1..1] == "" && s[..1] == s;
    assert AfterText("") == FIRST;
    assert AfterText(s) == Position(1, 2);
  }

  /** Without exotic white space every accepted text keeps its code. */
  lemma {:induction false} CodeSurvives(s: string, e: Escaping)
    requires forall c :: c in s ==> !IsExotic(c)
    requires IsStatement(s, e)
    ensures HasCode(Lex(TrimEnd(TrimStart(s)), e).lexemes)
  {
    hide First, Lex, TrimEnd, TrimStart, HasCode, NoSemicolon, IsExotic;
    CodeSurvivesStart(s, e);
    var t := TrimStart(s);
    forall c | c in t ensures !IsExotic(c) {
      var i :| 0 <= i < |t| && t[i] == c;
      assert s[|s| - |t| + i] == c;
    }
    CodeSurvivesEnd(t, e);
  }

  lemma {:induction false} CodeSurvivesStart(s: string, e: Escaping)
    requires forall c :: c in s ==> !IsExotic(c)
    requires Lex(s, e).error == None && HasCode(Lex(s, e).lexemes)
    ensures Lex(TrimStart(s), e).error == None && HasCode(Lex(TrimStart(s), e).lexemes)
    decreases |s|
  {
    hide First, Lex, Width;
    if s != "" && IsWhite(s[0]) {
      assert s[0] in s;
      WhiteFirst(s, e);
      WidthIs(s, e);
      LexCons(s, e);
      assert Lex(s, e).lexemes[1..] == Lex(s[1..], e).lexemes;
      CodeSurvivesStart(s[1..], e);
    }
  }

  lemma {:induction false} CodeSurvivesEnd(s: string, e: Escaping)
    requires forall c :: c in s ==> !IsExotic(c)
    requires Lex(s, e).error == None && HasCode(Lex(s, e).lexemes)
    ensures HasCode(Lex(TrimEnd(s), e).lexemes)
    decreases |s|
  {
    hide First, Lex, Width;
    if s != "" && IsWhite(s[|s| - 1]) {
      var c, t := s[|s| - 1], s[..|s| - 1];
      assert c in s;
      DropLast(s, e);
      LastIsNotExotic(s, e);
      var before, after := Lex(s, e).lexemes, Lex(t, e).lexemes;
      if before == after + [Space(c)] {
        Appended(after, [Space(c)]);
        One(Space(c));
      } else {
        var n := |after| - 1;
        assert before == before[..n] + [before[n]];
        assert after == after[..n] + [after[n]];
        Appended(before[..n], [before[n]]);
        Appended(after[..n], [after[n]]);
        One(before[n]);
        One(after[n]);
      }
      CodeSurvivesEnd(t, e);
    }
  }

  lemma {:induction false} LastIsNotExotic(s: string, e: Escaping)
    requires s != "" && IsSpace(s[|s| - 1]) && Lex(s, e).error == None
    ensures Lex(s, e).lexemes != [] && Lex(s, e).lexemes[|Lex(s, e).lexemes| - 1] != Code(s[|s| - 1])
    decreases |s|
  {
    hide First, Lex, Width;
    if First(s, e).Failure? { LexStuck(s, e); }
    LexCons(s, e);
    WidthIs(s, e);
    var w := Width(s, e);
    if w == |s| {
      assert s[w..] == "";
      LexEmpty(e);
      if |s| == 1 { WhiteFirst(s, e); } else { LastAlone(s, e); }
    } else {
      LastIsNotExotic(s[w..], e);
    }
  }

  /** So on every text without exotic white space, validation is a fixpoint. */
  lemma PlainTextIsAFixpoint(raw: string, e: Escaping)
    requires forall c :: c in raw ==> !IsExotic(c)
    requires Validate(raw, e).Success?
    ensures Validate(Validate(raw, e).value.text, e) == Success(Validated(Validate(raw, e).value.text, e, FIRST))
  {
    var span := AcceptedSpan(raw, e);
    hide Lex, Spans, AfterText, KeepsCode;
    KeptText(raw, span);
    var s := raw[span.0..span.1];
    forall c | c in s ensures !IsExotic(c) {
      assert c in raw;
    }
    CodeSurvives(s, e);
    KeptScans(raw, e);
    ValidationIsAFixpoint(raw, e);
  }

  // ── what is stepped over ────────────────────────────────────────────────

  predicate Ordered(tokens: seq<Token>, from: nat, to: nat) {
    if tokens == [] then from <= to
    else match tokens[0]
      case Stepped(start, end, _) => from <= start < end <= to && Ordered(tokens[1..], end, to)
      case _ => Ordered(tokens[1..], from, to)
  }

  lemma {:induction false} OrderedFrom(tokens: seq<Token>, from: nat, earlier: nat, to: nat)
    requires Ordered(tokens, from, to) && earlier <= from
    ensures Ordered(tokens, earlier, to)
  {
    if tokens != [] && !tokens[0].Stepped? { OrderedFrom(tokens[1..], from, earlier, to); }
  }

  lemma {:induction false} OrderedBounds(tokens: seq<Token>, from: nat, to: nat)
    requires Ordered(tokens, from, to)
    ensures from <= to
  {
    if tokens != [] {
      match tokens[0]
      case Stepped(_, end, _) => OrderedBounds(tokens[1..], end, to);
      case _ => OrderedBounds(tokens[1..], from, to);
    }
  }

  lemma OrderedReport(x: Lexeme, at: nat, rest: seq<Token>, to: nat)
    requires x.Text() != "" && Ordered(rest, at + |x.Text()|, to)
    ensures Ordered(Report(x, at) + rest, at, to)
  {
    var r := Report(x, at) + rest;
    OrderedBounds(rest, at + |x.Text()|, to);
    OrderedFrom(rest, at + |x.Text()|, at, to);
    if Report(x, at) == [] {
      assert r == rest;
    } else if x.Quoted? {
      assert r[1..] == [r[1]] + rest;
      assert r[1..][1..] == rest;
      assert Ordered(r[1..], at, to);
    } else {
      assert r[1..] == rest;
    }
  }

  /** Ranges stepped over are in bounds, in order, and apart. */
  lemma {:induction false} SkippedAreOrdered(s: string, e: Escaping, at: nat)
    ensures Ordered(Tokens(Lex(s, e).lexemes, at), at, at + |s|)
    decreases |s|
  {
    hide First, Lex, Width, Report, Ordered, Lexeme.Text;
    if s != "" && First(s, e).Success? {
      LexCons(s, e);
      WidthIs(s, e);
      FirstOpens(s, e);
      var x, w := First(s, e).value, Width(s, e);
      SkippedAreOrdered(s[w..], e, at + w);
      assert Lex(s, e).lexemes[1..] == Lex(s[w..], e).lexemes;
      OrderedReport(x, at, Tokens(Lex(s[w..], e).lexemes, at + w), at + |s|);
    } else {
      LexStuck(s, e);
      OrderedNone(at, at + |s|);
    }
  }

  lemma OrderedNone(from: nat, to: nat)
    requires from <= to
    ensures Ordered([], from, to)
  {
  }

  // ── how many there are ──────────────────────────────────────────────────

  /** How many statements there are, when the open one has `code`. */
  function Count(l: seq<Lexeme>, code: bool): nat {
    if l == [] then (if code then 1 else 0)
    else if l[0].Semicolon? then (if code then 1 else 0) + Count(l[1..], false)
    else Count(l[1..], code || l[0].IsCode())
  }

  lemma {:induction false} CountIsSpans(l: seq<Lexeme>, at: nat, start: nat, code: bool)
    ensures |Spans(l, at, start, code)| == Count(l, code)
  {
    hide Lexeme.Text, Lexeme.IsCode;
    if l != [] {
      if l[0].Semicolon? { CountIsSpans(l[1..], at + 1, at + 1, false); }
      else { CountIsSpans(l[1..], at + |l[0].Text()|, start, code || l[0].IsCode()); }
    }
  }

  lemma ValidatedByCount(s: string, e: Escaping)
    requires Lex(s, e).error == None
    ensures var n := |Spans(Lex(s, e).lexemes, 0, 0, false)|;
            var r := Validate(s, e);
            && (r.Success? <==> n == 1)
            && (r.Failure? ==> r.error == if n == 0 then Empty else Several(n))
  {
    hide Lex, Spans, Kept, Sole;
  }

  /** A lexeme that says something: quoted text, a word, or a unit of code. */
  predicate Part(l: seq<Lexeme>, i: int) {
    0 <= i < |l| && (l[i].Quoted? || l[i].Word? || l[i].Code?)
  }

  /** A semicolon stands between two lexemes that say something. */
  ghost predicate Divided(l: seq<Lexeme>) {
    exists i, j, k :: 0 <= i < j < k && j < |l| && Part(l, i) && l[j].Semicolon? && Part(l, k)
  }

  ghost predicate SemicolonFirst(l: seq<Lexeme>) {
    exists j, k :: 0 <= j < k && j < |l| && l[j].Semicolon? && Part(l, k)
  }

  ghost predicate Says(l: seq<Lexeme>) {
    exists i :: Part(l, i)
  }

  lemma PartsOfTail(l: seq<Lexeme>)
    requires l != []
    ensures forall i {:trigger Part(l[1..], i)} :: Part(l[1..], i) <==> i >= 0 && Part(l, i + 1)
    ensures forall i {:trigger Part(l, i)} :: i > 0 ==> (Part(l, i) <==> Part(l[1..], i - 1))
    ensures forall j {:trigger l[j]} :: 0 < j < |l| ==> l[j] == l[1..][j - 1]
    ensures forall j {:trigger l[1..][j]} :: 0 <= j < |l| - 1 ==> l[1..][j] == l[j + 1]
  {
  }

  lemma SaysOfTail(l: seq<Lexeme>)
    requires l != []
    ensures Says(l) <==> Part(l, 0) || Says(l[1..])
  {
    hide Part;
    PartsOfTail(l);
    if i :| Part(l[1..], i) {
      PartIsInside(l[1..], i);
      assert Part(l, i + 1);
    }
    if i :| Part(l, i) {
      PartIsInside(l, i);
    }
  }

  lemma PartIsInside(l: seq<Lexeme>, i: int)
    requires Part(l, i)
    ensures 0 <= i < |l|
  {
  }

  lemma SemicolonOfTail(l: seq<Lexeme>)
    requires l != []
    ensures SemicolonFirst(l) <==> (l[0].Semicolon? && Says(l[1..])) || SemicolonFirst(l[1..])
  {
    hide Part;
    var rest := l[1..];
    PartsOfTail(l);
    if j, k :| 0 <= j < k && j < |l| && l[j].Semicolon? && Part(l, k) {
      if j > 0 {
        assert rest[j - 1].Semicolon? && Part(rest, k - 1);
      }
    }
    if j, k :| 0 <= j < k && j < |rest| && rest[j].Semicolon? && Part(rest, k) {
      assert l[j + 1].Semicolon? && Part(l, k + 1);
    }
    if l[0].Semicolon? {
      if k :| Part(rest, k) {
        PartIsInside(rest, k);
        assert Part(l, k + 1);
      }
    }
  }

  lemma DividedOfTail(l: seq<Lexeme>)
    requires l != []
    ensures Divided(l) <==> (Part(l, 0) && SemicolonFirst(l[1..])) || Divided(l[1..])
  {
    hide Part;
    var rest := l[1..];
    PartsOfTail(l);
    if i, j, k :| 0 <= i < j < k && j < |l| && Part(l, i) && l[j].Semicolon? && Part(l, k) {
      assert rest[j - 1].Semicolon? && Part(rest, k - 1);
      if i > 0 {
        assert Part(rest, i - 1);
      }
    }
    if i, j, k :| 0 <= i < j < k && j < |rest| && Part(rest, i) && rest[j].Semicolon? && Part(rest, k) {
      assert Part(l, i + 1) && l[j + 1].Semicolon? && Part(l, k + 1);
    }
    if j, k :| 0 <= j < k && j < |rest| && rest[j].Semicolon? && Part(rest, k) {
      assert l[j + 1].Semicolon? && Part(l, k + 1);
    }
  }

  /** None where nothing is said, and one where no semicolon divides what is. */
  lemma {:induction false} CountIs(l: seq<Lexeme>, code: bool)
    ensures Count(l, code) == 0 <==> !code && !Says(l)
    ensures Count(l, code) == 1 <==> (code || Says(l)) && !Divided(l) && !(code && SemicolonFirst(l))
  {
    if l != [] {
      SaysOfTail(l);
      SemicolonOfTail(l);
      DividedOfTail(l);
      hide Says, SemicolonFirst, Divided;
      CountIs(l[1..], false);
      CountIs(l[1..], code || l[0].IsCode());
      SaidOnce(l[1..]);
    }
  }

  lemma SaidOnce(l: seq<Lexeme>)
    ensures SemicolonFirst(l) ==> Says(l)
    ensures Divided(l) ==> SemicolonFirst(l)
  {
  }

  /**
   One statement, in plain terms: a text is accepted if and only if it can be
   scanned, something in it is said, and no semicolon stands between two things
   that are. Where nothing is said it is refused as empty, and where it cannot be
   scanned as what never ends.
   */
  lemma AcceptedExactlyWhen(raw: string, e: Escaping)
    ensures var l := Lex(raw, e);
            var r := Validate(raw, e);
            && (r.Success? <==> l.error.None? && Says(l.lexemes) && !Divided(l.lexemes))
            && (r == Failure(Empty) <==> l.error.None? && !Says(l.lexemes))
            && (l.error.Some? ==> r == Failure(Unterminated(l.error.value)))
  {
    hide Lex, Spans, Kept, Sole, Says, Divided, SemicolonFirst;
    var l := Lex(raw, e);
    if l.error.None? {
      ValidatedByCount(raw, e);
      CountIsSpans(l.lexemes, 0, 0, false);
      CountIs(l.lexemes, false);
    }
  }
}
