/**
 One statement out of a text: `statement_spans` and `ValidatedSql` of
 crates/sqlake-core/src/sql.rs.
 */
module Statements {
  import opened Wrappers
  import opened Lexer
  import opened LexerLaws
  import opened Positions

  datatype InvalidSql = Empty | Several(count: nat) | Unterminated(what: Unclosed)

  /** Exactly one statement, the way it was read, and where its text began. */
  datatype Validated = Validated(text: string, escaping: Escaping, start: Position)

  datatype StatementKind = Reads | Writes

  type Span = (nat, nat)

  // ── spans ───────────────────────────────────────────────────────────────

  /**
   The spans of the statements still to come: `at` is where `l` begins, `start`
   where the open statement does, and `code` whether it has said anything.
   */
  function Spans(l: seq<Lexeme>, at: nat, start: nat, code: bool): seq<Span> {
    if l == [] then (if code then [(start, at)] else [])
    else if l[0].Semicolon? then
      (if code then [(start, at)] else []) + Spans(l[1..], at + 1, at + 1, false)
    else Spans(l[1..], at + |l[0].Text()|, start, code || l[0].IsCode())
  }

  datatype Progress = Progress(spans: seq<Span>, start: nat, code: bool)

  /** What one token does to the spans found so far. */
  function Hear(p: Progress, t: Token): Progress {
    match t
    case Boundary(at) => Progress(if p.code then p.spans + [(p.start, at)] else p.spans, at + 1, false)
    case Bare(_) => p.(code := true)
    case Other => p.(code := true)
    case Stepped(_, _, _) => p
  }

  function HearAll(p: Progress, tokens: seq<Token>): Progress
    decreases |tokens|
  {
    if tokens == [] then p else HearAll(Hear(p, tokens[0]), tokens[1..])
  }

  function LastSpan(p: Progress, end: nat): seq<Span> {
    if p.code then p.spans + [(p.start, end)] else p.spans
  }

  lemma {:induction false} HearAppend(p: Progress, a: seq<Token>, b: seq<Token>)
    ensures HearAll(p, a + b) == HearAll(HearAll(p, a), b)
    decreases |a|
  {
    if a == [] {
      assert a + b == b;
    } else {
      assert (a + b)[0] == a[0] && (a + b)[1..] == a[1..] + b;
      HearAppend(Hear(p, a[0]), a[1..], b);
    }
  }

  lemma HearLexeme(p: Progress, x: Lexeme, at: nat)
    ensures HearAll(p, Report(x, at)) ==
            if x.Semicolon? then Progress(if p.code then p.spans + [(p.start, at)] else p.spans, at + 1, false)
            else p.(code := p.code || x.IsCode())
  {
    var r := Report(x, at);
    if |r| > 0 { assert HearAll(p, r) == HearAll(Hear(p, r[0]), r[1..]); }
    if |r| > 1 { assert r[1..][1..] == []; }
  }

  /** Hearing the tokens of `l` finds the spans of `l`. */
  lemma {:induction false} HearTokens(p: Progress, l: seq<Lexeme>, at: nat)
    ensures LastSpan(HearAll(p, Tokens(l, at)), at + |Texts(l)|) == p.spans + Spans(l, at, p.start, p.code)
    decreases |l|
  {
    hide Report, Lexeme.Text, Hear;
    if l != [] {
      var x, n := l[0], |l[0].Text()|;
      var p' := HearAll(p, Report(x, at));
      HearLexeme(p, x, at);
      HearAppend(p, Report(x, at), Tokens(l[1..], at + n));
      HearTokens(p', l[1..], at + n);
      if x.Semicolon? {
        SemicolonText(x);
        Regroup(p.spans, if p.code then [(p.start, at)] else [], Spans(l[1..], at + 1, at + 1, false));
      }
    }
  }

  lemma SemicolonText(x: Lexeme)
    requires x.Semicolon?
    ensures |x.Text()| == 1
  {
  }

  lemma {:induction false} TextsOfLex(s: string, e: Escaping)
    requires Lex(s, e).error == None
    ensures Texts(Lex(s, e).lexemes) == s
    decreases |s|
  {
    hide First, Lex, Width;
    if s == "" {
      LexEmpty(e);
    } else {
      if First(s, e).Failure? { LexStuck(s, e); }
      WidthIs(s, e);
      LexCons(s, e);
      TextIs(s, e);
      var w := Width(s, e);
      TextsOfLex(s[w..], e);
      assert Lex(s, e).lexemes[1..] == Lex(s[w..], e).lexemes;
      assert s[..w] + s[w..] == s;
    }
  }

  /** Each statement as a range: from past the previous boundary to its own, or to the end. */
  method StatementSpans(text: string, e: Escaping) returns (r: Result<seq<Span>, InvalidSql>)
    ensures r == match Lex(text, e).error
                 case Some(what) => Failure(Unterminated(what))
                 case None => Success(Spans(Lex(text, e).lexemes, 0, 0, false))
  {
    hide Lex, Spans, Tokens, Texts;
    var tokens, error := Scan(text, e);
    if error.Some? {
      return Failure(Unterminated(error.value));
    }
    var spans: seq<Span>, start, code := [], 0, false;
    ghost var none := Progress([], 0, false);
    var i := 0;
    while i < |tokens|
      invariant i <= |tokens|
      invariant HearAll(none, tokens) == HearAll(Progress(spans, start, code), tokens[i..])
    {
      assert tokens[i..][1..] == tokens[i + 1..];
      match tokens[i] {
        case Boundary(at) =>
          if code {
            spans := spans + [(start, at)];
          }
          code := false;
          start := at + 1;
        case Bare(_) => code := true;
        case Other => code := true;
        case Stepped(_, _, _) =>
      }
      i := i + 1;
    }
    if code {
      spans := spans + [(start, |text|)];
    }
    TextsOfLex(text, e);
    HearTokens(none, Lex(text, e).lexemes, 0);
    assert tokens == Tokens(Lex(text, e).lexemes, 0);
    assert [] + Spans(Lex(text, e).lexemes, 0, 0, false) == Spans(Lex(text, e).lexemes, 0, 0, false);
    return Success(spans);
  }

  // ── one statement ───────────────────────────────────────────────────────

  /** What `trim` takes off: Unicode white space, which is more than the scanner skips. */
  predicate IsWhite(c: char) {
    || '\t' <= c <= '\r' || c == ' ' || c == '\U{85}' || c == '\U{A0}' || c == '\U{1680}'
    || '\U{2000}' <= c <= '\U{200A}' || c == '\U{2028}' || c == '\U{2029}' || c == '\U{202F}'
    || c == '\U{205F}' || c == '\U{3000}'
  }

  function TrimStart(s: string): (r: string)
    ensures |r| <= |s| && s[|s| - |r|..] == r
    ensures forall k :: 0 <= k < |s| - |r| ==> IsWhite(s[k])
    ensures r != "" ==> !IsWhite(r[0])
  {
    if s != "" && IsWhite(s[0]) then TrimStart(s[1..]) else s
  }

  function TrimEnd(s: string): (r: string)
    ensures |r| <= |s| && s[..|r|] == r
    ensures forall k :: |r| <= k < |s| ==> IsWhite(s[k])
    ensures r != "" ==> !IsWhite(r[|r| - 1])
  {
    if s != "" && IsWhite(s[|s| - 1]) then TrimEnd(s[..|s| - 1]) else s
  }

  lemma {:induction false} SpansBounds(l: seq<Lexeme>, at: nat, start: nat, code: bool)
    requires start <= at
    ensures forall p :: p in Spans(l, at, start, code) ==> start <= p.0 <= p.1 <= at + |Texts(l)|
  {
    hide Lexeme.Text;
    if l != [] {
      if l[0].Semicolon? {
        SemicolonText(l[0]);
        SpansBounds(l[1..], at + 1, at + 1, false);
      } else {
        SpansBounds(l[1..], at + |l[0].Text()|, start, code || l[0].IsCode());
      }
    }
  }

  /** What is kept of a text with one statement, as a range of it. */
  function Kept(text: string, span: Span): (r: Span)
    requires span.0 <= span.1 <= |text|
    ensures span.0 <= r.0 <= r.1 <= span.1
  {
    var kept := TrimStart(text[span.0..span.1]);
    (span.1 - |kept|, span.1 - |kept| + |TrimEnd(kept)|)
  }

  lemma KeptText(text: string, span: Span)
    requires span.0 <= span.1 <= |text|
    ensures text[Kept(text, span).0..Kept(text, span).1] == TrimEnd(TrimStart(text[span.0..span.1]))
  {
    hide TrimStart, TrimEnd;
    var kept := TrimStart(text[span.0..span.1]);
    BothEndsCut(text, span.0, span.1, kept, TrimEnd(kept));
  }

  /** The front of the back of a piece, as a piece. */
  lemma BothEndsCut(text: string, lo: nat, hi: nat, kept: string, end: string)
    requires lo <= hi <= |text| && |kept| <= hi - lo && text[lo..hi][hi - lo - |kept|..] == kept
    requires |end| <= |kept| && kept[..|end|] == end
    ensures text[hi - |kept|..hi - |kept| + |end|] == end
  {
    assert kept == text[hi - |kept|..hi] by { SliceSlice(text, lo, hi, hi - lo - |kept|, |kept|); }
    SliceSlice(text, hi - |kept|, hi, 0, |end|);
  }

  lemma SliceSlice(s: string, lo: nat, hi: nat, from: nat, n: nat)
    requires lo <= hi <= |s| && from + n <= hi - lo
    ensures s[lo..hi][from..from + n] == s[lo + from..lo + from + n]
  {
    var a, b := s[lo..hi][from..from + n], s[lo + from..lo + from + n];
    assert |a| == |b| && forall k :: 0 <= k < n ==> a[k] == b[k];
  }

  /** The span of the only statement there is. */
  function Sole(text: string, e: Escaping): (r: Span)
    requires Lex(text, e).error == None && |Spans(Lex(text, e).lexemes, 0, 0, false)| == 1
    ensures r.0 <= r.1 <= |text|
  {
    hide Lex, Spans;
    TextsOfLex(text, e);
    SpansBounds(Lex(text, e).lexemes, 0, 0, false);
    Spans(Lex(text, e).lexemes, 0, 0, false)[0]
  }

  /** The specification of `parse`. */
  function Validate(text: string, e: Escaping): Result<Validated, InvalidSql> {
    var lexed := Lex(text, e);
    if lexed.error.Some? then Failure(Unterminated(lexed.error.value))
    else
      var spans := Spans(lexed.lexemes, 0, 0, false);
      if |spans| == 0 then Failure(Empty)
      else if |spans| > 1 then Failure(Several(|spans|))
      else
        var kept := Kept(text, Sole(text, e));
        Success(Validated(text[kept.0..kept.1], e, AfterText(text[..kept.0])))
  }

  method Parse(raw: string, e: Escaping) returns (r: Result<Validated, InvalidSql>)
    ensures r == Validate(raw, e)
  {
    hide Lex, Spans, AfterText, TrimStart, TrimEnd;
    var spans := StatementSpans(raw, e);
    if spans.Failure? {
      return Failure(spans.error);
    }
    if |spans.value| == 0 {
      return Failure(Empty);
    }
    if |spans.value| > 1 {
      return Failure(Several(|spans.value|));
    }
    assert spans.value[0] == Sole(raw, e);
    var (start, end) := spans.value[0];
    var span := raw[start..end];
    var kept := TrimStart(span);
    var before := raw[..start + (|span| - |kept|)];
    KeptText(raw, (start, end));
    return Success(Validated(TrimEnd(kept), e, AfterText(before)));
  }

  // ── what a statement does ───────────────────────────────────────────────

  const READ_OPENERS: seq<string> := ["select", "with", "table", "values", "show", "explain"]

  const WRITING_WORDS: seq<string> := [
    "insert", "update", "delete", "merge", "truncate", "drop", "create", "alter", "grant",
    "revoke", "call", "replace", "rename", "comment", "vacuum", "analyze", "copy", "into"
  ]

  function LowerUnit(c: char): char {
    if 'A' <= c <= 'Z' then c - 'A' + 'a' else c
  }

  function Lower(s: string): string {
    seq(|s|, i requires 0 <= i < |s| => LowerUnit(s[i]))
  }

  /** The bare words, in order. */
  function Words(l: seq<Lexeme>): seq<string> {
    if l == [] then [] else (if l[0].Word? then [l[0].text] else []) + Words(l[1..])
  }

  function KindOf(words: seq<string>): StatementKind {
    if words == [] || Lower(words[0]) !in READ_OPENERS then Writes
    else if exists i :: 1 <= i < |words| && Lower(words[i]) in WRITING_WORDS then Writes
    else Reads
  }

  function BareWords(tokens: seq<Token>): seq<string> {
    if tokens == [] then [] else (if tokens[0].Bare? then [tokens[0].word] else []) + BareWords(tokens[1..])
  }

  lemma {:induction false} BareAppend(a: seq<Token>, b: seq<Token>)
    ensures BareWords(a + b) == BareWords(a) + BareWords(b)
  {
    if a == [] {
      assert a + b == b;
    } else {
      assert (a + b)[1..] == a[1..] + b;
      BareAppend(a[1..], b);
    }
  }

  lemma BareLexeme(x: Lexeme, at: nat)
    ensures BareWords(Report(x, at)) == if x.Word? then [x.text] else []
  {
    var r := Report(x, at);
    if |r| == 1 {
      assert r == [r[0]];
      assert r[1..] == [];
    }
    if |r| == 2 {
      assert r[1..] == [r[1]];
      assert r[1..][1..] == [];
      assert BareWords(r) == [] + BareWords(r[1..]);
    }
  }

  lemma {:induction false} BareIsWords(l: seq<Lexeme>, at: nat)
    ensures BareWords(Tokens(l, at)) == Words(l)
  {
    hide Report, Lexeme.Text;
    if l != [] {
      BareAppend(Report(l[0], at), Tokens(l[1..], at + |l[0].Text()|));
      BareLexeme(l[0], at);
      BareIsWords(l[1..], at + |l[0].Text()|);
    }
  }

  method Kind(sql: Validated) returns (r: StatementKind)
    ensures r == KindOf(Words(Lex(sql.text, sql.escaping).lexemes))
  {
    hide Lex, Words, BareWords, Tokens;
    var tokens, _ := Scan(sql.text, sql.escaping);
    var words: seq<string> := [];
    ghost var all := Lex(sql.text, sql.escaping);
    var i := 0;
    BareNone();
    while i < |tokens|
      invariant i <= |tokens|
      invariant BareWords(tokens) == words + BareWords(tokens[i..])
    {
      BareStep(tokens, i);
      if tokens[i].Bare? {
        Regroup(words, [tokens[i].word], BareWords(tokens[i + 1..]));
        words := words + [tokens[i].word];
      }
      i := i + 1;
    }
    assert tokens[i..] == [];
    assert words + [] == words;
    BareIsWords(all.lexemes, 0);
    BareAppend(Tokens(all.lexemes, 0), if all.error.Some? && all.error != Some(OpenComment) then [Other] else []);
    if |words| == 0 {
      return Writes;
    }
    if Lower(words[0]) !in READ_OPENERS {
      return Writes;
    }
    var j := 1;
    while j < |words|
      invariant 1 <= j <= |words|
      invariant forall k :: 1 <= k < j ==> Lower(words[k]) !in WRITING_WORDS
    {
      if Lower(words[j]) in WRITING_WORDS {
        return Writes;
      }
      j := j + 1;
    }
    assert words == Words(all.lexemes);
    assert forall k :: 1 <= k < |words| ==> Lower(words[k]) !in WRITING_WORDS;
    assert KindOf(words) == Reads;
    return Reads;
  }

  lemma BareNone()
    ensures BareWords([]) == [] && BareWords([Other]) == []
    ensures forall t: seq<Token> :: t[0..] == t
  {
    assert [Other][1..] == [];
  }

  lemma BareStep(tokens: seq<Token>, i: nat)
    requires i < |tokens|
    ensures BareWords(tokens[i..]) == (if tokens[i].Bare? then [tokens[i].word] else []) + BareWords(tokens[i + 1..])
  {
    assert tokens[i..][1..] == tokens[i + 1..];
  }
}
