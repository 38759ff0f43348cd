/**
 Quoting values and names: crates/sqlake-core/src/literal.rs and ident.rs.

 The scanner is the judge: quoted text is one lexeme wherever it stands, and
 reading it back gives the value. Both hold for exactly the dialects in which a
 backslash escapes inside backticks and nowhere else.
 */
module Quoting {
  import opened Wrappers
  import opened Lexer
  import opened LexerLaws

  datatype QuoteStyle = DoubleQuote | Backtick

  /** Every `c` in `s` replaced by `put`. */
  function Replace(s: string, c: char, put: string): string {
    if s == "" then ""
    else (if s[0] == c then put else [s[0]]) + Replace(s[1..], c, put)
  }

  function QuoteLiteral(value: string, e: Escaping): (r: string)
    ensures r != "" && r[0] == '\''
  {
    var escaped := match e
      case Backslash => Replace(Replace(value, '\\', "\\\\"), '\'', "''")
      case NoEscape => Replace(value, '\'', "''");
    "'" + escaped + "'"
  }

  function QuoteIdent(name: string, style: QuoteStyle): (r: string)
    ensures r != "" && r[0] == NameQuote(style)
  {
    match style
    case DoubleQuote => "\"" + Replace(name, '"', "\"\"") + "\""
    case Backtick => "`" + Replace(Replace(name, '\\', "\\\\"), '`', "\\`") + "`"
  }

  function NameQuote(style: QuoteStyle): char {
    match style case DoubleQuote => '"' case Backtick => '`'
  }

  /** The pairs a driver forms: PostgreSQL's and BigQuery's. */
  predicate Matching(style: QuoteStyle, e: Escaping) {
    style == Backtick <==> e == Backslash
  }

  // ── one unit at a time ──────────────────────────────────────────────────

  /** What one unit of a value becomes between quotes `q`. */
  function Encode(c: char, q: char, doubling: bool, e: Escaping): string {
    if e == Backslash && c == '\\' then "\\\\"
    else if c == q then (if doubling then [q, q] else ['\\', q])
    else [c]
  }

  function Encoded(v: string, q: char, doubling: bool, e: Escaping): string {
    if v == "" then "" else Encode(v[0], q, doubling, e) + Encoded(v[1..], q, doubling, e)
  }

  lemma {:induction false} ReplaceAppend(a: string, b: string, c: char, put: string)
    ensures Replace(a + b, c, put) == Replace(a, c, put) + Replace(b, c, put)
  {
    if a == "" {
      assert a + b == b;
    } else {
      assert (a + b)[1..] == a[1..] + b;
      ReplaceAppend(a[1..], b, c, put);
    }
  }

  lemma ReplaceOne(d: char, c: char, put: string)
    ensures Replace([d], c, put) == if d == c then put else [d]
  {
    assert [d][1..] == "";
    assert put + "" == put;
  }

  /** Doubling the backslashes first and then dealing with the quote treats each unit once. */
  lemma {:induction false} ReplaceTwice(v: string, q: char, doubling: bool)
    requires q != '\\'
    ensures Replace(Replace(v, '\\', "\\\\"), q, if doubling then [q, q] else ['\\', q])
            == Encoded(v, q, doubling, Backslash)
  {
    var put := if doubling then [q, q] else ['\\', q];
    if v != "" {
      var head, rest := if v[0] == '\\' then "\\\\" else [v[0]], Replace(v[1..], '\\', "\\\\");
      ReplaceAppend(head, rest, q, put);
      ReplaceTwice(v[1..], q, doubling);
      if v[0] == '\\' {
        assert "\\\\" == ['\\'] + ['\\'];
        ReplaceAppend(['\\'], ['\\'], q, put);
        ReplaceOne('\\', q, put);
      } else {
        ReplaceOne(v[0], q, put);
      }
    }
  }

  lemma {:induction false} ReplaceIsEncoded(v: string, q: char)
    ensures Replace(v, q, [q, q]) == Encoded(v, q, true, NoEscape)
  {
    if v != "" { ReplaceIsEncoded(v[1..], q); }
  }

  /** Undoes doubled quotes and backslash pairs: what the server takes quoted text to mean. */
  function Undo(s: string, q: char, e: Escaping): string {
    if s == "" then ""
    else if e == Backslash && |s| >= 2 && s[0] == '\\' then [s[1]] + Undo(s[2..], q, e)
    else if |s| >= 2 && s[0] == q && s[1] == q then [q] + Undo(s[2..], q, e)
    else [s[0]] + Undo(s[1..], q, e)
  }

  /** What the quotes of `text` enclose. */
  function Enclosed(text: string, e: Escaping): string {
    if |text| < 2 then "" else Undo(text[1..|text| - 1], text[0], e)
  }

  lemma {:induction false} EncodedCloses(v: string, q: char, doubling: bool, e: Escaping)
    requires IsQuote(q) && (doubling || e == Backslash)
    ensures Close(Encoded(v, q, doubling, e) + [q], q, e) == Some(|Encoded(v, q, doubling, e)| + 1)
  {
    hide Close, Encode;
    if v == "" {
      assert "" + [q] == [q];
      CloseOnce([q], q, e);
    } else {
      var rest := Encoded(v[1..], q, doubling, e) + [q];
      EncodedCloses(v[1..], q, doubling, e);
      var one := Encode(v[0], q, doubling, e);
      assert Encoded(v, q, doubling, e) + [q] == one + rest;
      CloseOne(one, rest, v[0], q, doubling, e);
    }
  }

  lemma CloseOne(one: string, rest: string, c: char, q: char, doubling: bool, e: Escaping)
    requires IsQuote(q) && (doubling || e == Backslash)
    requires one == Encode(c, q, doubling, e) && rest != ""
    ensures Close(one + rest, q, e) == Plus(|one|, Close(rest, q, e))
  {
    hide Close;
    CloseOnce(one + rest, q, e);
    Ahead(one, rest);
  }

  lemma Ahead(one: string, rest: string)
    ensures (one + rest)[|one|..] == rest
    ensures forall k :: 0 <= k < |one| ==> (one + rest)[k] == one[k]
  {
  }

  lemma {:induction false} UndoEncoded(v: string, q: char, doubling: bool, e: Escaping)
    requires IsQuote(q) && (doubling || e == Backslash)
    ensures Undo(Encoded(v, q, doubling, e), q, e) == v
  {
    if v != "" {
      var one, rest := Encode(v[0], q, doubling, e), Encoded(v[1..], q, doubling, e);
      UndoEncoded(v[1..], q, doubling, e);
      UndoOne(one, rest, v[0], q, doubling, e);
      assert [v[0]] + v[1..] == v;
    }
  }

  lemma UndoOne(one: string, rest: string, c: char, q: char, doubling: bool, e: Escaping)
    requires IsQuote(q) && (doubling || e == Backslash)
    requires one == Encode(c, q, doubling, e)
    ensures Undo(one + rest, q, e) == [c] + Undo(rest, q, e)
  {
    assert (one + rest)[|one|..] == rest;
    assert (one + rest)[0] == one[0];
    assert |one| == 2 ==> (one + rest)[1] == one[1];
  }

  /** Text wrapped in quotes the scanner closes exactly at the end. */
  lemma Wrapped(body: string, q: char, e: Escaping)
    requires IsQuote(q)
    ensures Close(body + [q], q, e) == Some(|body| + 1) <==>
              First([q] + body + [q], e) == Success(Quoted([q] + body + [q]))
  {
    hide Close;
    var text := [q] + body + [q];
    assert text[1..] == body + [q];
    assert text[..|text|] == text;
  }

  // ── the laws ────────────────────────────────────────────────────────────

  /** Quoted text stands as one lexeme before anything that does not open with the same quote. */
  predicate StandsAlone(text: string, e: Escaping) {
    && text != "" && IsQuote(text[0])
    && First(text, e) == Success(Quoted(text))
  }

  lemma StandsAloneBefore(text: string, then_: string, e: Escaping)
    requires StandsAlone(text, e) && (then_ == "" || then_[0] != text[0])
    ensures First(text + then_, e) == Success(Quoted(text))
  {
    QuotedKept(text, then_, e);
  }

  /** A literal is one lexeme, and means the value it was made from. */
  lemma LiteralRoundTrip(value: string, e: Escaping)
    ensures StandsAlone(QuoteLiteral(value, e), e)
    ensures Enclosed(QuoteLiteral(value, e), e) == value
  {
    hide First, Undo, Replace, Encoded;
    ReplaceTwice(value, '\'', true);
    ReplaceIsEncoded(value, '\'');
    assert ['\'', '\''] == "''";
    var body := Encoded(value, '\'', true, e);
    EncodedCloses(value, '\'', true, e);
    UndoEncoded(value, '\'', true, e);
    Wrapped(body, '\'', e);
    assert QuoteLiteral(value, e) == ['\''] + body + ['\''];
    assert QuoteLiteral(value, e)[1..|body| + 1] == body;
  }

  /** A name is one lexeme, and means the name it was made from, in a dialect a driver forms. */
  lemma IdentRoundTrip(name: string, style: QuoteStyle, e: Escaping)
    requires Matching(style, e)
    ensures StandsAlone(QuoteIdent(name, style), e)
    ensures Enclosed(QuoteIdent(name, style), e) == name
  {
    hide First, Undo, Replace, Encoded;
    var q, doubling := NameQuote(style), style == DoubleQuote;
    ReplaceTwice(name, '`', false);
    ReplaceIsEncoded(name, '"');
    var body := Encoded(name, q, doubling, e);
    EncodedCloses(name, q, doubling, e);
    UndoEncoded(name, q, doubling, e);
    Wrapped(body, q, e);
    assert QuoteIdent(name, style) == [q] + body + [q];
    assert QuoteIdent(name, style)[1..|body| + 1] == body;
  }

  /** What needs no quoting is quoted as it stands, so that what quoted text means is what it says. */
  lemma PlainTextMeansItself(body: string, q: char, e: Escaping)
    requires q !in body && (e == Backslash ==> '\\' !in body)
    ensures Enclosed([q] + body + [q], e) == body
    ensures q == '\'' ==> QuoteLiteral(body, e) == "'" + body + "'"
  {
    hide Undo, Replace;
    UndoPlain(body, q, e);
    assert ([q] + body + [q])[1..|body| + 1] == body;
    if q == '\'' {
      if e == Backslash { ReplaceNone(body, '\\', "\\\\"); }
      ReplaceNone(body, '\'', "''");
    }
  }

  lemma {:induction false} UndoPlain(body: string, q: char, e: Escaping)
    requires q !in body && (e == Backslash ==> '\\' !in body)
    ensures Undo(body, q, e) == body
  {
    if body != "" {
      assert body[0] in body && forall c :: c in body[1..] ==> c in body;
      UndoPlain(body[1..], q, e);
    }
  }

  lemma {:induction false} ReplaceNone(s: string, c: char, put: string)
    requires c !in s
    ensures Replace(s, c, put) == s
  {
    if s != "" { ReplaceNone(s[1..], c, put); }
  }

  lemma QuotingIsInjective(a: string, b: string, style: QuoteStyle, e: Escaping)
    ensures QuoteLiteral(a, e) == QuoteLiteral(b, e) ==> a == b
    ensures Matching(style, e) && QuoteIdent(a, style) == QuoteIdent(b, style) ==> a == b
  {
    hide *;
    LiteralRoundTrip(a, e);
    LiteralRoundTrip(b, e);
    if Matching(style, e) {
      IdentRoundTrip(a, style, e);
      IdentRoundTrip(b, style, e);
    }
  }

  /** A name ending in a backslash escapes the quote that should close it: it never closes. */
  lemma MixedDoubleQuote()
    ensures First(QuoteIdent("\\", DoubleQuote), Backslash) == Failure(OpenName)
  {
    assert Replace("\\", '"', "\"\"") == "\\" by { ReplaceOne('\\', '"', "\"\""); }
    assert QuoteIdent("\\", DoubleQuote) == ['"'] + "\\" + ['"'];
    var s := "\\" + ['"'];
    CloseOnce(s, '"', Backslash);
    assert s[2..] == "";
    assert QuoteIdent("\\", DoubleQuote)[1..] == s;
  }

  /** A backtick behind a backslash nobody reads as one runs on into the closing backtick: it never closes. */
  lemma MixedBacktick()
    ensures First(QuoteIdent("`", Backtick), NoEscape) == Failure(OpenName)
  {
    ReplaceOne('`', '\\', "\\\\");
    ReplaceOne('`', '`', "\\`");
    assert QuoteIdent("`", Backtick) == ['`'] + "\\`" + ['`'];
    var s := "\\`" + ['`'];
    CloseOnce(s, '`', NoEscape);
    CloseOnce(s[1..], '`', NoEscape);
    assert s[1..][2..] == "";
    assert QuoteIdent("`", Backtick)[1..] == s;
  }

  /** Names are safe in a dialect exactly when its two facts belong together. */
  lemma NamesAreSafeExactlyWhenMatching(style: QuoteStyle, e: Escaping)
    ensures (forall name :: StandsAlone(QuoteIdent(name, style), e)) <==> Matching(style, e)
  {
    hide *;
    if Matching(style, e) {
      forall name ensures StandsAlone(QuoteIdent(name, style), e) { IdentRoundTrip(name, style, e); }
    } else {
      MixedPairs(style, e);
    }
  }

  lemma MixedPairs(style: QuoteStyle, e: Escaping)
    requires !Matching(style, e)
    ensures exists name :: !StandsAlone(QuoteIdent(name, style), e)
  {
    MixedDoubleQuote();
    MixedBacktick();
    var name := if style == DoubleQuote then "\\" else "`";
    assert !StandsAlone(QuoteIdent(name, style), e) by { hide *; MixedCase(style, e); }
  }

  lemma MixedCase(style: QuoteStyle, e: Escaping)
    requires !Matching(style, e)
    ensures (style == DoubleQuote && e == Backslash) || (style == Backtick && e == NoEscape)
  {
  }
}
