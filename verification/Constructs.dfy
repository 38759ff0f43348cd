/**
 What each construct of a text is, written out. The scanner's reference says
 where a lexeme ends by looking ahead one unit at a time; here each kind is
 given by the text it is made of.
 */
module Constructs {
  import opened Wrappers
  import opened Lexer
  import opened LexerLaws

  predicate IsIdentStart(c: char) {
    'a' <= c <= 'z' || 'A' <= c <= 'Z' || c == '_'
  }

  predicate IsIdentUnit(c: char) {
    IsIdentStart(c) || '0' <= c <= '9'
  }

  /** An identifier: letters, digits and underscores, and no digit first. */
  predicate IsIdent(s: string) {
    s != "" && IsIdentStart(s[0]) && forall i :: 0 <= i < |s| ==> IsIdentUnit(s[i])
  }

  /** What may stand between the dollars of a tag. */
  predicate IsTag(tag: string) {
    tag == "" || IsIdent(tag)
  }

  // ── dollar bodies ───────────────────────────────────────────────────────

  function Mark(tag: string): string { "$" + tag + "$" }

  lemma {:induction false} TagIsRead(tag: string, rest: string, end: nat)
    requires IsTag(tag) && 1 <= end <= |tag| + 1
    ensures DollarTag(Mark(tag) + rest, end) == Some(|tag| + 2)
    decreases |tag| + 1 - end
  {
    var s := Mark(tag) + rest;
    if end <= |tag| {
      assert s[end] == tag[end - 1];
      TagIsRead(tag, rest, end + 1);
    } else {
      assert s[end] == '$';
    }
  }

  /** Whatever is read as a tag is one. */
  lemma {:induction false} WhatIsReadIsATag(s: string, end: nat)
    requires 1 <= end <= |s| && s[0] == '$'
    requires end > 1 ==> IsIdent(s[1..end])
    ensures var r := DollarTag(s, end); r.Some? ==> r.value >= 2 && IsTag(s[1..r.value - 1]) && s[r.value - 1] == '$'
    decreases |s| - end
  {
    if end < |s| && s[end] != '$' && (IsWordStart(s[end]) || (IsDigit(s[end]) && end > 1)) {
      assert s[1..end + 1] == s[1..end] + [s[end]];
      WhatIsReadIsATag(s, end + 1);
    }
  }

  /** Where `needle` stands for the first time. */
  lemma FoundThere(s: string, needle: string, from: nat, at: nat)
    requires from <= at && StandsAt(s, needle, at)
    requires forall k: nat :: from <= k < at ==> !StandsAt(s, needle, k)
    ensures Find(s, needle, from) == Some(at)
  {
  }

  /** Nothing of the text closes the mark before its end. */
  predicate ClosesLast(body: string, mark: string) {
    forall k: nat :: k < |body| ==> !StandsAt(body + mark, mark, k)
  }

  lemma InTheMiddle(front: string, middle: string, rest: string, needle: string, k: nat)
    requires k + |needle| <= |middle|
    ensures StandsAt(front + middle + rest, needle, |front| + k) <==> StandsAt(middle, needle, k)
  {
    assert (front + middle + rest)[|front| + k..|front| + k + |needle|] == middle[k..k + |needle|];
  }

  lemma MarkStandsAgain(mark: string, body: string, rest: string)
    requires ClosesLast(body, mark)
    ensures Find(mark + body + mark + rest, mark, |mark|) == Some(|mark| + |body|)
  {
    hide Find;
    var s := mark + body + mark + rest;
    assert s == mark + (body + mark) + rest;
    assert StandsAt(body + mark, mark, |body|);
    InTheMiddle(mark, body + mark, rest, mark, |body|);
    forall k: nat | |mark| <= k < |mark| + |body|
      ensures !StandsAt(s, mark, k)
    {
      InTheMiddle(mark, body + mark, rest, mark, k - |mark|);
    }
    FoundThere(s, mark, |mark|, |mark| + |body|);
  }

  lemma FirstTagged(s: string, n: nat, at: nat, e: Escaping)
    requires s != "" && s[0] == '$' && DollarTag(s, 1) == Some(n) && Find(s, s[..n], n) == Some(at)
    ensures First(s, e) == Success(Quoted(s[..at + n]))
  {
    hide DollarTag, Find;
  }

  /**
   A tag that is empty or an identifier opens a region, and the first place where
   the same tag stands again closes it, whatever is in between and whatever comes
   behind: `$$` is a tag.
   */
  lemma ADollarBodyIsOneRegion(tag: string, body: string, rest: string, e: Escaping)
    requires IsTag(tag) && ClosesLast(body, Mark(tag))
    ensures var text := Mark(tag) + body + Mark(tag);
            text + rest != "" && First(text + rest, e) == Success(Quoted(text))
  {
    hide DollarTag, Find, First, ClosesLast, IsTag;
    var mark := Mark(tag);
    var s := mark + body + mark + rest;
    assert s == mark + (body + mark + rest);
    TagIsRead(tag, body + mark + rest, 1);
    MarkStandsAgain(mark, body, rest);
    assert s[..|mark|] == mark && s[0] == '$';
    FirstTagged(s, |mark|, |mark| + |body|, e);
    assert s[..|mark| + |body| + |mark|] == mark + body + mark;
  }

  /** A tag that never stands again leaves the text unclosed. */
  lemma ADollarBodyMayNeverEnd(tag: string, body: string, e: Escaping)
    requires IsTag(tag) && forall k: nat :: !StandsAt(body, Mark(tag), k)
    ensures Mark(tag) + body != "" && First(Mark(tag) + body, e) == Failure(OpenDollar)
  {
    hide DollarTag, Find;
    var mark := Mark(tag);
    var s := mark + body;
    TagIsRead(tag, body, 1);
    assert s[..|mark|] == mark;
    forall k: nat | |mark| <= k
      ensures !StandsAt(s, mark, k)
    {
      if k + |mark| <= |s| {
        assert s == mark + body + "";
        InTheMiddle(mark, body, "", mark, k - |mark|);
      }
    }
    assert Find(s, mark, |mark|).None?;
  }

  /** A dollar with no such tag behind it is one unit of code. */
  lemma ALoneDollarIsCode(s: string, e: Escaping)
    requires s != "" && s[0] == '$'
    requires forall n :: 1 <= n < |s| && s[n] == '$' ==> !IsTag(s[1..n])
    ensures First(s, e) == Success(Code('$'))
  {
    hide DollarTag;
    WhatIsReadIsATag(s, 1);
  }

  // ── comments ────────────────────────────────────────────────────────────

  lemma {:induction false} LineEnds(body: string, rest: string)
    requires '\n' !in body && (rest == "" || rest[0] == '\n')
    ensures LineEnd(body + rest) == |body| + if rest == "" then 0 else 1
  {
    if body == "" {
      assert body + rest == rest;
    } else {
      assert (body + rest)[1..] == body[1..] + rest;
      LineEnds(body[1..], rest);
    }
  }

  /** Two dashes comment out the rest of their line, with the break that ends it, and no more. */
  lemma ALineComment(body: string, rest: string, e: Escaping)
    requires '\n' !in body
    ensures First("--" + body + "\n" + rest, e) == Success(Comment("--" + body + "\n"))
    ensures First("--" + body, e) == Success(Comment("--" + body))
  {
    hide LineEnd;
    var front := "--" + body;
    assert '\n' !in front;
    LineEnds(front, "\n" + rest);
    LineEnds(front, "");
    assert "--" + body + "\n" + rest == front + ("\n" + rest);
    assert ("--" + body + "\n" + rest)[..|front| + 1] == "--" + body + "\n";
    assert front + "" == front && front[..|front|] == front;
  }

  /** A block comment ends where it is first closed: it does not nest. */
  lemma ABlockComment(body: string, rest: string, e: Escaping)
    requires forall k: nat :: !StandsAt(body, "*/", k)
    ensures First("/*" + body + "*/" + rest, e) == Success(Comment("/*" + body + "*/"))
    ensures First("/*" + body, e) == Failure(OpenComment)
  {
    hide Find;
    var s := "/*" + body + "*/" + rest;
    assert s[|body| + 2..|body| + 4] == "*/";
    forall k: nat | 2 <= k < |body| + 2
      ensures !StandsAt(s, "*/", k)
    {
      if k + 2 <= |body| + 2 {
        assert s == "/*" + body + ("*/" + rest);
        InTheMiddle("/*", body, "*/" + rest, "*/", k - 2);
      } else {
        assert s[k..k + 2][1] == s[k + 1] == '*';
        assert "*/"[1] == '/';
      }
    }
    FoundThere(s, "*/", 2, |body| + 2);
    assert s[..|body| + 4] == "/*" + body + "*/";
    var open := "/*" + body;
    forall k: nat | 2 <= k
      ensures !StandsAt(open, "*/", k)
    {
      if k + 2 <= |open| {
        assert open == "/*" + body + "";
        InTheMiddle("/*", body, "", "*/", k - 2);
      }
    }
    assert Find(open, "*/", 2).None?;
  }

  // ── words and units ─────────────────────────────────────────────────────

  lemma {:induction false} UnitsOfAWord(w: string, rest: string)
    requires forall i :: 0 <= i < |w| ==> IsIdentUnit(w[i])
    requires rest == "" || !IsIdentUnit(rest[0])
    ensures WordLength(w + rest) == |w|
  {
    if w == "" {
      assert w + rest == rest;
    } else {
      assert (w + rest)[1..] == w[1..] + rest;
      UnitsOfAWord(w[1..], rest);
    }
  }

  /** An identifier is one word, as far as it goes. */
  lemma AnIdentifierIsAWord(w: string, rest: string, e: Escaping)
    requires IsIdent(w) && (rest == "" || !IsIdentUnit(rest[0]))
    ensures w + rest != "" && First(w + rest, e) == Success(Word(w))
  {
    hide WordLength;
    UnitsOfAWord(w, rest);
    assert (w + rest)[0] == w[0];
    assert (w + rest)[..|w|] == w;
  }

  /** What opens nothing longer is one unit: a semicolon, white space, or code. */
  lemma OneUnit(c: char, rest: string, e: Escaping)
    requires c != '\'' && c != '"' && c != '`' && c != '$' && !IsIdentStart(c)
    requires c == '-' && rest != "" ==> rest[0] != '-'
    requires c == '/' && rest != "" ==> rest[0] != '*'
    ensures First([c] + rest, e) ==
            Success(if c == ';' then Semicolon
                    else if c in {' ', '\t', '\n', '\r', '\U{c}'} then Space(c)
                    else Code(c))
  {
    assert ([c] + rest)[0] == c;
  }

  // ── quotes ──────────────────────────────────────────────────────────────

  /** Nothing of the text ends, doubles or escapes. */
  predicate IsPlainIn(body: string, q: char, e: Escaping) {
    q !in body && (e == Backslash ==> '\\' !in body)
  }

  lemma {:induction false} CloseThrough(body: string, rest: string, q: char, e: Escaping)
    requires IsPlainIn(body, q, e)
    ensures Close(body + rest, q, e) == Plus(|body|, Close(rest, q, e))
  {
    hide Close;
    if body == "" {
      assert body + rest == rest;
    } else {
      assert (body + rest)[1..] == body[1..] + rest;
      assert body[0] in body;
      assert forall c :: c in body[1..] ==> c in body;
      CloseThrough(body[1..], rest, q, e);
      CloseOnce(body + rest, q, e);
    }
  }

  predicate IsQuoteMark(q: char) { q == '\'' || q == '"' || q == '`' }

  /** A quote closes at the next one like it, unless that is doubled; and if there is none, never. */
  lemma AQuoteClosesAtTheNext(body: string, q: char, rest: string, e: Escaping)
    requires IsQuoteMark(q) && IsPlainIn(body, q, e) && (rest == "" || rest[0] != q)
    ensures First([q] + body + [q] + rest, e) == Success(Quoted([q] + body + [q]))
    ensures First([q] + body, e) == Failure(if q == '\'' then OpenString else OpenName)
  {
    hide Close;
    var s := [q] + body + [q] + rest;
    assert s[1..] == body + ([q] + rest);
    CloseThrough(body, [q] + rest, q, e);
    CloseOnce([q] + rest, q, e);
    assert s[..|body| + 2] == [q] + body + [q];
    assert ([q] + body)[1..] == body + "";
    CloseThrough(body, "", q, e);
    CloseOnce("", q, e);
  }

  /** What a quoted text is when two units more stand inside it. */
  function TwoMore(front: string, pair: string, r: Result<Lexeme, Unclosed>): Result<Lexeme, Unclosed> {
    if r.Success? && r.value.Quoted? && r.value.text != ""
    then Success(Quoted([r.value.text[0]] + front + pair + r.value.text[1..]))
    else r
  }

  /** A doubled quote does not close. Nor does anything behind a backslash, where a backslash escapes. */
  lemma APairGoesOn(front: string, pair: string, rest: string, q: char, e: Escaping)
    requires IsQuoteMark(q) && IsPlainIn(front, q, e)
    requires pair == [q, q] || (e == Backslash && |pair| == 2 && pair[0] == '\\')
    ensures First([q] + front + pair + rest, e) == TwoMore(front, pair, First([q] + rest, e))
  {
    hide Close, First;
    var s := [q] + front + pair + rest;
    CloseThrough(front, pair + rest, q, e);
    CloseOnce(pair + rest, q, e);
    assert (pair + rest)[2..] == rest;
    assert s == [q] + (front + (pair + rest));
    FirstQuoted(front + (pair + rest), q, e);
    FirstQuoted(rest, q, e);
    var c := Close(rest, q, e);
    if c.Some? {
      LongerText(q, front, pair, rest, c.value);
    }
  }

  lemma FirstQuoted(body: string, q: char, e: Escaping)
    requires IsQuoteMark(q)
    ensures First([q] + body, e) ==
            match Close(body, q, e)
            case Some(n) => Success(Quoted(([q] + body)[..1 + n]))
            case None => Failure(if q == '\'' then OpenString else OpenName)
  {
    hide Close;
    assert ([q] + body)[1..] == body;
  }

  lemma LongerText(q: char, front: string, pair: string, rest: string, n: nat)
    requires n <= |rest| && |pair| == 2
    ensures ([q] + rest)[..1 + n] == [q] + rest[..n]
    ensures ([q] + front + pair + rest)[..1 + (|front| + (2 + n))] == [q] + front + pair + rest[..n]
    ensures ([q] + rest[..n])[1..] == rest[..n]
  {
  }

  /** The lexemes of a text are the one it opens with and those of what is behind it. */
  lemma ThenTheRest(text: string, rest: string, x: Lexeme, e: Escaping)
    requires text + rest != "" && First(text + rest, e) == Success(x) && x.Text() == text
    ensures Lex(text + rest, e) == Lexed([x] + Lex(rest, e).lexemes, Lex(rest, e).error)
  {
    assert (text + rest)[|text|..] == rest;
  }
}
