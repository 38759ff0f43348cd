/**
 The scanner of crates/sqlake-core/src/sql.rs.

 `Lex` cuts a text into lexemes, one after another, and says where it got stuck
 when a quote, a comment or a dollar tag never ends. It is the reference: it
 looks only at what is left of the text, so laws about cutting and joining
 texts can be stated about it. `Scan` is the walk over indices the program
 does, and is proved to report exactly the lexemes of `Lex`.

 A text is a `string`, one `char` for each unit scanned. Every unit the scanner
 gives a meaning to is ASCII, so nothing here depends on whether a unit is a
 UTF-8 byte or a whole character: the laws hold for both readings.
 */
module Lexer {
  import opened Wrappers

  /** Whether a backslash escapes the next unit inside quotes. */
  datatype Escaping = Backslash | NoEscape

  /** What never ended. */
  datatype Unclosed = OpenString | OpenName | OpenComment | OpenDollar

  datatype Lexeme =
    | Quoted(text: string)
    | Comment(text: string)
    | Word(text: string)
    | Semicolon
    | Space(unit: char)
    | Code(unit: char)
  {
    function Text(): string {
      match this
      case Quoted(t) => t
      case Comment(t) => t
      case Word(t) => t
      case Semicolon => ";"
      case Space(c) => [c]
      case Code(c) => [c]
    }

    /** Part of a statement, rather than what lies between or is ignored. */
    predicate IsCode() {
      Quoted? || Word? || Code?
    }
  }

  datatype Lexed = Lexed(lexemes: seq<Lexeme>, error: Option<Unclosed>)

  // ── units ───────────────────────────────────────────────────────────────

  predicate IsQuote(c: char) { c == '\'' || c == '"' || c == '`' }

  predicate IsLetter(c: char) { 'a' <= c <= 'z' || 'A' <= c <= 'Z' }

  predicate IsDigit(c: char) { '0' <= c <= '9' }

  predicate IsWordStart(c: char) { IsLetter(c) || c == '_' }

  predicate IsWordUnit(c: char) { IsLetter(c) || IsDigit(c) || c == '_' }

  /** ASCII white space as the scanner takes it: no vertical tab. */
  predicate IsSpace(c: char) { c == ' ' || c == '\t' || c == '\n' || c == '\r' || c == '\U{c}' }

  // ── the reference ───────────────────────────────────────────────────────

  /** How much of `s`, which follows an opening `q`, belongs to the quoted text. */
  function Close(s: string, q: char, e: Escaping): (r: Option<nat>)
    ensures r.Some? ==> 0 < r.value <= |s| && s[r.value - 1] == q
  {
    if e == Backslash && |s| >= 2 && s[0] == '\\' then
      Plus(2, Close(s[2..], q, e))
    else if s == "" then None
    else if s[0] != q then Plus(1, Close(s[1..], q, e))
    else if |s| >= 2 && s[1] == q then Plus(2, Close(s[2..], q, e))
    else Some(1)
  }

  function Plus(n: nat, r: Option<nat>): Option<nat> {
    if r.Some? then Some(n + r.value) else None
  }

  predicate StandsAt(s: string, needle: string, at: nat) {
    at + |needle| <= |s| && s[at..at + |needle|] == needle
  }

  /** The first place at or after `from` where `needle` stands. */
  function Find(s: string, needle: string, from: nat): (r: Option<nat>)
    ensures r.Some? ==> from <= r.value && StandsAt(s, needle, r.value)
    ensures forall k: nat :: from <= k && (r.None? || k < r.value) ==> !StandsAt(s, needle, k)
    decreases |s| - from
  {
    if from + |needle| > |s| then None
    else if StandsAt(s, needle, from) then Some(from)
    else if from == |s| then None
    else Find(s, needle, from + 1)
  }

  /** Where a line comment ends: past its newline, or at the end of the text. */
  function LineEnd(s: string): (n: nat)
    ensures n <= |s|
    ensures s != "" ==> n > 0
    ensures n < |s| ==> s[n - 1] == '\n'
  {
    if s == "" then 0
    else if s[0] == '\n' then 1
    else 1 + LineEnd(s[1..])
  }

  function WordLength(s: string): (n: nat)
    ensures n <= |s|
    ensures forall k :: 0 <= k < n ==> IsWordUnit(s[k])
    ensures n < |s| ==> !IsWordUnit(s[n])
  {
    if s == "" || !IsWordUnit(s[0]) then 0 else 1 + WordLength(s[1..])
  }

  /** The length of the `$tag$` that `s` opens with, scanned as far as `end`. */
  function DollarTag(s: string, end: nat): (r: Option<nat>)
    requires 1 <= end
    ensures r.Some? ==> end < r.value <= |s|
    decreases |s| - end
  {
    if end >= |s| then None
    else if s[end] == '$' then Some(end + 1)
    else if IsWordStart(s[end]) || (IsDigit(s[end]) && end > 1) then DollarTag(s, end + 1)
    else None
  }

  /** The lexeme a text opens with. */
  function First(s: string, e: Escaping): (r: Result<Lexeme, Unclosed>)
    requires s != ""
    ensures r.Success? ==> 0 < |r.value.Text()| <= |s| && r.value.Text() == s[..|r.value.Text()|]
  {
    var c := s[0];
    if IsQuote(c) then
      match Close(s[1..], c, e)
      case Some(n) => Success(Quoted(s[..1 + n]))
      case None => Failure(if c == '\'' then OpenString else OpenName)
    else if c == '-' && |s| > 1 && s[1] == '-' then
      Success(Comment(s[..LineEnd(s)]))
    else if c == '/' && |s| > 1 && s[1] == '*' then
      match Find(s, "*/", 2)
      case Some(at) => Success(Comment(s[..at + 2]))
      case None => Failure(OpenComment)
    else if c == '$' then
      match DollarTag(s, 1)
      case Some(n) =>
        (match Find(s, s[..n], n)
         case Some(at) => Success(Quoted(s[..at + n]))
         case None => Failure(OpenDollar))
      case None => Success(Code(c))
    else if c == ';' then Success(Semicolon)
    else if IsWordStart(c) then Success(Word(s[..WordLength(s)]))
    else if IsSpace(c) then Success(Space(c))
    else Success(Code(c))
  }

  function Lex(s: string, e: Escaping): Lexed
    decreases |s|
  {
    if s == "" then Lexed([], None)
    else
      match First(s, e)
      case Failure(what) => Lexed([], Some(what))
      case Success(x) =>
        var rest := Lex(s[|x.Text()|..], e);
        Lexed([x] + rest.lexemes, rest.error)
  }

  function Texts(l: seq<Lexeme>): string {
    if l == [] then "" else l[0].Text() + Texts(l[1..])
  }

  // ── what the program reports ────────────────────────────────────────────

  datatype Skipped = InQuotes | InComment

  datatype Token =
    | Boundary(at: nat)
    | Bare(word: string)
    | Other
    | Stepped(start: nat, end: nat, what: Skipped)

  function Report(x: Lexeme, at: nat): seq<Token> {
    match x
    case Quoted(t) => [Other, Stepped(at, at + |t|, InQuotes)]
    case Comment(t) => [Stepped(at, at + |t|, InComment)]
    case Word(t) => [Bare(t)]
    case Semicolon => [Boundary(at)]
    case Space(_) => []
    case Code(_) => [Other]
  }

  function Tokens(l: seq<Lexeme>, at: nat): seq<Token> {
    if l == [] then [] else Report(l[0], at) + Tokens(l[1..], at + |l[0].Text()|)
  }

  /** Everything the scanner has said by the time it stops at `error`. */
  function Reported(l: Lexed): seq<Token> {
    Tokens(l.lexemes, 0)
    + if l.error.Some? && l.error != Some(OpenComment) then [Other] else []
  }

  // ── the walk ────────────────────────────────────────────────────────────

  lemma DropDrop(s: string, i: nat, j: nat)
    requires i + j <= |s|
    ensures s[i..][j..] == s[i + j..]
  {
  }

  lemma TakeTake(s: string, i: nat, n: nat)
    requires i + n <= |s|
    ensures s[..i] + s[i..][..n] == s[..i + n]
  {
  }

  lemma Regroup<T>(a: seq<T>, b: seq<T>, c: seq<T>)
    ensures a + (b + c) == a + b + c
  {
  }

  /** The `$tag$` that opens at `at`, if that is what it is. */
  method ScanDollarTag(text: string, at: nat) returns (tag: Option<string>)
    requires at < |text| && text[at] == '$'
    ensures tag == match DollarTag(text[at..], 1) case Some(n) => Some(text[at..at + n]) case None => None
  {
    var end := at + 1;
    while end < |text|
      invariant at + 1 <= end <= |text|
      invariant DollarTag(text[at..], 1) == DollarTag(text[at..], end - at)
    {
      var c := text[end];
      assert text[at..][end - at] == c;
      if c == '$' {
        return Some(text[at..end + 1]);
      } else if IsWordStart(c) || (IsDigit(c) && end > at + 1) {
        end := end + 1;
      } else {
        return None;
      }
    }
    tag := None;
  }

  lemma CloseStep(text: string, i: nat, q: char, e: Escaping)
    requires i <= |text|
    ensures Close(text[i..], q, e) ==
            if e == Backslash && i + 1 < |text| && text[i] == '\\' then Plus(2, Close(text[i + 2..], q, e))
            else if i == |text| then None
            else if text[i] != q then Plus(1, Close(text[i + 1..], q, e))
            else if i + 1 < |text| && text[i + 1] == q then Plus(2, Close(text[i + 2..], q, e))
            else Some(1)
  {
    var s := text[i..];
    assert i < |text| ==> s[0] == text[i];
    assert i + 1 < |text| ==> s[1] == text[i + 1];
    if i + 1 <= |text| { DropDrop(text, i, 1); }
    if i + 2 <= |text| { DropDrop(text, i, 2); }
  }

  /** Where the quoted text that opens at `start` ends. */
  method ScanQuoted(text: string, start: nat, e: Escaping) returns (end: Option<nat>)
    requires start < |text|
    ensures end == Plus(start + 1, Close(text[start + 1..], text[start], e))
    ensures end.Some? ==> end.value <= |text|
  {
    hide Close;
    var quote := text[start];
    var i := start + 1;
    while true
      invariant start < i <= |text|
      invariant Plus(start + 1, Close(text[start + 1..], quote, e)) == Plus(i, Close(text[i..], quote, e))
      decreases |text| - i
    {
      CloseStep(text, i, quote, e);
      if e == Backslash && i + 1 < |text| && text[i] == '\\' {
        i := i + 2;
        continue;
      }
      if i == |text| {
        return None;
      }
      if text[i] != quote {
        i := i + 1;
        continue;
      }
      if i + 1 < |text| && text[i + 1] == quote {
        i := i + 2;
        continue;
      }
      return Some(i + 1);
    }
  }

  method ScanWord(text: string, start: nat) returns (end: nat)
    requires start < |text|
    ensures end == start + WordLength(text[start..])
  {
    end := start;
    while end < |text| && IsWordUnit(text[end])
      invariant start <= end <= |text|
      invariant WordLength(text[start..]) == (end - start) + WordLength(text[end..])
    {
      DropDrop(text, end, 1);
      end := end + 1;
    }
  }

  lemma FindShift(s: string, needle: string, i: nat, from: nat)
    requires i <= |s| && from <= |s| - i
    ensures Find(s, needle, i + from) == Plus(i, Find(s[i..], needle, from))
    decreases |s| - from
  {
    if i + from + |needle| <= |s| {
      assert s[i..][from..from + |needle|] == s[i + from..i + from + |needle|];
      if s[i + from..i + from + |needle|] != needle && i + from < |s| {
        FindShift(s, needle, i, from + 1);
      }
    }
  }

  lemma LineEndShift(s: string, i: nat)
    requires i <= |s|
    ensures i + LineEnd(s[i..]) == (match Find(s, "\n", i) case Some(at) => at + 1 case None => |s|)
    decreases |s| - i
  {
    if i < |s| {
      assert s[i..i + 1] == [s[i]];
      DropDrop(s, i, 1);
      if s[i] != '\n' {
        LineEndShift(s, i + 1);
      }
    }
  }

  lemma {:induction false} TextsAppend(l: seq<Lexeme>, x: Lexeme)
    ensures Texts(l + [x]) == Texts(l) + x.Text()
  {
    hide Lexeme.Text;
    if l == [] {
      assert [x][1..] == [];
      assert [] + [x] == [x];
    } else {
      assert (l + [x])[1..] == l[1..] + [x];
      TextsAppend(l[1..], x);
    }
  }

  lemma {:induction false} TokensAppend(l: seq<Lexeme>, x: Lexeme, at: nat)
    ensures Tokens(l + [x], at) == Tokens(l, at) + Report(x, at + |Texts(l)|)
  {
    hide Report, Lexeme.Text;
    if l == [] {
      assert [x][1..] == [];
      assert [] + [x] == [x];
      assert Tokens([x], at) == Report(x, at) + [];
      assert [] + Report(x, at) == Report(x, at);
    } else {
      var n := |l[0].Text()|;
      assert (l + [x])[1..] == l[1..] + [x];
      TokensAppend(l[1..], x, at + n);
      var front, mid, back := Report(l[0], at), Tokens(l[1..], at + n), Report(x, at + |Texts(l)|);
      Regroup(front, mid, back);
    }
  }

  lemma LexStep(s: string, e: Escaping)
    requires s != "" && First(s, e).Success?
    ensures var x := First(s, e).value;
            var rest := Lex(s[|x.Text()|..], e);
            Lex(s, e) == Lexed([x] + rest.lexemes, rest.error)
  {
    hide First, Lexeme.Text;
  }

  /** One turn of the walk moves one lexeme from the rest of the text to what has been read. */
  lemma ReadOne(text: string, i: nat, e: Escaping, read: seq<Lexeme>)
    requires i < |text|
    requires First(text[i..], e).Success?
    requires Lex(text, e) == Lexed(read + Lex(text[i..], e).lexemes, Lex(text[i..], e).error)
    requires Texts(read) == text[..i]
    ensures var x := First(text[i..], e).value;
            var j := i + |x.Text()|;
            && j <= |text|
            && Lex(text, e) == Lexed(read + [x] + Lex(text[j..], e).lexemes, Lex(text[j..], e).error)
            && Texts(read + [x]) == text[..j]
            && Tokens(read + [x], 0) == Tokens(read, 0) + Report(x, i)
  {
    hide *;
    LexStep(text[i..], e);
    var x := First(text[i..], e).value;
    var n := |x.Text()|;
    DropDrop(text, i, n);
    TakeTake(text, i, n);
    TokensAppend(read, x, 0);
    TextsAppend(read, x);
    Regroup(read, [x], Lex(text[i + n..], e).lexemes);
  }

  /** What the walk has said when it reaches the end, or gets stuck after what has been `read`. */
  lemma Finished(text: string, i: nat, e: Escaping, read: seq<Lexeme>)
    requires i <= |text|
    requires Lex(text, e) == Lexed(read + Lex(text[i..], e).lexemes, Lex(text[i..], e).error)
    requires i == |text| || First(text[i..], e).Failure?
    ensures Lex(text, e).error == if i == |text| then None else Some(First(text[i..], e).error)
    ensures Reported(Lex(text, e)) ==
            Tokens(read, 0) + if i < |text| && First(text[i..], e).error != OpenComment then [Other] else []
  {
    hide First;
    assert Lex(text[i..], e).lexemes == [];
    assert read + [] == read;
  }

  lemma Started(text: string, e: Escaping)
    ensures text[0..] == text
    ensures Lex(text, e) == Lexed([] + Lex(text, e).lexemes, Lex(text, e).error)
    ensures Texts([]) == text[..0]
    ensures Tokens([], 0) == []
  {
  }

  /** What is said about the dollar at `i`, and where it or what it quotes ends. */
  method ScanDollar(text: string, i: nat, e: Escaping) returns (said: seq<Token>, next: nat, error: Option<Unclosed>)
    requires i < |text| && text[i] == '$'
    ensures match First(text[i..], e)
            case Success(x) => error == None && next == i + |x.Text()| && said == Report(x, i)
            case Failure(what) => error == Some(what) && said == [Other] && what == OpenDollar
  {
    hide Find, DollarTag;
    assert text[i..][0] == '$';
    var tag := ScanDollarTag(text, i);
    if tag.None? {
      return [Other], i + 1, None;
    }
    assert tag.value == text[i..][..|tag.value|];
    FindShift(text, tag.value, i, |tag.value|);
    var at := Find(text, tag.value, i + |tag.value|);
    if at.None? {
      return [Other], i + 1, Some(OpenDollar);
    }
    next := at.value + |tag.value|;
    return [Other, Stepped(i, next, InQuotes)], next, None;
  }

  /** What is said about the comment that opens at `i`, and where it ends. */
  method ScanComment(text: string, i: nat, e: Escaping) returns (said: seq<Token>, next: nat, error: Option<Unclosed>)
    requires i + 1 < |text| && (text[i..i + 2] == "--" || text[i..i + 2] == "/*")
    ensures match First(text[i..], e)
            case Success(x) => error == None && next == i + |x.Text()| && said == Report(x, i)
            case Failure(what) => error == Some(what) && said == [] && what == OpenComment
  {
    hide Find, LineEnd;
    assert text[i..][0] == text[i] == text[i..i + 2][0];
    assert text[i..][1] == text[i + 1] == text[i..i + 2][1];
    if text[i] == '-' {
      LineEndShift(text, i);
      var newline := Find(text, "\n", i);
      next := if newline.Some? then newline.value + 1 else |text|;
      return [Stepped(i, next, InComment)], next, None;
    }
    FindShift(text, "*/", i, 2);
    var at := Find(text, "*/", i + 2);
    if at.None? {
      return [], i + 2, Some(OpenComment);
    }
    return [Stepped(i, at.value + 2, InComment)], at.value + 2, None;
  }

  /** What is said about the quoted text that opens at `i`, and where it ends. */
  method ScanQuote(text: string, i: nat, e: Escaping) returns (said: seq<Token>, next: nat, error: Option<Unclosed>)
    requires i < |text| && IsQuote(text[i])
    ensures match First(text[i..], e)
            case Success(x) => error == None && next == i + |x.Text()| && said == Report(x, i)
            case Failure(what) => error == Some(what) && said == [Other] && what != OpenComment
  {
    hide Close;
    assert text[i..][0] == text[i];
    DropDrop(text, i, 1);
    var end := ScanQuoted(text, i, e);
    if end.None? {
      return [Other], i + 1, Some(if text[i] == '\'' then OpenString else OpenName);
    }
    return [Other, Stepped(i, end.value, InQuotes)], end.value, None;
  }

  /** What is said about a unit that opens nothing, and where it or its word ends. */
  method ScanPlain(text: string, i: nat, e: Escaping) returns (said: seq<Token>, next: nat)
    requires i < |text| && !IsQuote(text[i]) && text[i] != '$'
    requires i + 1 < |text| ==> text[i..i + 2] != "--" && text[i..i + 2] != "/*"
    ensures First(text[i..], e).Success?
    ensures next == i + |First(text[i..], e).value.Text()| && said == Report(First(text[i..], e).value, i)
  {
    hide WordLength;
    var c := text[i];
    assert text[i..][0] == c;
    assert i + 1 < |text| ==> text[i..][1] == text[i + 1] && text[i..i + 2] == [c, text[i + 1]];
    said, next := [], i + 1;
    if c == ';' {
      said := [Boundary(i)];
    } else if IsWordStart(c) {
      next := ScanWord(text, i);
      assert text[i..next] == text[i..][..next - i];
      said := [Bare(text[i..next])];
    } else if !IsSpace(c) {
      said := [Other];
    }
  }

  /** One turn of the walk: what stands at `i`, what is said about it, and where it ends. */
  method ScanOne(text: string, i: nat, e: Escaping) returns (said: seq<Token>, next: nat, error: Option<Unclosed>)
    requires i < |text|
    ensures match First(text[i..], e)
            case Success(x) => error == None && next == i + |x.Text()| && said == Report(x, i)
            case Failure(what) => error == Some(what) && said == if what == OpenComment then [] else [Other]
  {
    hide First, Report, Lexeme.Text;
    if IsQuote(text[i]) {
      said, next, error := ScanQuote(text, i, e);
    } else if i + 1 < |text| && (text[i..i + 2] == "--" || text[i..i + 2] == "/*") {
      said, next, error := ScanComment(text, i, e);
    } else if text[i] == '$' {
      said, next, error := ScanDollar(text, i, e);
    } else {
      said, next := ScanPlain(text, i, e);
      error := None;
    }
  }

  /**
   The walk over the whole text. The tokens are what the callback is given, in
   order, up to the point where the walk ends or fails.
   */
  method Scan(text: string, e: Escaping) returns (tokens: seq<Token>, error: Option<Unclosed>)
    ensures tokens == Reported(Lex(text, e))
    ensures error == Lex(text, e).error
  {
    hide *;
    tokens, error := [], None;
    var i := 0;
    ghost var read: seq<Lexeme> := [];
    Started(text, e);
    while i < |text|
      invariant i <= |text|
      invariant Lex(text, e) == Lexed(read + Lex(text[i..], e).lexemes, Lex(text[i..], e).error)
      invariant Texts(read) == text[..i]
      invariant tokens == Tokens(read, 0)
      decreases |text| - i
    {
      ghost var first := First(text[i..], e);
      var said, next, failed := ScanOne(text, i, e);
      tokens := tokens + said;
      if failed.Some? {
        Finished(text, i, e, read);
        return tokens, failed;
      }
      ReadOne(text, i, e, read);
      read := read + [first.value];
      i := next;
    }
    Finished(text, i, e, read);
  }
}
