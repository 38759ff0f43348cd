/**
 Which value a binding puts where, and how placeholders are written.
 */
module Fillings {
  import opened Wrappers
  import opened Lexer
  import opened LexerLaws
  import opened Quoting
  import opened Constructs
  import opened Template
  import opened TemplateLaws

  // ── each value in its place ─────────────────────────────────────────────

  /** The body from `at` on, with these texts where the placeholders stand. */
  function Woven(body: string, at: nat, found: seq<Found>, texts: seq<string>): string
    requires Ranges(body, at, found) && |texts| == |found|
    decreases |found|
  {
    if found == [] then body[at..]
    else body[at..found[0].start] + (texts[0] + Woven(body, found[0].end, found[1..], texts[1..]))
  }

  /** Its lexemes, before neighbours quoted alike are merged. */
  function WovenLexemes(body: string, e: Escaping, at: nat, found: seq<Found>, texts: seq<string>): seq<Lexeme>
    requires Placed(body, e, at, found) && |texts| == |found|
    decreases |found|
  {
    if found == [] then Lex(body[at..], e).lexemes
    else
      Lex(body[at..found[0].start], e).lexemes
      + ([Quoted(texts[0])] + WovenLexemes(body, e, found[0].end, found[1..], texts[1..]))
  }

  /** The text is one quoted region that means the value: a string for a value, and for a name as names are quoted. */
  predicate Fills(text: string, use: Use, value: string, d: Dialect) {
    && text != "" && First(text, d.escaping) == Success(Quoted(text))
    && Enclosed(text, d.escaping) == value
    && text[0] == (match use
                   case AsValue => '\''
                   case AsIdent => if d.style == DoubleQuote then '"' else '`')
  }

  predicate DistinctNames(values: Values) {
    forall j, k :: 0 <= j < k < |values| ==> values[j].0 != values[k].0
  }

  lemma {:induction false} ValueIsItsOwn(values: Values, j: nat)
    requires DistinctNames(values) && j < |values|
    ensures ValueOf(values, values[j].0) == Some(values[j].1)
  {
    if j > 0 {
      assert values[j] == values[1..][j - 1];
      assert values[0].0 != values[j].0;
      ValueIsItsOwn(values[1..], j - 1);
    }
  }

  lemma FilledFills(p: Placeholder, values: Values, d: Dialect, j: nat)
    requires Matching(d.style, d.escaping) && DistinctNames(values) && j < |values| && values[j].0 == p.name
    ensures Fills(Filled(p, values, d), p.use, values[j].1, d)
  {
    hide QuoteLiteral, QuoteIdent, Matching, ValueOf, First, Enclosed, DistinctNames;
    ValueIsItsOwn(values, j);
    if p.use == AsValue {
      LiteralRoundTrip(values[j].1, d.escaping);
    } else {
      IdentRoundTrip(values[j].1, d.style, d.escaping);
    }
  }

  function Fillers(found: seq<Found>, values: Values, d: Dialect): (r: seq<string>)
    ensures |r| == |found|
  {
    seq(|found|, i requires 0 <= i < |found| => Filled(found[i].placeholder, values, d))
  }

  lemma FillersOfTail(found: seq<Found>, values: Values, d: Dialect)
    requires found != []
    ensures Fillers(found, values, d)[0] == Filled(found[0].placeholder, values, d)
    ensures Fillers(found, values, d)[1..] == Fillers(found[1..], values, d)
  {
    hide Filled;
  }

  lemma {:induction false} BoundIsWoven(body: string, at: nat, found: seq<Found>, values: Values, d: Dialect)
    requires Ranges(body, at, found)
    ensures Bound(body, at, found, values, d) == Woven(body, at, found, Fillers(found, values, d))
    decreases |found|
  {
    hide Filled, Fillers;
    if found != [] {
      FillersOfTail(found, values, d);
      BoundIsWoven(body, found[0].end, found[1..], values, d);
    }
  }

  lemma {:induction false} SubstitutedIsWoven(body: string, at: nat, found: seq<Found>, values: Values, d: Dialect)
    requires Placed(body, d.escaping, at, found)
    ensures Substituted(body, at, found, values, d)
            == WovenLexemes(body, d.escaping, at, found, Fillers(found, values, d))
    decreases |found|
  {
    hide Filled, Fillers, Lex, Cut, AllCode;
    if found != [] {
      PlacedNext(body, d.escaping, at, found);
      FillersOfTail(found, values, d);
      SubstitutedIsWoven(body, found[0].end, found[1..], values, d);
    }
  }

  /**
   Every value stands in its own places. When a body binds, its bound text is the
   body with one text in the place of each placeholder; whichever value was given
   under that placeholder's name, that text is one quoted region that means that
   very value, quoted as a string or as a name as the placeholder asks. And the
   lexemes of the bound text are those of the body with those regions in place,
   neighbours quoted alike merged.
   */
  lemma EachValueStandsInItsPlaces(body: string, values: Values, d: Dialect) returns (texts: seq<string>)
    requires Matching(d.style, d.escaping) && DistinctNames(values) && BindAll(body, values, d).Success?
    ensures var found := FindPlaceholders(body, d.escaping).value;
            var text := BindAll(body, values, d).value;
            && |texts| == |found| && Ranges(body, 0, found) && Placed(body, d.escaping, 0, found)
            && text == Woven(body, 0, found, texts)
            && Lex(text, d.escaping) == Lexed(Merged(WovenLexemes(body, d.escaping, 0, found, texts)), None)
            && (forall i :: 0 <= i < |found| ==>
                  exists j :: 0 <= j < |values| && values[j].0 == found[i].placeholder.name)
            && forall i, j :: 0 <= i < |found| && 0 <= j < |values| && values[j].0 == found[i].placeholder.name ==>
                 Fills(texts[i], found[i].placeholder.use, values[j].1, d)
  {
    hide FindPlaceholders, Filled, Fills, Substituted, Lex, Original, Placed, Matching, DistinctNames, ValueOf,
         Bound, Merged, Woven, WovenLexemes, Ranges;
    var found := FindPlaceholders(body, d.escaping).value;
    texts := Fillers(found, values, d);
    RangesOf(body, d.escaping);
    BindingPreservesStructure(body, values, d);
    BoundIsWoven(body, 0, found, values, d);
    SubstitutedIsWoven(body, 0, found, values, d);
    forall i, j | 0 <= i < |found| && 0 <= j < |values| && values[j].0 == found[i].placeholder.name
      ensures Fills(texts[i], found[i].placeholder.use, values[j].1, d)
    {
      FilledFills(found[i].placeholder, values, d, j);
    }
    forall i | 0 <= i < |found|
      ensures exists j :: 0 <= j < |values| && values[j].0 == found[i].placeholder.name
    {
      assert ValueOf(values, found[i].placeholder.name).Some?;
    }
  }

  // ── how placeholders are written ────────────────────────────────────────

  /** A name: at least one letter, digit or underscore, and nothing else. */
  predicate IsPlaceholderName(s: string) {
    s != "" && forall i :: 0 <= i < |s| ==> IsIdentUnit(s[i])
  }

  /** A name on its own, or behind `value:`, is a value's; behind `ident:` it is a name's. */
  predicate Written(inner: string, p: Placeholder) {
    && IsPlaceholderName(p.name)
    && (match p.use
        case AsValue => inner == p.name || inner == "value:" + p.name
        case AsIdent => inner == "ident:" + p.name)
  }

  lemma NoColon(s: string)
    requires ':' !in s
    ensures Find(s, ":", 0).None?
  {
    forall k: nat | k < |s|
      ensures !StandsAt(s, ":", k)
    {
      assert s[k..k + 1][0] == s[k];
    }
  }

  lemma FirstColon(prefix: string, name: string)
    requires ':' !in prefix
    ensures Find(prefix + ":" + name, ":", 0) == Some(|prefix|)
  {
    var s := prefix + ":" + name;
    assert s[|prefix|..|prefix| + 1] == ":";
    forall k: nat | k < |prefix|
      ensures !StandsAt(s, ":", k)
    {
      assert k + 1 <= |s| ==> s[k..k + 1][0] == prefix[k];
    }
    FoundThere(s, ":", 0, |prefix|);
  }

  /** What is behind a colon is the name, and what is before the first colon says how to quote it. */
  lemma PrefixedIs(prefix: string, name: string)
    requires ':' !in prefix
    ensures ReadPlaceholder(prefix + ":" + name) ==
            if prefix != "ident" && prefix != "value" then Failure(UnknownUse(prefix))
            else if name == "" then Failure(Nameless(prefix + ":" + name))
            else if !IsPlaceholderName(name) then Failure(BadName(name))
            else Success(Placeholder(name, if prefix == "ident" then AsIdent else AsValue))
  {
    hide Find;
    FirstColon(prefix, name);
    var s := prefix + ":" + name;
    assert s[..|prefix|] == prefix && s[|prefix| + 1..] == name;
  }

  lemma UnprefixedIs(name: string)
    requires ':' !in name
    ensures ReadPlaceholder(name) ==
            if name == "" then Failure(Nameless(name))
            else if !IsPlaceholderName(name) then Failure(BadName(name))
            else Success(Placeholder(name, AsValue))
  {
    hide Find;
    NoColon(name);
  }

  lemma NamesHaveNoColon(name: string)
    requires IsPlaceholderName(name)
    ensures name != "" && ':' !in name
  {
  }

  lemma SplitAtColon(inner: string) returns (prefix: string, name: string)
    requires ':' in inner
    ensures ':' !in prefix && inner == prefix + ":" + name
  {
    var i := 0;
    while inner[i] != ':'
      invariant i < |inner| && ':' !in inner[..i] && ':' in inner[i..]
      decreases |inner| - i
    {
      assert inner[i..] == [inner[i]] + inner[i + 1..];
      assert inner[..i + 1] == inner[..i] + [inner[i]];
      i := i + 1;
    }
    prefix, name := inner[..i], inner[i + 1..];
  }

  /** What stands between the braces is a placeholder if and only if it is written as one. */
  lemma ReadExactlyAsWritten(inner: string, p: Placeholder)
    ensures ReadPlaceholder(inner) == Success(p) <==> Written(inner, p)
  {
    hide ReadPlaceholder, IsPlaceholderName;
    if IsPlaceholderName(p.name) {
      NamesHaveNoColon(p.name);
      UnprefixedIs(p.name);
      PrefixedIs("value", p.name);
      PrefixedIs("ident", p.name);
      assert "value" + ":" + p.name == "value:" + p.name && "ident" + ":" + p.name == "ident:" + p.name;
    }
    if ReadPlaceholder(inner) == Success(p) {
      if ':' in inner {
        var prefix, name := SplitAtColon(inner);
        PrefixedIs(prefix, name);
      } else {
        UnprefixedIs(inner);
      }
    }
  }

  /** A placeholder as the body has it. */
  predicate StandsIn(body: string, f: Found) {
    && f.start + 4 <= f.end <= |body|
    && body[f.start..f.start + 2] == "{{" && body[f.end - 2..f.end] == "}}"
    && Written(body[f.start + 2..f.end - 2], f.placeholder)
    && forall k :: f.start + 2 <= k < f.end - 2 ==> !StandsAt(body, "}}", k)
  }

  predicate OneUseEach(found: seq<Found>) {
    forall i, j :: 0 <= i < |found| && 0 <= j < |found| && found[i].placeholder.name == found[j].placeholder.name ==>
      found[i].placeholder.use == found[j].placeholder.use
  }

  lemma HeldIs(found: seq<Found>, name: string, i: nat)
    requires OneUseEach(found) && i < |found| && found[i].placeholder.name == name
    ensures Held(found, name).Some? && Held(found, name).value.use == found[i].placeholder.use
  {
    HeldIsOne(found, name);
  }

  lemma {:induction false} HeldIsOne(found: seq<Found>, name: string)
    ensures Held(found, name).Some? ==>
              exists i :: 0 <= i < |found| && found[i].placeholder == Held(found, name).value
  {
    if found != [] && found[0].placeholder.name != name {
      HeldIsOne(found[1..], name);
      if Held(found, name).Some? {
        var i :| 0 <= i < |found[1..]| && found[1..][i].placeholder == Held(found[1..], name).value;
        assert found[i + 1] == found[1..][i];
      }
    }
  }

  lemma OneMoreUse(held: seq<Found>, one: Found)
    requires OneUseEach(held)
    requires var before := Held(held, one.placeholder.name); before.Some? ==> before.value.use == one.placeholder.use
    ensures OneUseEach(held + [one])
  {
    forall i | 0 <= i < |held| && held[i].placeholder.name == one.placeholder.name
      ensures held[i].placeholder.use == one.placeholder.use
    {
      HeldIs(held, one.placeholder.name, i);
    }
  }

  lemma OneStandsIn(body: string, start: nat, close: nat)
    requires StandsAt(body, "{{", start) && Find(body, "}}", start + 2) == Some(close)
    requires ReadPlaceholder(body[start + 2..close]).Success?
    ensures StandsIn(body, Found(ReadPlaceholder(body[start + 2..close]).value, start, close + 2))
  {
    hide Written, Find, ReadPlaceholder;
    var inner := body[start + 2..close];
    ReadExactlyAsWritten(inner, ReadPlaceholder(inner).value);
    assert body[start..start + 2] == "{{" && body[close..close + 2] == "}}";
  }

  /** No name is used two ways by these and those, and each of those is written in the body. */
  predicate AllIn(body: string, held: seq<Found>, found: seq<Found>) {
    OneUseEach(held + found) && forall k :: 0 <= k < |found| ==> StandsIn(body, found[k])
  }

  lemma NoneIn(body: string, held: seq<Found>)
    requires OneUseEach(held)
    ensures AllIn(body, held, [])
  {
    assert held + [] == held;
  }

  lemma OneMoreIn(body: string, held: seq<Found>, one: Found, rest: seq<Found>)
    requires StandsIn(body, one) && AllIn(body, held + [one], rest)
    ensures AllIn(body, held, [one] + rest)
  {
    hide StandsIn, OneUseEach;
    assert held + [one] + rest == held + ([one] + rest);
  }

  /** What is done with a placeholder that was read: refused, or held beside those behind it. */
  function WithTheRest(body: string, tokens: seq<Token>, held: seq<Found>, one: Found)
    : Result<seq<Found>, TemplateError>
  {
    var before := Held(held, one.placeholder.name);
    if before.Some? && before.value.use != one.placeholder.use then Failure(TwoUses(one.placeholder.name))
    else
      match FindAll(body, tokens, one.end, held + [one])
      case Failure(why) => Failure(why)
      case Success(rest) => Success([one] + rest)
  }

  /** What is found from `i` is nothing, what is found behind a pair of braces, or that pair and what is behind it. */
  lemma FoundFrom(body: string, tokens: seq<Token>, i: nat, held: seq<Found>)
    ensures var start := Find(body, "{{", i);
            var r := FindAll(body, tokens, i, held);
            if start.None? then r == Success([])
            else
              var close := Find(body, "}}", start.value + 2);
              if close.None? then r.Failure?
              else
                var inner := body[start.value + 2..close.value];
                || r.Failure?
                || r == FindAll(body, tokens, close.value + 2, held)
                || (ReadPlaceholder(inner).Success?
                    && r == WithTheRest(body, tokens, held,
                                        Found(ReadPlaceholder(inner).value, start.value, close.value + 2)))
  {
    hide Inside, ReadPlaceholder, Held, Find;
  }

  lemma {:induction false} AllStandIn(body: string, tokens: seq<Token>, i: nat, held: seq<Found>)
    requires OneUseEach(held)
    ensures var r := FindAll(body, tokens, i, held); r.Success? ==> AllIn(body, held, r.value)
    decreases |body| - i, 0
  {
    hide ReadPlaceholder, Find, FindAll, OneUseEach, Written, StandsIn, AllIn, WithTheRest;
    NoneIn(body, held);
    FoundFrom(body, tokens, i, held);
    var start := Find(body, "{{", i);
    if start.Some? {
      var close := Find(body, "}}", start.value + 2);
      if close.Some? {
        AllStandIn(body, tokens, close.value + 2, held);
        var inner := body[start.value + 2..close.value];
        if ReadPlaceholder(inner).Success? {
          OneStandsIn(body, start.value, close.value);
          RestStandsIn(body, tokens, held, Found(ReadPlaceholder(inner).value, start.value, close.value + 2));
        }
      }
    }
  }

  lemma {:induction false} RestStandsIn(body: string, tokens: seq<Token>, held: seq<Found>, one: Found)
    requires OneUseEach(held) && StandsIn(body, one) && one.end <= |body|
    ensures var r := WithTheRest(body, tokens, held, one); r.Success? ==> AllIn(body, held, r.value)
    decreases |body| - one.end, 1
  {
    hide FindAll, OneUseEach, StandsIn, AllIn;
    var before := Held(held, one.placeholder.name);
    if before.None? || before.value.use == one.placeholder.use {
      OneMoreUse(held, one);
      AllStandIn(body, tokens, one.end, held + [one]);
      var rest := FindAll(body, tokens, one.end, held + [one]);
      if rest.Success? {
        OneMoreIn(body, held, one, rest.value);
      }
    }
  }

  /**
   Every placeholder found is written in the body as its name and use say, closed
   at the first pair of braces, and no name is used two ways.
   */
  lemma FoundAsWritten(body: string, e: Escaping)
    ensures var r := FindPlaceholders(body, e);
            r.Success? ==> OneUseEach(r.value) && forall k :: 0 <= k < |r.value| ==> StandsIn(body, r.value[k])
  {
    hide Lex, Tokens, FindAll, StandsIn;
    AllStandIn(body, Tokens(Lex(body, e).lexemes, 0), 0, []);
    var r := FindPlaceholders(body, e);
    if r.Success? {
      assert [] + r.value == r.value;
    }
  }

  predicate Covered(found: seq<Found>, k: int) {
    exists i :: 0 <= i < |found| && found[i].start <= k < found[i].end
  }

  lemma {:induction false} NoneMissed(body: string, tokens: seq<Token>, i: nat, held: seq<Found>)
    requires forall at :: Inside(tokens, at) != Some(InComment)
    ensures var r := FindAll(body, tokens, i, held);
            r.Success? ==> forall k :: i <= k && StandsAt(body, "{{", k) ==> Covered(r.value, k)
    decreases |body| - i
  {
    hide Inside, ReadPlaceholder, Held;
    var start := Find(body, "{{", i);
    var r := FindAll(body, tokens, i, held);
    if start.Some? && r.Success? {
      var close := Find(body, "}}", start.value + 2);
      var end := close.value + 2;
      assert Inside(tokens, start.value) != Some(InComment);
      var p := ReadPlaceholder(body[start.value + 2..close.value]).value;
      var one := Found(p, start.value, end);
      NoneMissed(body, tokens, end, held + [one]);
      var rest := FindAll(body, tokens, end, held + [one]).value;
      assert r.value == [one] + rest;
      forall k | i <= k && StandsAt(body, "{{", k)
        ensures Covered(r.value, k)
      {
        if k >= end {
          var j :| 0 <= j < |rest| && rest[j].start <= k < rest[j].end;
          assert r.value[j + 1] == rest[j];
        } else {
          assert r.value[0] == one && start.value <= k;
        }
      }
    }
  }

  /** In a body without comments every pair of opening braces belongs to a placeholder that was found. */
  lemma NothingIsMissed(body: string, e: Escaping, k: nat)
    requires FindPlaceholders(body, e).Success? && StandsAt(body, "{{", k)
    requires forall i :: 0 <= i < |Lex(body, e).lexemes| ==> !Lex(body, e).lexemes[i].Comment?
    ensures Covered(FindPlaceholders(body, e).value, k)
  {
    hide Lex, Tokens, FindAll, Inside;
    NoCommentInside(Lex(body, e).lexemes, 0);
    NoneMissed(body, Tokens(Lex(body, e).lexemes, 0), 0, []);
  }

  lemma {:induction false} NoCommentInside(l: seq<Lexeme>, at: nat)
    requires forall i :: 0 <= i < |l| ==> !l[i].Comment?
    ensures forall k :: Inside(Tokens(l, at), k) != Some(InComment)
  {
    hide Lexeme.Text, Tokens, Report, Inside;
    if l == [] {
      TokensNone(at);
    } else {
      TokensCons(l, at);
      NoCommentInside(l[1..], at + |l[0].Text()|);
      NoCommentReported(l[0], at, Tokens(l[1..], at + |l[0].Text()|));
    }
  }

  lemma TokensNone(at: nat)
    ensures forall k :: Inside(Tokens([], at), k) == None
  {
  }

  lemma NoCommentReported(x: Lexeme, at: nat, rest: seq<Token>)
    requires !x.Comment? && forall k :: Inside(rest, k) != Some(InComment)
    ensures forall k :: Inside(Report(x, at) + rest, k) != Some(InComment)
  {
    forall k
      ensures Inside(Report(x, at) + rest, k) != Some(InComment)
    {
      InsideFirst(x, at, rest, k);
    }
  }

  // ── where a placeholder may not stand ───────────────────────────────────

  lemma NotAt(s: string, pair: string, k: nat)
    requires |pair| == 2 && (k < |s| ==> s[k] != pair[0])
    ensures !StandsAt(s, pair, k)
  {
    assert k + 2 <= |s| ==> s[k..k + 2][0] == s[k];
  }

  lemma IsAt(s: string, pair: string, k: nat)
    requires |pair| == 2 && k + 2 <= |s| && s[k] == pair[0] && s[k + 1] == pair[1]
    ensures StandsAt(s, pair, k)
  {
    assert s[k..k + 2] == [pair[0], pair[1]] == pair;
  }

  function Braced(front: string, inner: string, back: string): string {
    front + "{{" + inner + "}}" + back
  }

  lemma BracedUnits(front: string, inner: string, back: string)
    ensures var s, n, m := Braced(front, inner, back), |front|, |front| + 2 + |inner|;
            && |s| == m + 2 + |back|
            && (forall i :: 0 <= i < n ==> s[i] == front[i])
            && s[n] == '{' && s[n + 1] == '{' && s[m] == '}' && s[m + 1] == '}'
            && (forall i :: n + 2 <= i < m ==> s[i] == inner[i - n - 2])
            && (forall i :: m + 2 <= i < |s| ==> s[i] == back[i - m - 2])
            && s[n + 2..m] == inner
  {
  }

  lemma FirstBraces(front: string, inner: string, back: string)
    requires '{' !in front && '}' !in inner
    ensures var s := Braced(front, inner, back);
            && Find(s, "{{", 0) == Some(|front|)
            && Find(s, "}}", |front| + 2) == Some(|front| + 2 + |inner|)
            && |s| >= |front| + 2 + |inner| && s[|front| + 2..|front| + 2 + |inner|] == inner
  {
    hide Find, Braced, StandsAt;
    var s := Braced(front, inner, back);
    BracedUnits(front, inner, back);
    IsAt(s, "{{", |front|);
    IsAt(s, "}}", |front| + 2 + |inner|);
    forall k: nat | k < |front|
      ensures !StandsAt(s, "{{", k)
    {
      NotAt(s, "{{", k);
    }
    forall k: nat | |front| + 2 <= k < |front| + 2 + |inner|
      ensures !StandsAt(s, "}}", k)
    {
      NotAt(s, "}}", k);
    }
    FoundThere(s, "{{", 0, |front|);
    FoundThere(s, "}}", |front| + 2, |front| + 2 + |inner|);
  }

  lemma OneLexeme(s: string, x: Lexeme, e: Escaping)
    requires s != "" && First(s, e) == Success(x) && x.Text() == s
    ensures Lex(s, e) == Lexed([x], None) && Tokens(Lex(s, e).lexemes, 0) == Report(x, 0) + []
  {
    hide First, Report;
    assert s + "" == s;
    ThenTheRest(s, "", x, e);
    LexEmpty(e);
    TokensCons([x], 0);
    assert [x][1..] == [];
    assert Tokens([], |x.Text()|) == [];
  }

  /** A placeholder inside a string is refused. */
  lemma NotInAString(front: string, inner: string, back: string, e: Escaping)
    requires '{' !in front && '}' !in inner && IsPlainIn(Braced(front, inner, back), '\'', e)
    ensures FindPlaceholders("'" + Braced(front, inner, back) + "'", e) == Failure(InLiteral(inner))
  {
    hide Find, First, Lex, Tokens, Inside, Report;
    var middle := Braced(front, inner, back);
    var body := "'" + middle + "'";
    assert body == ['\''] + middle + ['\''] + "";
    AQuoteClosesAtTheNext(middle, '\'', "", e);
    OneLexeme(body, Quoted(body), e);
    assert body == Braced("'" + front, inner, back + "'");
    FirstBraces("'" + front, inner, back + "'");
    InsideFirst(Quoted(body), 0, [], |front| + 1);
  }

  /** One inside a comment is not a placeholder at all. */
  lemma NotInAComment(front: string, inner: string, back: string, e: Escaping)
    requires '{' !in front && '}' !in inner && '{' !in back && '\n' !in Braced(front, inner, back)
    ensures FindPlaceholders("--" + Braced(front, inner, back), e) == Success([])
  {
    hide Find, First, Lex, Tokens, Inside, Report;
    var middle := Braced(front, inner, back);
    var body := "--" + middle;
    ALineComment(middle, "", e);
    OneLexeme(body, Comment(body), e);
    assert body == Braced("--" + front, inner, back);
    FirstBraces("--" + front, inner, back);
    InsideFirst(Comment(body), 0, [], |front| + 2);
    NoMoreBraces("--" + front, inner, back);
    var tokens, end := Tokens(Lex(body, e).lexemes, 0), |front| + 4 + |inner| + 2;
    assert FindAll(body, tokens, end, []) == Success([]);
    assert FindAll(body, tokens, 0, []) == FindAll(body, tokens, end, []);
  }

  lemma NoMoreBraces(front: string, inner: string, back: string)
    requires '{' !in back
    ensures Find(Braced(front, inner, back), "{{", |front| + 2 + |inner| + 2).None?
  {
    hide Find, Braced, StandsAt;
    var s := Braced(front, inner, back);
    BracedUnits(front, inner, back);
    forall k: nat | |front| + 2 + |inner| + 2 <= k
      ensures !StandsAt(s, "{{", k)
    {
      NotAt(s, "{{", k);
    }
    assert Find(s, "{{", |front| + 2 + |inner| + 2).None?;
  }

  /** Opening braces that never close are refused. */
  lemma BracesMustClose(body: string, e: Escaping, k: nat)
    requires Lex(body, e).error.None? && StandsAt(body, "{{", k)
    requires forall j: nat :: !StandsAt(body, "}}", j)
    ensures FindPlaceholders(body, e) == Failure(NoEnd)
  {
    hide Find, Lex, Tokens;
    assert Find(body, "{{", 0).Some?;
    assert Find(body, "}}", Find(body, "{{", 0).value + 2).None?;
  }

  /** What a refused binding names: a name given that is not asked for, or one asked for that was not given. */
  lemma ARefusalNamesTheName(body: string, values: Values, d: Dialect)
    requires FindPlaceholders(body, d.escaping).Success? && BindAll(body, values, d).Failure?
    ensures var found := FindPlaceholders(body, d.escaping).value;
            var given, asked := set i | 0 <= i < |values| :: values[i].0,
                                set i | 0 <= i < |found| :: found[i].placeholder.name;
            match BindAll(body, values, d).error
            case Unwanted(name) => name in given && name !in asked
            case Missing(name) => name in asked && name !in given && given <= asked
            case _ => false
  {
    hide FindPlaceholders, Bound, Held, ValueOf;
    var found := FindPlaceholders(body, d.escaping).value;
    WhichIsUnwanted(values, found);
    WhichIsMissing(found, values);
  }

  lemma {:induction false} WhichIsUnwanted(values: Values, found: seq<Found>)
    ensures FirstUnwanted(values, found).Some? ==>
              && (exists i :: 0 <= i < |values| && values[i].0 == FirstUnwanted(values, found).value)
              && Held(found, FirstUnwanted(values, found).value).None?
  {
    hide Held;
    if values != [] && Held(found, values[0].0).Some? {
      WhichIsUnwanted(values[1..], found);
      if FirstUnwanted(values, found).Some? {
        var i :| 0 <= i < |values[1..]| && values[1..][i].0 == FirstUnwanted(values, found).value;
        assert values[i + 1] == values[1..][i];
      }
    }
  }

  lemma {:induction false} WhichIsMissing(found: seq<Found>, values: Values)
    ensures FirstMissing(found, values).Some? ==>
              && (exists i :: 0 <= i < |found| && found[i].placeholder.name == FirstMissing(found, values).value)
              && ValueOf(values, FirstMissing(found, values).value).None?
  {
    hide ValueOf;
    if found != [] && ValueOf(values, found[0].placeholder.name).Some? {
      WhichIsMissing(found[1..], values);
      if FirstMissing(found, values).Some? {
        var i :| 0 <= i < |found[1..]| && found[1..][i].placeholder.name == FirstMissing(found, values).value;
        assert found[i + 1] == found[1..][i];
      }
    }
  }
}
