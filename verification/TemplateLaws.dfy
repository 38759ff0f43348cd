/**
 Binding preserves the structure of a statement.

 Between them, the placeholders of a body are lexemes of their own, so filling
 them in with quoted text changes those lexemes and no others, except that two
 quoted texts meeting with the same quote become one. Nothing a value says can
 therefore end the statement, start another, or add a bare word to it.
 */
module TemplateLaws {
  import opened Wrappers
  import opened Lexer
  import opened LexerLaws
  import opened Statements
  import opened StatementLaws
  import opened Quoting
  import opened Template

  // ── where placeholders stand ────────────────────────────────────────────

  /** What a placeholder is written with. */
  predicate IsPlain(c: char) { IsWordUnit(c) || c == '{' || c == '}' || c == ':' }

  predicate AllCode(l: seq<Lexeme>) {
    l == [] || ((l[0].Word? || l[0].Code?) && AllCode(l[1..]))
  }

  /** The placeholders of `found` lie between cuts, and are code. */
  predicate Placed(body: string, e: Escaping, at: nat, found: seq<Found>)
    decreases |found|
  {
    && at <= |body| && Cut(body, at, e)
    && (found != [] ==>
          && at <= found[0].start < found[0].end <= |body|
          && Cut(body, found[0].start, e)
          && AllCode(Lex(body[found[0].start..found[0].end], e).lexemes)
          && Lex(body[found[0].start..found[0].end], e).lexemes != []
          && Placed(body, e, found[0].end, found[1..]))
  }

  /** A unit of no word, and stepped over by nothing, is a lexeme of its own. */
  lemma {:induction false} OutsideIsCut(s: string, e: Escaping, at: nat, k: nat)
    requires k < |s| && !IsWordUnit(s[k]) && Lex(s, e).error == None
    requires Inside(Tokens(Lex(s, e).lexemes, at), at + k).None?
    ensures Cut(s, k, e)
    decreases |s|
  {
    hide First, Lex, Width, Report, Lexeme.Text, Inside, Tokens;
    if First(s, e).Failure? { LexStuck(s, e); }
    LexCons(s, e);
    WidthIs(s, e);
    TextIs(s, e);
    var w, x := Width(s, e), First(s, e).value;
    var rest := Tokens(Lex(s[w..], e).lexemes, at + w);
    assert Lex(s, e).lexemes[1..] == Lex(s[w..], e).lexemes;
    TokensCons(Lex(s, e).lexemes, at);
    InsideFirst(x, at, rest, at + k);
    if k < w {
      assert x.Text()[k] == s[k];
      ShortOrSkipped(s, e, k);
      CutZero(s, e);
    } else {
      OutsideIsCut(s[w..], e, at + w, k - w);
    }
  }

  lemma CutZero(s: string, e: Escaping)
    ensures Cut(s, 0, e)
  {
  }

  lemma TokensCons(l: seq<Lexeme>, at: nat)
    requires l != []
    ensures Tokens(l, at) == Report(l[0], at) + Tokens(l[1..], at + |l[0].Text()|)
  {
  }

  lemma InsideFirst(x: Lexeme, at: nat, rest: seq<Token>, k: nat)
    ensures Inside(Report(x, at) + rest, k) ==
            if at <= k < at + |x.Text()| && x.Quoted? then Some(InQuotes)
            else if at <= k < at + |x.Text()| && x.Comment? then Some(InComment)
            else Inside(rest, k)
  {
    var r := Report(x, at) + rest;
    if Report(x, at) == [] {
      assert r == rest;
    } else if x.Quoted? {
      assert r[1..] == [r[1]] + rest;
      assert r[1..][1..] == rest;
      assert Inside(r, k) == Inside(r[1..], k);
    } else {
      assert r[1..] == rest;
    }
  }

  lemma ShortOrSkipped(s: string, e: Escaping, k: nat)
    requires s != "" && First(s, e).Success? && k < Width(s, e) && !IsWordUnit(s[k])
    ensures var x := First(s, e).value; x.Quoted? || x.Comment? || k == 0
  {
    hide Find, DollarTag, Close, LineEnd;
    var x := First(s, e).value;
    assert x.Word? ==> k < WordLength(s);
  }

  /** A run of such units is read as code, unit by unit and word by word. */
  lemma {:induction false} PlainIsCode(s: string, n: nat, e: Escaping)
    requires n <= |s| && forall i :: 0 <= i < n ==> IsPlain(s[i])
    requires n > 0 ==> !IsWordUnit(s[n - 1])
    ensures Cut(s, n, e) && AllCode(Lex(s[..n], e).lexemes)
    ensures n > 0 ==> Lex(s[..n], e).lexemes != []
    decreases |s|
  {
    hide First, Lex, Width;
    if n == 0 {
      assert s[..0] == "";
      LexEmpty(e);
    } else {
      PlainFirst(s, n, e);
      WidthIs(s, e);
      var w := Width(s, e);
      PlainIsCode(s[w..], n - w, e);
      assert s == s[..n] + s[n..];
      FirstPrefix(s[..n], s[n..], e);
      WidthIs(s[..n], e);
      LexCons(s[..n], e);
      assert s[..n][w..] == s[w..][..n - w];
    }
  }

  lemma PlainFirst(s: string, n: nat, e: Escaping)
    requires 0 < n <= |s| && forall i :: 0 <= i < n ==> IsPlain(s[i])
    requires !IsWordUnit(s[n - 1])
    ensures First(s, e).Success? && Width(s, e) <= n
    ensures var x := First(s, e).value; x.Word? || x.Code?
  {
    hide Find, DollarTag, Close, LineEnd;
    if IsWordStart(s[0]) {
      assert WordLength(s) <= n - 1;
    }
  }

  lemma PlainPlaceholder(inner: string)
    requires ReadPlaceholder(inner).Success?
    ensures forall i :: 0 <= i < |inner| ==> IsPlain(inner[i])
  {
    hide Find;
    var colon := Find(inner, ":", 0);
    if colon.Some? {
      var at := colon.value;
      var prefix, name := inner[..at], inner[at + 1..];
      assert inner[at..at + 1] == ":";
      assert forall i :: 0 <= i < at ==> inner[i] == prefix[i];
      assert inner[at] == inner[at..at + 1][0];
      assert forall i :: at < i < |inner| ==> inner[i] == name[i - at - 1];
    }
  }

  lemma BracedIsPlain(body: string, start: nat, close: nat, inner: string)
    requires start + 2 <= close && close + 2 <= |body|
    requires body[start..start + 2] == "{{" && body[close..close + 2] == "}}" && body[start + 2..close] == inner
    requires forall i :: 0 <= i < |inner| ==> IsPlain(inner[i])
    ensures forall i :: 0 <= i < close + 2 - start ==> IsPlain(body[start..][i])
    ensures body[start] == '{'
  {
    assert body[start..start + 2][0] == body[start] && body[start..start + 2][1] == body[start + 1];
    assert body[close..close + 2][0] == body[close] && body[close..close + 2][1] == body[close + 1];
    forall i | 0 <= i < close + 2 - start
      ensures IsPlain(body[start..][i])
    {
      if 2 <= i < close - start {
        assert body[start..][i] == inner[i - 2];
      }
    }
  }

  lemma FoundOne(body: string, e: Escaping, start: nat, close: nat)
    requires Lex(body, e).error == None && start + 2 <= close && close + 2 <= |body|
    requires StandsAt(body, "{{", start) && StandsAt(body, "}}", close)
    requires Inside(Tokens(Lex(body, e).lexemes, 0), start).None?
    requires ReadPlaceholder(body[start + 2..close]).Success?
    ensures Cut(body, start, e) && Cut(body, close + 2, e)
    ensures AllCode(Lex(body[start..close + 2], e).lexemes) && Lex(body[start..close + 2], e).lexemes != []
  {
    hide First, Lex, Width, Inside, Tokens, ReadPlaceholder, Cut, AllCode, Find;
    var inner, s, n := body[start + 2..close], body[start..], close + 2 - start;
    OutsideIsCut(body, e, 0, start);
    PlainPlaceholder(inner);
    BracedIsPlain(body, start, close, inner);
    PlainIsCode(s, n, e);
    assert s[..n] == body[start..close + 2];
    CutThenCut(body, start, n, e);
  }

  lemma {:induction false} FoundArePlaced(body: string, e: Escaping, at: nat, i: nat, held: seq<Found>)
    requires Lex(body, e).error == None && at <= i && at <= |body| && Cut(body, at, e)
    ensures var r := FindAll(body, Tokens(Lex(body, e).lexemes, 0), i, held);
            r.Success? ==> Placed(body, e, at, r.value)
    decreases |body| - i
  {
    hide Lex, Find, Inside, Tokens, ReadPlaceholder, Held, Cut, AllCode;
    var tokens := Tokens(Lex(body, e).lexemes, 0);
    var start := Find(body, "{{", i);
    if start.Some? {
      var close := Find(body, "}}", start.value + 2);
      if close.Some? {
        var end := close.value + 2;
        FoundArePlaced(body, e, at, end, held);
        var p := ReadPlaceholder(body[start.value + 2..close.value]);
        if p.Success? && Inside(tokens, start.value).None? {
          FoundOne(body, e, start.value, close.value);
          FoundArePlaced(body, e, end, end, held + [Found(p.value, start.value, end)]);
        }
      }
    }
  }

  // ── the two streams ─────────────────────────────────────────────────────

  /** The lexemes of the body from `at` on, in pieces. */
  function Original(body: string, e: Escaping, at: nat, found: seq<Found>): seq<Lexeme>
    requires Placed(body, e, at, found)
    decreases |found|
  {
    if found == [] then Lex(body[at..], e).lexemes
    else
      Lex(body[at..found[0].start], e).lexemes
      + (Lex(body[found[0].start..found[0].end], e).lexemes + Original(body, e, found[0].end, found[1..]))
  }

  /** The same pieces, with one quoted lexeme for each placeholder. */
  function Substituted(body: string, at: nat, found: seq<Found>, values: Values, d: Dialect): seq<Lexeme>
    requires Placed(body, d.escaping, at, found)
    decreases |found|
  {
    if found == [] then Lex(body[at..], d.escaping).lexemes
    else
      Lex(body[at..found[0].start], d.escaping).lexemes
      + ([Quoted(Filled(found[0].placeholder, values, d))]
         + Substituted(body, found[0].end, found[1..], values, d))
  }

  lemma {:induction false} OriginalIsLex(body: string, e: Escaping, at: nat, found: seq<Found>)
    requires Lex(body, e).error == None && Placed(body, e, at, found)
    ensures Original(body, e, at, found) == Lex(body[at..], e).lexemes
    decreases |found|
  {
    hide Lex, Cut, AllCode;
    if found != [] {
      var (st, en) := (found[0].start, found[0].end);
      PlacedNext(body, e, at, found);
      OriginalIsLex(body, e, en, found[1..]);
      CutAfterCut(body, at, st, e);
      CutAfterCut(body, st, en, e);
      CutSplits(body[at..], st - at, e);
      CutSplits(body[st..], en - st, e);
      DropDrop(body, at, st - at);
      DropDrop(body, st, en - st);
      assert body[at..][..st - at] == body[at..st];
      assert body[st..][..en - st] == body[st..en];
    }
  }

  lemma PlacedNext(body: string, e: Escaping, at: nat, found: seq<Found>)
    requires Placed(body, e, at, found) && found != []
    ensures Placed(body, e, found[0].end, found[1..]) && Cut(body, found[0].end, e)
  {
  }

  lemma FilledStandsAlone(p: Placeholder, values: Values, d: Dialect)
    requires Matching(d.style, d.escaping)
    ensures StandsAlone(Filled(p, values, d), d.escaping)
  {
    hide StandsAlone, QuoteLiteral, QuoteIdent, Matching;
    var value := if ValueOf(values, p.name).Some? then ValueOf(values, p.name).value else "";
    if p.use == AsValue {
      LiteralRoundTrip(value, d.escaping);
    } else {
      IdentRoundTrip(value, d.style, d.escaping);
    }
  }

  lemma {:induction false} BoundScans(body: string, at: nat, found: seq<Found>, values: Values, d: Dialect)
    requires Matching(d.style, d.escaping)
    requires Lex(body, d.escaping).error == None && Placed(body, d.escaping, at, found)
    ensures Lex(Bound(body, at, found, values, d), d.escaping)
            == Lexed(Merged(Substituted(body, at, found, values, d)), None)
    decreases |found|
  {
    hide Lex, Cut, First, AllCode, Filled;
    var e := d.escaping;
    if found == [] {
      CutSplits(body, at, e);
      LexMerged(body[at..], e);
    } else {
      var f := found[0];
      PlacedNext(body, e, at, found);
      BoundScans(body, f.end, found[1..], values, d);
      var q, rest := Filled(f.placeholder, values, d), Bound(body, f.end, found[1..], values, d);
      FilledStandsAlone(f.placeholder, values, d);
      QuotedThen(q, rest, e);
      var z := Substituted(body, f.end, found[1..], values, d);
      JoinPlaceholder(body, at, f.start, q + rest, e);
      OntoOnto(Lex(body[at..f.start], e).lexemes, [Quoted(q)] + z, []);
      OntoOne(Quoted(q), z);
    }
  }

  lemma OntoOne(x: Lexeme, z: seq<Lexeme>)
    ensures Onto([x] + z, []) == Before(x, Onto(z, []))
  {
    assert ([x] + z)[1..] == z;
  }

  lemma JoinPlaceholder(body: string, at: nat, start: nat, u: string, e: Escaping)
    requires at <= start < |body| && Cut(body, at, e) && Cut(body, start, e)
    requires u != "" && IsQuote(u[0]) && Lex(u, e).error == None
    ensures Lex(body[at..start] + u, e) == Lexed(Onto(Lex(body[at..start], e).lexemes, Lex(u, e).lexemes), None)
  {
    hide Lex, Cut, First;
    CutAfterCut(body, at, start, e);
    assert body[at..] == body[at..start] + body[start..];
    Join(body[at..start], body[start..], u, e);
  }

  // ── what merging leaves alone ───────────────────────────────────────────

  lemma {:induction false} MergedWords(l: seq<Lexeme>)
    ensures Words(Merged(l)) == Words(l)
    decreases |l|
  {
    if l != [] {
      MergedWords(l[1..]);
      var z := Onto(l[1..], []);
      if z != [] && SameRegion(l[0], z[0]) {
        assert Before(l[0], z)[1..] == z[1..];
      } else {
        assert Before(l[0], z)[1..] == z;
      }
    }
  }

  lemma {:induction false} MergedCount(l: seq<Lexeme>, code: bool)
    ensures Count(Merged(l), code) == Count(l, code)
    decreases |l|
  {
    if l != [] {
      var x, z := l[0], Onto(l[1..], []);
      if x.Semicolon? {
        MergedCount(l[1..], false);
        assert Before(x, z)[1..] == z;
      } else {
        MergedCount(l[1..], code || x.IsCode());
        if z != [] && SameRegion(x, z[0]) {
          assert Before(x, z)[1..] == z[1..];
        } else {
          assert Before(x, z)[1..] == z;
        }
      }
    }
  }

  /** What is counted after `l`, when all that matters of it is where it leaves the open statement. */
  lemma {:induction false} CountAfter(l: seq<Lexeme>, a: seq<Lexeme>, b: seq<Lexeme>, code: bool)
    requires forall c :: Count(a, c) == Count(b, c)
    ensures Count(l + a, code) == Count(l + b, code)
  {
    hide Lexeme.IsCode;
    if l == [] {
      assert l + a == a && l + b == b;
    } else {
      assert (l + a)[1..] == l[1..] + a && (l + b)[1..] == l[1..] + b;
      CountAfter(l[1..], a, b, false);
      CountAfter(l[1..], a, b, code || l[0].IsCode());
    }
  }

  lemma {:induction false} CountThrough(l: seq<Lexeme>, z: seq<Lexeme>, code: bool)
    requires AllCode(l)
    ensures Count(l + z, code) == Count(z, code || l != [])
  {
    if l == [] {
      assert l + z == z;
    } else {
      assert (l + z)[1..] == l[1..] + z;
      CountThrough(l[1..], z, true);
    }
  }

  lemma {:induction false} SameCount(body: string, at: nat, found: seq<Found>, values: Values, d: Dialect, code: bool)
    requires Placed(body, d.escaping, at, found)
    ensures Count(Substituted(body, at, found, values, d), code) == Count(Original(body, d.escaping, at, found), code)
    decreases |found|
  {
    hide Lex, Cut, AllCode, Filled, Count;
    if found != [] {
      var e, f := d.escaping, found[0];
      PlacedNext(body, e, at, found);
      var z, z' := Substituted(body, f.end, found[1..], values, d), Original(body, e, f.end, found[1..]);
      var q, p := [Quoted(Filled(f.placeholder, values, d))], Lex(body[f.start..f.end], e).lexemes;
      forall c ensures Count(q + z, c) == Count(p + z', c) {
        CountQuoted(q[0], z, c);
        CountThrough(p, z', c);
        SameCount(body, f.end, found[1..], values, d, true);
      }
      CountAfter(Lex(body[at..f.start], e).lexemes, q + z, p + z', code);
    }
  }

  lemma CountQuoted(x: Lexeme, z: seq<Lexeme>, code: bool)
    requires x.Quoted?
    ensures Count([x] + z, code) == Count(z, true)
  {
    assert ([x] + z)[1..] == z;
  }

  /** The bare words of the body outside its placeholders. */
  function WordsOutside(body: string, e: Escaping, at: nat, found: seq<Found>): seq<string>
    requires Placed(body, e, at, found)
    decreases |found|
  {
    if found == [] then Words(Lex(body[at..], e).lexemes)
    else Words(Lex(body[at..found[0].start], e).lexemes) + WordsOutside(body, e, found[0].end, found[1..])
  }

  lemma {:induction false} SubstitutedWords(body: string, at: nat, found: seq<Found>, values: Values, d: Dialect)
    requires Placed(body, d.escaping, at, found)
    ensures Words(Substituted(body, at, found, values, d)) == WordsOutside(body, d.escaping, at, found)
    decreases |found|
  {
    hide Lex, Cut, AllCode, Filled, Words;
    if found != [] {
      var f := found[0];
      PlacedNext(body, d.escaping, at, found);
      var q, z := Quoted(Filled(f.placeholder, values, d)), Substituted(body, f.end, found[1..], values, d);
      SubstitutedWords(body, f.end, found[1..], values, d);
      Appended(Lex(body[at..f.start], d.escaping).lexemes, [q] + z);
      Appended([q], z);
      One(q);
    }
  }

  // ── the laws ────────────────────────────────────────────────────────────

  lemma BodyIsPlaced(body: string, e: Escaping)
    requires FindPlaceholders(body, e).Success?
    ensures Lex(body, e).error == None && Placed(body, e, 0, FindPlaceholders(body, e).value)
  {
    hide Lex, Tokens, FindAll, Placed;
    CutZero(body, e);
    FoundArePlaced(body, e, 0, 0, []);
  }

  /**
   The bound text scans. Its lexemes are the body's, with each placeholder one
   quoted lexeme, and neighbours quoted alike merged; it is as many statements
   as the body.
   */
  lemma BindingPreservesStructure(body: string, values: Values, d: Dialect)
    requires Matching(d.style, d.escaping) && BindAll(body, values, d).Success?
    ensures var found := FindPlaceholders(body, d.escaping).value;
            var text := BindAll(body, values, d).value;
            && Placed(body, d.escaping, 0, found)
            && Lex(body, d.escaping) == Lexed(Original(body, d.escaping, 0, found), None)
            && Lex(text, d.escaping) == Lexed(Merged(Substituted(body, 0, found, values, d)), None)
            && |Spans(Lex(text, d.escaping).lexemes, 0, 0, false)|
               == |Spans(Lex(body, d.escaping).lexemes, 0, 0, false)|
  {
    hide Lex, Spans, Placed, FindPlaceholders, Original, Substituted, Bound, Matching;
    var e := d.escaping;
    var found := FindPlaceholders(body, e).value;
    BodyIsPlaced(body, e);
    OriginalIsLex(body, e, 0, found);
    assert body[0..] == body;
    BoundScans(body, 0, found, values, d);
    var l := Substituted(body, 0, found, values, d);
    CountIsSpans(Merged(l), 0, 0, false);
    MergedCount(l, false);
    SameCount(body, 0, found, values, d, false);
    CountIsSpans(Lex(body, e).lexemes, 0, 0, false);
  }

  /** The bare words of the bound text are the body's outside its placeholders, whatever the values. */
  lemma ValuesAddNoWords(body: string, values: Values, d: Dialect)
    requires Matching(d.style, d.escaping) && BindAll(body, values, d).Success?
    ensures var found := FindPlaceholders(body, d.escaping).value;
            && Placed(body, d.escaping, 0, found)
            && Words(Lex(BindAll(body, values, d).value, d.escaping).lexemes)
               == WordsOutside(body, d.escaping, 0, found)
  {
    hide Lex, Spans, Placed, FindPlaceholders, Substituted, WordsOutside, Words, Merged, Original, Matching;
    BindingPreservesStructure(body, values, d);
    var l := Substituted(body, 0, FindPlaceholders(body, d.escaping).value, values, d);
    MergedWords(l);
    SubstitutedWords(body, 0, FindPlaceholders(body, d.escaping).value, values, d);
  }

  /** No choice of values changes whether a body is one statement, or whether that statement writes. */
  lemma ValuesCannotChangeTheKind(body: string, a: Values, b: Values, d: Dialect)
    requires Matching(d.style, d.escaping)
    requires BindAll(body, a, d).Success? && BindAll(body, b, d).Success?
    ensures var (x, y) := (Validate(BindAll(body, a, d).value, d.escaping),
                           Validate(BindAll(body, b, d).value, d.escaping));
            && (x.Success? <==> y.Success?)
            && (x.Failure? ==> x.error == y.error)
            && (x.Success? ==>
                  KindOf(Words(Lex(x.value.text, d.escaping).lexemes))
                  == KindOf(Words(Lex(y.value.text, d.escaping).lexemes)))
  {
    hide *;
    var s, t := BindAll(body, a, d).value, BindAll(body, b, d).value;
    BindingPreservesStructure(body, a, d);
    BindingPreservesStructure(body, b, d);
    ValuesAddNoWords(body, a, d);
    ValuesAddNoWords(body, b, d);
    ValidatedByCount(s, d.escaping);
    ValidatedByCount(t, d.escaping);
    if Validate(s, d.escaping).Success? {
      KindIsOfTheSource(s, d.escaping);
      KindIsOfTheSource(t, d.escaping);
    }
  }

  /** A body binds exactly when it can be read and the names given are the names it asks for. */
  lemma BindsExactlyWhatIsAsked(body: string, values: Values, d: Dialect)
    ensures BindAll(body, values, d).Success? <==>
              && FindPlaceholders(body, d.escaping).Success?
              && var found := FindPlaceholders(body, d.escaping).value;
                 (set i | 0 <= i < |values| :: values[i].0) == (set i | 0 <= i < |found| :: found[i].placeholder.name)
  {
    hide FindPlaceholders, Bound, Held, ValueOf;
    if FindPlaceholders(body, d.escaping).Success? {
      var found := FindPlaceholders(body, d.escaping).value;
      var given, asked := set i | 0 <= i < |values| :: values[i].0,
          set i | 0 <= i < |found| :: found[i].placeholder.name;
      assert given <= asked <==> FirstUnwanted(values, found).None? by {
        assert forall i :: 0 <= i < |values| ==> (Held(found, values[i].0).Some? <==> values[i].0 in asked);
      }
      assert asked <= given <==> FirstMissing(found, values).None? by {
        assert forall i :: 0 <= i < |found| ==>
            (ValueOf(values, found[i].placeholder.name).Some? <==> found[i].placeholder.name in given);
      }
    }
  }
}
