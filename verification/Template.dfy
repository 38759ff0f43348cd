/**
 Templates: `parse`, `placeholders` and `BoundTemplate::bind` of
 crates/sqlake-core/src/template.rs.
 */
module Template {
  import opened Wrappers
  import opened Lexer
  import opened Quoting

  datatype Dialect = Dialect(style: QuoteStyle, escaping: Escaping)

  datatype Use = AsValue | AsIdent

  datatype Placeholder = Placeholder(name: string, use: Use)

  /** A placeholder and the range it occupies in the body. */
  datatype Found = Found(placeholder: Placeholder, start: nat, end: nat)

  datatype TemplateError =
    | Body(what: Unclosed)
    | NoEnd
    | Nameless(found: string)
    | BadName(name: string)
    | UnknownUse(prefix: string)
    | InLiteral(name: string)
    | TwoUses(name: string)
    | Missing(name: string)
    | Unwanted(name: string)

  /** What somebody typed for each name, in the order of the names. */
  type Values = seq<(string, string)>

  // ── placeholders ────────────────────────────────────────────────────────

  function UseNamed(prefix: string): Option<Use> {
    if prefix == "ident" then Some(AsIdent)
    else if prefix == "value" then Some(AsValue)
    else None
  }

  predicate IsName(s: string) {
    forall i :: 0 <= i < |s| ==> IsWordUnit(s[i])
  }

  function ReadPlaceholder(inner: string): Result<Placeholder, TemplateError> {
    var colon := Find(inner, ":", 0);
    var prefix := if colon.Some? then inner[..colon.value] else "value";
    var name := if colon.Some? then inner[colon.value + 1..] else inner;
    if UseNamed(prefix).None? then Failure(UnknownUse(prefix))
    else if name == "" then Failure(Nameless(inner))
    else if !IsName(name) then Failure(BadName(name))
    else Success(Placeholder(name, UseNamed(prefix).value))
  }

  /** What was stepped over where `at` stands. */
  function Inside(tokens: seq<Token>, at: nat): Option<Skipped> {
    if tokens == [] then None
    else if tokens[0].Stepped? && tokens[0].start <= at < tokens[0].end then Some(tokens[0].what)
    else Inside(tokens[1..], at)
  }

  /** The first placeholder found under `name`. */
  function Held(found: seq<Found>, name: string): (r: Option<Placeholder>)
    ensures r.Some? ==> r.value.name == name
    ensures r.Some? <==> exists i :: 0 <= i < |found| && found[i].placeholder.name == name
  {
    if found == [] then None
    else if found[0].placeholder.name == name then Some(found[0].placeholder)
    else Held(found[1..], name)
  }

  /** The placeholders at or after `i`, when those `held` have been found before. */
  function FindAll(body: string, tokens: seq<Token>, i: nat, held: seq<Found>): Result<seq<Found>, TemplateError>
    decreases |body| - i
  {
    match Find(body, "{{", i)
    case None => Success([])
    case Some(start) =>
      match Find(body, "}}", start + 2)
      case None => Failure(NoEnd)
      case Some(close) =>
        var inner := body[start + 2..close];
        match Inside(tokens, start)
        case Some(InComment) => FindAll(body, tokens, close + 2, held)
        case Some(InQuotes) => Failure(InLiteral(inner))
        case None =>
          match ReadPlaceholder(inner)
          case Failure(why) => Failure(why)
          case Success(p) =>
            var before := Held(held, p.name);
            if before.Some? && before.value.use != p.use then Failure(TwoUses(p.name))
            else
              var one := Found(p, start, close + 2);
              match FindAll(body, tokens, close + 2, held + [one])
              case Failure(why) => Failure(why)
              case Success(rest) => Success([one] + rest)
  }

  /** The specification of `parse`. */
  function FindPlaceholders(body: string, e: Escaping): Result<seq<Found>, TemplateError> {
    var lexed := Lex(body, e);
    if lexed.error.Some? then Failure(Body(lexed.error.value))
    else FindAll(body, Tokens(lexed.lexemes, 0), 0, [])
  }

  lemma InsideStep(tokens: seq<Token>, skipped: seq<Token>, i: nat)
    requires i < |tokens|
    requires forall at :: Inside(tokens, at) == Inside(skipped + tokens[i..], at)
    requires !tokens[i].Stepped?
    ensures forall at :: Inside(tokens, at) == Inside(skipped + tokens[i + 1..], at)
  {
    forall at ensures Inside(tokens, at) == Inside(skipped + tokens[i + 1..], at) {
      assert tokens[i..][1..] == tokens[i + 1..];
      InsideDrop(skipped, tokens[i..], at);
    }
  }

  lemma {:induction false} InsideDrop(front: seq<Token>, back: seq<Token>, at: nat)
    requires back != [] && !back[0].Stepped?
    ensures Inside(front + back, at) == Inside(front + back[1..], at)
  {
    if front == [] {
      assert front + back == back && front + back[1..] == back[1..];
    } else {
      assert (front + back)[1..] == front[1..] + back;
      assert (front + back[1..])[1..] == front[1..] + back[1..];
      InsideDrop(front[1..], back, at);
    }
  }

  method SkippedOf(tokens: seq<Token>) returns (skipped: seq<Token>)
    ensures forall at :: Inside(skipped, at) == Inside(tokens, at)
  {
    skipped := [];
    var i := 0;
    assert [] + tokens[0..] == tokens;
    while i < |tokens|
      invariant i <= |tokens|
      invariant forall at :: Inside(tokens, at) == Inside(skipped + tokens[i..], at)
    {
      if tokens[i].Stepped? {
        assert skipped + tokens[i..] == skipped + [tokens[i]] + tokens[i + 1..];
        skipped := skipped + [tokens[i]];
      } else {
        InsideStep(tokens, skipped, i);
      }
      i := i + 1;
    }
    assert skipped + tokens[i..] == skipped;
  }

  lemma {:induction false} FindAllSame(body: string, a: seq<Token>, b: seq<Token>, i: nat, held: seq<Found>)
    requires forall at :: Inside(a, at) == Inside(b, at)
    ensures FindAll(body, a, i, held) == FindAll(body, b, i, held)
    decreases |body| - i
  {
    hide Inside, Find, ReadPlaceholder;
    var start := Find(body, "{{", i);
    if start.Some? {
      var close := Find(body, "}}", start.value + 2);
      if close.Some? {
        var inner := body[start.value + 2..close.value];
        FindAllSame(body, a, b, close.value + 2, held);
        if ReadPlaceholder(inner).Success? {
          FindAllSame(body, a, b, close.value + 2,
                      held + [Found(ReadPlaceholder(inner).value, start.value, close.value + 2)]);
        }
      }
    }
  }

  function Prepend(found: seq<Found>, r: Result<seq<Found>, TemplateError>): Result<seq<Found>, TemplateError> {
    if r.Success? then Success(found + r.value) else r
  }

  /** Every placeholder that will be substituted, with the range it occupies. */
  method Parse(body: string, e: Escaping) returns (r: Result<seq<Found>, TemplateError>)
    ensures r == FindPlaceholders(body, e)
  {
    hide Lex, Find, Inside, Tokens, ReadPlaceholder, Held;
    var tokens, error := Scan(body, e);
    if error.Some? {
      return Failure(Body(error.value));
    }
    var skipped := SkippedOf(tokens);
    assert tokens == Tokens(Lex(body, e).lexemes, 0);
    var found: seq<Found> := [];
    var i := 0;
    FindAllSame(body, tokens, skipped, 0, []);
    PrependNone(FindAll(body, skipped, 0, []));
    while true
      invariant FindPlaceholders(body, e) == Prepend(found, FindAll(body, skipped, i, found))
      decreases |body| - i
    {
      var start := Find(body, "{{", i);
      if start.None? {
        assert found + [] == found;
        return Success(found);
      }
      var close := Find(body, "}}", start.value + 2);
      if close.None? {
        return Failure(NoEnd);
      }
      var inner := body[start.value + 2..close.value];
      var end := close.value + 2;
      var where := Inside(skipped, start.value);
      if where == Some(InComment) {
        i := end;
        continue;
      }
      if where == Some(InQuotes) {
        return Failure(InLiteral(inner));
      }
      var p := ReadPlaceholder(inner);
      if p.Failure? {
        return Failure(p.error);
      }
      var before := Held(found, p.value.name);
      if before.Some? && before.value.use != p.value.use {
        return Failure(TwoUses(p.value.name));
      }
      var one := Found(p.value, start.value, end);
      PrependOne(found, one, FindAll(body, skipped, end, found + [one]));
      found := found + [one];
      i := end;
    }
  }

  lemma PrependNone(r: Result<seq<Found>, TemplateError>)
    ensures Prepend([], r) == r
  {
    if r.Success? { assert [] + r.value == r.value; }
  }

  lemma PrependOne(found: seq<Found>, one: Found, r: Result<seq<Found>, TemplateError>)
    ensures Prepend(found, match r case Failure(why) => Failure(why) case Success(rest) => Success([one] + rest))
            == Prepend(found + [one], r)
  {
    if r.Success? { Regroup(found, [one], r.value); }
  }

  // ── binding ─────────────────────────────────────────────────────────────

  function ValueOf(values: Values, name: string): (r: Option<string>)
    ensures r.Some? <==> exists i :: 0 <= i < |values| && values[i].0 == name
  {
    if values == [] then None
    else if values[0].0 == name then Some(values[0].1)
    else ValueOf(values[1..], name)
  }

  function FirstUnwanted(values: Values, found: seq<Found>): (r: Option<string>)
    ensures r.None? <==> forall i :: 0 <= i < |values| ==> Held(found, values[i].0).Some?
  {
    if values == [] then None
    else if Held(found, values[0].0).None? then Some(values[0].0)
    else FirstUnwanted(values[1..], found)
  }

  function FirstMissing(found: seq<Found>, values: Values): (r: Option<string>)
    ensures r.None? <==> forall i :: 0 <= i < |found| ==> ValueOf(values, found[i].placeholder.name).Some?
  {
    if found == [] then None
    else if ValueOf(values, found[0].placeholder.name).None? then Some(found[0].placeholder.name)
    else FirstMissing(found[1..], values)
  }

  function Quote(p: Placeholder, value: string, d: Dialect): (r: string)
    ensures r != "" && IsQuote(r[0])
  {
    match p.use
    case AsValue => QuoteLiteral(value, d.escaping)
    case AsIdent => QuoteIdent(value, d.style)
  }

  /** What is put where `p` stood. */
  function Filled(p: Placeholder, values: Values, d: Dialect): (r: string)
    ensures r != "" && IsQuote(r[0])
  {
    Quote(p, if ValueOf(values, p.name).Some? then ValueOf(values, p.name).value else "", d)
  }

  /** The body from `at` on, with the placeholders of `found` filled in. */
  function Bound(body: string, at: nat, found: seq<Found>, values: Values, d: Dialect): string
    decreases |found|
  {
    if found == [] then (if at <= |body| then body[at..] else "")
    else
      var f := found[0];
      (if at <= f.start <= |body| then body[at..f.start] else "")
      + (Filled(f.placeholder, values, d) + Bound(body, f.end, found[1..], values, d))
  }

  /** The specification of `bind`. */
  function BindAll(body: string, values: Values, d: Dialect): Result<string, TemplateError> {
    var found := FindPlaceholders(body, d.escaping);
    if found.Failure? then Failure(found.error)
    else if FirstUnwanted(values, found.value).Some? then Failure(Unwanted(FirstUnwanted(values, found.value).value))
    else if FirstMissing(found.value, values).Some? then Failure(Missing(FirstMissing(found.value, values).value))
    else Success(Bound(body, 0, found.value, values, d))
  }

  /** Ranges in bounds, in order, and apart. */
  predicate Ranges(body: string, at: nat, found: seq<Found>)
    decreases |found|
  {
    if found == [] then at <= |body|
    else at <= found[0].start <= found[0].end <= |body| && Ranges(body, found[0].end, found[1..])
  }

  lemma {:induction false} FoundRanges(body: string, tokens: seq<Token>, at: nat, i: nat, held: seq<Found>)
    requires at <= i && at <= |body|
    ensures FindAll(body, tokens, i, held).Success? ==> Ranges(body, at, FindAll(body, tokens, i, held).value)
    decreases |body| - i
  {
    hide Find, Inside, ReadPlaceholder, Held;
    var start := Find(body, "{{", i);
    if start.Some? {
      var close := Find(body, "}}", start.value + 2);
      if close.Some? {
        var end := close.value + 2;
        FoundRanges(body, tokens, at, end, held);
        var p := ReadPlaceholder(body[start.value + 2..close.value]);
        if p.Success? { FoundRanges(body, tokens, end, end, held + [Found(p.value, start.value, end)]); }
      }
    }
  }

  /** The body with its values in place, each quoted as a value or as a name. */
  method Bind(body: string, values: Values, d: Dialect) returns (r: Result<string, TemplateError>)
    ensures r == BindAll(body, values, d)
  {
    hide FindPlaceholders, Lex, Held, FindAll, Tokens, Quote, Filled, ValueOf;
    var parsed := Parse(body, d.escaping);
    if parsed.Failure? {
      return Failure(parsed.error);
    }
    var found := parsed.value;
    var k := 0;
    assert values[0..] == values;
    while k < |values|
      invariant k <= |values|
      invariant FirstUnwanted(values, found) == FirstUnwanted(values[k..], found)
    {
      assert values[k..][1..] == values[k + 1..];
      if Held(found, values[k].0).None? {
        return Failure(Unwanted(values[k].0));
      }
      k := k + 1;
    }
    assert values[k..] == [];
    RangesOf(body, d.escaping);
    var out := "";
    var at: nat := 0;
    var i := 0;
    assert found[0..] == found;
    assert "" + Bound(body, 0, found, values, d) == Bound(body, 0, found, values, d);
    while i < |found|
      invariant i <= |found|
      invariant Ranges(body, at, found[i..])
      invariant FirstMissing(found, values) == FirstMissing(found[i..], values)
      invariant Bound(body, 0, found, values, d) == out + Bound(body, at, found[i..], values, d)
    {
      var f := found[i];
      assert found[i..][1..] == found[i + 1..];
      var value := ValueOf(values, f.placeholder.name);
      if value.None? {
        return Failure(Missing(f.placeholder.name));
      }
      var quoted := Quote(f.placeholder, value.value, d);
      FilledIs(f.placeholder, values, d);
      Piece(out, body[at..f.start], quoted, Bound(body, f.end, found[i + 1..], values, d));
      out := out + body[at..f.start];
      out := out + quoted;
      at := f.end;
      i := i + 1;
    }
    assert found[i..] == [];
    return Success(out + body[at..]);
  }

  lemma Piece(out: string, plain: string, quoted: string, rest: string)
    ensures out + (plain + (quoted + rest)) == out + plain + quoted + rest
  {
  }

  lemma FilledIs(p: Placeholder, values: Values, d: Dialect)
    requires ValueOf(values, p.name).Some?
    ensures Filled(p, values, d) == Quote(p, ValueOf(values, p.name).value, d)
  {
  }

  lemma RangesOf(body: string, e: Escaping)
    ensures FindPlaceholders(body, e).Success? ==> Ranges(body, 0, FindPlaceholders(body, e).value)
  {
    hide Lex, FindAll, Tokens;
    FoundRanges(body, Tokens(Lex(body, e).lexemes, 0), 0, 0, []);
  }

  /** Somewhere before `k` the name is asked for. */
  predicate AskedBefore(all: seq<Found>, k: int, name: string) {
    exists m :: 0 <= m < k && m < |all| && all[m].placeholder.name == name
  }

  /** Whenever one name of the list is asked for, those before it in the list have been. */
  ghost predicate InOrderOfAsking(found: seq<Placeholder>, all: seq<Found>) {
    forall i, j, k :: 0 <= i < j < |found| && 0 <= k < |all| && all[k].placeholder.name == found[j].name ==>
      AskedBefore(all, k, found[i].name)
  }

  /** Each placeholder held, and none twice. */
  ghost predicate OnceEach(found: seq<Placeholder>, all: seq<Found>) {
    && InOrderOfAsking(found, all)
    && (forall j, k :: 0 <= j < k < |found| ==> found[j].name != found[k].name)
    && forall p :: p in found <==> Held(all, p.name) == Some(p)
  }

  lemma OnceEachNone(all: seq<Found>)
    ensures OnceEach([], all[..0])
  {
  }

  lemma OnceEachIs(found: seq<Placeholder>, all: seq<Found>)
    requires OnceEach(found, all)
    ensures forall j, k :: 0 <= j < k < |found| ==> found[j].name != found[k].name
    ensures forall p :: p in found <==> Held(all, p.name) == Some(p)
    ensures InOrderOfAsking(found, all)
  {
  }

  lemma OnceEachMore(found: seq<Placeholder>, all: seq<Found>, i: nat)
    requires i < |all| && OnceEach(found, all[..i])
    ensures var more := if Held(all[..i], all[i].placeholder.name).None? then found + [all[i].placeholder] else found;
            OnceEach(more, all[..i + 1])
  {
    hide Held, InOrderOfAsking;
    HeldMore(all, i);
    OrderMore(found, all, i);
  }

  lemma StillAsked(all: seq<Found>, i: nat, k: nat, name: string)
    requires i < |all| && AskedBefore(all[..i], k, name)
    ensures AskedBefore(all[..i + 1], k, name)
  {
    var m :| 0 <= m < k && m < |all[..i]| && all[..i][m].placeholder.name == name;
    assert all[..i + 1][m] == all[..i][m];
  }

  lemma HeldWasAsked(all: seq<Found>, i: nat, name: string)
    requires i < |all| && Held(all[..i], name).Some?
    ensures AskedBefore(all[..i + 1], i, name)
  {
    hide Held;
    var m :| 0 <= m < |all[..i]| && all[..i][m].placeholder.name == name;
    assert all[..i + 1][m] == all[..i][m];
  }

  lemma OrderMore(found: seq<Placeholder>, all: seq<Found>, i: nat)
    requires i < |all| && InOrderOfAsking(found, all[..i])
    requires forall p :: p in found <==> Held(all[..i], p.name) == Some(p)
    ensures var more := if Held(all[..i], all[i].placeholder.name).None? then found + [all[i].placeholder] else found;
            InOrderOfAsking(more, all[..i + 1])
  {
    hide Held, AskedBefore;
    var more := if Held(all[..i], all[i].placeholder.name).None? then found + [all[i].placeholder] else found;
    var upTo := all[..i + 1];
    forall a, b, k | 0 <= a < b < |more| && 0 <= k < |upTo| && upTo[k].placeholder.name == more[b].name
      ensures AskedBefore(upTo, k, more[a].name)
    {
      assert more[a] == found[a] && found[a] in found;
      if k == i {
        HeldWasAsked(all, i, found[a].name);
      } else {
        assert upTo[k] == all[..i][k];
        if b == |found| { NoneHeld(all[..i], all[i].placeholder.name); }
        StillAsked(all, i, k, found[a].name);
      }
    }
  }

  lemma NoneHeld(all: seq<Found>, name: string)
    requires Held(all, name).None?
    ensures forall k :: 0 <= k < |all| ==> all[k].placeholder.name != name
  {
  }

  /** What to ask for: each name once, in the order they first appear. */
  method Placeholders(body: string, d: Dialect) returns (r: Result<seq<Placeholder>, TemplateError>)
    ensures r.Failure? <==> FindPlaceholders(body, d.escaping).Failure?
    ensures r.Failure? ==> r.error == FindPlaceholders(body, d.escaping).error
    ensures r.Success? ==>
              && (forall i, j :: 0 <= i < j < |r.value| ==> r.value[i].name != r.value[j].name)
              && InOrderOfAsking(r.value, FindPlaceholders(body, d.escaping).value)
              && forall p :: p in r.value <==> Held(FindPlaceholders(body, d.escaping).value, p.name) == Some(p)
  {
    hide FindPlaceholders, Held, OnceEach, InOrderOfAsking;
    var parsed := Parse(body, d.escaping);
    if parsed.Failure? {
      return Failure(parsed.error);
    }
    var all := parsed.value;
    var found: seq<Placeholder> := [];
    OnceEachNone(all);
    var i := 0;
    while i < |all|
      invariant i <= |all|
      invariant OnceEach(found, all[..i])
    {
      OnceEachMore(found, all, i);
      if Held(all[..i], all[i].placeholder.name).None? {
        found := found + [all[i].placeholder];
      }
      i := i + 1;
    }
    assert all[..i] == all;
    OnceEachIs(found, all);
    return Success(found);
  }

  lemma HeldMore(all: seq<Found>, i: nat)
    requires i < |all|
    ensures forall name :: Held(all[..i + 1], name) ==
                           if Held(all[..i], name).Some? then Held(all[..i], name)
                           else if all[i].placeholder.name == name then Some(all[i].placeholder) else None
  {
    assert all[..i + 1] == all[..i] + [all[i]];
    forall name
      ensures Held(all[..i + 1], name) ==
              if Held(all[..i], name).Some? then Held(all[..i], name)
              else if all[i].placeholder.name == name then Some(all[i].placeholder) else None
    {
      HeldAppend(all[..i], all[i], name);
    }
  }

  lemma {:induction false} HeldAppend(found: seq<Found>, one: Found, name: string)
    ensures Held(found + [one], name) ==
            if Held(found, name).Some? then Held(found, name)
            else if one.placeholder.name == name then Some(one.placeholder) else None
  {
    if found == [] {
      assert [] + [one] == [one];
    } else {
      assert (found + [one])[1..] == found[1..] + [one];
      HeldAppend(found[1..], one, name);
    }
  }
}
