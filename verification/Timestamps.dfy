/**
 Seconds since the epoch as a decimal, scaled to whole nanoseconds:
 `nanos_since_epoch` of crates/sqlake-driver-bigquery/src/value.rs.

 The program joins the digits on either side of the point and moves the point.
 The reference is the number the text spells, as a real.
 */
module Timestamps {
  import opened Wrappers

  const MAX_I128: int := 0x7FFF_FFFF_FFFF_FFFF_FFFF_FFFF_FFFF_FFFF
  const MIN_I128: int := -MAX_I128 - 1
  const MAX_I32: int := 0x7FFF_FFFF
  const MIN_I32: int := -MAX_I32 - 1

  // ── reading integers ────────────────────────────────────────────────────

  predicate IsDigit(c: char) { '0' <= c <= '9' }

  predicate AllDigits(s: string) { forall i :: 0 <= i < |s| ==> IsDigit(s[i]) }

  predicate IsSign(c: char) { c == '-' || c == '+' }

  function Digits(s: string): (n: nat)
    requires AllDigits(s)
  {
    if s == "" then 0 else 10 * Digits(s[..|s| - 1]) + (s[|s| - 1] - '0') as nat
  }

  function Unsigned(s: string): string {
    if s != "" && IsSign(s[0]) then s[1..] else s
  }

  function Sign(s: string): int {
    if s != "" && s[0] == '-' then -1 else 1
  }

  /** An integer as Rust reads one: a sign or none, at least one digit, and in range. */
  function ParseInt(s: string, lo: int, hi: int): Option<int> {
    var digits := Unsigned(s);
    if digits == "" || !AllDigits(digits) then None
    else
      var n := Sign(s) * Digits(digits);
      if lo <= n <= hi then Some(n) else None
  }

  /** The first place in `s` where `a` or `b` stands. */
  function IndexOf(s: string, a: char, b: char): (r: Option<nat>)
    ensures r.Some? ==> r.value < |s| && (s[r.value] == a || s[r.value] == b)
    ensures forall i :: 0 <= i < (if r.Some? then r.value else |s|) ==> s[i] != a && s[i] != b
  {
    if s == "" then None
    else if s[0] == a || s[0] == b then Some(0)
    else
      var rest := IndexOf(s[1..], a, b);
      if rest.Some? then Some(rest.value + 1) else None
  }

  function Pow10(k: nat): (n: nat)
    ensures n > 0
  {
    if k == 0 then 1 else 10 * Pow10(k - 1)
  }

  function Abs(n: int): nat { if n < 0 then -n else n }

  /** Division as the program does it: towards zero. */
  function Quotient(n: int, d: int): int
    requires d > 0
  {
    if n >= 0 then n / d else -((-n) / d)
  }

  // ── the program ─────────────────────────────────────────────────────────

  datatype Parts = Parts(whole: string, fraction: string, exponent: string)

  /** The text around its exponent mark and its point; no mark reads as a zero exponent. */
  function Split(text: string): Parts {
    var mark := IndexOf(text, 'e', 'E');
    var mantissa := if mark.Some? then text[..mark.value] else text;
    var exponent := if mark.Some? then text[mark.value + 1..] else "0";
    var point := IndexOf(mantissa, '.', '.');
    if point.Some? then Parts(mantissa[..point.value], mantissa[point.value + 1..], exponent)
    else Parts(mantissa, "", exponent)
  }

  /** `Overflow` is the 32-bit sum of the shift leaving its range, which a checked build stops at. */
  datatype Outcome = Answer(nanos: int) | NoAnswer | Overflow

  function NanosSinceEpoch(text: string): Outcome {
    var p := Split(text);
    var exponent := ParseInt(p.exponent, MIN_I32, MAX_I32);
    var digits := ParseInt(p.whole + p.fraction, MIN_I128, MAX_I128);
    if exponent.None? || digits.None? || |p.fraction| > MAX_I32 then NoAnswer
    else
      var shift := 9 - |p.fraction| + exponent.value;
      if !(MIN_I32 <= shift <= MAX_I32) then Overflow
      else
        var scale := Pow10(Abs(shift));
        if scale > MAX_I128 then NoAnswer
        else if shift < 0 then Answer(Quotient(digits.value, scale))
        else if MIN_I128 <= digits.value * scale <= MAX_I128 then Answer(digits.value * scale)
        else NoAnswer
  }

  // ── the number a text spells ────────────────────────────────────────────

  /** A sign or none, digits with at most one point among them, and a whole exponent or none. */
  predicate IsDecimal(text: string) {
    var p := Split(text);
    && AllDigits(Unsigned(p.whole)) && AllDigits(p.fraction)
    && Unsigned(p.whole) + p.fraction != ""
    && Unsigned(p.exponent) != "" && AllDigits(Unsigned(p.exponent))
  }

  function TenTo(k: int): (x: real)
    ensures x > 0.0
  {
    if k >= 0 then Pow10(k) as real else 1.0 / Pow10(-k) as real
  }

  /** Its value: what is before the point and what is behind it, signed and scaled as a whole. */
  function Spelled(text: string): real
    requires IsDecimal(text)
  {
    var p := Split(text);
    var exponent := Sign(p.exponent) * Digits(Unsigned(p.exponent));
    Sign(p.whole) as real
    * (Digits(Unsigned(p.whole)) as real + Digits(p.fraction) as real * TenTo(0 - |p.fraction|))
    * TenTo(exponent)
  }

  /** `n` is `x` with everything behind the point dropped. */
  predicate IsTruncated(n: int, x: real) {
    if x >= 0.0 then n >= 0 && n as real <= x < n as real + 1.0
    else n <= 0 && n as real - 1.0 < x <= n as real
  }

  // ── powers of ten ───────────────────────────────────────────────────────

  lemma {:induction false} Pow10Sum(j: nat, k: nat)
    ensures Pow10(j + k) == Pow10(j) * Pow10(k)
  {
    if j > 0 { Pow10Sum(j - 1, k); }
  }

  lemma Pow10SumReal(j: nat, k: nat)
    ensures Pow10(j + k) as real == Pow10(j) as real * Pow10(k) as real
  {
    Pow10Sum(j, k);
    ProductAsReal(Pow10(j), Pow10(k));
  }

  lemma ProductAsReal(a: int, b: int)
    ensures (a * b) as real == a as real * b as real
  {
  }

  lemma Cancel(a: real, b: real)
    requires b != 0.0
    ensures (a * b) * (1.0 / b) == a
    ensures (a * b) / b == a
  {
  }

  lemma CancelFront(a: real, x: real)
    requires a != 0.0
    ensures a * (x * (1.0 / a)) == x
  {
    assert a * (x * (1.0 / a)) == x * (a * (1.0 / a));
  }

  lemma InverseOfProduct(a: real, b: real)
    requires a != 0.0 && b != 0.0
    ensures a * b != 0.0 && 1.0 / (a * b) == (1.0 / a) * (1.0 / b)
  {
    var x, y := 1.0 / a, 1.0 / b;
    assert x * a == 1.0 && y * b == 1.0;
    assert (x * y) * (a * b) == (x * a) * (y * b) == 1.0;
  }

  lemma TenToNegative(k: nat)
    ensures TenTo(0 - k) == 1.0 / Pow10(k) as real
  {
    if k == 0 { assert Pow10(0) == 1; }
  }

  lemma TenToMixed(j: nat, k: nat)
    ensures TenTo(j - k) == TenTo(j) * TenTo(0 - k)
  {
    hide Pow10;
    TenToNegative(k);
    var a, b := Pow10(j) as real, Pow10(k) as real;
    if j >= k {
      Pow10SumReal(j - k, k);
      Cancel(Pow10(j - k) as real, b);
    } else {
      Pow10SumReal(k - j, j);
      TenToNegative(k - j);
      var c := Pow10(k - j) as real;
      InverseOfProduct(c, a);
      CancelFront(a, 1.0 / c);
    }
  }

  /** Moving the point `j` places and then `k` moves it `j + k` places. */
  lemma TenToSum(j: int, k: int)
    ensures TenTo(j + k) == TenTo(j) * TenTo(k)
  {
    hide Pow10, TenTo;
    if j >= 0 && k >= 0 {
      TenToPlus(j, k);
    } else if j < 0 && k < 0 {
      Pow10SumReal(-j, -k);
      TenToNegative(-j);
      TenToNegative(-k);
      TenToNegative(-j - k);
      InverseOfProduct(Pow10(-j) as real, Pow10(-k) as real);
    } else if j >= 0 {
      TenToMixed(j, -k);
    } else {
      TenToMixed(k, -j);
    }
  }

  lemma TenToPlus(j: nat, k: nat)
    ensures TenTo(j + k) == TenTo(j) * TenTo(k)
  {
    Pow10SumReal(j, k);
  }

  // ── the digits, joined ──────────────────────────────────────────────────

  lemma OneMore(front: nat, ten: nat, back: nat, d: nat)
    ensures 10 * (front * ten + back) + d == front * (10 * ten) + (10 * back + d)
  {
  }

  lemma {:induction false} DigitsJoin(a: string, b: string)
    requires AllDigits(a) && AllDigits(b)
    ensures AllDigits(a + b)
    ensures Digits(a + b) == Digits(a) * Pow10(|b|) + Digits(b)
    decreases |b|
  {
    if b == "" {
      assert a + b == a;
    } else {
      var most := b[..|b| - 1];
      DigitsJoin(a, most);
      assert (a + b)[..|a + b| - 1] == a + most;
      var d := (b[|b| - 1] - '0') as nat;
      assert Digits(a + b) == 10 * (Digits(a) * Pow10(|b| - 1) + Digits(most)) + d;
      OneMore(Digits(a), Pow10(|b| - 1), Digits(most), d);
    }
  }

  /** Joining keeps the sign with the digits. */
  lemma JoinedText(whole: string, fraction: string)
    requires AllDigits(fraction) && Unsigned(whole) + fraction != ""
    ensures Unsigned(whole + fraction) == Unsigned(whole) + fraction && Sign(whole + fraction) == Sign(whole)
  {
    if whole == "" {
      assert whole + fraction == fraction;
      assert IsDigit(fraction[0]);
    } else {
      assert (whole + fraction)[0] == whole[0];
      assert (whole + fraction)[1..] == whole[1..] + fraction;
    }
  }

  /** Joined with their sign, the digits are the mantissa with its point moved past the fraction. */
  lemma JoinedDigits(whole: string, fraction: string)
    requires AllDigits(Unsigned(whole)) && AllDigits(fraction) && Unsigned(whole) + fraction != ""
    ensures Unsigned(whole + fraction) == Unsigned(whole) + fraction && Sign(whole + fraction) == Sign(whole)
    ensures AllDigits(Unsigned(whole) + fraction)
    ensures Digits(Unsigned(whole) + fraction) as real
            == (Digits(Unsigned(whole)) as real + Digits(fraction) as real * TenTo(0 - |fraction|)) * TenTo(|fraction|)
  {
    hide TenTo, Digits, Unsigned, Sign, AllDigits;
    JoinedText(whole, fraction);
    DigitsJoin(Unsigned(whole), fraction);
    MovedPast(Digits(Unsigned(whole)), Digits(fraction), |fraction|);
  }

  lemma MovedPast(w: nat, f: nat, places: nat)
    ensures (w * Pow10(places) + f) as real == (w as real + f as real * TenTo(0 - places)) * TenTo(places)
  {
    hide Pow10;
    var ten := Pow10(places) as real;
    ProductAsReal(w, Pow10(places));
    TenToNegative(places);
    var part := f as real * (1.0 / ten);
    assert part * ten == f as real * ((1.0 / ten) * ten) == f as real;
    assert (w as real + part) * ten == w as real * ten + part * ten;
  }

  lemma Least(a: real, x: real, d: real, ad: real, xd: real)
    requires d > 0.0 && a * d == ad && x * d == xd && ad <= xd
    ensures a <= x
  {
  }

  lemma Greatest(b: real, x: real, d: real, bd: real, xd: real)
    requires d > 0.0 && b * d == bd && x * d == xd && xd < bd
    ensures x < b
  {
  }

  lemma DivideBack(m: real, d: real)
    requires d != 0.0
    ensures (m / d) * d == m
  {
  }

  /** The whole part of a quotient, of wholes and of reals. */
  lemma WholePart(m: nat, d: nat)
    requires d > 0
    ensures (m / d) as real <= m as real / d as real < (m / d) as real + 1.0
  {
    var q := m / d;
    assert q * d <= m < (q + 1) * d;
    var x, b := m as real / d as real, d as real;
    DivideBack(m as real, b);
    ProductAsReal(q, d);
    ProductAsReal(q + 1, d);
    Least(q as real, x, b, (q * d) as real, m as real);
    Greatest((q + 1) as real, x, b, ((q + 1) * d) as real, m as real);
  }

  lemma QuotientTruncates(n: int, d: int)
    requires d > 0
    ensures IsTruncated(Quotient(n, d), n as real / d as real)
  {
    WholePart(Abs(n), d);
    if n < 0 {
      assert n as real == -((-n) as real);
      assert n as real / d as real == -((-n) as real / d as real);
    }
  }

  /** Scaled to nanoseconds, the number spelled is the joined digits with the point moved `shift` places. */
  lemma ScaledIsShifted(text: string)
    requires IsDecimal(text)
    ensures var p := Split(text);
            && AllDigits(Unsigned(p.whole + p.fraction))
            && Spelled(text) * TenTo(9)
               == (Sign(p.whole + p.fraction) * Digits(Unsigned(p.whole + p.fraction))) as real
                  * TenTo(9 - |p.fraction| + Sign(p.exponent) * Digits(Unsigned(p.exponent)))
  {
    hide Split, Digits, AllDigits, TenTo;
    var p := Split(text);
    var f, e := |p.fraction|, Sign(p.exponent) * Digits(Unsigned(p.exponent));
    JoinedDigits(p.whole, p.fraction);
    var s := Sign(p.whole) as real;
    var m := Digits(Unsigned(p.whole)) as real + Digits(p.fraction) as real * TenTo(0 - f);
    var d := Digits(Unsigned(p.whole + p.fraction)) as real;
    ProductAsReal(Sign(p.whole), Digits(Unsigned(p.whole + p.fraction)));
    TenToSum(f, 9 - f);
    assert f + (9 - f) == 9;
    TenToSum(9 - f, e);
    Rearrange(s, m, TenTo(f), TenTo(9 - f), TenTo(e));
    assert d == m * TenTo(f);
  }

  lemma Rearrange(s: real, m: real, a: real, b: real, c: real)
    ensures (s * m * c) * (a * b) == (s * (m * a)) * (b * c)
  {
    assert (s * m * c) * (a * b) == (s * m * a) * (b * c);
  }

  // ── the laws ────────────────────────────────────────────────────────────

  /** An answer for a decimal is the number it spells, in nanoseconds, truncated towards zero. */
  lemma AnswersAreExact(text: string)
    requires IsDecimal(text) && NanosSinceEpoch(text).Answer?
    ensures IsTruncated(NanosSinceEpoch(text).nanos, Spelled(text) * TenTo(9))
  {
    hide Split, Digits, AllDigits, Spelled, IsDecimal, TenTo, Pow10, IsTruncated;
    var p := Split(text);
    ScaledIsShifted(text);
    var digits := ParseInt(p.whole + p.fraction, MIN_I128, MAX_I128).value;
    var shift := 9 - |p.fraction| + ParseInt(p.exponent, MIN_I32, MAX_I32).value;
    ShiftedIsExact(digits, shift);
    assert Spelled(text) * TenTo(9) == digits as real * TenTo(shift);
    assert shift < 0 ==> NanosSinceEpoch(text) == Answer(Quotient(digits, Pow10(-shift)));
    assert shift >= 0 ==> NanosSinceEpoch(text) == Answer(digits * Pow10(shift));
  }

  /** Moving the point of whole `digits` left drops what falls behind it; moving it right drops nothing. */
  lemma ShiftedIsExact(digits: int, shift: int)
    ensures shift < 0 ==> IsTruncated(Quotient(digits, Pow10(-shift)), digits as real * TenTo(shift))
    ensures shift >= 0 ==> IsTruncated(digits * Pow10(shift), digits as real * TenTo(shift))
  {
    hide Pow10, Quotient;
    if shift >= 0 {
      ProductAsReal(digits, Pow10(shift));
    } else {
      QuotientTruncates(digits, Pow10(-shift));
      OverIs(digits as real, Pow10(-shift) as real);
    }
  }

  lemma OverIs(a: real, b: real)
    requires b != 0.0
    ensures a * (1.0 / b) == a / b
  {
  }

  /** So two spellings of one number that are both answered are answered alike. */
  lemma SpellingsAgree(a: string, b: string)
    requires IsDecimal(a) && IsDecimal(b) && Spelled(a) == Spelled(b)
    requires NanosSinceEpoch(a).Answer? && NanosSinceEpoch(b).Answer?
    ensures NanosSinceEpoch(a).nanos == NanosSinceEpoch(b).nanos
  {
    hide NanosSinceEpoch, Spelled, IsDecimal, TenTo;
    AnswersAreExact(a);
    AnswersAreExact(b);
  }

  /** Only decimals are answered, and texts with nothing before the point and a sign behind it. */
  lemma WhatIsAnswered(text: string)
    requires NanosSinceEpoch(text).Answer?
    ensures var p := Split(text);
            IsDecimal(text) || (p.whole == "" && p.fraction != "" && IsSign(p.fraction[0]))
  {
    hide Split, Digits, Pow10;
    var p := Split(text);
    if p.whole == "" {
      assert p.whole + p.fraction == p.fraction;
    } else {
      assert (p.whole + p.fraction)[0] == p.whole[0];
      assert (p.whole + p.fraction)[1..] == p.whole[1..] + p.fraction;
      var all := Unsigned(p.whole) + p.fraction;
      assert all == Unsigned(p.whole + p.fraction);
      DigitsOfJoin(Unsigned(p.whole), p.fraction);
    }
  }

  lemma DigitsOfJoin(a: string, b: string)
    requires AllDigits(a + b)
    ensures AllDigits(a) && AllDigits(b)
  {
    forall i | 0 <= i < |b| ensures IsDigit(b[i]) {
      assert (a + b)[|a| + i] == b[i];
    }
    forall i | 0 <= i < |a| ensures IsDigit(a[i]) {
      assert (a + b)[i] == a[i];
    }
  }
}
