/**
 Instants as they are written: each comes back from its own decimal, signs and
 exponents say what they say, and a decimal is answered whenever it fits.
 */
module Instants {
  import opened Wrappers
  import opened Timestamps

  // ── numbers as they are written ─────────────────────────────────────────

  function Digit(d: nat): char
    requires d < 10
  {
    ['0', '1', '2', '3', '4', '5', '6', '7', '8', '9'][d]
  }

  /** A number in decimal. */
  function Show(n: nat): string {
    if n < 10 then [Digit(n)] else Show(n / 10) + [Digit(n % 10)]
  }

  /** Its last `k` digits, with zeros in front where it has fewer. */
  function Padded(n: nat, k: nat): string {
    if k == 0 then "" else Padded(n / 10, k - 1) + [Digit(n % 10)]
  }

  lemma OneDigit(d: nat)
    requires d < 10
    ensures IsDigit(Digit(d)) && (Digit(d) - '0') as nat == d
  {
  }

  lemma LastDigit(s: string, d: nat)
    requires AllDigits(s) && d < 10
    ensures AllDigits(s + [Digit(d)]) && Digits(s + [Digit(d)]) == 10 * Digits(s) + d
  {
    OneDigit(d);
    var all := s + [Digit(d)];
    assert all[..|all| - 1] == s;
  }

  lemma {:induction false} ShownIsRead(n: nat)
    ensures Show(n) != "" && AllDigits(Show(n)) && Digits(Show(n)) == n
  {
    if n < 10 {
      LastDigit("", n);
      assert "" + [Digit(n)] == [Digit(n)];
    } else {
      ShownIsRead(n / 10);
      LastDigit(Show(n / 10), n % 10);
    }
  }

  lemma {:induction false} PaddedIsRead(n: nat, k: nat)
    requires n < Pow10(k)
    ensures |Padded(n, k)| == k && AllDigits(Padded(n, k)) && Digits(Padded(n, k)) == n
  {
    if k > 0 {
      assert n / 10 < Pow10(k - 1);
      PaddedIsRead(n / 10, k - 1);
      LastDigit(Padded(n / 10, k - 1), n % 10);
    }
  }

  lemma TenToTheNinth()
    ensures Pow10(9) == 1_000_000_000
  {
    assert Pow10(1) == 10 && Pow10(3) == 1000 && Pow10(5) == 100_000 && Pow10(7) == 10_000_000;
  }

  // ── decimals by their parts ─────────────────────────────────────────────

  predicate IsSignText(sign: string) { sign == "" || sign == "+" || sign == "-" }

  predicate IsMark(c: char) { c == 'e' || c == 'E' }

  /** What stands behind the mantissa: nothing, or a mark and an exponent. */
  datatype Tail = NoTail | Tail(mark: char, exponent: string)

  function TailText(x: Tail): string {
    match x case NoTail => "" case Tail(mark, exponent) => [mark] + exponent
  }

  function PointText(fraction: Option<string>): string {
    if fraction.Some? then "." + fraction.value else ""
  }

  /** A decimal put together: digits, perhaps a point and more digits, and what stands behind. */
  function Text(sign: string, whole: string, fraction: Option<string>, x: Tail): string {
    sign + whole + PointText(fraction) + TailText(x)
  }

  function Behind(fraction: Option<string>): string {
    if fraction.Some? then fraction.value else ""
  }

  predicate Fit(sign: string, whole: string, fraction: Option<string>, x: Tail) {
    && IsSignText(sign) && AllDigits(whole) && AllDigits(Behind(fraction)) && whole + Behind(fraction) != ""
    && (x.Tail? ==> IsMark(x.mark))
  }

  lemma {:induction false} IndexBehind(front: string, rest: string, a: char, b: char)
    requires a !in front && b !in front && (rest == "" || rest[0] == a || rest[0] == b)
    ensures IndexOf(front + rest, a, b) == if rest == "" then None else Some(|front|)
  {
    if front == "" {
      assert front + rest == rest;
    } else {
      assert (front + rest)[1..] == front[1..] + rest;
      IndexBehind(front[1..], rest, a, b);
    }
  }

  lemma NoMarkOrPoint(sign: string, digits: string)
    requires IsSignText(sign) && AllDigits(digits)
    ensures 'e' !in sign + digits && 'E' !in sign + digits && '.' !in sign + digits
  {
  }

  predicate NoMark(s: string) { 'e' !in s && 'E' !in s }

  function ExponentOf(x: Tail): string {
    if x.Tail? then x.exponent else "0"
  }

  /** A text at its first mark of an exponent. */
  function AtMark(text: string): (string, string) {
    var mark := IndexOf(text, 'e', 'E');
    if mark.Some? then (text[..mark.value], text[mark.value + 1..]) else (text, "0")
  }

  /** And what is before it at its first point. */
  function AtPoint(mantissa: string): (string, string) {
    var point := IndexOf(mantissa, '.', '.');
    if point.Some? then (mantissa[..point.value], mantissa[point.value + 1..]) else (mantissa, "")
  }

  lemma SplitTwice(text: string)
    ensures var (mantissa, exponent) := AtMark(text);
            Split(text) == Parts(AtPoint(mantissa).0, AtPoint(mantissa).1, exponent)
  {
    hide IndexOf;
  }

  lemma SplitAtMark(mantissa: string, x: Tail)
    requires NoMark(mantissa) && (x.Tail? ==> IsMark(x.mark))
    ensures AtMark(mantissa + TailText(x)) == (mantissa, ExponentOf(x))
  {
    hide IndexOf;
    var text := mantissa + TailText(x);
    IndexBehind(mantissa, TailText(x), 'e', 'E');
    assert text[..|mantissa|] == mantissa;
    if x.Tail? {
      assert text[|mantissa| + 1..] == x.exponent;
    } else {
      assert text == mantissa;
    }
  }

  lemma SplitAtPoint(front: string, fraction: Option<string>)
    requires '.' !in front
    ensures AtPoint(front + PointText(fraction)) == (front, Behind(fraction))
  {
    hide IndexOf;
    var point := PointText(fraction);
    var mantissa := front + point;
    IndexBehind(front, point, '.', '.');
    if fraction.Some? {
      assert mantissa[..|front|] == front && mantissa[|front| + 1..] == fraction.value;
    } else {
      assert mantissa == front;
    }
  }

  lemma MantissaHasNoMark(sign: string, whole: string, fraction: Option<string>)
    requires IsSignText(sign) && AllDigits(whole) && AllDigits(Behind(fraction))
    ensures NoMark(sign + whole + PointText(fraction))
  {
    NoMarkOrPoint(sign, whole);
    NoMarkOrPoint("", Behind(fraction));
    assert "" + Behind(fraction) == Behind(fraction);
  }

  /** Put together, it is split into those parts. */
  lemma SplitIs(sign: string, whole: string, fraction: Option<string>, x: Tail)
    requires Fit(sign, whole, fraction, x)
    ensures Split(Text(sign, whole, fraction, x)) == Parts(sign + whole, Behind(fraction), ExponentOf(x))
  {
    var front := sign + whole;
    var mantissa := front + PointText(fraction);
    MantissaHasNoMark(sign, whole, fraction);
    NoMarkOrPoint(sign, whole);
    hide *;
    FitHas(sign, whole, fraction, x);
    SplitAtMark(mantissa, x);
    SplitAtPoint(front, fraction);
    TextIs(sign, whole, fraction, x);
    SplitTwice(mantissa + TailText(x));
  }

  lemma FitHas(sign: string, whole: string, fraction: Option<string>, x: Tail)
    requires Fit(sign, whole, fraction, x)
    ensures x.Tail? ==> IsMark(x.mark)
  {
  }

  lemma TextIs(sign: string, whole: string, fraction: Option<string>, x: Tail)
    ensures Text(sign, whole, fraction, x) == sign + whole + PointText(fraction) + TailText(x)
  {
  }

  function Signed(sign: string, n: nat): int {
    if sign == "-" then 0 - n else n
  }

  lemma SignedIsRead(sign: string, digits: string, lo: int, hi: int)
    requires IsSignText(sign) && AllDigits(digits) && digits != ""
    ensures ParseInt(sign + digits, lo, hi) ==
            var n := Signed(sign, Digits(digits)); if lo <= n <= hi then Some(n) else None
  {
    hide Digits;
    if sign == "" {
      assert sign + digits == digits;
      assert IsDigit(digits[0]);
    } else {
      assert (sign + digits)[1..] == digits;
    }
  }

  /** What becomes of whole digits with their point moved `shift` places. */
  function Moved(n: int, shift: int): Outcome {
    if !(MIN_I32 <= shift <= MAX_I32) then Overflow
    else if Pow10(Abs(shift)) > MAX_I128 then NoAnswer
    else if shift < 0 then Answer(Quotient(n, Pow10(-shift)))
    else if MIN_I128 <= n * Pow10(shift) <= MAX_I128 then Answer(n * Pow10(shift))
    else NoAnswer
  }

  /** What is answered to a decimal is told by its digits, its places and its exponent. */
  lemma AnswerIs(sign: string, whole: string, fraction: Option<string>, x: Tail)
    requires Fit(sign, whole, fraction, x)
    ensures var n := Signed(sign, Digits(whole + Behind(fraction)));
            var exponent := ParseInt(if x.Tail? then x.exponent else "0", MIN_I32, MAX_I32);
            AllDigits(whole + Behind(fraction))
            && NanosSinceEpoch(Text(sign, whole, fraction, x)) ==
               if exponent.None? || !(MIN_I128 <= n <= MAX_I128) || |Behind(fraction)| > MAX_I32 then NoAnswer
               else Moved(n, 9 - |Behind(fraction)| + exponent.value)
  {
    hide Split, ParseInt, Digits, Pow10, Text, Quotient;
    SplitIs(sign, whole, fraction, x);
    var digits := whole + Behind(fraction);
    assert sign + whole + Behind(fraction) == sign + digits;
    SignedIsRead(sign, digits, MIN_I128, MAX_I128);
  }

  // ── the laws ────────────────────────────────────────────────────────────

  lemma ZeroIsRead()
    ensures ParseInt("0", MIN_I32, MAX_I32) == Some(0)
  {
    assert "0"[..0] == "";
    assert Digits("0") == 0;
  }

  /** Between the least and the largest, every number of nanoseconds. */
  predicate FitsI128(n: int) { MIN_I128 <= n <= MAX_I128 }

  /** An instant as it is written: whole seconds, a point, and nine digits. */
  function Written(n: int): string {
    var size := Abs(n);
    (if n < 0 then "-" else "") + Show(size / 1_000_000_000) + "." + Padded(size % 1_000_000_000, 9)
  }

  /**
   Every instant comes back: written in decimal seconds, to the nanosecond, each
   whole number of nanoseconds that fits is answered with itself, before the epoch
   as after it.
   */
  lemma EveryInstantComesBack(n: int)
    requires FitsI128(n)
    ensures NanosSinceEpoch(Written(n)) == Answer(n)
  {
    hide Digits, Show, Padded, ParseInt, NanosSinceEpoch, Moved, Text, Fit;
    var size := Abs(n);
    var sign := if n < 0 then "-" else "";
    var whole, behind := Show(size / 1_000_000_000), Padded(size % 1_000_000_000, 9);
    InstantHasDigits(size);
    ZeroIsRead();
    InstantFits(sign, whole, behind);
    AnswerIs(sign, whole, Some(behind), NoTail);
    NothingMoves(n);
  }

  lemma InstantHasDigits(size: nat)
    ensures var whole, behind := Show(size / 1_000_000_000), Padded(size % 1_000_000_000, 9);
            && AllDigits(whole) && AllDigits(behind) && |behind| == 9 && AllDigits(whole + behind)
            && Digits(whole + behind) == size
  {
    hide Digits, Show, Padded, Pow10;
    TenToTheNinth();
    ShownIsRead(size / 1_000_000_000);
    PaddedIsRead(size % 1_000_000_000, 9);
    DigitsJoin(Show(size / 1_000_000_000), Padded(size % 1_000_000_000, 9));
  }

  lemma InstantFits(sign: string, whole: string, behind: string)
    requires IsSignText(sign) && AllDigits(whole) && AllDigits(behind) && |behind| == 9
    ensures Fit(sign, whole, Some(behind), NoTail)
    ensures Text(sign, whole, Some(behind), NoTail) == sign + whole + "." + behind
  {
  }

  lemma NothingMoves(n: int)
    requires FitsI128(n)
    ensures Moved(n, 0) == Answer(n)
  {
    assert Pow10(0) == 1;
  }

  /** Whole seconds, as they are written. */
  lemma WholeSeconds(sign: string, s: nat)
    requires IsSignText(sign)
    ensures var n := Signed(sign, s);
            NanosSinceEpoch(sign + Show(s)) ==
            if FitsI128(n) && FitsI128(n * 1_000_000_000) then Answer(n * 1_000_000_000) else NoAnswer
  {
    hide Digits, Show, ParseInt, NanosSinceEpoch, Pow10;
    TenToTheNinth();
    ShownIsRead(s);
    ZeroIsRead();
    AnswerIs(sign, Show(s), None, NoTail);
    assert Show(s) + "" == Show(s);
    assert Text(sign, Show(s), None, NoTail) == sign + Show(s);
  }

  lemma MovedBack(n: int, shift: int)
    requires n >= 0 && Moved(n, shift).Answer?
    ensures Moved(0 - n, shift) == Answer(0 - Moved(n, shift).nanos)
  {
    hide Pow10;
    if shift >= 0 {
      assert (0 - n) * Pow10(shift) == 0 - n * Pow10(shift);
    } else {
      var d := Pow10(-shift);
      if n == 0 {
        assert 0 / d == 0;
      }
    }
  }

  /** A plus says nothing, and a minus answers the same number below zero. */
  lemma SignsSayWhatTheySay(whole: string, fraction: Option<string>, x: Tail)
    requires Fit("", whole, fraction, x)
    ensures var t := Text("", whole, fraction, x);
            && NanosSinceEpoch("+" + t) == NanosSinceEpoch(t)
            && (NanosSinceEpoch(t).Answer? ==>
                  NanosSinceEpoch(t).nanos >= 0 && NanosSinceEpoch("-" + t) == Answer(0 - NanosSinceEpoch(t).nanos))
  {
    hide Digits, ParseInt, NanosSinceEpoch, Moved, AllDigits;
    var t := Text("", whole, fraction, x);
    Prefixed("+", whole, fraction, x);
    Prefixed("-", whole, fraction, x);
    AnswerIs("", whole, fraction, x);
    AnswerIs("+", whole, fraction, x);
    AnswerIs("-", whole, fraction, x);
    if NanosSinceEpoch(t).Answer? {
      var n := Digits(whole + Behind(fraction));
      var exponent := ParseInt(if x.Tail? then x.exponent else "0", MIN_I32, MAX_I32);
      var shift := 9 - |Behind(fraction)| + exponent.value;
      MovedBack(n, shift);
      MovedIsNoLess(n, shift);
    }
  }

  lemma MovedIsNoLess(n: nat, shift: int)
    requires Moved(n, shift).Answer?
    ensures Moved(n, shift).nanos >= 0
  {
    hide Pow10;
  }

  lemma Prefixed(sign: string, whole: string, fraction: Option<string>, x: Tail)
    ensures sign + Text("", whole, fraction, x) == Text(sign, whole, fraction, x)
  {
    var point, tail := if fraction.Some? then "." + fraction.value else "", TailText(x);
    assert "" + whole == whole;
    assert sign + (whole + point + tail) == sign + whole + point + tail;
  }

  lemma ExponentIs(sign: string, k: nat)
    requires IsSignText(sign) && k <= MAX_I32
    ensures ParseInt(sign + Show(k), MIN_I32, MAX_I32) == Some(Signed(sign, k))
  {
    hide Digits, Show, ParseInt;
    ShownIsRead(k);
    SignedIsRead(sign, Show(k), MIN_I32, MAX_I32);
  }

  /** A negative exponent moves the point that many places left. */
  lemma ANegativeExponentMovesLeft(sign: string, whole: string, fraction: string, mark: char, k: nat)
    requires IsMark(mark) && Fit(sign, whole, Some(fraction), NoTail)
    requires k <= |whole| && k <= MAX_I32 && k + |fraction| <= MAX_I32
    ensures NanosSinceEpoch(Text(sign, whole, Some(fraction), Tail(mark, "-" + Show(k)))) ==
            NanosSinceEpoch(Text(sign, whole[..|whole| - k], Some(whole[|whole| - k..] + fraction), NoTail))
  {
    hide Digits, ParseInt, NanosSinceEpoch, Moved, Show, AllDigits;
    var front, back := whole[..|whole| - k], whole[|whole| - k..];
    PartsAreDigits(whole, |whole| - k);
    JoinedAreDigits(back, fraction);
    assert front + (back + fraction) == whole + fraction;
    ExponentIs("-", k);
    ZeroIsRead();
    AnswerIs(sign, whole, Some(fraction), Tail(mark, "-" + Show(k)));
    AnswerIs(sign, front, Some(back + fraction), NoTail);
  }

  /** A positive one moves it that many places right. */
  lemma APositiveExponentMovesRight(sign: string, whole: string, fraction: string, mark: char, plus: string, k: nat)
    requires IsMark(mark) && Fit(sign, whole, Some(fraction), NoTail) && (plus == "" || plus == "+")
    requires k <= |fraction| <= MAX_I32
    ensures NanosSinceEpoch(Text(sign, whole, Some(fraction), Tail(mark, plus + Show(k)))) ==
            NanosSinceEpoch(Text(sign, whole + fraction[..k], Some(fraction[k..]), NoTail))
  {
    hide Digits, ParseInt, NanosSinceEpoch, Moved, Show, AllDigits;
    var front, back := fraction[..k], fraction[k..];
    PartsAreDigits(fraction, k);
    JoinedAreDigits(whole, front);
    assert whole + front + back == whole + fraction;
    ExponentIs(plus, k);
    ZeroIsRead();
    AnswerIs(sign, whole, Some(fraction), Tail(mark, plus + Show(k)));
    AnswerIs(sign, whole + front, Some(back), NoTail);
  }

  lemma PartsAreDigits(s: string, k: nat)
    requires AllDigits(s) && k <= |s|
    ensures AllDigits(s[..k]) && AllDigits(s[k..])
  {
  }

  lemma JoinedAreDigits(a: string, b: string)
    requires AllDigits(a) && AllDigits(b)
    ensures AllDigits(a + b)
  {
  }

  /**
   A decimal is answered exactly when it fits: its digits, the places its point
   moves, the power of ten for them, and the product. Moved right, the answer is
   the digits times that power; moved left, what is left of them, towards zero.
   */
  lemma AnsweredExactlyWhenItFits(sign: string, whole: string, fraction: Option<string>, mark: char, way: string,
                                  k: nat)
    requires Fit(sign, whole, fraction, Tail(mark, way + Show(k))) && IsSignText(way) && |Behind(fraction)| <= MAX_I32
    ensures var answer := NanosSinceEpoch(Text(sign, whole, fraction, Tail(mark, way + Show(k))));
            var exponent := if way == "-" then 0 - k else k;
            var shift := 9 - |Behind(fraction)| + exponent;
            AllDigits(whole + Behind(fraction))
            && var size := Digits(whole + Behind(fraction));
            && (answer.Answer? <==>
                  && FitsI128(if sign == "-" then 0 - size else size)
                  && MIN_I32 <= exponent <= MAX_I32 && MIN_I32 <= shift <= MAX_I32
                  && Pow10(Abs(shift)) <= MAX_I128
                  && (shift >= 0 ==> FitsI128((if sign == "-" then 0 - size else size) * Pow10(shift))))
            && (answer.Answer? && shift >= 0 ==> Abs(answer.nanos) == size * Pow10(shift))
            && (answer.Answer? && shift < 0 ==> Abs(answer.nanos) == size / Pow10(-shift))
            && (answer.Answer? ==> if sign == "-" then answer.nanos <= 0 else answer.nanos >= 0)
  {
    hide Digits, ParseInt, NanosSinceEpoch, Show, AllDigits, Pow10, Moved, FitsI128, Text, IsSignText;
    ShownIsRead(k);
    SignedIsRead(way, Show(k), MIN_I32, MAX_I32);
    AnswerIs(sign, whole, fraction, Tail(mark, way + Show(k)));
    FitsIs(Signed(sign, Digits(whole + Behind(fraction))));
    MovedExactlyWhen(sign, Digits(whole + Behind(fraction)), 9 - |Behind(fraction)| + Signed(way, k));
  }

  lemma FitsIs(n: int)
    ensures FitsI128(n) <==> MIN_I128 <= n <= MAX_I128
  {
  }

  lemma MovedExactlyWhen(sign: string, size: nat, shift: int)
    ensures var n := Signed(sign, size);
            var moved := Moved(n, shift);
            && (moved.Answer? <==>
                  && MIN_I32 <= shift <= MAX_I32 && Pow10(Abs(shift)) <= MAX_I128
                  && (shift >= 0 ==> FitsI128(n * Pow10(shift))))
            && (moved.Answer? && shift >= 0 ==> Abs(moved.nanos) == size * Pow10(shift))
            && (moved.Answer? && shift < 0 ==> Abs(moved.nanos) == size / Pow10(-shift))
            && (moved.Answer? ==> if sign == "-" then moved.nanos <= 0 else moved.nanos >= 0)
  {
    hide Pow10;
    if shift >= 0 {
      SizeOfProduct(size, Pow10(shift));
    } else if size == 0 {
      assert 0 / Pow10(-shift) == 0;
    }
  }

  lemma SizeOfProduct(n: nat, d: nat)
    ensures (0 - n) * d == 0 - n * d && n * d >= 0
  {
  }
}
