/** Decimal price parsing (src/service/usage_pricing.rs): scaled integers from decimal text. */
module Decimal {
  import opened Wrappers
  import opened Numeric

  datatype RateError = NotNonNegative | BadExponent | BadDecimal | OutOfRange | ScaleOutOfRange

  type Rate = Result<i64, RateError>

  // ---- text helpers of the Rust standard library ----

  /** `char::is_whitespace`: the Unicode White_Space property. */
  predicate IsWhitespace(c: char) {
    || '\U{9}' <= c <= '\U{D}' || c == ' ' || c == '\U{85}' || c == '\U{A0}' || c == '\U{1680}'
    || '\U{2000}' <= c <= '\U{200A}' || c == '\U{2028}' || c == '\U{2029}' || c == '\U{202F}'
    || c == '\U{205F}' || c == '\U{3000}'
  }

  function TrimStart(s: string): string {
    if s != "" && IsWhitespace(s[0]) then TrimStart(s[1..]) else s
  }

  function TrimEnd(s: string): string {
    if s != "" && IsWhitespace(s[|s| - 1]) then TrimEnd(s[..|s| - 1]) else s
  }

  function Trim(s: string): string { TrimEnd(TrimStart(s)) }

  predicate Trimmed(s: string) { s == "" || (!IsWhitespace(s[0]) && !IsWhitespace(s[|s| - 1])) }

  lemma {:induction false} TrimStartTrims(s: string)
    ensures var t := TrimStart(s); (t == "" || !IsWhitespace(t[0])) && |t| <= |s| && (t != "" ==> t[|t| - 1] == s[|s| - 1])
  {
    if s != "" && IsWhitespace(s[0]) { TrimStartTrims(s[1..]); }
  }

  lemma {:induction false} TrimEndTrims(s: string)
    ensures var t := TrimEnd(s); (t == "" || !IsWhitespace(t[|t| - 1])) && |t| <= |s| && (t != "" ==> t[0] == s[0])
  {
    if s != "" && IsWhitespace(s[|s| - 1]) { TrimEndTrims(s[..|s| - 1]); }
  }

  lemma TrimTrims(s: string)
    ensures Trimmed(Trim(s)) && (Trimmed(s) ==> Trim(s) == s)
  {
    TrimStartTrims(s);
    TrimEndTrims(TrimStart(s));
  }

  predicate Blank(s: string) { forall k :: 0 <= k < |s| ==> IsWhitespace(s[k]) }

  /** Trimming cuts whitespace off both ends and nothing else. */
  lemma TrimCuts(s: string) returns (before: string, after: string)
    ensures s == before + Trim(s) + after && Blank(before) && Blank(after) && Trimmed(Trim(s))
  {
    before := CutStart(s);
    after := CutEnd(TrimStart(s));
    TrimTrims(s);
  }

  lemma {:induction false} CutStart(s: string) returns (before: string)
    ensures s == before + TrimStart(s) && Blank(before)
  {
    before := "";
    if s != "" && IsWhitespace(s[0]) {
      before := CutStart(s[1..]);
      before := [s[0]] + before;
    }
  }

  lemma {:induction false} CutEnd(s: string) returns (after: string)
    ensures s == TrimEnd(s) + after && Blank(after)
  {
    after := "";
    if s != "" && IsWhitespace(s[|s| - 1]) {
      after := CutEnd(s[..|s| - 1]);
      after := after + [s[|s| - 1]];
      assert s == s[..|s| - 1] + [s[|s| - 1]];
    }
  }

  lemma BlankTrims(s: string)
    ensures Trim(s) == "" <==> forall k :: 0 <= k < |s| ==> IsWhitespace(s[k])
  {
    hide Trim;
    var before, after := TrimCuts(s);
    var t := Trim(s);
    if t == "" {
      assert s == before + after;
    } else {
      assert s[|before|] == t[0];
    }
  }

  predicate IsDigit(c: char) { '0' <= c <= '9' }

  predicate AllDigits(s: string) { forall k :: 0 <= k < |s| ==> IsDigit(s[k]) }

  function DigitValue(c: char): nat
    requires IsDigit(c)
  {
    (c as int) - ('0' as int)
  }

  /** The natural number a digit string denotes. */
  function Digits(s: string): nat
    requires AllDigits(s)
  {
    if s == "" then 0 else 10 * Digits(s[..|s| - 1]) + DigitValue(s[|s| - 1])
  }

  /** Index of the first character of `s` that is `a` or `b`. */
  function FindEither(s: string, a: char, b: char): (index: Option<nat>)
    ensures index.Some? ==> index.value < |s| && (s[index.value] == a || s[index.value] == b)
    ensures index.Some? ==> forall k :: 0 <= k < index.value ==> s[k] != a && s[k] != b
    ensures index.None? ==> forall k :: 0 <= k < |s| ==> s[k] != a && s[k] != b
  {
    if s == "" then None
    else if s[0] == a || s[0] == b then Some(0)
    else
      match FindEither(s[1..], a, b)
      case Some(index) =>
        assert forall k :: 1 <= k < index + 1 ==> s[k] == s[1..][k - 1];
        Some(index + 1)
      case None =>
        assert forall k :: 1 <= k < |s| ==> s[k] == s[1..][k - 1];
        None
  }

  /** `split_once('.')`, with the whole text and nothing when there is no dot. */
  function SplitDot(s: string): (parts: (string, string, bool))
    ensures s == parts.0 + (if parts.2 then "." else "") + parts.1
    ensures !parts.2 ==> parts.1 == ""
    ensures forall k :: 0 <= k < |parts.0| ==> parts.0[k] != '.'
  {
    match FindEither(s, '.', '.')
    case Some(index) => (s[..index], s[index + 1..], true)
    case None => (s, "", false)
  }

  /** `str::parse::<i32>`: an optional sign, at least one digit, in range. */
  function ParseI32(s: string): Option<i32> {
    var digits := if s != "" && (s[0] == '+' || s[0] == '-') then s[1..] else s;
    if digits == "" || !AllDigits(digits) then None
    else
      var value: int := if s[0] == '-' then 0 - Digits(digits) else Digits(digits);
      if FitsI32(value) then Some(value) else None
  }

  /** `str::parse::<i128>` on text already known to hold digits only. */
  function ParseDigitsI128(s: string): Option<nat>
    requires AllDigits(s)
  {
    if s == "" || Digits(s) > I128_MAX then None else Some(Digits(s))
  }

  /** `x as i32`: the low 32 bits, read as a signed number. */
  function AsI32(x: nat): i32 {
    var low := x % 0x1_0000_0000;
    if low > I32_MAX then low - 0x1_0000_0000 else low
  }

  function CheckedAddI32(a: i32, b: i32): Option<i32> {
    if FitsI32(a + b) then Some(a + b) else None
  }

  /** `10_i128.checked_pow(n)`: 10^38 is the largest power of ten an i128 holds. */
  function CheckedPow10(n: nat): (p: Option<nat>)
    ensures p.Some? ==> p.value == Pow10(n) <= I128_MAX && p.value >= 1
  {
    if n > 38 then None else Pow10Of38Fits(n); Some(Pow10(n))
  }

  lemma Pow10Of38Fits(n: nat)
    requires n <= 38
    ensures Pow10(n) <= I128_MAX
  {
    Pow10Grows(n, 38);
    Pow10At38();
  }

  lemma Pow10At38()
    ensures Pow10(38) <= I128_MAX
  {
    hide Pow10;
    Pow10Adds(4, 4);
    Pow10Adds(8, 8);
    Pow10Adds(16, 16);
    Pow10Adds(32, 4);
    Pow10Adds(36, 2);
    assert Pow10(2) == 100 && Pow10(4) == 10_000 by { SmallPowers(); }
  }

  lemma SmallPowers()
    ensures Pow10(1) == 10 && Pow10(2) == 100 && Pow10(4) == 10_000 && Pow10(9) == 1_000_000_000
  {
  }

  // ---- the literal grammar both parsers read ----

  /** whole [ '.' fraction ] [ ('e' | 'E') exponentText ] */
  datatype Literal = Literal(whole: string, dot: bool, fraction: string, exponentText: Option<(char, string)>)

  function Render(l: Literal): string {
    l.whole + (if l.dot then "." else "") + l.fraction
    + (if l.exponentText.Some? then [l.exponentText.value.0] + l.exponentText.value.1 else "")
  }

  function Exponent(l: Literal): Option<i32> {
    if l.exponentText.Some? then ParseI32(l.exponentText.value.1) else Some(0)
  }

  predicate WellFormed(l: Literal) {
    && l.whole != "" && AllDigits(l.whole) && AllDigits(l.fraction)
    && (!l.dot ==> l.fraction == "")
    && (l.exponentText.Some? ==> l.exponentText.value.0 in {'e', 'E'})
    && Exponent(l).Some?
  }

  /** 10^p for p >= 0, and 1 below: 10^p is the fraction Raise(p) / Raise(-p). */
  function Raise(p: int): (r: nat)
    ensures r >= 1
    ensures p <= 0 ==> r == 1
  {
    Pow10(if p >= 0 then p else 0)
  }

  /** The literal times 10^scale is ScaledNum / ScaledDen: (whole + fraction / 10^len) * 10^(exponent + scale). */
  function ScaledNum(l: Literal, scale: i32): nat
    requires WellFormed(l)
  {
    Mantissa(l) * Raise(Exponent(l).value + scale)
  }

  /** whole and fraction read as one number, in units of 10^-len. */
  function Mantissa(l: Literal): nat
    requires AllDigits(l.whole) && AllDigits(l.fraction)
  {
    Digits(l.whole) * Pow10(|l.fraction|) + Digits(l.fraction)
  }

  function ScaledDen(l: Literal, scale: i32): (d: nat)
    requires WellFormed(l)
    ensures d > 0
  {
    ProductPositive(Pow10(|l.fraction|), Raise(-(Exponent(l).value + scale)));
    Pow10(|l.fraction|) * Raise(-(Exponent(l).value + scale))
  }

  lemma ProductPositive(a: int, b: int)
    requires a > 0 && b > 0
    ensures a * b > 0
  {}

  // ---- parse_decimal_scaled ----

  /** Cuts the text at the first exponent marker, then the mantissa at the first dot. */
  function ReadLiteral(text: string): (l: Literal)
    ensures !l.dot ==> l.fraction == ""
    ensures l.exponentText.Some? ==> l.exponentText.value.0 in {'e', 'E'}
  {
    match FindEither(text, 'e', 'E')
    case Some(index) =>
      var (whole, fraction, dot) := SplitDot(text[..index]);
      Literal(whole, dot, fraction, Some((text[index], text[index + 1..])))
    case None =>
      var (whole, fraction, dot) := SplitDot(text);
      Literal(whole, dot, fraction, None)
  }

  /** Nothing of the text is lost. */
  lemma ReadLiteralRenders(text: string)
    ensures Render(ReadLiteral(text)) == text
  {
    hide SplitDot, FindEither;
    var found := FindEither(text, 'e', 'E');
    if found.Some? {
      var index := found.value;
      assert text == text[..index] + ([text[index]] + text[index + 1..]);
    }
  }

  function ParseDecimalScaled(value: string, scale: i32): Rate {
    var text := Trim(value);
    if text == "" || text[0] == '-' || text[0] == '+' then Failure(NotNonNegative)
    else
      var l := ReadLiteral(text);
      if Exponent(l).None? then Failure(BadExponent)
      else if l.whole == "" || !AllDigits(l.whole) || !AllDigits(l.fraction) then Failure(BadDecimal)
      else ScaleLiteral(l, scale)
  }

  function ScaleLiteral(l: Literal, scale: i32): Rate
    requires WellFormed(l)
  {
    match ParseDigitsI128(l.whole + l.fraction)
    case None => Failure(OutOfRange)
    case Some(digits) =>
      var sum := CheckedAddI32(scale, Exponent(l).value);
      if sum.None? || !FitsI32(sum.value - AsI32(|l.fraction|)) then Failure(ScaleOutOfRange)
      else ScaleDigits(digits, sum.value - AsI32(|l.fraction|))
  }

  function ScaleDigits(digits: nat, power: i32): Rate {
    if power >= 0 then
      match CheckedPow10(power)
      case None => Failure(OutOfRange)
      case Some(p) =>
        if digits * p > I128_MAX then Failure(OutOfRange) else NarrowToI64(digits * p)
    else if power == I32_MIN then Failure(ScaleOutOfRange)
    else
      match CheckedPow10(-power)
      case None => Failure(OutOfRange)
      case Some(divisor) =>
        if digits + divisor / 2 > I128_MAX then Failure(OutOfRange)
        else NarrowToI64((digits + divisor / 2) / divisor)
  }

  /** `i64::try_from`. */
  function NarrowToI64(x: int): Rate { if FitsI64(x) then Success(x) else Failure(OutOfRange) }

  // ---- exactness ----

  lemma {:induction false} DigitsOfConcatenation(a: string, b: string)
    requires AllDigits(a) && AllDigits(b)
    ensures AllDigits(a + b)
    ensures Digits(a + b) == Digits(a) * Pow10(|b|) + Digits(b)
  {
    if b == "" {
      assert a + b == a;
    } else {
      var front := b[..|b| - 1];
      DigitsOfConcatenation(a, front);
      assert (a + b)[..|a + b| - 1] == a + front;
      TenTimes(Digits(a), Pow10(|front|), Pow10(|b|));
    }
  }

  lemma TenTimes(a: int, p: int, q: int)
    requires q == 10 * p
    ensures a * q == 10 * (a * p)
  {}

  /** r is digits * 10^power, rounded half up. */
  predicate Scales(r: int, digits: nat, power: int) {
    RoundsHalfUp(r, digits * Raise(power), Raise(-power))
  }

  lemma ScaledDigitsRound(digits: nat, power: i32)
    requires ScaleDigits(digits, power).Success?
    ensures Scales(ScaleDigits(digits, power).value, digits, power)
  {
    hide ScaleDigits, Scales, Pow10;
    if power >= 0 { ScaledUp(digits, power); } else { ScaledDown(digits, power); }
  }

  lemma ScaledUp(digits: nat, power: i32)
    requires power >= 0 && ScaleDigits(digits, power).Success?
    ensures Scales(ScaleDigits(digits, power).value, digits, power)
  {
    hide Pow10, RoundsHalfUp;
    WholeRounds(digits * Raise(power));
  }

  lemma ScaledDown(digits: nat, power: i32)
    requires power < 0 && ScaleDigits(digits, power).Success?
    ensures Scales(ScaleDigits(digits, power).value, digits, power)
  {
    hide Pow10, RoundsHalfUp;
    HalfDivisorRounds(digits, Raise(-power));
  }

  /** A non-negative fraction never rounds below zero. */
  lemma RoundedNotNegative(r: int, num: nat, den: int)
    requires den > 0 && RoundsHalfUp(r, num, den)
    ensures r >= 0
  {
    if r < 0 { ScalingKeepsOrder(2 * r + 1, -1, den); }
  }

  lemma WholeRounds(x: int)
    ensures RoundsHalfUp(x, x, 1)
  {}

  /** digits * 10^(shift - len) and digits * 10^shift / 10^len are the same fraction, up to a common factor. */
  lemma ShiftedFraction(r: int, digits: nat, shift: int, len: nat)
    requires Scales(r, digits, shift - len)
    ensures Pow10(len) * Raise(-shift) > 0
    ensures RoundsHalfUp(r, digits * Raise(shift), Pow10(len) * Raise(-shift))
  {
    hide RoundsHalfUp, Pow10;
    var num, den := digits * Raise(shift), Pow10(len) * Raise(-shift);
    if shift >= len {
      Pow10Adds(shift - len, len);
      Stretch(digits, Raise(shift - len), Pow10(len), Raise(shift));
      SameFraction(r, digits * Raise(shift - len), Raise(len - shift), num, den, Pow10(len));
    } else if shift >= 0 {
      Pow10Adds(len - shift, shift);
      SameFraction(r, digits * Raise(shift - len), Raise(len - shift), num, den, Raise(shift));
    } else {
      Pow10Adds(len, -shift);
      SameFraction(r, digits * Raise(shift - len), Raise(len - shift), num, den, 1);
    }
  }

  lemma SameFraction(r: int, n1: int, d1: int, n2: int, d2: int, factor: int)
    requires d1 > 0 && factor > 0 && n2 == n1 * factor && d2 == d1 * factor
    requires RoundsHalfUp(r, n1, d1)
    ensures d2 > 0 && RoundsHalfUp(r, n2, d2)
  {
    hide RoundsHalfUp;
    RoundingCancels(r, n1, d1, factor);
  }

  lemma Stretch(digits: int, a: int, b: int, ab: int)
    requires ab == a * b
    ensures digits * ab == (digits * a) * b
  {}

  /** An accepted rate is exactly the literal in the text, times 10^scale, rounded half up, and it fits an i64, when
      the number of decimals fits the i32 it is cast to. With more decimals the exact value rounds to zero, and only a
      result of zero is right. */
  lemma ParsedRateIsExact(value: string, scale: i32)
    requires ParseDecimalScaled(value, scale).Success?
    ensures var l, r := ReadLiteral(Trim(value)), ParseDecimalScaled(value, scale).value;
            && WellFormed(l) && Render(l) == Trim(value) && 0 <= r <= I64_MAX
            && (RoundsHalfUp(r, ScaledNum(l, scale), ScaledDen(l, scale)) <==> |l.fraction| <= I32_MAX || r == 0)
  {
    hide RoundsHalfUp, ScaledNum, ScaledDen, Trim, ReadLiteral;
    var l, r := ReadLiteral(Trim(value)), ParseDecimalScaled(value, scale).value;
    assert WellFormed(l) && ScaleLiteral(l, scale).Success?;
    ReadLiteralRenders(Trim(value));
    ScaleDigitsNotNegative(l, scale);
    if |l.fraction| <= I32_MAX {
      ScaledLiteralRounds(l, scale);
    } else {
      LongFractionRoundsToZero(l, scale);
      if RoundsHalfUp(r, ScaledNum(l, scale), ScaledDen(l, scale)) {
        RoundsHalfUpUnique(r, 0, ScaledNum(l, scale), ScaledDen(l, scale));
      }
    }
  }

  /** A decimal rate is accepted exactly when it is a literal without sign whose digits fit an i128 and whose value,
      scaled by at most 38 places either way, fits an i64 after rounding. */
  lemma AcceptedExactly(value: string, scale: i32)
    ensures var text, l := Trim(value), ReadLiteral(Trim(value));
            ParseDecimalScaled(value, scale).Success?
            <==> && text != "" && text[0] != '-' && text[0] != '+' && WellFormed(l) && Digits(l.whole + l.fraction) <= I128_MAX
                 && FitsI32(scale + Exponent(l).value)
                 && var power := scale + Exponent(l).value - AsI32(|l.fraction|); var digits := Digits(l.whole + l.fraction);
                    if 0 <= power <= 38 then digits * Pow10(power) <= I64_MAX
                    else if -38 <= power < 0 then
                      digits + Pow10(-power) / 2 <= I128_MAX && 2 * digits < (2 * I64_MAX + 1) * Pow10(-power)
                    else false
  {
    hide Pow10, Digits, Trim, ReadLiteral, ScaleDigits, AsI32;
    var l := ReadLiteral(Trim(value));
    if WellFormed(l) && Digits(l.whole + l.fraction) <= I128_MAX && FitsI32(scale + Exponent(l).value) {
      var power := scale + Exponent(l).value - AsI32(|l.fraction|);
      if FitsI32(power) { ScaledAccepted(Digits(l.whole + l.fraction), power); }
    }
  }

  lemma ScaledAccepted(digits: nat, power: i32)
    requires digits <= I128_MAX
    ensures ScaleDigits(digits, power).Success?
            <==> if 0 <= power <= 38 then digits * Pow10(power) <= I64_MAX
                 else if -38 <= power < 0 then
                   digits + Pow10(-power) / 2 <= I128_MAX && 2 * digits < (2 * I64_MAX + 1) * Pow10(-power)
                 else false
  {
    hide Pow10;
    if 0 <= power <= 38 { ProductPositiveOrZero(digits, Pow10(power)); }
    if -38 <= power < 0 { RoundedFits(digits, Pow10(-power)); }
  }

  lemma RoundedFits(digits: nat, divisor: nat)
    requires divisor >= 1
    ensures (digits + divisor / 2) / divisor <= I64_MAX <==> 2 * digits < (2 * I64_MAX + 1) * divisor
    ensures (digits + divisor / 2) / divisor >= 0
  {
    var r := (digits + divisor / 2) / divisor;
    HalfDivisorRounds(digits, divisor);
    if r <= I64_MAX { ScalingKeepsOrder(2 * r + 1, 2 * I64_MAX + 1, divisor); }
    if r > I64_MAX { ScalingKeepsOrder(2 * I64_MAX + 1, 2 * r - 1, divisor); }
  }

  /** A pricing response, and so every text in it, is at most 8 MiB long. */
  const PRICING_RESPONSE_LIMIT: nat := 8 * 1024 * 1024

  /** A rate from a fetched response is the one correctly rounded value. */
  lemma FetchedRateIsExact(value: string, scale: i32, v: int)
    requires |value| <= PRICING_RESPONSE_LIMIT && ParseDecimalScaled(value, scale).Success?
    ensures var l := ReadLiteral(Trim(value));
            WellFormed(l) && (RoundsHalfUp(v, ScaledNum(l, scale), ScaledDen(l, scale)) <==> v == ParseDecimalScaled(value, scale).value)
  {
    hide RoundsHalfUp, ScaledNum, ScaledDen, ReadLiteral, ParseDecimalScaled;
    var l, r := ReadLiteral(Trim(value)), ParseDecimalScaled(value, scale).value;
    TrimShrinks(value);
    ReadLiteralRenders(Trim(value));
    assert |l.fraction| <= |Render(l)|;
    ParsedRateIsExact(value, scale);
    if RoundsHalfUp(v, ScaledNum(l, scale), ScaledDen(l, scale)) {
      RoundsHalfUpUnique(v, r, ScaledNum(l, scale), ScaledDen(l, scale));
    }
  }

  lemma ScaleDigitsNotNegative(l: Literal, scale: i32)
    requires WellFormed(l) && ScaleLiteral(l, scale).Success?
    ensures ScaleLiteral(l, scale).value >= 0
  {
    hide Pow10, RoundsHalfUp;
    var digits, power := Digits(l.whole + l.fraction), scale + Exponent(l).value - AsI32(|l.fraction|);
    ScaledDigitsRound(digits, power);
    RoundedNotNegative(ScaleLiteral(l, scale).value, digits * Raise(power), Raise(-power));
  }

  /** The cast took at least 2^32 off the length, so a power that stayed in range is that much too high. */
  lemma LongFractionRoundsToZero(l: Literal, scale: i32)
    requires WellFormed(l) && |l.fraction| > I32_MAX && ScaleLiteral(l, scale).Success?
    ensures RoundsHalfUp(0, ScaledNum(l, scale), ScaledDen(l, scale))
  {
    hide Pow10, Scales, Mantissa, RoundsHalfUp, Raise;
    var shift, len := Exponent(l).value + scale, |l.fraction|;
    MantissaIsDigits(l);
    CastTakesOff(len);
    assert shift - AsI32(len) <= 38;
    TinyRoundsToZero(Mantissa(l), len - shift);
    ShiftedFraction(0, Mantissa(l), shift, len);
  }

  lemma CastTakesOff(len: nat)
    requires len > I32_MAX
    ensures len - AsI32(len) >= 0x1_0000_0000
  {}

  lemma TinyRoundsToZero(digits: nat, places: nat)
    requires digits <= I128_MAX && places >= 39
    ensures Scales(0, digits, 0 - places)
  {
    hide Pow10;
    Pow10Grows(39, places);
    Pow10At39();
    assert Raise(0 - places) == 1 && Raise(places) == Pow10(places);
  }

  lemma Pow10At39()
    ensures Pow10(39) > 2 * I128_MAX
  {
    hide Pow10;
    Pow10Adds(4, 4);
    Pow10Adds(8, 8);
    Pow10Adds(16, 16);
    Pow10Adds(32, 4);
    Pow10Adds(36, 2);
    Pow10Adds(38, 1);
    assert Pow10(1) == 10 && Pow10(2) == 100 && Pow10(4) == 10_000 by { SmallPowers(); }
  }

  lemma ScaledLiteralRounds(l: Literal, scale: i32)
    requires WellFormed(l) && |l.fraction| <= I32_MAX
    requires ScaleLiteral(l, scale).Success?
    ensures RoundsHalfUp(ScaleLiteral(l, scale).value, ScaledNum(l, scale), ScaledDen(l, scale))
  {
    hide Pow10, RoundsHalfUp, Scales, ScaleDigits, Raise, Mantissa;
    var shift, len := Exponent(l).value + scale, |l.fraction|;
    assert AsI32(len) == len;
    MantissaIsDigits(l);
    ScaledDigitsRound(Mantissa(l), shift - len);
    ShiftedFraction(ScaleLiteral(l, scale).value, Mantissa(l), shift, len);
  }

  lemma MantissaIsDigits(l: Literal)
    requires AllDigits(l.whole) && AllDigits(l.fraction)
    ensures AllDigits(l.whole + l.fraction) && Digits(l.whole + l.fraction) == Mantissa(l)
  {
    DigitsOfConcatenation(l.whole, l.fraction);
  }

  lemma {:induction false} TrimStartShrinks(s: string)
    ensures |TrimStart(s)| <= |s|
  {
    if s != "" && IsWhitespace(s[0]) { TrimStartShrinks(s[1..]); }
  }

  lemma {:induction false} TrimEndShrinks(s: string)
    ensures |TrimEnd(s)| <= |s|
  {
    if s != "" && IsWhitespace(s[|s| - 1]) { TrimEndShrinks(s[..|s| - 1]); }
  }

  lemma TrimShrinks(s: string)
    ensures |Trim(s)| <= |s|
  {
    TrimStartShrinks(s);
    TrimEndShrinks(TrimStart(s));
  }

  // ---- parse_usd_per_million ----

  function ParseUsdPerMillion(value: string): Rate {
    var text := Trim(value);
    if text == "" || text[0] == '-' || text[0] == '+' then Failure(NotNonNegative)
    else
      var (whole, fraction, _) := SplitDot(text);
      if |fraction| > 9 || !AllDigits(whole) || !AllDigits(fraction) then Failure(BadDecimal)
      else UsdNanos(whole, fraction)
  }

  function UsdNanos(whole: string, fraction: string): Rate
    requires AllDigits(whole) && AllDigits(fraction) && |fraction| <= 9
  {
    match ParseDigitsI128(whole)
    case None => Failure(OutOfRange)
    case Some(units) =>
      var nanos := if fraction == "" then 0 else Digits(fraction) * Pow10(9 - |fraction|);
      if units * 1_000_000_000 > I128_MAX || units * 1_000_000_000 + nanos > I128_MAX then Failure(OutOfRange)
      else NarrowToI64(units * 1_000_000_000 + nanos)
  }

  /** Digits and at most one dot hold no exponent marker, so both parsers cut the text the same way. */
  lemma PlainLiteral(text: string)
    requires AllDigits(SplitDot(text).0) && AllDigits(SplitDot(text).1)
    ensures var (whole, fraction, dot) := SplitDot(text);
            ReadLiteral(text) == Literal(whole, dot, fraction, None)
  {
    var (whole, fraction, dot) := SplitDot(text);
    forall k | 0 <= k < |text|
      ensures IsDigit(text[k]) || text[k] == '.'
    {
      if k < |whole| { assert text[k] == whole[k]; }
      if k >= |text| - |fraction| { assert text[k] == fraction[k - (|text| - |fraction|)]; }
    }
  }

  /** An override rate is accepted exactly when it is digits with at most nine decimals after at most one dot, and its
      value in nano-USD fits an i64; that value is what it is read as. */
  lemma OverrideAcceptedExactly(value: string)
    ensures var text := Trim(value); var (whole, fraction, _) := SplitDot(text);
            && (ParseUsdPerMillion(value).Success?
                <==> && text != "" && text[0] != '-' && text[0] != '+' && AllDigits(whole) && whole != "" && AllDigits(fraction) && |fraction| <= 9
                     && Digits(whole) * 1_000_000_000 + Digits(fraction) * Pow10(9 - |fraction|) <= I64_MAX)
            && (ParseUsdPerMillion(value).Success?
                ==> ParseUsdPerMillion(value).value == Digits(whole) * 1_000_000_000 + Digits(fraction) * Pow10(9 - |fraction|))
  {
    hide Pow10, Trim, SplitDot;
    var (whole, fraction, _) := SplitDot(Trim(value));
    if AllDigits(whole) && AllDigits(fraction) && |fraction| <= 9 {
      assert fraction == "" ==> Digits(fraction) == 0;
      hide Digits;
      ProductPositiveOrZero(Digits(fraction), Pow10(9 - |fraction|));
    }
  }

  lemma ProductPositiveOrZero(a: nat, b: nat)
    ensures a * b >= 0 && (a == 0 ==> a * b == 0)
  {}

  /** Whatever the override parser accepts, the snapshot parser reads as the same rate at scale 9. */
  lemma UsdRateAgreesWithDecimal(value: string)
    requires ParseUsdPerMillion(value).Success?
    ensures ParseDecimalScaled(value, 9) == ParseUsdPerMillion(value)
  {
    var text := Trim(value);
    var (whole, fraction, dot) := SplitDot(text);
    PlainLiteral(text);
    UsdLiteralAgrees(whole, fraction, dot);
  }

  lemma UsdLiteralAgrees(whole: string, fraction: string, dot: bool)
    requires AllDigits(whole) && AllDigits(fraction) && |fraction| <= 9 && (!dot ==> fraction == "")
    requires UsdNanos(whole, fraction).Success?
    ensures ScaleLiteral(Literal(whole, dot, fraction, None), 9) == UsdNanos(whole, fraction)
  {
    hide Pow10, ScaleDigits, Digits;
    DigitsOfConcatenation(whole, fraction);
    NineDecimals(whole, fraction);
    ScaleUpInRange(Digits(whole + fraction), 9 - |fraction|, UsdNanos(whole, fraction).value);
  }

  lemma ScaleUpInRange(digits: nat, power: nat, product: int)
    requires power <= 9 && product == digits * Pow10(power) && product <= I64_MAX
    ensures ScaleDigits(digits, power) == Success(product)
  {
    hide Pow10;
  }

  lemma NineDecimals(whole: string, fraction: string)
    requires AllDigits(whole) && whole != "" && AllDigits(fraction) && |fraction| <= 9
    requires AllDigits(whole + fraction)
    requires Digits(whole + fraction) == Digits(whole) * Pow10(|fraction|) + Digits(fraction)
    ensures Digits(whole) * 1_000_000_000 + Digits(fraction) * Pow10(9 - |fraction|)
            == Digits(whole + fraction) * Pow10(9 - |fraction|)
    ensures Digits(whole + fraction) <= Digits(whole + fraction) * Pow10(9 - |fraction|)
    ensures fraction == "" ==> Digits(fraction) == 0
  {
    var up, down := Pow10(|fraction|), Pow10(9 - |fraction|);
    assert up * down == 1_000_000_000 by {
      hide Pow10;
      Pow10Adds(|fraction|, 9 - |fraction|);
      SmallPowers();
    }
    hide Pow10;
    Regroup(Digits(whole), up, Digits(fraction), down, 1_000_000_000, Digits(whole + fraction));
    NotBelow(Digits(whole + fraction), down);
  }

  lemma Regroup(a: int, b: int, c: int, d: int, bd: int, sum: int)
    requires bd == b * d && sum == a * b + c
    ensures sum * d == a * bd + c * d
  {}

  lemma NotBelow(a: nat, b: nat)
    requires b >= 1
    ensures a <= a * b
  {}
}
