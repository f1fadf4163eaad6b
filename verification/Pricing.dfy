/** Exact decimal prices: reading them, multiplying them out, and printing the result. */
module Pricing {
  import opened Options

  // ---- digits ----------------------------------------------------------------------------------

  predicate IsDigit(c: char) {
    '0' <= c <= '9'
  }

  predicate AllDigits(s: string) {
    forall i :: 0 <= i < |s| ==> IsDigit(s[i])
  }

  function DigitValue(c: char): nat
    requires IsDigit(c)
  {
    c as nat - '0' as nat
  }

  function DigitChar(d: nat): (c: char)
    requires d < 10
    ensures IsDigit(c) && DigitValue(c) == d
  {
    ('0' as nat + d) as char
  }

  function PowerOfTen(n: nat): (p: nat)
    ensures p > 0
  {
    if n == 0 then 1 else 10 * PowerOfTen(n - 1)
  }

  /** The number a digit string spells. */
  function Number(s: string): nat
    requires AllDigits(s)
  {
    if s == "" then 0 else 10 * Number(s[..|s| - 1]) + DigitValue(s[|s| - 1])
  }

  /** BigInt.toString. */
  function Digits(n: nat): (s: string)
    ensures s != "" && AllDigits(s)
  {
    if n < 10 then [DigitChar(n)] else Digits(n / 10) + [DigitChar(n % 10)]
  }

  function Zeros(n: nat): (s: string)
    ensures |s| == n && AllDigits(s)
  {
    seq(n, _ => '0')
  }

  function PadStart(s: string, length: nat): string {
    if |s| >= length then s else Zeros(length - |s|) + s
  }

  /** The string without its trailing zeros. */
  function StripZeros(s: string): (r: string)
    ensures |r| <= |s|
  {
    if s == "" || s[|s| - 1] != '0' then s else StripZeros(s[..|s| - 1])
  }

  /** What is stripped is zeros, and all of them. */
  lemma {:induction false} StripsZeros(s: string)
    ensures var r := StripZeros(s);
      && r == s[..|r|] && s == r + Zeros(|s| - |r|)
      && (r != "" ==> r[|r| - 1] != '0') && (AllDigits(s) ==> AllDigits(r))
  {
    if s != "" && s[|s| - 1] == '0' {
      var r := StripZeros(s[..|s| - 1]);
      StripsZeros(s[..|s| - 1]);
      assert s == s[..|s| - 1] + "0" && Zeros(|s| - |r|) == Zeros(|s| - 1 - |r|) + "0";
    }
  }

  // ---- decimals ----------------------------------------------------------------------------------

  /** A decimal as written: the digits before the point and those after it. */
  datatype Decimal = Decimal(whole: string, fraction: string)

  predicate IsDecimal(d: Decimal) {
    d.whole != "" && AllDigits(d.whole) && AllDigits(d.fraction)
  }

  /** All digits of a decimal as one number; its value is that number divided by ten to its scale. */
  function Unscaled(d: Decimal): nat
    requires IsDecimal(d)
  {
    Number(d.whole + d.fraction)
  }

  function Scale(d: Decimal): nat {
    |d.fraction|
  }

  /** The decimal is worth number / 10^scale. */
  predicate Worth(d: Decimal, number: nat, scale: nat)
    requires IsDecimal(d)
  {
    Unscaled(d) * PowerOfTen(scale) == number * PowerOfTen(Scale(d))
  }

  function Written(d: Decimal): string {
    if d.fraction == "" then d.whole else d.whole + "." + d.fraction
  }

  /** No superfluous zeros. */
  predicate Canonical(d: Decimal) {
    && IsDecimal(d) && (d.whole[0] == '0' ==> |d.whole| == 1)
    && (d.fraction != "" ==> d.fraction[|d.fraction| - 1] != '0')
  }

  function FormatDecimal(value: nat, scale: nat): Decimal {
    if scale == 0 then Decimal(Digits(value), "")
    else
      var digits := PadStart(Digits(value), scale + 1);
      Decimal(digits[..|digits| - scale], StripZeros(digits[|digits| - scale..]))
  }

  // ---- reading -----------------------------------------------------------------------------------

  /** The characters before the first point, and what follows it if there is one. */
  function SplitAtPoint(s: string): (string, Option<string>) {
    if s == "" then ("", None)
    else if s[0] == '.' then ("", Some(s[1..]))
    else
      var rest := SplitAtPoint(s[1..]);
      ([s[0]] + rest.0, rest.1)
  }

  /** One to twenty digits, and possibly a point and one to eighteen more. */
  function ReadPrice(s: string): Option<Decimal> {
    var parts := SplitAtPoint(s);
    var fraction := if parts.1.Some? then parts.1.value else "";
    if 1 <= |parts.0| <= 20 && AllDigits(parts.0) && (parts.1.Some? ==> 1 <= |fraction| <= 18) && AllDigits(fraction)
    then Some(Decimal(parts.0, fraction)) else None
  }

  predicate IsPrice(d: Decimal) {
    IsDecimal(d) && |d.whole| <= 20 && |d.fraction| <= 18
  }

  lemma {:induction false} SplitFinds(whole: string, rest: string)
    requires forall i :: 0 <= i < |whole| ==> whole[i] != '.'
    ensures SplitAtPoint(whole + "." + rest) == (whole, Some(rest))
    ensures SplitAtPoint(whole) == (whole, None)
  {
    if whole == "" {
      assert ("." + rest)[1..] == rest;
    } else {
      assert (whole + "." + rest)[1..] == whole[1..] + "." + rest;
      SplitFinds(whole[1..], rest);
      assert [whole[0]] + whole[1..] == whole;
    }
  }

  lemma {:induction false} SplitJoins(s: string)
    ensures var (whole, rest) := SplitAtPoint(s);
      s == (if rest.Some? then whole + "." + rest.value else whole) && forall i :: 0 <= i < |whole| ==> whole[i] != '.'
  {
    if s != "" && s[0] != '.' {
      SplitJoins(s[1..]);
      assert s == [s[0]] + s[1..];
    } else if s != "" {
      assert s == "." + s[1..];
    }
  }

  /** A price is read exactly when it is written as one, and then as that one. */
  lemma ReadInvertsWritten(s: string, d: Decimal)
    ensures ReadPrice(s) == Some(d) <==> IsPrice(d) && s == Written(d)
  {
    SplitJoins(s);
    if IsPrice(d) {
      SplitFinds(d.whole, d.fraction);
    }
  }

  /** None stands for a price that cannot be used. */
  function EstimateCostTrx(price: string, energy: nat): Option<string> {
    match ReadPrice(price)
    case None => None
    case Some(d) =>
      if Unscaled(d) == 0 then None else Some(Written(FormatDecimal(Unscaled(d) * energy, Scale(d) + 6)))
  }

  // ---- arithmetic of digit strings -----------------------------------------------------------------

  lemma {:induction false} PowersAdd(a: nat, b: nat)
    ensures PowerOfTen(a + b) == PowerOfTen(a) * PowerOfTen(b)
  {
    if b > 0 {
      PowersAdd(a, b - 1);
      assert PowerOfTen(a) * (10 * PowerOfTen(b - 1)) == 10 * (PowerOfTen(a) * PowerOfTen(b - 1));
    }
  }

  lemma NumberOfLast(s: string)
    requires s != "" && AllDigits(s)
    ensures Number(s) == 10 * Number(s[..|s| - 1]) + DigitValue(s[|s| - 1])
  {
  }

  lemma TenTimes(n: nat, p: nat)
    ensures n * (10 * p) == 10 * (n * p)
  {
  }

  lemma {:induction false} NumberJoins(a: string, b: string)
    requires AllDigits(a) && AllDigits(b)
    ensures Number(a + b) == Number(a) * PowerOfTen(|b|) + Number(b)
  {
    if b == "" {
      assert a + b == a;
    } else {
      hide Number;
      var init := b[..|b| - 1];
      assert (a + b)[..|a + b| - 1] == a + init;
      NumberOfLast(a + b);
      NumberOfLast(b);
      NumberJoins(a, init);
      TenTimes(Number(a), PowerOfTen(|init|));
    }
  }

  lemma {:induction false} ZerosAreZero(n: nat)
    ensures Number(Zeros(n)) == 0
  {
    if n > 0 {
      assert Zeros(n)[..n - 1] == Zeros(n - 1);
      ZerosAreZero(n - 1);
    }
  }

  lemma {:induction false} DigitsSpell(n: nat)
    ensures Number(Digits(n)) == n
    ensures Digits(n)[0] == '0' ==> n == 0 && |Digits(n)| == 1
  {
    if n < 10 {
      assert Digits(n)[..0] == "";
    } else {
      DigitsSpell(n / 10);
      assert Digits(n)[..|Digits(n)| - 1] == Digits(n / 10);
    }
  }

  /** A digit string without superfluous zeros is what its number prints as. */
  lemma {:induction false} DigitsOfNumber(s: string)
    requires s != "" && AllDigits(s) && (s[0] == '0' ==> |s| == 1)
    ensures Digits(Number(s)) == s
  {
    if |s| == 1 {
      assert s[..0] == "";
      SameDigit(s[0]);
    } else {
      var init := s[..|s| - 1];
      DigitsOfNumber(init);
      assert Digits(0)[0] == '0';
      assert Number(init) != 0;
      SameDigit(s[|s| - 1]);
      assert s == init + [s[|s| - 1]];
    }
  }

  lemma SameDigit(c: char)
    requires IsDigit(c)
    ensures DigitChar(DigitValue(c)) == c
  {
  }

  lemma LeadingZero(s: string)
    requires s != "" && AllDigits(s) && s[0] == '0'
    ensures Number(s) == Number(s[1..])
  {
    NumberJoins("0", s[1..]);
    assert "0" + s[1..] == s;
    assert "0"[..0] == "";
  }

  lemma PadFurther(digits: string, s: string)
    requires s != "" && s[0] == '0' && |digits| < |s| && PadStart(digits, |s| - 1) == s[1..]
    ensures PadStart(digits, |s|) == s
  {
    assert Zeros(|s| - |digits|) == "0" + Zeros(|s| - 1 - |digits|);
    assert s == "0" + s[1..];
  }

  /** Any digit string is its number, padded back to its length. */
  lemma {:induction false} PaddedNumber(s: string)
    requires s != "" && AllDigits(s)
    ensures PadStart(Digits(Number(s)), |s|) == s && |Digits(Number(s))| <= |s|
  {
    if s[0] == '0' && |s| > 1 {
      hide Number, Digits;
      LeadingZero(s);
      PaddedNumber(s[1..]);
      PadFurther(Digits(Number(s)), s);
    } else {
      DigitsOfNumber(s);
    }
  }

  lemma PadKeepsNumber(s: string, length: nat)
    requires AllDigits(s)
    ensures AllDigits(PadStart(s, length)) && Number(PadStart(s, length)) == Number(s)
  {
    if |s| < length {
      NumberJoins(Zeros(length - |s|), s);
      ZerosAreZero(length - |s|);
    }
  }

  // ---- printing ------------------------------------------------------------------------------------

  lemma Reorder(n: nat, p: nat, q: nat, x: nat, y: nat)
    requires x == p * q && y == n * q
    ensures n * x == y * p
  {
    assert n * (p * q) == n * q * p;
  }

  /** Dropping zeros at the end divides the number by a power of ten. */
  lemma DroppedZeros(whole: string, kept: string, fraction: string)
    requires AllDigits(whole) && AllDigits(kept) && AllDigits(fraction)
    requires |kept| <= |fraction| && fraction == kept + Zeros(|fraction| - |kept|)
    ensures Number(whole + kept) * PowerOfTen(|fraction|) == Number(whole + fraction) * PowerOfTen(|kept|)
  {
    hide Number, PowerOfTen;
    var k := |fraction| - |kept|;
    assert whole + fraction == whole + kept + Zeros(k);
    NumberJoins(whole + kept, Zeros(k));
    ZerosAreZero(k);
    PowersAdd(|kept|, k);
    Reorder(Number(whole + kept), PowerOfTen(|kept|), PowerOfTen(k), PowerOfTen(|fraction|), Number(whole + fraction));
  }

  lemma DigitsOfParts(s: string, n: nat)
    requires AllDigits(s) && n <= |s|
    ensures AllDigits(s[..n]) && AllDigits(s[n..]) && s[..n] + s[n..] == s
  {
  }

  lemma StripIsExact(whole: string, fraction: string)
    requires whole != "" && AllDigits(whole) && AllDigits(fraction)
    ensures AllDigits(StripZeros(fraction))
    ensures Worth(Decimal(whole, StripZeros(fraction)), Number(whole + fraction), |fraction|)
  {
    hide Number, PowerOfTen, StripZeros, AllDigits;
    var kept := StripZeros(fraction);
    StripsZeros(fraction);
    DroppedZeros(whole, kept, fraction);
  }

  lemma StripIsCanonical(whole: string, fraction: string)
    requires whole != "" && AllDigits(whole) && AllDigits(fraction) && (whole[0] == '0' ==> |whole| == 1)
    ensures Canonical(Decimal(whole, StripZeros(fraction)))
  {
    hide StripZeros, AllDigits;
    StripsZeros(fraction);
  }

  lemma PrintsPadded(digits: string, scale: nat)
    requires AllDigits(digits) && |digits| > scale > 0
    requires digits[0] == '0' ==> |digits| == scale + 1
    ensures var d := Decimal(digits[..|digits| - scale], StripZeros(digits[|digits| - scale..]));
      Canonical(d) && Worth(d, Number(digits), scale) && Scale(d) <= scale
  {
    hide Number, PowerOfTen, StripZeros, AllDigits, Worth, Canonical;
    DigitsOfParts(digits, |digits| - scale);
    var whole, fraction := digits[..|digits| - scale], digits[|digits| - scale..];
    StripIsCanonical(whole, fraction);
    StripIsExact(whole, fraction);
  }

  lemma PrintsWhole(value: nat)
    ensures var d := FormatDecimal(value, 0); Canonical(d) && Worth(d, value, 0) && Scale(d) == 0
  {
    DigitsSpell(value);
    assert Digits(value) + "" == Digits(value);
  }

  /** Printing is exact and leaves no superfluous zero or point. */
  lemma FormatIsExact(value: nat, scale: nat)
    ensures var d := FormatDecimal(value, scale); Canonical(d) && Worth(d, value, scale) && Scale(d) <= scale
  {
    hide Number, PowerOfTen, StripZeros, Digits, Canonical;
    DigitsSpell(value);
    if scale == 0 {
      PrintsWhole(value);
    } else {
      PadKeepsNumber(Digits(value), scale + 1);
      PrintsPadded(PadStart(Digits(value), scale + 1), scale);
    }
  }

  /** Printing what a canonical decimal is worth gives that decimal back. */
  lemma FormatInvertsReading(d: Decimal)
    requires Canonical(d)
    ensures FormatDecimal(Unscaled(d), Scale(d)) == d
  {
    var all, scale := d.whole + d.fraction, Scale(d);
    if scale == 0 {
      assert all == d.whole;
      DigitsOfNumber(d.whole);
    } else {
      var digits := PadStart(Digits(Number(all)), scale + 1);
      if |d.whole| == 1 {
        PaddedNumber(all);
      } else {
        DigitsOfNumber(all);
      }
      assert digits == all;
      assert digits[..|digits| - scale] == d.whole && digits[|digits| - scale..] == d.fraction;
    }
  }

  /**
   * The estimated cost is price * energy / 10^6 to the last digit: it exists exactly for a
   * positive price, and is the canonical writing of a decimal worth that much.
   */
  lemma CostIsExact(price: string, energy: nat)
    ensures EstimateCostTrx(price, energy).Some? <==> ReadPrice(price).Some? && Unscaled(ReadPrice(price).value) > 0
    ensures EstimateCostTrx(price, energy).Some? ==>
      var p := ReadPrice(price).value;
      exists d :: Canonical(d) && EstimateCostTrx(price, energy) == Some(Written(d)) &&
        Unscaled(d) * PowerOfTen(Scale(p) + 6) == Unscaled(p) * energy * PowerOfTen(Scale(d))
  {
    if EstimateCostTrx(price, energy).Some? {
      var p := ReadPrice(price).value;
      FormatIsExact(Unscaled(p) * energy, Scale(p) + 6);
      var d := FormatDecimal(Unscaled(p) * energy, Scale(p) + 6);
      assert Canonical(d);
    }
  }
}
