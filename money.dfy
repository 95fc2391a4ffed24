/** Number formatting the storefront does on prices and amounts:
    `Math.round`, `Number.prototype.toFixed(2)` and decimal numerals.
    Numbers are exact reals and integers here. */
module Money {

  function DigitChar(d: nat): (c: char)
    requires d < 10
    ensures '0' <= c <= '9'
  {
    ('0' as int + d) as char
  }

  predicate AllDigits(s: string) {
    forall i :: 0 <= i < |s| ==> '0' <= s[i] <= '9'
  }

  /** The number a string of decimal digits denotes. */
  function DigitsValue(s: string): nat
    requires AllDigits(s)
  {
    if s == [] then 0 else DigitsValue(s[..|s| - 1]) * 10 + (s[|s| - 1] as int - '0' as int)
  }

  /** `String(n)` for a natural number: its decimal numeral, without
      leading zeros. */
  function NatToString(n: nat): (r: string)
    ensures 1 <= |r| && AllDigits(r)
    ensures |r| > 1 ==> r[0] != '0'
  {
    if n < 10 then [DigitChar(n)] else NatToString(n / 10) + [DigitChar(n % 10)]
  }

  /** Reading back the numeral of `n` gives `n`. */
  lemma {:induction false} NatToStringRoundTrip(n: nat)
    ensures DigitsValue(NatToString(n)) == n
  {
    if n >= 10 {
      NatToStringRoundTrip(n / 10);
      var r := NatToString(n);
      assert r[..|r| - 1] == NatToString(n / 10);
    }
  }

  /** `Math.round`: the integer nearest to `x`, a half rounded up. */
  function RoundHalfUp(x: real): (r: int)
    ensures r as real - 0.5 <= x < r as real + 0.5
  {
    (x + 0.5).Floor
  }

  /** Two digit characters read back as the two-digit number. */
  lemma TwoDigits(tens: nat, ones: nat)
    requires tens < 10 && ones < 10
    ensures AllDigits([DigitChar(tens), DigitChar(ones)])
    ensures DigitsValue([DigitChar(tens), DigitChar(ones)]) == tens * 10 + ones
  {
    var t := [DigitChar(tens), DigitChar(ones)];
    assert t[..1] == [DigitChar(tens)];
    assert DigitsValue([DigitChar(tens)]) == tens by {
      assert [DigitChar(tens)][..0] == [];
    }
    assert DigitsValue(t) == DigitsValue(t[..1]) * 10 + ones;
  }

  /** The numeral of `n` hundredths: the whole part, a point, and the two
      digits of the fraction. Read back, it denotes `n` again. */
  function Hundredths(n: nat): (r: string)
    ensures 4 <= |r| && r[|r| - 3] == '.'
    ensures AllDigits(r[..|r| - 3]) && AllDigits(r[|r| - 2..])
    ensures DigitsValue(r[..|r| - 3]) * 100 + DigitsValue(r[|r| - 2..]) == n
  {
    var whole, cents := NatToString(n / 100), n % 100;
    var frac := [DigitChar(cents / 10), DigitChar(cents % 10)];
    var r := whole + "." + frac;
    NatToStringRoundTrip(n / 100);
    TwoDigits(cents / 10, cents % 10);
    assert r[..|r| - 3] == whole;
    assert r[|r| - 2..] == frac;
    r
  }

  /** `x.toFixed(2)`: a minus sign for a negative `x`, then the numeral of
      the hundredths nearest to `|x|`, a half rounded up. */
  function Fixed2(x: real): (r: string)
    ensures |r| >= 4 && ((x < 0.0) == (r[0] == '-'))
    ensures x >= 0.0 ==> exists n: nat :: r == Hundredths(n) && n as real - 0.5 <= x * 100.0 < n as real + 0.5
    ensures x < 0.0 ==> exists n: nat :: r == "-" + Hundredths(n) && n as real - 0.5 <= -x * 100.0 < n as real + 0.5
  {
    var n := RoundHalfUp(if x < 0.0 then -x * 100.0 else x * 100.0);
    if x < 0.0 then "-" + Hundredths(n) else Hundredths(n)
  }

  /** `(amount / 100).toFixed(2)`: an amount in the smallest currency unit
      shown in the main unit. */
  function PriceText(amount: int): string {
    Fixed2(amount as real / 100.0)
  }

  /** For a whole number of paise the shown price is exact: `amount div 100`,
      a point, and `amount mod 100` as two digits; a negative amount gets a
      minus sign in front of the same digits of its magnitude. */
  lemma PriceTextExact(amount: int)
    ensures amount >= 0 ==> PriceText(amount) == Hundredths(amount)
    ensures amount >= 0 ==> PriceText(amount) == NatToString(amount / 100) + "." + [DigitChar(amount % 100 / 10), DigitChar(amount % 100 % 10)]
    ensures amount < 0 ==> PriceText(amount) == "-" + Hundredths(-amount)
  {
    var x := amount as real / 100.0;
    if amount >= 0 {
      assert RoundHalfUp(x * 100.0) == amount;
    } else {
      assert RoundHalfUp(-x * 100.0) == -amount;
    }
  }

  /** A non-negative price converted to the nearest whole number of paise
      reads, once shown again, exactly as `toFixed(2)` showed the price. */
  lemma PaiseKeepShownPrice(x: real)
    requires x >= 0.0
    ensures PriceText(RoundHalfUp(x * 100.0)) == Fixed2(x)
  {
    var n := RoundHalfUp(x * 100.0);
    PriceTextExact(n);
    assert Fixed2(x) == Hundredths(n);
  }
}
