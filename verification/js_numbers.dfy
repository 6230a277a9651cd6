/** The two JavaScript number conversions the console relies on: the global
    parseInt (section 19.2.5 of ECMA-262), restricted to radix 10, and
    Number-to-string conversion (section 6.1.6.1.20 of ECMA-262) for the
    integral values parseInt produces. */
module JsNumbers {

  /** A number as parseInt can return it: an integer, or NaN when the input
      holds no digits to parse. */
  datatype JsNumber = Int(value: int) | NaN

  predicate IsDigit(c: char) {
    '0' <= c <= '9'
  }

  predicate AllDigits(s: string) {
    forall i :: 0 <= i < |s| ==> IsDigit(s[i])
  }

  predicate StartsWithDigit(s: string) {
    |s| > 0 && IsDigit(s[0])
  }

  function DigitValue(c: char): (d: nat)
    requires IsDigit(c)
    ensures d < 10
  {
    (c as int) - ('0' as int)
  }

  function DigitChar(d: nat): (c: char)
    requires d < 10
    ensures IsDigit(c) && DigitValue(c) == d
  {
    ('0' as int + d) as char
  }

  /** Length of the longest prefix of `s` made of decimal digits. */
  function DigitPrefixLength(s: string): (n: nat)
    ensures n <= |s|
    ensures AllDigits(s[..n])
    ensures n < |s| ==> !IsDigit(s[n])
  {
    if s == [] || !IsDigit(s[0]) then 0
    else
      var k := DigitPrefixLength(s[1..]);
      assert s[..1 + k] == [s[0]] + s[1..][..k];
      1 + k
  }

  /** The value of a string of decimal digits, most significant digit first. */
  function DigitsValue(s: string): nat
    requires AllDigits(s)
  {
    if s == [] then 0 else 10 * DigitsValue(s[..|s| - 1]) + DigitValue(s[|s| - 1])
  }

  /** The decimal numeral of `n`, without leading zeros. */
  function NatToDigits(n: nat): (s: string)
    ensures |s| > 0 && AllDigits(s)
    ensures |s| > 1 ==> s[0] != '0'
  {
    if n < 10 then [DigitChar(n)] else NatToDigits(n / 10) + [DigitChar(n % 10)]
  }

  /** Magnitudes from which Number-to-string switches to exponent form. */
  const PlainDecimalLimit: int := 1_000_000_000_000_000_000_000

  /** The numbers JavaScript prints as a plain numeral: NaN and integers of
      magnitude below 10^21. */
  predicate PrintsPlain(x: JsNumber) {
    x.NaN? || -PlainDecimalLimit < x.value < PlainDecimalLimit
  }

  /** Number-to-string conversion, as String(x) or `"" + x` performs it, for
      the numbers that print as a plain numeral (see PrintsPlain); beyond
      that range JavaScript prints exponent form, which is not modelled. */
  function NumberToString(x: JsNumber): (s: string)
    ensures x.NaN? ==> s == "NaN"
    ensures x.Int? && x.value >= 0 ==> |s| > 0 && AllDigits(s)
    ensures x.Int? && x.value < 0 ==> |s| > 1 && s[0] == '-' && AllDigits(s[1..])
    ensures x.Int? && x.value >= 0 && |s| > 1 ==> s[0] != '0'
    ensures x.Int? && x.value < 0 && |s| > 2 ==> s[1] != '0'
  {
    match x
    case NaN => "NaN"
    case Int(n) => if n < 0 then "-" + NatToDigits(-n) else NatToDigits(n)
  }

  /** parseInt drops one leading sign character before reading digits. */
  predicate HasSign(s: string) {
    |s| > 0 && (s[0] == '-' || s[0] == '+')
  }

  function Unsigned(s: string): (u: string)
    ensures HasSign(s) ==> s == [s[0]] + u
    ensures !HasSign(s) ==> u == s
  {
    if HasSign(s) then s[1..] else s
  }

  /** parseInt(s) with the default radix: read an optional sign, then the
      longest run of decimal digits; NaN when that run is empty. */
  function ParseInt(s: string): (r: JsNumber)
    ensures r.NaN? <==> !StartsWithDigit(Unsigned(s))
    ensures r.Int? && !(|s| > 0 && s[0] == '-') ==> r.value >= 0
  {
    var u := Unsigned(s);
    var n := DigitPrefixLength(u);
    if n == 0 then NaN
    else
      var m: int := DigitsValue(u[..n]);
      Int(if |s| > 0 && s[0] == '-' then -m else m)
  }

  /** The digits of a numeral give back the number it was made from. */
  lemma {:induction false} DigitsValueOfNatToDigits(n: nat)
    ensures DigitsValue(NatToDigits(n)) == n
  {
    if n >= 10 {
      var s := NatToDigits(n);
      assert s[..|s| - 1] == NatToDigits(n / 10);
      DigitsValueOfNatToDigits(n / 10);
    }
  }

  /** The run of digits at the front of `d + t` is exactly `d` when `t` does
      not start with a digit. */
  lemma {:induction false} DigitPrefixLengthOfDigits(d: string, t: string)
    requires AllDigits(d)
    requires !StartsWithDigit(t)
    ensures DigitPrefixLength(d + t) == |d|
  {
    if d != [] {
      assert (d + t)[1..] == d[1..] + t;
      DigitPrefixLengthOfDigits(d[1..], t);
    } else {
      assert d + t == t;
    }
  }

  /** parseInt reads a run of digits and stops at the first character that is
      not a digit, ignoring everything from there on. */
  lemma ParseIntStopsAtNonDigit(d: string, t: string)
    requires |d| > 0 && AllDigits(d)
    requires !StartsWithDigit(t)
    ensures StartsWithDigit(d + t)
    ensures ParseInt(d + t) == Int(DigitsValue(d))
  {
    var s := d + t;
    assert IsDigit(s[0]);
    assert Unsigned(s) == s;
    DigitPrefixLengthOfDigits(d, t);
    assert s[..|d|] == d;
  }

  /** With a sign in front, parseInt negates the digit run for '-' and keeps
      it for '+', again ignoring everything after the run. */
  lemma ParseIntSignedStopsAtNonDigit(c: char, d: string, t: string)
    requires c == '-' || c == '+'
    requires |d| > 0 && AllDigits(d)
    requires !StartsWithDigit(t)
    ensures ParseInt([c] + (d + t)) == Int(if c == '-' then -(DigitsValue(d) as int) else DigitsValue(d))
  {
    ParseIntStopsAtNonDigit(d, t);
    ParseIntAfterSign(c, d + t);
  }

  /** A sign in front of input that starts with a digit negates its value for
      '-' and keeps it for '+'. */
  lemma ParseIntAfterSign(c: char, u: string)
    requires c == '-' || c == '+'
    requires StartsWithDigit(u)
    ensures ParseInt(u).Int?
    ensures ParseInt([c] + u) == Int(if c == '-' then -ParseInt(u).value else ParseInt(u).value)
  {
  }

  /** Parsing the string form of a number that prints as a plain numeral gives
      that number back. */
  lemma ParseIntOfNumberToString(x: JsNumber)
    requires PrintsPlain(x)
    ensures ParseInt(NumberToString(x)) == x
  {
    match x
    case NaN =>
    case Int(n) =>
      var m: nat := if n < 0 then -n else n;
      var d := NatToDigits(m);
      DigitsValueOfNatToDigits(m);
      ParseIntStopsAtNonDigit(d, "");
      assert d + "" == d;
      if n < 0 {
        var s := "-" + d;
        assert Unsigned(s) == d;
      }
  }
}
