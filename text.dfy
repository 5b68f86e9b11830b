/**
 * The little text handling the pages do: `s.trim()` emptiness,
 * `parseInt(s)` (radix 10) and `n.toString()` for integers.
 */
module Text {
  import opened Wrappers

  /** ASCII white space: tab, line feed, vertical tab, form feed, carriage return, space. */
  predicate IsSpace(c: char) {
    c as int in {9, 10, 11, 12, 13, 32}
  }

  /** `!s.trim()`: the text is empty once white space is removed. */
  predicate Blank(s: string) {
    forall i :: 0 <= i < |s| ==> IsSpace(s[i])
  }

  predicate IsDigit(c: char) {
    '0' <= c <= '9'
  }

  predicate AllDigits(s: string) {
    forall i :: 0 <= i < |s| ==> IsDigit(s[i])
  }

  /** `s` without its leading white space. */
  function TrimStart(s: string): (r: string)
    ensures |r| <= |s| && r == s[|s| - |r|..]
    ensures r != [] ==> !IsSpace(r[0])
    ensures forall i :: 0 <= i < |s| - |r| ==> IsSpace(s[i])
  {
    if s != [] && IsSpace(s[0]) then TrimStart(s[1..]) else s
  }

  /** The longest prefix of `s` made of decimal digits. */
  function DigitPrefix(s: string): (r: string)
    ensures |r| <= |s| && r == s[..|r|] && AllDigits(r)
    ensures |r| < |s| ==> !IsDigit(s[|r|])
  {
    if s != [] && IsDigit(s[0]) then [s[0]] + DigitPrefix(s[1..]) else []
  }

  function DigitValue(c: char): nat
    requires IsDigit(c)
  {
    c as int - '0' as int
  }

  /** The number a non-empty run of decimal digits denotes, read left to right. */
  function DigitsValue(d: string): nat
    requires AllDigits(d)
  {
    if d == [] then 0 else DigitsValue(d[..|d| - 1]) * 10 + DigitValue(d[|d| - 1])
  }

  /**
   * `parseInt(s)`: skip leading white space, take an optional sign and the
   * longest run of digits after it; `None` (NaN) when there are no digits.
   */
  function ParseInt(s: string): Option<int> {
    var t := TrimStart(s);
    var signed := t != [] && (t[0] == '-' || t[0] == '+');
    var d := DigitPrefix(if signed then t[1..] else t);
    if d == [] then None
    else if signed && t[0] == '-' then Some(-(DigitsValue(d) as int))
    else Some(DigitsValue(d) as int)
  }

  function Digit(d: nat): (c: char)
    requires d < 10
    ensures IsDigit(c) && DigitValue(c) == d
  {
    (48 + d) as char
  }

  /** Decimal rendering of a natural number, without leading zeros. */
  function ShowNat(n: nat): (r: string)
    ensures r != [] && AllDigits(r)
  {
    if n < 10 then [Digit(n)] else ShowNat(n / 10) + [Digit(n % 10)]
  }

  /** `n.toString()` for an integer. */
  function ShowInt(n: int): (r: string)
    ensures r != []
  {
    if n < 0 then "-" + ShowNat(-n) else ShowNat(n)
  }

  lemma {:induction false} ShowNatValue(n: nat)
    ensures DigitsValue(ShowNat(n)) == n
  {
    if n >= 10 {
      var s := ShowNat(n);
      assert s[..|s| - 1] == ShowNat(n / 10);
      ShowNatValue(n / 10);
    }
  }

  /** A run of digits is read whole. */
  lemma DigitPrefixOfDigits(s: string)
    requires AllDigits(s)
    ensures DigitPrefix(s) == s
  {
  }

  /** Reading back what `toString` wrote gives the same integer. */
  lemma ParseShowRoundTrip(n: int)
    ensures ParseInt(ShowInt(n)) == Some(n)
  {
    var s := ShowInt(n);
    if n < 0 {
      var d := ShowNat(-n);
      assert s == "-" + d && s[1..] == d;
      assert TrimStart(s) == s;
      ShowNatValue(-n);
      DigitPrefixOfDigits(d);
    } else {
      assert IsDigit(s[0]) && TrimStart(s) == s;
      ShowNatValue(n);
      DigitPrefixOfDigits(s);
    }
  }
}
