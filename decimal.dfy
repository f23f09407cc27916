/**
 * Decimal rendering of non-negative integers (Ruby's `Integer#to_s`), used for
 * the `Content-Length` header and for ports in `host:port` strings, and its
 * inverse on strings of digits.
 */
module Decimal {
  import opened Wrappers

  predicate IsDigit(c: char) {
    '0' <= c <= '9'
  }

  predicate AllDigits(s: string) {
    forall i :: 0 <= i < |s| ==> IsDigit(s[i])
  }

  function DigitChar(d: nat): (c: char)
    requires d < 10
    ensures IsDigit(c) && c as int - '0' as int == d
  {
    ('0' as int + d) as char
  }

  /** `n.to_s`: the shortest decimal numeral of `n`. */
  function Show(n: nat): (s: string)
    ensures |s| > 0 && AllDigits(s)
    ensures s[0] == '0' ==> n == 0
  {
    if n < 10 then [DigitChar(n)] else Show(n / 10) + [DigitChar(n % 10)]
  }

  /** The value of a string of digits, most significant first. */
  function Value(s: string): nat
    requires AllDigits(s)
  {
    if s == [] then 0 else Value(s[..|s| - 1]) * 10 + (s[|s| - 1] as int - '0' as int)
  }

  /** Reads a non-empty string of digits as a number; anything else is not a numeral. */
  function Parse(s: string): (r: Option<nat>)
    ensures r.Some? <==> |s| > 0 && AllDigits(s)
  {
    if |s| > 0 && AllDigits(s) then Some(Value(s)) else None
  }

  lemma {:induction false} ValueShow(n: nat)
    ensures Value(Show(n)) == n
  {
    if n >= 10 {
      var s := Show(n);
      assert s[..|s| - 1] == Show(n / 10);
      ValueShow(n / 10);
    }
  }

  /** Reading back what `Show` printed gives the number again. */
  lemma ParseShow(n: nat)
    ensures Parse(Show(n)) == Some(n)
  {
    ValueShow(n);
  }
}
