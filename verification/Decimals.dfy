/** Natural numbers as decimal text, and prefixes of a text. */
module Decimals {

  predicate IsDigit(c: char) { '0' <= c <= '9' }

  predicate AllDigits(s: string) { forall k | 0 <= k < |s| :: IsDigit(s[k]) }

  function Decimal(n: nat): (s: string)
    ensures s != "" && AllDigits(s)
  {
    if n < 10 then ['0' + n as char] else Decimal(n / 10) + ['0' + (n % 10) as char]
  }

  function DecimalValue(s: string): nat
    requires AllDigits(s)
  {
    if s == "" then 0 else 10 * DecimalValue(s[..|s| - 1]) + (s[|s| - 1] - '0') as nat
  }

  lemma {:induction false} ValueOfDecimal(n: nat)
    ensures DecimalValue(Decimal(n)) == n
  {
    if n < 10 {
      assert Decimal(n)[..0] == "";
    } else {
      ValueOfDecimal(n / 10);
      assert Decimal(n)[..|Decimal(n)| - 1] == Decimal(n / 10);
    }
  }

  /** The longest prefix of characters that satisfy a test. */
  function Prefix(s: string, ok: char -> bool): (n: nat)
    ensures n <= |s| && (forall k | 0 <= k < n :: ok(s[k])) && (n < |s| ==> !ok(s[n]))
  {
    if s != "" && ok(s[0]) then 1 + Prefix(s[1..], ok) else 0
  }

  lemma {:induction false} PrefixIs(a: string, b: string, ok: char -> bool)
    requires (forall k | 0 <= k < |a| :: ok(a[k])) && (b != "" ==> !ok(b[0]))
    ensures Prefix(a + b, ok) == |a|
  {
    if a == "" {
      assert a + b == b;
    } else {
      assert (a + b)[1..] == a[1..] + b;
      PrefixIs(a[1..], b, ok);
    }
  }

  /** The value of a digit is its place among the ten, and a further digit behind it makes it count ten times. */
  lemma {:induction false} DigitsAre(k: nat, s: string, c: char)
    requires k < 10 && AllDigits(s) && c == "0123456789"[k]
    ensures DecimalValue("") == 0 && DecimalValue(s + [c]) == 10 * DecimalValue(s) + k
    ensures Decimal(k) == [c]
  {
    assert (s + [c])[..|s|] == s && (s + [c])[|s|] == c;
    assert c == '0' + k as char;
  }
}
