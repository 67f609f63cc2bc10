/** String helpers standing in for `fmt.Sprintf("%d", …)` and `strings.HasPrefix`. */
module Strings {

  function DigitChar(d: nat): (c: char)
    requires d < 10
    ensures '0' <= c <= '9'
  {
    "0123456789"[d]
  }

  /** The decimal rendering of a natural number, as `%d` prints it. */
  function NatToString(n: nat): (s: string)
    ensures 1 <= |s|
    ensures forall i | 0 <= i < |s| :: '0' <= s[i] <= '9'
    ensures (n < 10) == (|s| == 1)
  {
    if n < 10 then [DigitChar(n)] else NatToString(n / 10) + [DigitChar(n % 10)]
  }

  lemma DigitCharInjective(a: nat, b: nat)
    requires a < 10 && b < 10
    ensures DigitChar(a) == DigitChar(b) ==> a == b
  {
  }

  /** Distinct numbers have distinct decimal renderings. */
  lemma {:induction false} NatToStringInjective(a: nat, b: nat)
    ensures NatToString(a) == NatToString(b) ==> a == b
  {
    if NatToString(a) == NatToString(b) {
      var s := NatToString(a);
      if a < 10 || b < 10 {
        DigitCharInjective(a % 10, b % 10);
        assert a < 10 && b < 10;
        assert s == [DigitChar(a)] == [DigitChar(b)];
      } else {
        var sa, sb := NatToString(a / 10), NatToString(b / 10);
        assert s == sa + [DigitChar(a % 10)];
        assert s == sb + [DigitChar(b % 10)];
        assert sa == s[..|s| - 1] == sb;
        DigitCharInjective(a % 10, b % 10);
        assert s[|s| - 1] == DigitChar(a % 10) == DigitChar(b % 10);
        NatToStringInjective(a / 10, b / 10);
      }
    }
  }

  predicate HasPrefix(s: string, prefix: string) {
    |prefix| <= |s| && s[..|prefix|] == prefix
  }

  /** Two strings that share a prefix differ exactly when their remainders differ. */
  lemma SamePrefixDistinct(p: string, x: string, y: string)
    ensures p + x == p + y <==> x == y
  {
    if p + x == p + y {
      assert x == (p + x)[|p|..];
      assert y == (p + y)[|p|..];
    }
  }
}
