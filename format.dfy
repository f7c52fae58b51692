/** Decimal rendering of tile coordinates and counters inside the loader's template
    strings (`p-${x}-${y}`, `e-${n}`, `c-${n}`). */
module Format {

  function Digit(d: nat): char
    requires d < 10
  {
    "0123456789"[d]
  }

  predicate IsDigit(c: char) {
    '0' <= c <= '9'
  }

  /** The decimal numeral of `n`, without sign or leading zeros. */
  function NatToString(n: nat): (r: string)
    ensures |r| >= 1
    ensures forall i :: 0 <= i < |r| ==> IsDigit(r[i])
    ensures (|r| == 1) == (n < 10)
  {
    if n < 10 then [Digit(n)] else NatToString(n / 10) + [Digit(n % 10)]
  }

  lemma DigitInjective(a: nat, b: nat)
    requires a < 10 && b < 10 && Digit(a) == Digit(b)
    ensures a == b
  {
  }

  /** Different numbers have different numerals. */
  lemma {:induction false} NatToStringInjective(a: nat, b: nat)
    requires NatToString(a) == NatToString(b)
    ensures a == b
    decreases a
  {
    var sa, sb := NatToString(a), NatToString(b);
    if a < 10 {
      DigitInjective(a, b);
    } else {
      var pa, pb := NatToString(a / 10), NatToString(b / 10);
      assert sa == pa + [Digit(a % 10)] && sb == pb + [Digit(b % 10)];
      assert sa[..|sa| - 1] == pa && sb[..|sb| - 1] == pb;
      DigitInjective(a % 10, b % 10);
      NatToStringInjective(a / 10, b / 10);
    }
  }

  /** The platform id `p-${x}-${y}`. */
  function PlatformId(x: nat, y: nat): string {
    "p-" + NatToString(x) + "-" + NatToString(y)
  }

  /** The position of the first '-' in `s` (|s| when there is none). */
  function FirstDash(s: string): nat
    decreases |s|
  {
    if s == [] then 0 else if s[0] == '-' then 0 else 1 + FirstDash(s[1..])
  }

  lemma {:induction false} FirstDashAfterDigits(a: string, b: string)
    requires forall i :: 0 <= i < |a| ==> IsDigit(a[i])
    ensures FirstDash(a + "-" + b) == |a|
    decreases |a|
  {
    if a != [] {
      assert (a + "-" + b)[1..] == a[1..] + "-" + b;
      FirstDashAfterDigits(a[1..], b);
    }
  }

  /** Splitting at the first '-' after two digit-only prefixes recovers both parts. */
  lemma SplitAtDash(a: string, b: string, c: string, d: string)
    requires forall i :: 0 <= i < |a| ==> IsDigit(a[i])
    requires forall i :: 0 <= i < |c| ==> IsDigit(c[i])
    requires a + "-" + b == c + "-" + d
    ensures a == c && b == d
  {
    var s := a + "-" + b;
    FirstDashAfterDigits(a, b);
    FirstDashAfterDigits(c, d);
    assert a == s[..|a|] == c;
    assert b == s[|a| + 1..] == d;
  }

  /** Distinct tile coordinates give distinct platform ids. */
  lemma PlatformIdInjective(x1: nat, y1: nat, x2: nat, y2: nat)
    requires PlatformId(x1, y1) == PlatformId(x2, y2)
    ensures x1 == x2 && y1 == y2
  {
    var s1, s2 := PlatformId(x1, y1), PlatformId(x2, y2);
    assert s1[2..] == NatToString(x1) + "-" + NatToString(y1);
    assert s2[2..] == NatToString(x2) + "-" + NatToString(y2);
    SplitAtDash(NatToString(x1), NatToString(y1), NatToString(x2), NatToString(y2));
    NatToStringInjective(x1, x2);
    NatToStringInjective(y1, y2);
  }
}
