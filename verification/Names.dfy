/** Decimal numerals inside label names: a name built from numbers and separators determines the numbers. */
module Names {

  predicate IsDigit(c: char) {
    '0' <= c <= '9'
  }

  function Digit(d: nat): (c: char)
    requires d < 10
    ensures IsDigit(c)
  {
    "0123456789"[d]
  }

  /** The decimal numeral of n, as string interpolation prints it. */
  function Dec(n: nat): (s: string)
    ensures |s| > 0 && forall i :: 0 <= i < |s| ==> IsDigit(s[i])
  {
    if n < 10 then [Digit(n)] else Dec(n / 10) + [Digit(n % 10)]
  }

  /** The number a string of decimal digits stands for. */
  function Reads(s: string): int {
    if s == "" then 0 else 10 * Reads(s[..|s| - 1]) + (s[|s| - 1] as int - '0' as int)
  }

  /** The numeral reads as the number, and has no leading zero. */
  lemma {:induction false} DecReads(n: nat)
    ensures Reads(Dec(n)) == n && (n >= 10 ==> Dec(n)[0] != '0')
    decreases n
  {
    var s := Dec(n);
    DigitReads(n % 10);
    if n < 10 {
      assert s[..0] == "";
    } else {
      DecReads(n / 10);
      assert s[..|s| - 1] == Dec(n / 10);
      if n < 100 {
        DigitReads(n / 10);
        assert Dec(n / 10) == [Digit(n / 10)];
      }
    }
  }

  lemma DigitReads(d: nat)
    requires d < 10
    ensures Digit(d) as int - '0' as int == d && (d >= 1 ==> Digit(d) != '0')
  {
  }

  lemma Numerals()
    ensures Dec(1) == "1" && Dec(2) == "2" && Dec(3) == "3" && Dec(4) == "4" && Dec(8) == "8"
  {
  }

  /** A separator: text that does not continue a numeral. */
  predicate Stops(s: string) {
    s == "" || !IsDigit(s[0])
  }

  lemma {:induction false} DecInjective(a: nat, b: nat)
    requires Dec(a) == Dec(b)
    ensures a == b
    decreases a + b
  {
    var s := Dec(a);
    assert s[|s| - 1] == Digit(a % 10) == Digit(b % 10);
    if a >= 10 && b >= 10 {
      assert s[..|s| - 1] == Dec(a / 10);
      assert s[..|s| - 1] == Dec(b / 10);
      DecInjective(a / 10, b / 10);
    }
  }

  lemma NumeralEnds(a: nat, s: string, b: nat, t: string)
    requires Dec(a) + s == Dec(b) + t && Stops(s)
    ensures |Dec(b)| <= |Dec(a)|
  {
    var w := Dec(a) + s;
    assert s != "" ==> w[|Dec(a)|] == s[0];
    assert forall i :: 0 <= i < |Dec(b)| ==> IsDigit((Dec(b) + t)[i]);
  }

  /** A numeral is read off the front of a string in only one way. */
  lemma DecSplit(a: nat, s: string, b: nat, t: string)
    requires Dec(a) + s == Dec(b) + t
    requires Stops(s) && Stops(t)
    ensures a == b && s == t
  {
    var w := Dec(a) + s;
    NumeralEnds(a, s, b, t);
    NumeralEnds(b, t, a, s);
    assert Dec(a) == w[..|Dec(a)|] == Dec(b);
    assert s == w[|Dec(a)|..] == t;
    DecInjective(a, b);
  }

  /** Two strings with a common front of the same length agree on the rest. */
  lemma Cancel(front: string, s: string, t: string)
    requires front + s == front + t
    ensures s == t
  {
    assert s == (front + s)[|front|..] == t;
  }
}
