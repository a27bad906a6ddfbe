/** Wrapping sums of a loop counter. */
module Sums {
  import opened Words

  function Min(x: nat, y: nat): nat { if x < y then x else y }

  /** t increased n times by a. */
  function Scaled(t: Word, n: nat, a: nat): Word {
    Wrap(t + n * a)
  }

  lemma SumStep(t: Word, n: nat, a: Word)
    requires n >= 1
    ensures Scaled(Wrap(t + a), n - 1, a) == Scaled(t, n, a)
  {
    assert t + n * a == t + a + (n - 1) * a;
    WrapAdd(t + a, (n - 1) * a);
  }

  lemma OneStep(t: Word, a: Word)
    ensures Scaled(t, 1, a) == Wrap(t + a)
  {
  }

  function Sum(m: nat): nat {
    if m == 0 then 0 else m + Sum(m - 1)
  }

  lemma {:induction false} Gauss(m: nat)
    ensures Sum(m) == m * (m + 1) / 2
  {
    if m != 0 {
      Gauss(m - 1);
      assert m * (m + 1) == (m - 1) * m + 2 * m;
    }
  }

  /** Adding d copies of a counter that has wrapped is adding d copies of the counter. */
  lemma WrapProduct(t: Word, d: nat, m: nat, rest: nat)
    requires m <= TWO64
    ensures Scaled(Scaled(t, d, Wrap(m)), d, rest) == Scaled(t, d, m + rest)
  {
    if m == TWO64 {
      WrapFull(t, d, rest);
    } else {
      WrapPart(t, d, m, rest);
    }
  }

  lemma WrapPart(t: Word, d: nat, m: nat, rest: nat)
    ensures Scaled(Scaled(t, d, m), d, rest) == Scaled(t, d, m + rest)
  {
    var x, y := d * m, d * rest;
    Distribute(d, m, rest);
    WrapAdd(t + x, y);
  }

  lemma WrapFull(t: Word, d: nat, rest: nat)
    ensures Scaled(Scaled(t, d, 0), d, rest) == Scaled(t, d, TWO64 + rest)
  {
    var y := d * rest;
    Distribute(d, TWO64, rest);
    WrapMultiple(t + y, d);
  }

  lemma Distribute(d: nat, m: nat, rest: nat)
    ensures d * (m + rest) == d * m + d * rest
  {
  }

  lemma WrapMultiple(x: int, d: nat)
    ensures Wrap(x + d * TWO64) == Wrap(x)
  {
  }

  /** m times c. */
  function Product(m: nat, c: nat): nat { m * c }

  lemma ProductMore(m: nat, c: nat)
    requires m >= 1
    ensures Product(m, c) == c + Product(m - 1, c) && Product(0, c) == 0
  {
  }

  lemma Total(d: nat, n: nat)
    ensures Scaled(0, d, Sum(n)) == Wrap(d * (n * (n + 1) / 2))
  {
    Gauss(n);
  }

  /** Counting up to n and starting over at zero is counting modulo n. */
  lemma ModStep(k: nat, n: nat)
    requires n > 0
    ensures (k + 1) % n == if k % n + 1 == n then 0 else k % n + 1
  {
    var q, r := k / n, k % n;
    assert k + 1 == q * n + (r + 1);
    if r + 1 == n {
      assert k + 1 == (q + 1) * n + 0;
      Remainder(k + 1, n, q + 1, 0);
    } else {
      Remainder(k + 1, n, q, r + 1);
    }
  }

  lemma Remainder(x: int, n: int, q: int, r: int)
    requires n > 0 && x == q * n + r && 0 <= r < n
    ensures x % n == r && x / n == q
  {
    var e := x / n - q;
    assert e * n == r - x % n;
    assert e >= 1 ==> e * n >= n;
    assert e <= -1 ==> e * n <= -n;
  }
}
