/** The order in which the unrolled bandwidth loops visit their blocks, wrapping at the end of the array. */
module Walk {
  import opened Sums

  /** The block visited k steps after block c0, in a ring of nb. */
  function Ring(c0: nat, nb: nat, k: nat): nat {
    if c0 + k < nb then c0 + k else c0 + k - nb
  }

  /** How many steps after c0 block b is visited. */
  function Rank(c0: nat, nb: nat, b: nat): nat
    requires c0 < nb && b < nb
  {
    if c0 <= b then b - c0 else b + nb - c0
  }

  /** One pass: from c0 to the end, then from the beginning up to c0. */
  function Pass(c0: nat, nb: nat, k: nat): (s: seq<nat>)
    requires c0 < nb && k <= nb
    ensures |s| == k
  {
    seq(k, j requires 0 <= j < k => Ring(c0, nb, j))
  }

  function Passes(c0: nat, nb: nat, n: nat): (s: seq<nat>)
    requires c0 < nb
  {
    if n == 0 then [] else Passes(c0, nb, n - 1) + Pass(c0, nb, nb)
  }

  function Count(s: seq<nat>, b: nat): nat {
    if s == [] then 0 else Count(s[..|s| - 1], b) + (if s[|s| - 1] == b then 1 else 0)
  }

  lemma {:induction false} CountAppend(s: seq<nat>, t: seq<nat>, b: nat)
    ensures Count(s + t, b) == Count(s, b) + Count(t, b)
    decreases |t|
  {
    if t == [] {
      assert s + t == s;
    } else {
      assert (s + t)[..|s + t| - 1] == s + t[..|t| - 1];
      CountAppend(s, t[..|t| - 1], b);
    }
  }

  lemma {:induction false} CountPass(c0: nat, nb: nat, k: nat, b: nat)
    requires c0 < nb && k <= nb && b < nb
    ensures Count(Pass(c0, nb, k), b) == if Rank(c0, nb, b) < k then 1 else 0
    decreases k
  {
    if k != 0 {
      CountPass(c0, nb, k - 1, b);
      assert Pass(c0, nb, k)[..k - 1] == Pass(c0, nb, k - 1);
    }
  }

  /** n passes visit every block exactly n times. */
  lemma {:induction false} CountPasses(c0: nat, nb: nat, n: nat, b: nat)
    requires c0 < nb && b < nb
    ensures Count(Passes(c0, nb, n), b) == n && |Passes(c0, nb, n)| == n * nb
    decreases n
  {
    if n != 0 {
      CountPasses(c0, nb, n - 1, b);
      CountPass(c0, nb, nb, b);
      CountAppend(Passes(c0, nb, n - 1), Pass(c0, nb, nb), b);
      assert n * nb == (n - 1) * nb + nb;
    }
  }

  /** Each of nb blocks is visited n times, and nothing else. */
  ghost predicate Covers(visits: seq<nat>, nb: nat, n: nat) {
    |visits| == n * nb && forall b {:trigger Count(visits, b)} :: 0 <= b < nb ==> Count(visits, b) == n
  }

  lemma PassesCover(c0: nat, nb: nat, n: nat)
    requires c0 < nb
    ensures Covers(Passes(c0, nb, n), nb, n)
  {
    hide Passes, Count;
    CountPasses(c0, nb, n, 0);
    forall b {:trigger Count(Passes(c0, nb, n), b)} | 0 <= b < nb
      ensures Count(Passes(c0, nb, n), b) == n
    {
      CountPasses(c0, nb, n, b);
    }
  }

  /** Visit j is to the block j steps after the start, around a ring of nb blocks, and there are n full rounds. */
  ghost predicate InOrder(visits: seq<nat>, c0: nat, nb: nat, n: nat)
    requires nb >= 1
  {
    |visits| == n * nb && forall j {:trigger visits[j]} :: 0 <= j < |visits| ==> visits[j] == (c0 + j) % nb
  }

  lemma {:induction false} PassesInOrder(c0: nat, nb: nat, n: nat)
    requires c0 < nb
    ensures InOrder(Passes(c0, nb, n), c0, nb, n)
    decreases n
  {
    hide Ring;
    if n != 0 {
      PassesInOrder(c0, nb, n - 1);
      var before, all := Passes(c0, nb, n - 1), Passes(c0, nb, n);
      assert n * nb == (n - 1) * nb + nb;
      forall j {:trigger all[j]} | 0 <= j < |all|
        ensures all[j] == (c0 + j) % nb
      {
        if j < |before| {
          assert all[j] == before[j];
        } else {
          assert all[j] == Pass(c0, nb, nb)[j - |before|] == Ring(c0, nb, j - |before|);
          RingIs(c0, nb, n - 1, j - |before|);
        }
      }
    }
  }

  lemma RingIs(c0: nat, nb: nat, n: nat, k: nat)
    requires c0 < nb && k < nb
    ensures Ring(c0, nb, k) == (c0 + (n * nb + k)) % nb
  {
    if c0 + k < nb {
      Remainder(c0 + (n * nb + k), nb, n, c0 + k);
    } else {
      assert (n + 1) * nb == n * nb + nb;
      Remainder(c0 + (n * nb + k), nb, n + 1, c0 + k - nb);
    }
  }

  lemma PassStep(c0: nat, nb: nat, k: nat)
    requires c0 < nb && k < nb
    ensures Pass(c0, nb, k + 1) == Pass(c0, nb, k) + [Ring(c0, nb, k)]
  {
  }
}
