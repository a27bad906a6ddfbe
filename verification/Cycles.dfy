/** Successor arrays: following them, and arrays that are one single cycle. */
module Cycles {

  ghost predicate InRange(p: seq<nat>) {
    forall i :: 0 <= i < |p| ==> p[i] < |p|
  }

  /** The element reached from x in k steps. */
  function Follow(p: seq<nat>, k: nat, x: nat): (y: nat)
    requires InRange(p) && x < |p|
    ensures y < |p|
    decreases k
  {
    if k == 0 then x else p[Follow(p, k - 1, x)]
  }

  lemma {:induction false} FollowAdd(p: seq<nat>, a: nat, b: nat, x: nat)
    requires InRange(p) && x < |p|
    ensures Follow(p, a + b, x) == Follow(p, b, Follow(p, a, x))
    decreases b
  {
    if b != 0 {
      FollowAdd(p, a, b - 1, x);
    }
  }

  // ----- cycle orders

  ghost predicate Injective(c: seq<nat>) {
    forall a, b :: 0 <= a < b < |c| ==> c[a] != c[b]
  }

  /** The position after a in a ring of n. */
  function After(n: nat, a: nat): nat { if a + 1 < n then a + 1 else 0 }

  /** c lists every element of p once, each followed by its successor and the last by the first. */
  ghost predicate Order(p: seq<nat>, c: seq<nat>) {
    && |c| == |p|
    && InRange(c) && Injective(c)
    && (forall x :: 0 <= x < |p| ==> x in c)
    && (forall a {:trigger p[c[a]]} :: 0 <= a < |c| ==> p[c[a]] == c[After(|c|, a)])
  }

  ghost predicate SingleCycle(p: seq<nat>) {
    exists c :: Order(p, c)
  }

  /** y is reached from x in fewer than |p| steps. */
  ghost predicate Reached(p: seq<nat>, x: nat, y: nat)
    requires InRange(p) && x < |p|
  {
    exists k :: 0 <= k < |p| && Follow(p, k, x) == y
  }

  /** The position of an element in a cycle order. */
  lemma Position(p: seq<nat>, c: seq<nat>, x: nat) returns (a: nat)
    requires Order(p, c) && x < |p|
    ensures a < |c| && c[a] == x
  {
    assert x in c;
    a :| 0 <= a < |c| && c[a] == x;
  }

  /** From x, n = |p| steps visit every element exactly once and come back. */
  ghost predicate ToursFrom(p: seq<nat>, x: nat)
    requires InRange(p) && x < |p|
  {
    && Follow(p, |p|, x) == x
    && (forall y :: 0 <= y < |p| ==> Reached(p, x, y))
    && (forall k, k' :: 0 <= k < k' < |p| ==> Follow(p, k, x) != Follow(p, k', x))
  }

  lemma OrderInRange(p: seq<nat>, c: seq<nat>)
    requires Order(p, c)
    ensures InRange(p)
  {
    forall x | 0 <= x < |p|
      ensures p[x] < |p|
    {
      var a := Position(p, c, x);
    }
  }

  lemma {:induction false} FollowOrder(p: seq<nat>, c: seq<nat>, a: nat, k: nat)
    requires Order(p, c) && InRange(p) && a < |p| && k <= |p|
    ensures Follow(p, k, c[a]) == c[if a + k < |p| then a + k else a + k - |p|]
    decreases k
  {
    if k != 0 {
      FollowOrder(p, c, a, k - 1);
      var b := if a + (k - 1) < |p| then a + (k - 1) else a + (k - 1) - |p|;
      assert p[c[b]] == c[After(|c|, b)];
    }
  }

  /** A single cycle is toured from any of its elements. */
  lemma CycleTours(p: seq<nat>, x: nat)
    requires SingleCycle(p) && x < |p|
    ensures InRange(p) && ToursFrom(p, x)
  {
    var c :| Order(p, c);
    OrderInRange(p, c);
    var a := Position(p, c, x);
    FollowOrder(p, c, a, |p|);
    forall y | 0 <= y < |p|
      ensures Reached(p, x, y)
    {
      var b := Position(p, c, y);
      var k := if a <= b then b - a else b + |p| - a;
      FollowOrder(p, c, a, k);
      assert Follow(p, k, x) == y;
    }
    forall k, k' | 0 <= k < k' < |p|
      ensures Follow(p, k, x) != Follow(p, k', x)
    {
      FollowOrder(p, c, a, k);
      FollowOrder(p, c, a, k');
    }
  }

  /** Different elements of a single cycle have different successors. */
  lemma CycleInjective(p: seq<nat>)
    requires SingleCycle(p)
    ensures InRange(p) && Injective(p)
  {
    var c :| Order(p, c);
    OrderInRange(p, c);
    forall x, y | 0 <= x < y < |p|
      ensures p[x] != p[y]
    {
      var a := Position(p, c, x);
      var b := Position(p, c, y);
    }
  }

  lemma {:induction false} FollowInjective(p: seq<nat>, k: nat, x: nat, y: nat)
    requires InRange(p) && Injective(p) && x < |p| && y < |p| && x != y
    ensures Follow(p, k, x) != Follow(p, k, y)
    decreases k
  {
    if k != 0 {
      FollowInjective(p, k - 1, x, y);
      var a, b := Follow(p, k - 1, x), Follow(p, k - 1, y);
      assert a < b ==> p[a] != p[b];
      assert b < a ==> p[b] != p[a];
    }
  }

  // ----- inserting and removing the last element

  /** Element m is spliced in before element j: j's predecessor now leads to m, and m to j. */
  function Insert(q: seq<nat>, j: nat): (p: seq<nat>)
    ensures |p| == |q| + 1
  {
    seq(|q|, k requires 0 <= k < |q| => if q[k] == j then |q| else q[k]) + [j]
  }

  /** The last element m is bypassed: its predecessor now leads to its successor. */
  function Remove(p: seq<nat>): (q: seq<nat>)
    requires p != []
    ensures |q| == |p| - 1
  {
    var m := |p| - 1;
    seq(m, k requires 0 <= k < m => if p[k] == m then p[m] else p[k])
  }

  /** The order c with |c| inserted before its entry t (at the end, if t is the first). */
  function InsertOrder(c: seq<nat>, t: nat): (d: seq<nat>)
    requires t < |c|
    ensures |d| == |c| + 1
  {
    var at := if t == 0 then |c| else t;
    seq(|c| + 1, a requires 0 <= a <= |c| => if a < at then c[a] else if a == at then |c| else c[a - 1])
  }

  lemma InsertCycle(q: seq<nat>, j: nat)
    requires SingleCycle(q) && j < |q|
    ensures SingleCycle(Insert(q, j))
  {
    var c :| Order(q, c);
    var t := Position(q, c, j);
    InsertOrdered(q, c, t);
  }

  lemma InsertOrdered(q: seq<nat>, c: seq<nat>, t: nat)
    requires Order(q, c) && t < |c|
    ensures Order(Insert(q, c[t]), InsertOrder(c, t))
  {
    var m, j, p, d := |q|, c[t], Insert(q, c[t]), InsertOrder(c, t);
    forall x | 0 <= x <= m
      ensures x in d
    {
      if x < m {
        var a := Position(q, c, x);
        assert d[if t == 0 || a < t then a else a + 1] == x;
      } else {
        assert d[if t == 0 then m else t] == m;
      }
    }
    forall a {:trigger p[d[a]]} | 0 <= a < |d|
      ensures d[a] < |p| && p[d[a]] == d[After(|d|, a)]
    {
      InsertSuccessor(q, c, t, a);
    }
  }

  lemma InsertSuccessor(q: seq<nat>, c: seq<nat>, t: nat, a: nat)
    requires Order(q, c) && t < |c| && a <= |c|
    ensures var p, d := Insert(q, c[t]), InsertOrder(c, t);
      d[a] < |p| && p[d[a]] == d[After(|d|, a)]
  {
    var m, d := |q|, InsertOrder(c, t);
    var at := if t == 0 then m else t;
    if a < at {
      assert q[c[a]] == c[After(m, a)];
    } else if a > at {
      assert q[c[a - 1]] == c[After(m, a - 1)];
    } else {
      assert d[a] == m;
    }
  }

  /** Removing the last element of a single cycle leaves a single cycle, and inserting it again restores it. */
  lemma RemoveCycle(p: seq<nat>)
    requires SingleCycle(p) && |p| >= 2
    ensures SingleCycle(Remove(p)) && p[|p| - 1] < |p| - 1 && Insert(Remove(p), p[|p| - 1]) == p
  {
    var c :| Order(p, c);
    var m := |p| - 1;
    var t := Position(p, c, m);
    RemoveOrdered(p, c, t);
    CycleInjective(p);
    assert p[c[t]] == c[After(|c|, t)];
    var q := Remove(p);
    forall k | 0 <= k < m
      ensures Insert(q, p[m])[k] == p[k]
    {
    }
  }

  /** The order c without its entry t. */
  function Drop(c: seq<nat>, t: nat): (d: seq<nat>)
    requires t < |c|
    ensures |d| == |c| - 1
  {
    seq(|c| - 1, a requires 0 <= a < |c| - 1 => c[Skip(t, a)])
  }

  function Skip(t: nat, a: nat): nat { if a < t then a else a + 1 }

  lemma RemoveOrdered(p: seq<nat>, c: seq<nat>, t: nat)
    requires Order(p, c) && |p| >= 2 && t < |c| && c[t] == |p| - 1
    ensures Order(Remove(p), Drop(c, t))
  {
    var m, q, d := |p| - 1, Remove(p), Drop(c, t);
    forall x | 0 <= x < m
      ensures x in d
    {
      var a := Position(p, c, x);
      assert d[if a < t then a else a - 1] == x;
    }
    forall a {:trigger q[d[a]]} | 0 <= a < |d|
      ensures d[a] < m && q[d[a]] == d[After(|d|, a)]
    {
      assert d[a] == c[Skip(t, a)];
      assert p[c[t]] == c[After(|c|, t)];
      assert p[c[Skip(t, a)]] == c[After(|c|, Skip(t, a))];
    }
  }

  /** What was inserted can be read off and undone. */
  lemma RemoveInsert(q: seq<nat>, j: nat)
    requires InRange(q) && j < |q|
    ensures Remove(Insert(q, j)) == q && Insert(q, j)[|q|] == j
  {
  }
}
