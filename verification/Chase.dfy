/** Chasing a pattern: the loops of RunTest and RunMlpTest, and what a lap of the chase touches. */
module Chase {
  import opened Cycles
  import opened Shuffle
  import opened Patterns

  // ----- sums over a lap

  function Total(s: seq<nat>): nat {
    if s == [] then 0 else s[0] + Total(s[1..])
  }

  lemma {:induction false} TotalAppend(s: seq<nat>, t: seq<nat>)
    ensures Total(s + t) == Total(s) + Total(t)
    decreases |s|
  {
    if s == [] {
      assert s + t == t;
    } else {
      assert (s + t)[1..] == s[1..] + t;
      TotalAppend(s[1..], t);
    }
  }

  /** s lists 0 .. |s|-1 in some order. */
  ghost predicate Lists(s: seq<nat>) {
    InRange(s) && Injective(s) && forall y :: 0 <= y < |s| ==> y in s
  }

  /** The total of 0 .. n-1 does not depend on the order. */
  lemma {:induction false} TotalOfAll(s: seq<nat>)
    requires Lists(s)
    ensures 2 * Total(s) == |s| * (|s| - 1)
    decreases |s|
  {
    hide Lists, Total;
    if s == [] {
      TotalEmpty();
    } else {
      var m := |s| - 1;
      assert m in s by { LastListed(s); }
      var t :| 0 <= t < |s| && s[t] == m;
      ListsDrop(s, t);
      TotalOfAll(s[..t] + s[t + 1..]);
      TotalDrop(s, t);
      Pairs(m);
    }
  }

  lemma LastListed(s: seq<nat>)
    requires Lists(s) && s != []
    ensures |s| - 1 in s
  {
  }

  lemma TotalEmpty()
    ensures Total([]) == 0
  {
  }

  lemma Pairs(m: nat)
    ensures (m + 1) * m == m * (m - 1) + 2 * m
  {
  }

  lemma TotalDrop(s: seq<nat>, t: nat)
    requires t < |s|
    ensures Total(s) == Total(s[..t] + s[t + 1..]) + s[t]
  {
    TotalAppend(s[..t], s[t + 1..]);
    TotalAppend(s[..t], s[t..]);
    assert s == s[..t] + s[t..] && s[t..][1..] == s[t + 1..];
  }

  lemma ListsDrop(s: seq<nat>, t: nat)
    requires Lists(s) && t < |s| && s[t] == |s| - 1
    ensures Lists(s[..t] + s[t + 1..])
  {
    var d := s[..t] + s[t + 1..];
    assert forall a :: 0 <= a < |d| ==> d[a] == s[if a < t then a else a + 1];
    forall y | 0 <= y < |d|
      ensures y in d
    {
      assert y in s;
      var a :| 0 <= a < |s| && s[a] == y;
      assert d[if a < t then a else a - 1] == y;
    }
  }

  /** The elements visited in steps from+1 .. from+n of the chase from x. */
  function Visits(p: seq<nat>, x: nat, from: nat, n: nat): (s: seq<nat>)
    requires InRange(p) && x < |p|
    ensures |s| == n
    decreases n
  {
    if n == 0 then [] else Visits(p, x, from, n - 1) + [Follow(p, from + n, x)]
  }

  lemma {:induction false} VisitsAt(p: seq<nat>, x: nat, from: nat, n: nat, k: nat)
    requires InRange(p) && x < |p| && k < n
    ensures Visits(p, x, from, n)[k] == Follow(p, from + k + 1, x)
    decreases n
  {
    if k < n - 1 {
      VisitsAt(p, x, from, n - 1, k);
    }
  }

  /** Any |p| consecutive steps of a chase around a single cycle visit every element exactly once. */
  lemma LapVisitsAll(p: seq<nat>, x: nat, from: nat)
    requires SingleCycle(p) && InRange(p) && x < |p|
    ensures Lists(Visits(p, x, from, |p|))
  {
    var n, v := |p|, Visits(p, x, from, |p|);
    var y := Follow(p, from + 1, x);
    CycleTours(p, y);
    forall k | 0 <= k < n
      ensures v[k] == Follow(p, k, y)
    {
      VisitsAt(p, x, from, n, k);
      FollowAdd(p, from + 1, k, x);
    }
    forall z | 0 <= z < n
      ensures z in v
    {
      assert Reached(p, y, z);
      var k :| 0 <= k < n && Follow(p, k, y) == z;
      assert v[k] == z;
    }
  }

  // ----- RunTest

  /** The timed loop of RunTest over the filled array: scaledIterations dependent loads, summed modulo 2^32.
      The array need only hold the pattern: every index read is the place of an element. */
  method ChaseIndices(a: array<nat>, inc: nat, scaledIterations: nat, ghost p: seq<nat>)
    returns (current: nat, sum: nat)
    requires Strided(a[..], inc, p) && InRange(p) && p != []
    ensures current == Slot(Follow(p, scaledIterations + 1, 0), inc)
    ensures sum == Scale(Total(Visits(p, 0, 1, scaledIterations)), inc) % 0x1_0000_0000
  {
    hide Slot, Scale, Total, Visits, Strided;
    NoVisits(p);
    SlotZero(inc);
    current := Load(a, inc, 0, p, 0);
    sum := 0;
    ScaleZero(inc);
    for i := 0 to scaledIterations
      invariant current == Slot(Follow(p, i + 1, 0), inc)
      invariant sum == Scale(Total(Visits(p, 0, 1, i)), inc) % 0x1_0000_0000
    {
      ghost var y := Follow(p, i + 1, 0);
      current := Load(a, inc, current, p, y);
      ScaleStep(p, i, inc);
      sum := (sum + current) % 0x1_0000_0000;
    }
  }

  /** RunTest on an array of any contents: fill with one element per 64-byte line, then chase. */
  method RunTest(a: array<nat>, sizeKb: nat, scaledIterations: nat, rs: seq<nat>) returns (current: nat, sum: nat)
    requires 1 <= sizeKb && sizeKb * 256 < 0x8000_0000 && a.Length == sizeKb * 256 && |rs| == sizeKb * 16
    modifies a
    ensures var p := Shuffled(Drawn(rs));
      && SingleCycle(p) && InRange(p)
      && current == 16 * Follow(p, scaledIterations + 1, 0)
      && sum == 16 * Total(Visits(p, 0, 1, scaledIterations)) % 0x1_0000_0000
  {
    hide Strided, SameOffSlots, Shuffled, Drawn, Total, Visits, Slot, Scale, Chained;
    var listSize := sizeKb * 1024 / 4;
    ghost var p := Shuffled(Drawn(rs));
    ShuffleIsCycle(Drawn(rs));
    CycleInjective(p);
    FillPattern(a, listSize, 64, 4, rs);
    current, sum := ChaseIndices(a, 16, scaledIterations, p);
    LineScale(Follow(p, scaledIterations + 1, 0));
    LineScale(Total(Visits(p, 0, 1, scaledIterations)));
  }

  lemma LineScale(x: nat)
    ensures Slot(x, 16) == 16 * x && Scale(x, 16) == 16 * x
  {
  }

  /** One load of the chase. */
  method Load(a: array<nat>, inc: nat, at: nat, ghost p: seq<nat>, ghost y: nat) returns (next: nat)
    requires Strided(a[..], inc, p) && y < |p| && at == Slot(y, inc)
    ensures next == Slot(p[y], inc)
  {
    assert at < |a[..]|;
    next := a[at];
  }

  function Scale(x: nat, inc: nat): nat {
    x * inc
  }

  lemma SlotZero(inc: nat)
    ensures Slot(0, inc) == 0
  {
  }

  lemma NoVisits(p: seq<nat>)
    requires InRange(p) && p != []
    ensures Total(Visits(p, 0, 1, 0)) == 0
  {
  }

  lemma ScaleZero(inc: nat)
    ensures Scale(0, inc) == 0
  {
  }

  lemma ScaleStep(p: seq<nat>, i: nat, inc: nat)
    requires InRange(p) && p != []
    ensures Scale(Total(Visits(p, 0, 1, i + 1)), inc) == Scale(Total(Visits(p, 0, 1, i)), inc) + Slot(Follow(p, i + 2, 0), inc)
  {
    var t, y := Total(Visits(p, 0, 1, i)), Follow(p, i + 2, 0);
    TotalAppend(Visits(p, 0, 1, i), [y]);
    assert Total([y]) == y;
    assert (t + y) * inc == t * inc + y * inc;
  }
}
