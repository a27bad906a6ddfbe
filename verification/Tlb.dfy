/** RunTlbTest: one element per 4 KB page, each page's element on a different cache line. */
module Tlb {
  import opened Words
  import opened Cycles
  import opened Shuffle
  import opened Patterns

  const PAGE_INCREMENT := 1024
  const FILLER := 0xFFFF_FFFF

  /** The index of the element of page i. */
  function Place(i: nat): nat {
    i * PAGE_INCREMENT + BitAnd(i * 16, PAGE_INCREMENT - 1)
  }

  lemma PlaceValue(i: nat)
    ensures Place(i) == 1024 * i + 16 * (i % 64)
  {
    assert Pow2(10) == 1024 by { assert Pow2(5) == 32; }
    AndMask(i * 16, 10);
    LowBits(i, BitAnd(i * 16, PAGE_INCREMENT - 1), ShiftRight(i * 16, 10));
  }

  lemma LowBits(i: nat, r: nat, q: nat)
    requires 16 * i == r + 1024 * q && r < 1024
    ensures r == 16 * (i % 64)
  {
  }

  /** The element of page i lies in page i, on line i modulo 64 of the page. */
  lemma PlaceInPage(i: nat)
    ensures Place(i) / PAGE_INCREMENT == i && Place(i) % PAGE_INCREMENT == 16 * (i % 64)
  {
    hide Place;
    PlaceValue(i);
  }

  /** Different pages have different elements, and any two pages fewer than 64 apart use different lines. */
  lemma PlacesApart(i: nat, j: nat)
    requires i < j
    ensures Place(i) < Place(j)
    ensures j < i + 64 ==> Place(i) % PAGE_INCREMENT / 16 != Place(j) % PAGE_INCREMENT / 16
  {
    hide Place;
    PlaceValue(i);
    PlaceValue(j);
    PlaceInPage(i);
    PlaceInPage(j);
    if j < i + 64 {
      LinesApart(i, j);
    }
  }

  lemma LinesApart(i: nat, j: nat)
    requires i < j < i + 64
    ensures i % 64 != j % 64
  {
  }

  /** The array holds, at the place of each page, the place of its successor. */
  ghost predicate Laid(a: seq<nat>, p: seq<nat>) {
    forall i {:trigger Place(i)} :: 0 <= i < |p| ==> Place(i) < |a| && a[Place(i)] == Place(p[i])
  }

  ghost predicate OffPlaces(x: nat, n: nat) {
    forall i {:trigger Place(i)} :: 0 <= i < n ==> x != Place(i)
  }

  /** Clears the first listSize bytes (a quarter of the array) to the filler, then lays the pattern out. */
  method LayOut(a: array<nat>, pattern: array<nat>, elementCount: nat, ghost p: seq<nat>)
    requires a.Length == elementCount * PAGE_INCREMENT && pattern != a
    requires pattern.Length == elementCount == |p| && pattern[..] == p
    modifies a
    ensures Laid(a[..], p)
    ensures forall x :: 0 <= x < a.Length && OffPlaces(x, elementCount) ==>
      a[x] == if x < a.Length / 4 then 0xFFFF_FFFF else old(a[x])
  {
    hide Place;
    Fill(a, a.Length / 4);
    ghost var was := a[..];
    for i := 0 to elementCount
      invariant pattern[..] == p
      invariant Laid(a[..], p[..i])
      invariant forall x :: 0 <= x < a.Length && OffPlaces(x, elementCount) ==> a[x] == was[x]
    {
      PlaceBound(i, elementCount);
      ghost var before := a[..];
      a[Place(i)] := Place(pattern[i]);
      LaidOne(before, a[..], p, i);
    }
    assert p[..elementCount] == p;
  }

  lemma PlaceBound(i: nat, n: nat)
    requires i < n
    ensures Place(i) < n * PAGE_INCREMENT
  {
    PlaceValue(i);
  }

  lemma LaidOne(before: seq<nat>, after: seq<nat>, p: seq<nat>, i: nat)
    requires i < |p| && Place(i) < |before| && after == before[Place(i) := Place(p[i])] && Laid(before, p[..i])
    ensures Laid(after, p[..i + 1])
  {
    hide Place;
    forall k {:trigger Place(k)} | 0 <= k < i
      ensures Place(k) < |after| && after[Place(k)] == Place(p[k])
    {
      PlacesApart(k, i);
      assert p[..i][k] == p[k];
    }
    assert forall k :: 0 <= k < i + 1 ==> p[..i + 1][k] == p[k];
  }

  method Fill(a: array<nat>, count: nat)
    requires count <= a.Length
    modifies a
    ensures forall x :: 0 <= x < a.Length ==> a[x] == if x < count then FILLER else old(a[x])
  {
    for x := 0 to count
      invariant forall y :: 0 <= y < a.Length ==> a[y] == if y < x then FILLER else old(a[y])
    {
      a[x] := FILLER;
    }
  }

  /** The timed loop: every load is of a page's element, never of the filler, and the page sequence is
      the chase around the shuffled cycle. */
  method ChasePages(a: array<nat>, scaledIterations: nat, ghost p: seq<nat>) returns (current: nat)
    requires Laid(a[..], p) && InRange(p) && p != []
    ensures current == Place(Follow(p, scaledIterations + 1, 0))
  {
    hide Place, Laid;
    PlaceZero();
    current := LoadPage(a, 0, p, 0);
    for i := 0 to scaledIterations
      invariant current == Place(Follow(p, i + 1, 0))
    {
      current := LoadPage(a, current, p, Follow(p, i + 1, 0));
    }
  }

  /** The page of the k-th access. */
  function Page(p: seq<nat>, k: nat): nat
    requires InRange(p) && p != []
  {
    Place(Follow(p, k, 0)) / PAGE_INCREMENT
  }

  /** One of the accesses from number `from` on, as many as there are pages, hits page y. */
  ghost predicate Hit(p: seq<nat>, from: nat, y: nat)
    requires InRange(p) && p != []
  {
    exists k: nat {:trigger Page(p, k)} :: from <= k < from + |p| && Page(p, k) == y
  }

  /** Those accesses hit every page exactly once. */
  ghost predicate EveryPageOnce(p: seq<nat>, from: nat)
    requires InRange(p) && p != []
  {
    && (forall y {:trigger Hit(p, from, y)} :: 0 <= y < |p| ==> Hit(p, from, y))
    && forall k: nat, k': nat {:trigger Page(p, k), Page(p, k')} :: from <= k < k' < from + |p| ==> Page(p, k) != Page(p, k')
  }

  lemma PageIs(p: seq<nat>, from: nat, k: nat)
    requires InRange(p) && p != []
    ensures Page(p, from + k) == Follow(p, k, Follow(p, from, 0))
  {
    hide Place;
    PlaceInPage(Follow(p, from + k, 0));
    FollowAdd(p, from, k, 0);
  }

  lemma LapHitsEveryPage(p: seq<nat>, from: nat)
    requires SingleCycle(p) && InRange(p) && p != []
    ensures EveryPageOnce(p, from)
  {
    hide SingleCycle, Place, Page, Follow;
    var x := Follow(p, from, 0);
    CycleTours(p, x);
    forall y {:trigger Hit(p, from, y)} | 0 <= y < |p|
      ensures Hit(p, from, y)
    {
      assert Reached(p, x, y);
      var k :| 0 <= k < |p| && Follow(p, k, x) == y;
      PageIs(p, from, k);
    }
    forall k: nat, k': nat {:trigger Page(p, k), Page(p, k')} | from <= k < k' < from + |p|
      ensures Page(p, k) != Page(p, k')
    {
      PageIs(p, from, k - from);
      PageIs(p, from, k' - from);
    }
  }

  lemma PlaceZero()
    ensures Place(0) == 0
  {
    PlaceValue(0);
  }

  method LoadPage(a: array<nat>, at: nat, ghost p: seq<nat>, ghost y: nat) returns (next: nat)
    requires Laid(a[..], p) && y < |p| && at == Place(y)
    ensures next == Place(p[y])
  {
    assert at < |a[..]|;
    next := a[at];
  }

  /** RunTlbTest on an array of any contents. */
  method RunTlbTest(a: array<nat>, entries: nat, scaledIterations: nat, rs: seq<nat>) returns (current: nat)
    requires 1 <= entries && a.Length == entries * PAGE_INCREMENT < 0x8000_0000 && |rs| == entries
    modifies a
    ensures var p := Shuffled(Drawn(rs));
      && SingleCycle(p) && InRange(p) && Laid(a[..], p)
      && var y := Follow(p, scaledIterations + 1, 0); current == 1024 * y + 16 * (y % 64)
    ensures forall from: nat :: EveryPageOnce(Shuffled(Drawn(rs)), from)
  {
    hide Strided, SameOffSlots, Shuffled, Drawn, Laid, Place, EveryPageOnce;
    ghost var p := Shuffled(Drawn(rs));
    ShuffleIsCycle(Drawn(rs));
    CycleInjective(p);
    var pattern := new nat[entries];
    SlotOne(entries);
    PointToSelf(pattern, entries, 1);
    ShuffleSlots(pattern, entries, 1, rs);
    StrideOfOne(pattern[..], p);
    LayOut(a, pattern, entries, p);
    current := ChasePages(a, scaledIterations, p);
    PlaceValue(Follow(p, scaledIterations + 1, 0));
    forall from: nat
      ensures EveryPageOnce(p, from)
    {
      LapHitsEveryPage(p, from);
    }
  }

  lemma SlotOne(n: nat)
    ensures Slot(n, 1) == n
  {
  }

  lemma StrideOfOne(a: seq<nat>, p: seq<nat>)
    requires Strided(a, 1, p) && |a| == |p|
    ensures a == p
  {
    forall i | 0 <= i < |p|
      ensures a[i] == p[i]
    {
      assert Slot(i, 1) == i;
    }
  }
}
