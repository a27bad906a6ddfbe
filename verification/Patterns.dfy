/** Filling a pointer-chase pattern in place, one element per stride. */
module Patterns {
  import opened Cycles
  import opened Shuffle

  /** The array index of element i. */
  function Slot(i: nat, inc: nat): nat {
    i * inc
  }

  lemma {:induction false} SlotBound(i: nat, n: nat, inc: nat)
    requires i < n && inc >= 1
    ensures Slot(i, inc) + inc <= Slot(n, inc)
  {
    assert Slot(n, inc) == Slot(n - 1, inc) + inc;
    if i + 1 < n {
      SlotBound(i, n - 1, inc);
    }
  }

  lemma SlotInjective(i: nat, j: nat, inc: nat)
    requires inc >= 1
    ensures Slot(i, inc) == Slot(j, inc) <==> i == j
  {
    if i < j { SlotBound(i, j, inc); }
    if j < i { SlotBound(j, i, inc); }
  }

  /** The elements of a, inc apart, hold the indices of their successors in p. */
  ghost predicate Strided(a: seq<nat>, inc: nat, p: seq<nat>) {
    && Slot(|p|, inc) <= |a| && inc >= 1
    && forall i {:trigger Slot(i, inc)} :: 0 <= i < |p| ==> Slot(i, inc) < |a| && a[Slot(i, inc)] == Slot(p[i], inc)
  }

  /** In plain numbers: element i stands at i * inc and names its successor's place. */
  ghost predicate Chained(a: seq<nat>, inc: nat, p: seq<nat>) {
    forall i {:trigger p[i]} :: 0 <= i < |p| ==> i * inc < |a| && a[i * inc] == p[i] * inc
  }

  lemma StridedIsChained(a: seq<nat>, inc: nat, p: seq<nat>)
    requires Strided(a, inc, p)
    ensures Chained(a, inc, p)
  {
    forall i {:trigger p[i]} | 0 <= i < |p|
      ensures i * inc < |a| && a[i * inc] == p[i] * inc
    {
      assert Slot(i, inc) == i * inc;
    }
  }

  /** x is not the place of one of the n elements. */
  ghost predicate OffSlots(x: nat, n: nat, inc: nat) {
    forall i {:trigger Slot(i, inc)} :: 0 <= i < n ==> x != Slot(i, inc)
  }

  /** The two arrays differ at most in the places of the n elements. */
  ghost predicate SameOffSlots(a: seq<nat>, b: seq<nat>, n: nat, inc: nat) {
    |a| == |b| && forall x :: 0 <= x < |a| && OffSlots(x, n, inc) ==> a[x] == b[x]
  }

  method SwapSlots(arr: array<nat>, i: nat, j: nat, inc: nat, ghost p: seq<nat>)
    requires Strided(arr[..], inc, p) && i < |p| && j < |p|
    modifies arr
    ensures Strided(arr[..], inc, Swap(p, i, j))
    ensures SameOffSlots(arr[..], old(arr[..]), |p|, inc)
  {
    ghost var was := arr[..];
    assert Slot(i, inc) < |was| && Slot(j, inc) < |was|;
    var tmp := arr[i * inc];
    arr[i * inc] := arr[j * inc];
    arr[j * inc] := tmp;
    SlotInjective(i, j, inc);
    assert arr[..] == was[Slot(i, inc) := was[Slot(j, inc)]][Slot(j, inc) := was[Slot(i, inc)]];
    forall k {:trigger Slot(k, inc)} | 0 <= k < |p|
      ensures arr[..][Slot(k, inc)] == Slot(Swap(p, i, j)[k], inc)
    {
      SlotInjective(k, i, inc);
      SlotInjective(k, j, inc);
    }
  }

  /** FillPatternArr (elements of 4 bytes) and FillPatternArr64 (of 8): rs holds the values of rand. */
  method FillPattern(arr: array<nat>, listSize: nat, byteIncrement: nat, elementSize: nat, rs: seq<nat>)
    requires elementSize == 4 || elementSize == 8
    requires byteIncrement >= elementSize && listSize <= arr.Length && listSize < 0x8000_0000
    requires |rs| == listSize / (byteIncrement / elementSize)
    modifies arr
    ensures Strided(arr[..], byteIncrement / elementSize, Shuffled(Drawn(rs)))
    ensures Chained(arr[..], byteIncrement / elementSize, Shuffled(Drawn(rs)))
    ensures SameOffSlots(arr[..], old(arr[..]), |rs|, byteIncrement / elementSize)
  {
    hide Strided, SameOffSlots, Shuffled, Chained;
    var increment := byteIncrement / elementSize;
    var elementCount := listSize / increment;
    CountFits(listSize, increment);
    PointToSelf(arr, elementCount, increment);
    ghost var was := arr[..];
    ShuffleSlots(arr, elementCount, increment, rs);
    SameTrans(arr[..], was, old(arr[..]), elementCount, increment);
    StridedIsChained(arr[..], increment, Shuffled(Drawn(rs)));
  }

  /** The first loop: every element is its own successor. */
  method PointToSelf(arr: array<nat>, elementCount: nat, increment: nat)
    requires increment >= 1 && Slot(elementCount, increment) <= arr.Length
    modifies arr
    ensures Strided(arr[..], increment, Identity(elementCount))
    ensures SameOffSlots(arr[..], old(arr[..]), elementCount, increment)
  {
    hide Strided, SameOffSlots, Slot;
    Nothing(arr[..], increment, elementCount);
    for i := 0 to elementCount
      invariant Strided(arr[..], increment, Identity(i))
      invariant SameOffSlots(arr[..], old(arr[..]), elementCount, increment)
    {
      SlotBound(i, elementCount, increment);
      ghost var was := arr[..];
      arr[Slot(i, increment)] := Slot(i, increment);
      StrideOne(was, arr[..], i, elementCount, increment);
      SameTrans(arr[..], was, old(arr[..]), elementCount, increment);
    }
  }

  /** The second loop: from the last element down, each is swapped with a random one below it. */
  method ShuffleSlots(arr: array<nat>, elementCount: nat, increment: nat, rs: seq<nat>)
    requires |rs| == elementCount && Strided(arr[..], increment, Identity(elementCount))
    modifies arr
    ensures Strided(arr[..], increment, Shuffled(Drawn(rs)))
    ensures SameOffSlots(arr[..], old(arr[..]), elementCount, increment)
  {
    hide Strided, SameOffSlots, Slot, Swaps, Swap;
    var iter: nat := elementCount;
    ghost var p := Identity(elementCount);
    ghost var js := Drawn(rs);
    Unchanged(arr[..], elementCount, increment);
    SwapsDone(p, js);
    while iter > 1
      invariant iter <= elementCount && |p| == elementCount
      invariant Strided(arr[..], increment, p)
      invariant SameOffSlots(arr[..], old(arr[..]), elementCount, increment)
      invariant Swaps(p, if iter == 0 then 0 else iter - 1, js) == Shuffled(js)
    {
      iter := iter - 1;
      var j := if iter - 1 == 0 then 0 else rs[iter] % (iter - 1);
      ghost var was := arr[..];
      SwapsStep(p, iter, js);
      SwapSlots(arr, iter, j, increment, p);
      p := Swap(p, iter, j);
      SameTrans(arr[..], was, old(arr[..]), elementCount, increment);
    }
    SwapsDone(p, js);
  }

  lemma SwapsStep(p: seq<nat>, i: nat, js: seq<nat>)
    requires Partners(js) && 1 <= i < |p| == |js|
    ensures Swaps(p, i, js) == Swaps(Swap(p, i, js[i]), i - 1, js)
  {
  }

  lemma SwapsDone(p: seq<nat>, js: seq<nat>)
    requires Partners(js)
    ensures Swaps(p, 0, js) == p
    ensures Shuffled(js) == Swaps(Identity(|js|), if js == [] then 0 else |js| - 1, js)
  {
  }

  lemma Nothing(a: seq<nat>, inc: nat, n: nat)
    requires inc >= 1
    ensures Strided(a, inc, Identity(0)) && SameOffSlots(a, a, n, inc)
  {
  }

  lemma Unchanged(a: seq<nat>, n: nat, inc: nat)
    ensures SameOffSlots(a, a, n, inc)
  {
  }

  lemma SameTrans(a: seq<nat>, b: seq<nat>, c: seq<nat>, n: nat, inc: nat)
    requires SameOffSlots(a, b, n, inc) && SameOffSlots(b, c, n, inc)
    ensures SameOffSlots(a, c, n, inc)
  {
  }

  lemma CountFits(listSize: nat, increment: nat)
    requires increment >= 1
    ensures Slot(listSize / increment, increment) <= listSize
  {
  }

  lemma StrideOne(was: seq<nat>, a: seq<nat>, i: nat, n: nat, inc: nat)
    requires i < n && inc >= 1 && Slot(i, inc) + inc <= |was| && Strided(was, inc, Identity(i))
    requires a == was[Slot(i, inc) := Slot(i, inc)]
    ensures Strided(a, inc, Identity(i + 1)) && SameOffSlots(a, was, n, inc)
  {
    forall k {:trigger Slot(k, inc)} | 0 <= k < i + 1
      ensures Slot(k, inc) < |a| && a[Slot(k, inc)] == Slot(Identity(i + 1)[k], inc)
    {
      SlotInjective(k, i, inc);
    }
    assert Slot(i + 1, inc) == Slot(i, inc) + inc;
  }
}
