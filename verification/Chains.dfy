/** RunMlpTest: several independent chains around one cycle. */
module Chains {
  import opened Cycles
  import opened Shuffle
  import opened Patterns
  import Chase

  const INTS_PER_LINE := 16

  /** The loops of RunMlpTest over the filled array: chain j starts at element j, and after each of
      scaledIterations rounds every chain has taken one more step. */
  method RunChains(a: array<nat>, parallelism: nat, scaledIterations: nat, ghost p: seq<nat>)
    returns (offsets: array<nat>)
    requires Strided(a[..], INTS_PER_LINE, p) && InRange(p) && 1 <= parallelism <= |p|
    ensures fresh(offsets) && offsets.Length == parallelism
    ensures forall j :: 0 <= j < parallelism ==> offsets[j] == Slot(Follow(p, scaledIterations, j), INTS_PER_LINE)
  {
    hide Slot, Strided;
    offsets := new nat[parallelism];
    for j := 0 to parallelism
      invariant forall k :: 0 <= k < j ==> offsets[k] == Slot(Follow(p, 0, k), INTS_PER_LINE)
    {
      offsets[j] := Slot(j, INTS_PER_LINE);
    }
    for i := 0 to scaledIterations
      invariant forall k :: 0 <= k < parallelism ==> offsets[k] == Slot(Follow(p, i, k), INTS_PER_LINE)
    {
      Round(a, offsets, i, p);
    }
  }

  /** RunMlpTest on an array of any contents: without chains it stops at once; otherwise it fills the array with one element
      per line and runs the chains, which end up at as many different elements. */
  method RunMlpTest(a: array<nat>, sizeKb: nat, parallelism: nat, scaledIterations: nat, rs: seq<nat>) returns (offsets: array?<nat>)
    requires sizeKb * 256 < 0x8000_0000 && a.Length == sizeKb * 256 && |rs| == sizeKb * 16 && parallelism <= |rs|
    modifies a
    ensures offsets == null <==> parallelism < 1
    ensures parallelism < 1 ==> a[..] == old(a[..])
    ensures var p := Shuffled(Drawn(rs)); InRange(p) && offsets != null ==>
      && fresh(offsets) && offsets.Length == parallelism && SingleCycle(p)
      && (forall j :: 0 <= j < parallelism ==> offsets[j] == 16 * Follow(p, scaledIterations, j))
      && (forall j, j' :: 0 <= j < j' < parallelism ==> Follow(p, scaledIterations, j) != Follow(p, scaledIterations, j'))
  {
    hide Strided, SameOffSlots, Shuffled, Drawn, Slot, Chained;
    var listSize := sizeKb * 1024 / 4;
    if parallelism < 1 {
      return null;
    }
    ghost var p := Shuffled(Drawn(rs));
    ShuffleIsCycle(Drawn(rs));
    CycleInjective(p);
    FillPattern(a, listSize, 64, 4, rs);
    offsets := RunChains(a, parallelism, scaledIterations, p);
    forall j | 0 <= j < parallelism
      ensures offsets[j] == 16 * Follow(p, scaledIterations, j)
    {
      Chase.LineScale(Follow(p, scaledIterations, j));
    }
    forall j, j' | 0 <= j < j' < parallelism
      ensures Follow(p, scaledIterations, j) != Follow(p, scaledIterations, j')
    {
      ChainsApart(p, scaledIterations, j, j');
    }
  }

  /** The inner loop: each chain takes one step. */
  method Round(a: array<nat>, offsets: array<nat>, ghost i: nat, ghost p: seq<nat>)
    requires Strided(a[..], INTS_PER_LINE, p) && InRange(p) && offsets.Length <= |p| && a != offsets
    requires forall k :: 0 <= k < offsets.Length ==> offsets[k] == Slot(Follow(p, i, k), INTS_PER_LINE)
    modifies offsets
    ensures forall k :: 0 <= k < offsets.Length ==> offsets[k] == Slot(Follow(p, i + 1, k), INTS_PER_LINE)
  {
    hide Slot, Strided;
    for j := 0 to offsets.Length
      invariant a[..] == old(a[..])
      invariant forall k :: 0 <= k < j ==> offsets[k] == Slot(Follow(p, i + 1, k), INTS_PER_LINE)
      invariant forall k :: j <= k < offsets.Length ==> offsets[k] == Slot(Follow(p, i, k), INTS_PER_LINE)
    {
      var next := Chase.Load(a, INTS_PER_LINE, offsets[j], p, Follow(p, i, j));
      offsets[j] := next;
    }
  }

  /** After any number of rounds different chains are at different elements, and every |p| rounds
      each chain is back where it started. */
  lemma ChainsApart(p: seq<nat>, k: nat, j: nat, j': nat)
    requires SingleCycle(p) && j < |p| && j' < |p| && j != j'
    ensures InRange(p) && Follow(p, k, j) != Follow(p, k, j') && Follow(p, k + |p|, j) == Follow(p, k, j)
  {
    CycleInjective(p);
    FollowInjective(p, k, j, j');
    CycleTours(p, j);
    FollowAdd(p, |p|, k, j);
  }

  /** Chain j starts inside the array if and only if there is an element j for it. */
  lemma StartInBounds(sizeKb: nat, j: nat)
    ensures var listSize := sizeKb * 1024 / 4;
      Slot(j, INTS_PER_LINE) == 16 * j && (Slot(j, INTS_PER_LINE) < listSize <==> j < listSize / 16)
  {
    WholeLines(sizeKb, j);
  }

  lemma WholeLines(sizeKb: nat, j: nat)
    ensures sizeKb * 1024 / 4 / 16 == 16 * sizeKb && (j * 16 < sizeKb * 1024 / 4 <==> j < 16 * sizeKb)
  {
  }
}
