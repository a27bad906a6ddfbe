/** RunAsmTest: the index pattern turned into pointers, and the assembly chase over them. */
module PointerChase {
  import opened Words
  import opened Cycles
  import opened Shuffle
  import opened Patterns
  import Chase

  /** The array fits the address space at byte address base. */
  ghost predicate Addressable(length: nat, base: nat) {
    base + 8 * length <= TWO64
  }

  /** The words are the addresses of the entries that the indices name. */
  ghost predicate Pointers(words: seq<nat>, base: nat, indices: seq<nat>) {
    |words| == |indices| && forall i :: 0 <= i < |words| ==> words[i] == Wrap(base + 8 * indices[i])
  }

  /** preplatencyarr: converts indices to pointers in place, from the first entry to the last. */
  method PrepLatencyArr(arr: array<nat>, base: nat)
    requires arr.Length >= 1
    modifies arr
    ensures Pointers(arr[..], base, old(arr[..]))
  {
    var r15 := 0;
    while true
      invariant 0 <= r15 < arr.Length
      invariant forall i :: 0 <= i < r15 ==> arr[i] == Wrap(base + 8 * old(arr[i]))
      invariant forall i :: r15 <= i < arr.Length ==> arr[i] == old(arr[i])
      decreases arr.Length - r15
    {
      var r14: nat := arr[r15];
      arr[r15] := Wrap(base + 8 * r14);
      r15 := r15 + 1;
      if arr.Length == r15 { break; }
    }
  }

  /** The 64-bit load at address a of the array at base. */
  method LoadWord(arr: array<nat>, base: nat, a: nat, ghost at: nat) returns (w: nat)
    requires Addressable(arr.Length, base) && at < arr.Length && a == base + 8 * at
    ensures w == arr[at]
  {
    w := arr[(a - base) / 8];
  }

  function ChaseSum(base: nat, k: nat, total: nat): nat {
    k * base + 64 * total
  }

  /** latencytest: one load to start, then a load and an addition per iteration, counting down to zero.
      Every pointer is base + 8 * (the index the index chase would read), and the sum is theirs. */
  method LatencyTest(arr: array<nat>, base: nat, iterations: nat, ghost p: seq<nat>)
    returns (last: Word, sum: Word)
    requires 1 <= iterations < TWO64 && Addressable(arr.Length, base) && InRange(p) && p != []
    requires exists indices :: Pointers(arr[..], base, indices) && Strided(indices, 8, p)
    ensures last == base + 8 * Slot(Follow(p, iterations + 1, 0), 8)
    ensures sum == Wrap(ChaseSum(base, iterations, Chase.Total(Chase.Visits(p, 0, 1, iterations))))
  {
    hide ChaseSum, Strided, Pointers, Chase.Total, Chase.Visits, Slot;
    ghost var indices :| Pointers(arr[..], base, indices) && Strided(indices, 8, p);
    StartAddress(base);
    last := Follows(arr, base, base, p, 0, indices);
    sum := 0;
    var rcx := iterations;
    ghost var k := 0;
    SumZero(base, p);
    while true
      invariant 1 <= rcx <= iterations && k == iterations - rcx
      invariant last == base + 8 * Slot(Follow(p, k + 1, 0), 8)
      invariant sum == Wrap(ChaseSum(base, k, Chase.Total(Chase.Visits(p, 0, 1, k))))
      decreases rcx
    {
      last := Follows(arr, base, last, p, Follow(p, k + 1, 0), indices);
      SumStep(base, p, k, last);
      sum := Wrap(sum + last);
      rcx := rcx - 1;
      k := k + 1;
      if rcx == 0 { break; }
    }
  }

  lemma StartAddress(base: nat)
    ensures base == base + 8 * Slot(0, 8)
  {
  }

  /** One load of the pointer chase. */
  method Follows(arr: array<nat>, base: nat, a: nat, ghost p: seq<nat>, ghost y: nat, ghost indices: seq<nat>)
    returns (next: Word)
    requires Addressable(arr.Length, base) && InRange(p) && y < |p| && a == base + 8 * Slot(y, 8)
    requires Pointers(arr[..], base, indices) && Strided(indices, 8, p)
    ensures next == base + 8 * Slot(p[y], 8)
  {
    hide Slot, Strided, Pointers;
    PointerAt(arr[..], base, indices, p, y);
    PointerAt(arr[..], base, indices, p, p[y]);
    next := LoadWord(arr, base, a, Slot(y, 8));
  }

  lemma PointerAt(words: seq<nat>, base: nat, indices: seq<nat>, p: seq<nat>, y: nat)
    requires Pointers(words, base, indices) && Strided(indices, 8, p) && y < |p| && InRange(p)
    ensures Slot(y, 8) < |words| && words[Slot(y, 8)] == Wrap(base + 8 * Slot(p[y], 8))
  {
    assert indices[Slot(y, 8)] == Slot(p[y], 8);
  }

  lemma SumZero(base: nat, p: seq<nat>)
    requires InRange(p) && p != []
    ensures ChaseSum(base, 0, Chase.Total(Chase.Visits(p, 0, 1, 0))) == 0
  {
  }

  lemma SumStep(base: nat, p: seq<nat>, k: nat, ptr: nat)
    requires InRange(p) && p != [] && ptr == base + 8 * Slot(Follow(p, k + 2, 0), 8)
    ensures Wrap(Wrap(ChaseSum(base, k, Chase.Total(Chase.Visits(p, 0, 1, k)))) + ptr) ==
      Wrap(ChaseSum(base, k + 1, Chase.Total(Chase.Visits(p, 0, 1, k + 1))))
  {
    var t, y := Chase.Total(Chase.Visits(p, 0, 1, k)), Follow(p, k + 2, 0);
    Chase.TotalAppend(Chase.Visits(p, 0, 1, k), [y]);
    assert Chase.Total([y]) == y;
    assert (k + 1) * base == k * base + base;
    WrapAdd(ChaseSum(base, k, t), ptr);
  }

  /** Over a full lap of n elements the sum is n*base + 32*n*(n-1) modulo 2^64, whatever the shuffle. */
  lemma LapSum(base: nat, p: seq<nat>)
    requires SingleCycle(p) && InRange(p) && p != []
    ensures ChaseSum(base, |p|, Chase.Total(Chase.Visits(p, 0, 1, |p|))) == |p| * base + 32 * (|p| * (|p| - 1))
  {
    Chase.LapVisitsAll(p, 0, 1);
    Chase.TotalOfAll(Chase.Visits(p, 0, 1, |p|));
  }

  /** RunAsmTest on a cleared array at address base: fill, convert, chase. */
  method RunAsmTest(sizeKb: nat, scaledIterations: nat, base: nat, rs: seq<nat>) returns (last: Word, sum: Word)
    requires 1 <= sizeKb && sizeKb * 128 < 0x8000_0000 && 1 <= scaledIterations < TWO32
    requires Addressable(sizeKb * 128, base) && |rs| == sizeKb * 16
    ensures var p := Shuffled(Drawn(rs));
      && SingleCycle(p) && InRange(p)
      && last == base + 64 * Follow(p, scaledIterations + 1, 0)
      && sum == Wrap(scaledIterations * base + 64 * Chase.Total(Chase.Visits(p, 0, 1, scaledIterations)))
  {
    hide Strided, SameOffSlots, Pointers, ChaseSum, Shuffled, Drawn, Chase.Total, Chase.Visits, Slot, Chained, Wrap;
    var listSize := sizeKb * 1024 / 8;
    ghost var p := Shuffled(Drawn(rs));
    ShuffleIsCycle(Drawn(rs));
    CycleInjective(p);
    var arr := new nat[listSize](_ => 0);
    FillPattern(arr, listSize, 64, 8, rs);
    ghost var indices := arr[..];
    PrepLatencyArr(arr, base);
    assert Pointers(arr[..], base, indices) && Strided(indices, 8, p);
    last, sum := LatencyTest(arr, base, scaledIterations, p);
    InBytes(base, scaledIterations, Chase.Total(Chase.Visits(p, 0, 1, scaledIterations)), Follow(p, scaledIterations + 1, 0));
  }

  lemma InBytes(base: nat, k: nat, total: nat, y: nat)
    ensures ChaseSum(base, k, total) == k * base + 64 * total && 8 * Slot(y, 8) == 64 * y
  {
  }
}
