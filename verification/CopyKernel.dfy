/** asm_copy, asm_add and scalar_read. */
module CopyKernel {
  import opened Words
  import opened Walk
  import opened Kernels

  /** Half a block, in floats: what asm_copy moves per turn of its inner loop. */
  const TURN := 64

  /** Eight loads and eight stores. */
  method CopyTurn<V>(arr: array<V>, from: nat, to: nat)
    requires from + 8 <= to && to + 8 <= arr.Length
    modifies arr
    ensures forall i :: 0 <= i < arr.Length ==> arr[i] == if to <= i < to + 8 then old(arr[i - to + from]) else old(arr[i])
  {
    var ymm0, ymm1, ymm2, ymm3 := arr[from], arr[from + 1], arr[from + 2], arr[from + 3];
    var ymm4, ymm5, ymm6, ymm7 := arr[from + 4], arr[from + 5], arr[from + 6], arr[from + 7];
    arr[to] := ymm0;
    arr[to + 1] := ymm1;
    arr[to + 2] := ymm2;
    arr[to + 3] := ymm3;
    arr[to + 4] := ymm4;
    arr[to + 5] := ymm5;
    arr[to + 6] := ymm6;
    arr[to + 7] := ymm7;
  }

  /** The array once the first k turns of a pass are copied; the rest of the second half is as in `before`. */
  ghost predicate Copied<V>(now: seq<V>, was: seq<V>, before: seq<V>, half: nat, k: nat) {
    && |now| == |was| == |before| == 2 * half
    && forall i {:trigger now[i]} :: 0 <= i < |now| ==>
         now[i] == if i < half then was[i] else if i < half + 8 * k then was[i - half] else before[i]
  }

  lemma CopiedStep<V>(before: seq<V>, after: seq<V>, was: seq<V>, start: seq<V>, half: nat, k: nat)
    requires Copied(before, was, start, half, k) && |after| == |before| && 8 * k + 8 <= half
    requires forall i {:trigger after[i]} :: 0 <= i < |after| ==>
      after[i] == if half + 8 * k <= i < half + 8 * k + 8 then before[i - half] else before[i]
    ensures Copied(after, was, start, half, k + 1)
  {
    forall i | 0 <= i < |after|
      ensures after[i] == if i < half then was[i] else if i < half + 8 * (k + 1) then was[i - half] else start[i]
    {
      assert half + 8 * k <= i < half + 8 * k + 8 ==> before[i - half] == was[i - half];
    }
  }

  lemma CopiedNone<V>(start: seq<V>, was: seq<V>, half: nat)
    requires |start| == 2 * half && FrontKept(start, was)
    ensures Copied(start, was, start, half, 0)
  {
  }

  ghost predicate FrontKept<V>(now: seq<V>, was: seq<V>) {
    |now| == |was| && forall i {:trigger now[i]} :: 0 <= i < |now| / 2 ==> now[i] == was[i]
  }

  ghost predicate BackCopied<V>(now: seq<V>, was: seq<V>) {
    |now| == |was| && forall i {:trigger was[i]} :: 0 <= i < |now| / 2 ==> now[|now| / 2 + i] == was[i]
  }

  /** One pass over the first half, turn by turn. */
  method CopyPass<V>(arr: array<V>, r9: nat, ghost was: seq<V>) returns (moved: nat)
    requires r9 % TURN == 0 && r9 >= TURN && 4 * arr.Length == r9
    requires |was| == arr.Length && FrontKept(arr[..], was)
    modifies arr
    ensures Copied(arr[..], was, old(arr[..]), arr.Length / 2, r9 / TURN) && moved == 8 * r9
  {
    hide Copied, FrontKept;
    ghost var turns, start, k := r9 / TURN, arr[..], 0;
    assert r9 == TURN * turns && arr.Length == 16 * turns;
    CopiedNone(start, was, 8 * turns);
    var rsi, rdi, r14 := 0, 0, 4 * r9;
    var r13 := r9 - TURN;
    moved := 0;
    while true
      invariant k < turns && rsi == TURN * k && rdi == 256 * k && r14 == 256 * (turns + k) && moved == 512 * k
      invariant Copied(arr[..], was, start, 8 * turns, k)
      decreases turns - k
    {
      ghost var before := arr[..];
      assert rdi / VECTOR == 8 * k && r14 / VECTOR == 8 * turns + 8 * k;
      CopyTurn(arr, rdi / VECTOR, r14 / VECTOR);
      CopiedStep(before, arr[..], was, start, 8 * turns, k);
      rsi := rsi + 64;
      rdi := rdi + 256;
      r14 := r14 + 256;
      moved := moved + 8 * VECTOR + 8 * VECTOR;
      k := k + 1;
      if !(r13 >= rsi) { break; }
    }
  }

  /** asm_copy: the second half becomes the first, which is unchanged; every pass loads one half of the
      array and stores the other. */
  method AsmCopy<V>(arr: array<V>, arrLength: nat, iterations: Word) returns (moved: nat)
    requires arrLength % (2 * TURN) == 0 && arrLength >= 2 * TURN && 8 * arr.Length == arrLength
    modifies arr
    ensures FrontKept(arr[..], old(arr[..])) && BackCopied(arr[..], old(arr[..]))
    ensures moved == 4 * arrLength * Decrements(iterations)
    ensures Decrements(iterations) == if iterations == 0 then TWO64 else iterations
  {
    hide Copied, Wrap, Decrements, FrontKept, BackCopied;
    ghost var was := arr[..];
    FrontSelf(was);
    DecrementsAre(iterations);
    ghost var left := Decrements(iterations);
    var r9 := arrLength / 2;
    var r8 := iterations;
    moved := 0;
    StartsAt(iterations);
    while true
      invariant 1 <= left <= Decrements(iterations) && r8 == Wrap(left)
      invariant FrontKept(arr[..], was)
      invariant moved == 4 * arrLength * (Decrements(iterations) - left)
      invariant left < Decrements(iterations) ==> BackCopied(arr[..], was)
      decreases left
    {
      ghost var start := arr[..];
      var m := CopyPass(arr, r9, was);
      CopiedAll(arr[..], was, start, r9);
      OnePassMore(arrLength, Decrements(iterations), left);
      moved := moved + m;
      r8 := Decrement(r8, left);
      left := left - 1;
      if r8 == 0 { break; }
    }
  }

  lemma CopiedAll<V>(now: seq<V>, was: seq<V>, start: seq<V>, r9: nat)
    requires r9 % TURN == 0 && |now| / 2 == r9 / 8 && Copied(now, was, start, |now| / 2, r9 / TURN)
    ensures FrontKept(now, was) && BackCopied(now, was)
  {
  }

  lemma FrontSelf<V>(was: seq<V>)
    ensures FrontKept(was, was)
  {
  }

  lemma OnePassMore(length: nat, n: nat, left: nat)
    requires 1 <= left <= n
    ensures 4 * length * (n - left) + 4 * length == 4 * length * (n - (left - 1))
  {
  }

  // ----- asm_add and scalar_read

  /** The passes of asm_add: its counter goes down by two and is compared as a signed number. */
  function AddPasses(n: Word): (p: nat)
    ensures p >= 1
  {
    if 1 <= n < TWO64 / 2 then (n + 1) / 2 else 1
  }

  /** A word read as a signed number. */
  function Signed(w: Word): int {
    if w < TWO64 / 2 then w else w - TWO64
  }

  /** The counter of asm_add after p passes: it goes on while the difference, not wrapped, is positive. */
  method SubtractTwo(r8: Word) returns (r8': Word, greater: bool)
    ensures r8' == Wrap(r8 as int - 2) && (greater <==> Signed(r8) - 2 > 0)
  {
    var x: int := r8;
    r8' := Wrap(x - 2);
    greater := Signed(r8) - 2 > 0;
  }

  /** asm_add as far as its counting goes: which blocks the loop visits, and the bytes loaded and stored there. The sums are
      not part of the model. */
  method AsmAdd(arrLength: nat, iterations: Word, start: nat) returns (visits: seq<nat>, moved: nat)
    requires Blocks(arrLength, start)
    ensures visits == Passes(start / BLOCK, arrLength / BLOCK, AddPasses(iterations))
    ensures InOrder(visits, start / 128, arrLength / 128, if 1 <= iterations < TWO64 / 2 then (iterations + 1) / 2 else 1)
    ensures moved == 1024 * |visits|
  {
    hide Place, Ring, Visited, Passes, Wrap, InOrder;
    ghost var c0, nb, k, passes := start / BLOCK, arrLength / BLOCK, 0, 0;
    ghost var n := AddPasses(iterations);
    PlaceBlock(c0, nb, 0);
    VisitNone(c0, nb, 0);
    var rdx := arrLength - BLOCK;
    var rsi, rdi := start, 4 * start;
    var r8 := iterations;
    visits, moved := [], 0;
    while true
      invariant passes < n && k < nb && (passes > 0 ==> 1 <= iterations < TWO64 / 2)
      invariant r8 == iterations - 2 * passes
      invariant rsi == Place(c0, nb, k) && rdi == 4 * rsi
      invariant visits == Visited(c0, nb, passes, k) && moved == 8 * BLOCK * |visits|
      decreases n - passes, nb - k
    {
      PlaceBlock(c0, nb, k);
      VisitOne(c0, nb, passes, k);
      visits := visits + [rdi / (4 * BLOCK)];
      moved := moved + 16 * VECTOR + 16 * VECTOR;
      var back: bool;
      rsi, rdi, back := Advance(rsi, rdi, rdx, start, c0, nb, k);
      k := if back then 0 else k + 1;
      if back {
        var greater: bool;
        ghost var before: int := r8;
        r8, greater := SubtractTwo(r8);
        passes := passes + 1;
        if !greater { break; }
        Fits(before - 2);
      }
    }
    VisitNone(c0, nb, n);
    PassesInOrder(c0, nb, n);
  }

  /** scalar_read: nothing for short arrays; otherwise groups of eight floats, the ragged end left out,
      from start around to start, `iterations` times. */
  method ScalarRead(arrLength: nat, iterations: nat, start: nat) returns (visits: seq<nat>)
    requires start % 8 == 0
    ensures start + 16 >= arrLength ==> visits == []
    ensures start + 16 < arrLength ==>
      && start / 8 < arrLength / 8 && visits == Passes(start / 8, arrLength / 8, iterations)
      && InOrder(visits, start / 8, arrLength / 8, iterations)
  {
    visits := [];
    if start + 16 >= arrLength { return; }
    hide Ring, Visited, Passes, InOrder;
    ghost var c0, nb, k := start / 8, arrLength / 8, 0;
    VisitNone(c0, nb, 0);
    var iterIdx, i := 0, start;
    while iterIdx < iterations
      invariant iterIdx <= iterations && k < nb && i == 8 * Ring(c0, nb, k)
      invariant visits == Visited(c0, nb, iterIdx, k) && (iterIdx == iterations ==> k == 0)
      decreases iterations - iterIdx, nb - k
    {
      VisitOne(c0, nb, iterIdx, k);
      ScalarStep(arrLength, c0, k);
      visits := visits + [i / 8];
      i := i + 8;
      if i + 7 >= arrLength { i := 0; }
      k := if i == start then 0 else k + 1;
      if i == start { iterIdx := iterIdx + 1; }
    }
    VisitNone(c0, nb, iterations);
    PassesInOrder(c0, nb, iterations);
  }

  /** The scalar cursor moves around the ring of whole groups. */
  lemma ScalarStep(arrLength: nat, c0: nat, k: nat)
    requires c0 < arrLength / 8 && k < arrLength / 8
    ensures var nb := arrLength / 8; var i := 8 * Ring(c0, nb, k) + 8;
      (if i + 7 >= arrLength then 0 else i) == 8 * Ring(c0, nb, if k + 1 < nb then k + 1 else 0)
    ensures Ring(c0, arrLength / 8, 0) == c0
    ensures forall j :: 0 < j < arrLength / 8 ==> Ring(c0, arrLength / 8, j) != c0
  {
  }
}
