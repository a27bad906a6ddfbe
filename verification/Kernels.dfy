/** The AVX kernels of MemoryBandwidth_x86.s over an array of 32-byte vectors.

    Array lengths, cursors and limits are in floats, as in the registers; a vector holds 8 floats. The
    counter of an iteration count register is a 64-bit word, so a count of zero stands for 2^64. Every
    kernel also returns the bytes its loop loads and stores. */
module Kernels {
  import opened Words
  import opened Walk

  const VECTOR := 32
  const BLOCK := 128

  /** The number of decrements after which a 64-bit counter that starts at n reaches zero. */
  function Decrements(n: Word): (d: nat)
    ensures 1 <= d <= TWO64 && Wrap(n - d) == 0
  {
    if n == 0 then TWO64 else n
  }

  /** What the loops demand of their caller: whole blocks, and a start on one. */
  ghost predicate Blocks(arrLength: nat, start: nat) {
    arrLength % BLOCK == 0 && start % BLOCK == 0 && start < arrLength
  }

  /** Where the k-th block of a pass starts. */
  function Place(c0: nat, nb: nat, k: nat): nat {
    BLOCK * Ring(c0, nb, k)
  }

  /** The end of every block's code: the cursor moves to the next block, from the last one to the array's
      beginning, and the pass is over when it is back at the start. */
  method Advance(rsi: nat, rdi: nat, rdx: nat, start: nat, ghost c0: nat, ghost nb: nat, ghost k: nat)
    returns (rsi': nat, rdi': nat, back: bool)
    requires c0 < nb && k < nb && rdx == BLOCK * (nb - 1) && start == BLOCK * c0
    requires rsi == Place(c0, nb, k) && rdi == 4 * rsi
    ensures rsi' == Place(c0, nb, if back then 0 else k + 1) && rdi' == 4 * rsi'
    ensures back <==> k + 1 == nb
  {
    rsi' := rsi + 64;
    rdi' := rdi + 256;
    rsi' := rsi' + 64;
    rdi' := rdi' + 256;
    if !(rdx >= rsi') {
      rsi' := 0;
      rdi' := 0;
    }
    back := rsi' == start;
  }

  /** The decrement of an iteration counter that has `left` decrements to go. */
  method Decrement(r8: Word, ghost left: nat) returns (r8': Word)
    requires 1 <= left <= TWO64 && r8 == Wrap(left)
    ensures r8' == Wrap(left - 1) && (r8' == 0 <==> left == 1)
  {
    var x: int := r8;
    r8' := Wrap(x - 1);
  }

  /** The visits so far: whole passes, and k blocks of the current one. */
  function Visited(c0: nat, nb: nat, passes: nat, k: nat): seq<nat>
    requires c0 < nb && k <= nb
  {
    Passes(c0, nb, passes) + Pass(c0, nb, k)
  }

  lemma VisitOne(c0: nat, nb: nat, passes: nat, k: nat)
    requires c0 < nb && k < nb
    ensures Visited(c0, nb, passes, k) + [Ring(c0, nb, k)] ==
      if k + 1 < nb then Visited(c0, nb, passes, k + 1) else Visited(c0, nb, passes + 1, 0)
  {
    PassStep(c0, nb, k);
    assert Pass(c0, nb, 0) == [];
  }

  lemma VisitNone(c0: nat, nb: nat, passes: nat)
    requires c0 < nb
    ensures Visited(c0, nb, passes, 0) == Passes(c0, nb, passes) && Passes(c0, nb, 0) == []
  {
    assert Pass(c0, nb, 0) == [];
  }

  lemma PlaceBlock(c0: nat, nb: nat, k: nat)
    requires c0 < nb && k < nb
    ensures 4 * Place(c0, nb, k) / (4 * BLOCK) == Ring(c0, nb, k) < nb
    ensures Place(c0, nb, 0) == BLOCK * c0 && 4 * Place(c0, nb, k) % (4 * BLOCK) == 0
  {
  }

  /** asm_read: visits lists the blocks in the order they are loaded, 128 floats each. */
  method AsmRead(arrLength: nat, iterations: Word, start: nat) returns (visits: seq<nat>, moved: nat)
    requires Blocks(arrLength, start)
    ensures visits == Passes(start / BLOCK, arrLength / BLOCK, Decrements(iterations))
    ensures Covers(visits, arrLength / BLOCK, Decrements(iterations))
    ensures InOrder(visits, start / 128, arrLength / 128, if iterations == 0 then TWO64 else iterations)
    ensures moved == 512 * |visits|
  {
    hide Place, Ring, Visited, Passes, Wrap, Covers, InOrder;
    ghost var c0, nb, k, passes := start / BLOCK, arrLength / BLOCK, 0, 0;
    ghost var n := Decrements(iterations);
    PlaceBlock(c0, nb, 0);
    VisitNone(c0, nb, 0);
    StartsAt(iterations);
    var rdx := arrLength - BLOCK;
    var rsi, rdi := start, 4 * start;
    var r8 := iterations;
    visits, moved := [], 0;
    while true
      invariant passes < n && k < nb && r8 == Wrap(n - passes)
      invariant rsi == Place(c0, nb, k) && rdi == 4 * rsi
      invariant visits == Visited(c0, nb, passes, k) && moved == 4 * BLOCK * |visits|
      decreases n - passes, nb - k
    {
      PlaceBlock(c0, nb, k);
      VisitOne(c0, nb, passes, k);
      visits := visits + [rdi / (4 * BLOCK)];
      moved := moved + 16 * VECTOR;
      var back: bool;
      rsi, rdi, back := Advance(rsi, rdi, rdx, start, c0, nb, k);
      k := if back then 0 else k + 1;
      if back {
        r8 := Decrement(r8, n - passes);
        passes := passes + 1;
        if r8 == 0 { break; }
      }
    }
    VisitNone(c0, nb, n);
    PassesCover(c0, nb, n);
    PassesInOrder(c0, nb, n);
    DecrementsAre(iterations);
  }

  lemma DecrementsAre(n: Word)
    ensures Decrements(n) == if n == 0 then TWO64 else n
  {
  }

  lemma StartsAt(n: Word)
    ensures Wrap(Decrements(n)) == n
  {
  }

  // ----- kernels that change the array

  /** How often block b has been visited. */
  function Done(c0: nat, nb: nat, passes: nat, k: nat, b: nat): nat
    requires c0 < nb && b < nb
  {
    passes + if Rank(c0, nb, b) < k then 1 else 0
  }

  /** A visit counts for the visited block alone. */
  lemma DoneStep(c0: nat, nb: nat, passes: nat, k: nat, b: nat)
    requires c0 < nb && k < nb && b < nb
    ensures (if k + 1 < nb then Done(c0, nb, passes, k + 1, b) else Done(c0, nb, passes + 1, 0, b)) ==
      Done(c0, nb, passes, k, b) + if b == Ring(c0, nb, k) then 1 else 0
  {
  }

  const VECTORS := 16

  /** Vector i after its block has been written `times` times. */
  ghost predicate WrittenVector<V>(v: V, was: V, v0: V, times: nat) {
    v == if times > 0 then v0 else was
  }

  ghost predicate Written<V>(now: seq<V>, was: seq<V>, v0: V, c0: nat, nb: nat, passes: nat, k: nat) {
    && c0 < nb && |now| == |was| == VECTORS * nb
    && forall i :: 0 <= i < |now| ==> WrittenVector(now[i], was[i], v0, Done(c0, nb, passes, k, i / VECTORS))
  }

  method StoreHalf<V>(arr: array<V>, at: nat, ymm0: V)
    requires at + 8 <= arr.Length
    modifies arr
    ensures forall i :: 0 <= i < arr.Length ==> arr[i] == if at <= i < at + 8 then ymm0 else old(arr[i])
  {
    arr[at] := ymm0;
    arr[at + 1] := ymm0;
    arr[at + 2] := ymm0;
    arr[at + 3] := ymm0;
    arr[at + 4] := ymm0;
    arr[at + 5] := ymm0;
    arr[at + 6] := ymm0;
    arr[at + 7] := ymm0;
  }

  lemma WrittenStep<V>(before: seq<V>, after: seq<V>, was: seq<V>, v0: V, c0: nat, nb: nat, passes: nat, k: nat)
    requires Written(before, was, v0, c0, nb, passes, k) && k < nb && |after| == |before|
    requires var at := VECTORS * Ring(c0, nb, k);
      forall i :: 0 <= i < |after| ==> after[i] == if at <= i < at + VECTORS then v0 else before[i]
    ensures Written(after, was, v0, c0, nb, if k + 1 < nb then passes else passes + 1, if k + 1 < nb then k + 1 else 0)
  {
    hide Done, Ring;
    forall i | 0 <= i < |after|
      ensures WrittenVector(after[i], was[i], v0,
        if k + 1 < nb then Done(c0, nb, passes, k + 1, i / VECTORS) else Done(c0, nb, passes + 1, 0, i / VECTORS))
    {
      DoneStep(c0, nb, passes, k, i / VECTORS);
      SameBlock(i, Ring(c0, nb, k));
      assert WrittenVector(before[i], was[i], v0, Done(c0, nb, passes, k, i / VECTORS));
    }
  }

  lemma SameBlock(i: nat, b: nat)
    ensures i / VECTORS == b <==> VECTORS * b <= i < VECTORS * b + VECTORS
  {
  }

  lemma WrittenNone<V>(was: seq<V>, v0: V, c0: nat, nb: nat)
    requires c0 < nb && |was| == VECTORS * nb
    ensures Written(was, was, v0, c0, nb, 0, 0)
  {
  }

  lemma WrittenAll<V>(now: seq<V>, was: seq<V>, v0: V, c0: nat, nb: nat, passes: nat)
    requires Written(now, was, v0, c0, nb, passes, 0) && passes >= 1
    ensures forall i :: 0 <= i < |now| ==> now[i] == v0
  {
    forall i | 0 <= i < |now|
      ensures now[i] == v0
    {
      assert WrittenVector(now[i], was[i], v0, Done(c0, nb, passes, 0, i / VECTORS));
    }
  }

  /** asm_write: every vector becomes the array's first one. */
  method AsmWrite<V>(arr: array<V>, arrLength: nat, iterations: Word, start: nat) returns (visits: seq<nat>, moved: nat)
    requires Blocks(arrLength, start) && 8 * arr.Length == arrLength
    modifies arr
    ensures visits == Passes(start / BLOCK, arrLength / BLOCK, Decrements(iterations))
    ensures Covers(visits, arrLength / BLOCK, Decrements(iterations))
    ensures InOrder(visits, start / 128, arrLength / 128, if iterations == 0 then TWO64 else iterations)
    ensures moved == 512 * |visits|
    ensures forall i :: 0 <= i < arr.Length ==> arr[i] == old(arr[0])
  {
    hide Place, Ring, Visited, Passes, Wrap, Covers, Written, Decrements, InOrder;
    ghost var c0, nb, k, passes := start / BLOCK, arrLength / BLOCK, 0, 0;
    ghost var n := Decrements(iterations);
    ghost var was := arr[..];
    PlaceBlock(c0, nb, 0);
    VisitNone(c0, nb, 0);
    StartsAt(iterations);
    WrittenNone(was, arr[0], c0, nb);
    var rdx := arrLength - BLOCK;
    var rsi, rdi := start, 4 * start;
    var r8 := iterations;
    var ymm0 := arr[0];
    visits, moved := [], 0;
    while true
      invariant passes < n && k < nb && r8 == Wrap(n - passes)
      invariant rsi == Place(c0, nb, k) && rdi == 4 * rsi
      invariant visits == Visited(c0, nb, passes, k) && moved == 4 * BLOCK * |visits|
      invariant Written(arr[..], was, ymm0, c0, nb, passes, k)
      decreases n - passes, nb - k
    {
      PlaceBlock(c0, nb, k);
      VisitOne(c0, nb, passes, k);
      visits := visits + [rdi / (4 * BLOCK)];
      moved := moved + 16 * VECTOR;
      ghost var before := arr[..];
      WriteBlock(arr, rdi, ymm0, Ring(c0, nb, k));
      WrittenStep(before, arr[..], was, ymm0, c0, nb, passes, k);
      var back: bool;
      rsi, rdi, back := Advance(rsi, rdi, rdx, start, c0, nb, k);
      k := if back then 0 else k + 1;
      if back {
        r8 := Decrement(r8, n - passes);
        passes := passes + 1;
        if r8 == 0 { break; }
      }
    }
    VisitNone(c0, nb, n);
    WrittenAll(arr[..], was, ymm0, c0, nb, passes);
    PassesCover(c0, nb, n);
    PassesInOrder(c0, nb, n);
    DecrementsAre(iterations);
  }

  /** The two unrolled halves of a block's stores. */
  method WriteBlock<V>(arr: array<V>, rdi: nat, ymm0: V, ghost b: nat)
    requires rdi / (4 * BLOCK) == b && rdi % (4 * BLOCK) == 0 && VECTORS * b + VECTORS <= arr.Length
    modifies arr
    ensures forall i :: 0 <= i < arr.Length ==>
      arr[i] == if VECTORS * b <= i < VECTORS * b + VECTORS then ymm0 else old(arr[i])
  {
    StoreHalf(arr, rdi / VECTOR, ymm0);
    StoreHalf(arr, (rdi + 256) / VECTOR, ymm0);
  }
}
