/** asm_cflip: reverses every group of four vectors, each pass counting as two iterations. */
module FlipKernel {
  import opened Words
  import opened Walk
  import opened Kernels

  /** The vector that changes places with vector i. */
  function Mirror(i: nat): (m: nat)
    ensures 4 * (i / 4) <= m < 4 * (i / 4) + 4
  {
    i - i % 4 + (3 - i % 4)
  }

  lemma MirrorTwice(i: nat)
    ensures Mirror(Mirror(i)) == i && Mirror(i) / VECTORS == i / VECTORS
  {
  }

  /** A mirror image stays below any multiple of four. */
  lemma MirrorBelow(i: nat, n: nat)
    requires i < n && n % 4 == 0
    ensures Mirror(i) < n
  {
  }

  /** Vector i of an array that started as `was` and whose block has been flipped `times` times. */
  function Flips<V>(was: seq<V>, i: nat, times: nat): V
    requires i < |was| && |was| % 4 == 0
  {
    MirrorBelow(i, |was|);
    if times % 2 == 0 then was[i] else was[Mirror(i)]
  }

  /** The whole array after so many flips: as before, or every group of four reversed. */
  function Mirrored<V>(was: seq<V>, times: nat): seq<V>
    requires |was| % 4 == 0
  {
    seq(|was|, i requires 0 <= i < |was| => Flips(was, i, times))
  }

  ghost predicate Flipped<V>(now: seq<V>, was: seq<V>, c0: nat, nb: nat, passes: nat, k: nat) {
    && c0 < nb && |now| == |was| == VECTORS * nb && |was| % 4 == 0
    && forall i :: 0 <= i < |now| && i / VECTORS < nb ==> now[i] == Flips(was, i, Done(c0, nb, passes, k, i / VECTORS))
  }

  /** The vectors in [lo, hi) are mirrored within their groups, the others unchanged. */
  ghost predicate MirrorIn<V>(now: seq<V>, was: seq<V>, lo: nat, hi: nat) {
    && |now| == |was| && |was| % 4 == 0
    && forall i :: 0 <= i < |now| ==> now[i] == if lo <= i < hi then Flips(was, i, 1) else was[i]
  }

  lemma MirrorJoin<V>(a: seq<V>, b: seq<V>, c: seq<V>, lo: nat, mid: nat, hi: nat)
    requires MirrorIn(b, a, lo, mid) && MirrorIn(c, b, mid, hi) && mid % 4 == 0 && lo <= mid <= hi
    ensures MirrorIn(c, a, lo, hi)
  {
    forall i | 0 <= i < |c|
      ensures c[i] == if lo <= i < hi then Flips(a, i, 1) else a[i]
    {
      MirrorBelow(i, |a|);
      SideKept(i, mid);
    }
  }

  lemma SideKept(i: nat, mid: nat)
    requires mid % 4 == 0
    ensures Mirror(i) < mid <==> i < mid
  {
  }

  /** Four loads, and four stores in reverse order. */
  method FlipGroup<V>(arr: array<V>, at: nat)
    requires at + 4 <= arr.Length && at % 4 == 0 && arr.Length % 4 == 0
    modifies arr
    ensures MirrorIn(arr[..], old(arr[..]), at, at + 4)
  {
    var ymm0, ymm1, ymm2, ymm3 := arr[at], arr[at + 1], arr[at + 2], arr[at + 3];
    arr[at + 3] := ymm0;
    arr[at + 2] := ymm1;
    arr[at + 1] := ymm2;
    arr[at] := ymm3;
    assert Mirror(at) == at + 3 && Mirror(at + 1) == at + 2 && Mirror(at + 2) == at + 1 && Mirror(at + 3) == at;
  }

  /** The four groups of a block. */
  method FlipBlock<V>(arr: array<V>, rdi: nat, ghost b: nat)
    requires rdi == 4 * BLOCK * b && VECTORS * b + VECTORS <= arr.Length && arr.Length % 4 == 0
    modifies arr
    ensures MirrorIn(arr[..], old(arr[..]), VECTORS * b, VECTORS * b + VECTORS)
  {
    hide MirrorIn;
    GroupsOf(b);
    ghost var at, a0 := VECTORS * b, arr[..];
    FlipGroup(arr, rdi / VECTOR);
    ghost var a1 := arr[..];
    FlipGroup(arr, (rdi + 128) / VECTOR);
    ghost var a2 := arr[..];
    MirrorJoin(a0, a1, a2, at, at + 4, at + 8);
    FlipGroup(arr, (rdi + 256) / VECTOR);
    ghost var a3 := arr[..];
    MirrorJoin(a0, a2, a3, at, at + 8, at + 12);
    FlipGroup(arr, (rdi + 256 + 128) / VECTOR);
    MirrorJoin(a0, a3, arr[..], at, at + 12, at + 16);
  }

  lemma GroupsOf(b: nat)
    ensures 4 * BLOCK * b / VECTOR == VECTORS * b && VECTORS * b % 4 == 0
    ensures (4 * BLOCK * b + 128) / VECTOR == VECTORS * b + 4
    ensures (4 * BLOCK * b + 256) / VECTOR == VECTORS * b + 8
    ensures (4 * BLOCK * b + 256 + 128) / VECTOR == VECTORS * b + 12
  {
    assert VECTORS * b % 4 == 0 by { assert VECTORS * b == 4 * (4 * b); }
  }

  lemma FlipsAgain<V>(before: seq<V>, was: seq<V>, i: nat, times: nat)
    requires |before| == |was| && |was| % 4 == 0 && i < |was| && Mirror(i) < |was|
    requires before[i] == Flips(was, i, times) && before[Mirror(i)] == Flips(was, Mirror(i), times)
    ensures Flips(before, i, 1) == Flips(was, i, times + 1)
  {
    MirrorTwice(i);
  }

  lemma FlippedStep<V>(before: seq<V>, after: seq<V>, was: seq<V>, c0: nat, nb: nat, passes: nat, k: nat)
    requires Flipped(before, was, c0, nb, passes, k) && k < nb
    requires MirrorIn(after, before, VECTORS * Ring(c0, nb, k), VECTORS * Ring(c0, nb, k) + VECTORS)
    ensures Flipped(after, was, c0, nb, if k + 1 < nb then passes else passes + 1, if k + 1 < nb then k + 1 else 0)
  {
    hide Done, Ring, Mirror, Flips;
    forall i | 0 <= i < |after| && i / VECTORS < nb
      ensures after[i] == Flips(was, i,
        if k + 1 < nb then Done(c0, nb, passes, k + 1, i / VECTORS) else Done(c0, nb, passes + 1, 0, i / VECTORS))
    {
      DoneStep(c0, nb, passes, k, i / VECTORS);
      SameBlock(i, Ring(c0, nb, k));
      MirrorBelow(i, |was|);
      MirrorTwice(i);
      FlipsAgain(before, was, i, Done(c0, nb, passes, k, i / VECTORS));
    }
  }

  /** The block the cursor is at. */
  method FlipNext<V>(arr: array<V>, rdi: nat, ghost was: seq<V>, ghost c0: nat, ghost nb: nat, ghost passes: nat, ghost k: nat)
    requires Flipped(arr[..], was, c0, nb, passes, k) && k < nb && rdi == 4 * Place(c0, nb, k)
    modifies arr
    ensures Flipped(arr[..], was, c0, nb, if k + 1 < nb then passes else passes + 1, if k + 1 < nb then k + 1 else 0)
  {
    hide Ring, Flipped, MirrorIn;
    BlockInside(arr[..], was, c0, nb, passes, k);
    ghost var before := arr[..];
    FlipBlock(arr, rdi, Ring(c0, nb, k));
    FlippedStep(before, arr[..], was, c0, nb, passes, k);
  }

  lemma BlockInside<V>(now: seq<V>, was: seq<V>, c0: nat, nb: nat, passes: nat, k: nat)
    requires Flipped(now, was, c0, nb, passes, k) && k < nb
    ensures VECTORS * Ring(c0, nb, k) + VECTORS <= |now| && |now| % 4 == 0
  {
  }

  lemma FlippedNone<V>(was: seq<V>, c0: nat, nb: nat)
    requires c0 < nb && |was| == VECTORS * nb
    ensures Flipped(was, was, c0, nb, 0, 0)
  {
    hide Done, Flips;
    WholeGroups(nb);
    forall i | 0 <= i < |was| && i / VECTORS < nb
      ensures was[i] == Flips(was, i, Done(c0, nb, 0, 0, i / VECTORS))
    {
      NotYet(c0, nb, 0, i / VECTORS);
      NoFlip(was, i);
    }
  }

  lemma WholeGroups(nb: nat)
    ensures VECTORS * nb % 4 == 0
  {
  }

  lemma NoFlip<V>(was: seq<V>, i: nat)
    requires i < |was| && |was| % 4 == 0
    ensures Flips(was, i, 0) == was[i]
  {
    hide Mirror;
  }

  /** The passes an even counter allows: half as many, and 2^63 for zero. */
  function HalfPasses(n: Word): (p: nat)
    requires n % 2 == 0
    ensures 1 <= p <= TWO64 / 2
  {
    if n == 0 then TWO64 / 2 else n / 2
  }

  /** The counter decremented by two k times reaches zero for some k if and only if it starts even;
      then for the first time after HalfPasses. */
  lemma ExitsIffEven(n: Word)
    ensures n % 2 == 0 <==> exists k: nat :: Wrap(n - 2 * k) == 0 && k >= 1
    ensures n % 2 == 0 ==> Wrap(n - 2 * HalfPasses(n)) == 0 && forall k: nat :: 1 <= k < HalfPasses(n) ==> Wrap(n - 2 * k) != 0
  {
    if n % 2 == 0 {
      assert Wrap(n - 2 * HalfPasses(n)) == 0;
    }
  }

  method DecrementTwo(r8: Word, ghost left: nat) returns (r8': Word)
    requires 1 <= left <= TWO64 / 2 && r8 == Wrap(2 * left)
    ensures r8' == Wrap(2 * (left - 1)) && (r8' == 0 <==> left == 1)
  {
    var x: int := r8;
    r8' := Wrap(x - 2);
  }

  /** Group g holds its four vectors in reverse order. */
  ghost predicate Reversed<V>(now: seq<V>, was: seq<V>, g: nat)
    requires 4 * g + 3 < |was| == |now|
  {
    now[4 * g] == was[4 * g + 3] && now[4 * g + 1] == was[4 * g + 2] && now[4 * g + 2] == was[4 * g + 1] && now[4 * g + 3] == was[4 * g]
  }

  ghost predicate GroupsReversed<V>(now: seq<V>, was: seq<V>) {
    |now| == |was| && forall g: nat {:trigger Reversed(now, was, g)} :: 4 * g + 3 < |was| ==> Reversed(now, was, g)
  }

  /** asm_cflip: after an even number of passes the array is as before, after an odd number every group of
      four is reversed. Each pass loads and stores every vector. */
  method AsmCflip<V>(arr: array<V>, arrLength: nat, iterations: Word, start: nat) returns (visits: seq<nat>, moved: nat)
    requires Blocks(arrLength, start) && 8 * arr.Length == arrLength && iterations % 2 == 0
    modifies arr
    ensures visits == Passes(start / BLOCK, arrLength / BLOCK, HalfPasses(iterations))
    ensures InOrder(visits, start / 128, arrLength / 128, if iterations == 0 then TWO64 / 2 else iterations / 2)
    ensures moved == 1024 * |visits|
    ensures if iterations / 2 % 2 == 0 then arr[..] == old(arr[..]) else GroupsReversed(arr[..], old(arr[..]))
  {
    hide Place, Ring, Visited, Passes, Wrap, Flipped, HalfPasses, MirrorIn, GroupsReversed, InOrder;
    ghost var c0, nb, k, passes := start / BLOCK, arrLength / BLOCK, 0, 0;
    ghost var n := HalfPasses(iterations);
    ghost var was := arr[..];
    PlaceBlock(c0, nb, 0);
    VisitNone(c0, nb, 0);
    StartsHalf(iterations);
    FlippedNone(was, c0, nb);
    var rdx := arrLength - BLOCK;
    var rsi, rdi := start, 4 * start;
    var r8 := iterations;
    visits, moved := [], 0;
    while true
      invariant passes < n && k < nb && r8 == Wrap(2 * (n - passes))
      invariant rsi == Place(c0, nb, k) && rdi == 4 * rsi
      invariant visits == Visited(c0, nb, passes, k) && moved == 8 * BLOCK * |visits|
      invariant Flipped(arr[..], was, c0, nb, passes, k)
      decreases n - passes, nb - k
    {
      PlaceBlock(c0, nb, k);
      VisitOne(c0, nb, passes, k);
      visits := visits + [rdi / (4 * BLOCK)];
      moved := moved + 16 * VECTOR + 16 * VECTOR;
      FlipNext(arr, rdi, was, c0, nb, passes, k);
      var back: bool;
      rsi, rdi, back := Advance(rsi, rdi, rdx, start, c0, nb, k);
      k := if back then 0 else k + 1;
      if back {
        r8 := DecrementTwo(r8, n - passes);
        passes := passes + 1;
        if r8 == 0 { break; }
      }
    }
    VisitNone(c0, nb, n);
    FlipOutcome(arr[..], was, c0, nb, n);
    PassesInOrder(c0, nb, n);
    HalfPassesAre(iterations);
  }

  /** Zero stands for 2^63 passes, an even number like itself. */
  lemma HalfPassesAre(n: Word)
    requires n % 2 == 0
    ensures HalfPasses(n) == (if n == 0 then TWO64 / 2 else n / 2) && HalfPasses(n) % 2 == n / 2 % 2
  {
  }

  lemma FlipOutcome<V>(now: seq<V>, was: seq<V>, c0: nat, nb: nat, n: nat)
    requires Flipped(now, was, c0, nb, n, 0)
    ensures if n % 2 == 0 then now == was else GroupsReversed(now, was)
  {
    hide Mirrored, GroupsReversed;
    FlippedAll(now, was, c0, nb, n);
    if n % 2 == 0 {
      MirroredEven(was, n);
    } else {
      MirroredOdd(was, n);
    }
  }

  lemma StartsHalf(n: Word)
    requires n % 2 == 0
    ensures Wrap(2 * HalfPasses(n)) == n
  {
  }

  lemma FlippedAll<V>(now: seq<V>, was: seq<V>, c0: nat, nb: nat, passes: nat)
    requires Flipped(now, was, c0, nb, passes, 0)
    ensures now == Mirrored(was, passes)
  {
    hide Flips, Done;
    forall i | 0 <= i < |now|
      ensures now[i] == Flips(was, i, passes)
    {
      NotYet(c0, nb, passes, i / VECTORS);
    }
  }

  lemma NotYet(c0: nat, nb: nat, passes: nat, b: nat)
    requires c0 < nb && b < nb
    ensures Done(c0, nb, passes, 0, b) == passes
  {
  }

  /** An even number of passes restores the array. */
  lemma MirroredEven<V>(was: seq<V>, times: nat)
    requires |was| % 4 == 0 && times % 2 == 0
    ensures Mirrored(was, times) == was
  {
    hide Mirror;
    forall i | 0 <= i < |was|
      ensures Mirrored(was, times)[i] == was[i]
    {
      MirrorBelow(i, |was|);
    }
  }

  /** An odd number reverses every group of four. */
  lemma MirroredOdd<V>(was: seq<V>, times: nat)
    requires |was| % 4 == 0 && times % 2 == 1
    ensures GroupsReversed(Mirrored(was, times), was)
  {
    hide Mirror;
    var now := Mirrored(was, times);
    forall g: nat {:trigger Reversed(now, was, g)} | 4 * g + 3 < |was|
      ensures Reversed(now, was, g)
    {
      MirrorIs(g);
    }
  }

  lemma MirrorIs(g: nat)
    ensures Mirror(4 * g) == 4 * g + 3 && Mirror(4 * g + 1) == 4 * g + 2
    ensures Mirror(4 * g + 2) == 4 * g + 1 && Mirror(4 * g + 3) == 4 * g
  {
  }
}
