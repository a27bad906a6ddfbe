/** The arithmetic around the bandwidth kernels: iteration counts, array sizes and credited bytes. */
module MeasureBw {
  import opened Words
  import opened Walk
  import opened Kernels
  import FlipKernel
  import CopyKernel

  // ----- GetIterationCount

  /** The setting after a call: any size above 64 KB makes it 64 GB for good. */
  function Sticky(gb: Word, testSize: nat): Word {
    if testSize > 64 then 64 else gb
  }

  function StickyAll(gb: Word, sizes: seq<nat>): Word {
    if sizes == [] then gb else Sticky(StickyAll(gb, sizes[..|sizes| - 1]), sizes[|sizes| - 1])
  }

  /** Over any calls: 64 as soon as one size exceeds 64, the initial setting until then. */
  lemma {:induction false} StickyForever(gb: Word, sizes: seq<nat>)
    ensures StickyAll(gb, sizes) == if exists i :: 0 <= i < |sizes| && sizes[i] > 64 then 64 else gb
    decreases |sizes|
  {
    if sizes != [] {
      var front, last := sizes[..|sizes| - 1], sizes[|sizes| - 1];
      StickyForever(gb, front);
      if i :| 0 <= i < |front| && front[i] > 64 {
        assert sizes[i] > 64;
      }
      assert forall i :: 0 <= i < |front| ==> front[i] == sizes[i];
    }
  }

  class Settings {
    var gbToTransfer: Word

    constructor (gb: Word)
      ensures gbToTransfer == gb
    {
      gbToTransfer := gb;
    }

    /** The setting in KB divided by the size, rounded up to even, at least 8. */
    method GetIterationCount(testSize: Word) returns (r: Word)
      requires testSize >= 1
      modifies this
      ensures gbToTransfer == Sticky(old(gbToTransfer), testSize)
      ensures r % 2 == 0 && r >= 8
      ensures var q := Wrap(gbToTransfer * 1024 * 1024) / testSize; if q < 8 then r == 8 else q <= r <= q + 1
    {
      if testSize > 64 { gbToTransfer := 64; }
      if testSize > 512 { gbToTransfer := 64; }
      if testSize > 8192 { gbToTransfer := 64; }
      var iterations: nat := Divide(gbToTransfer, testSize);
      if iterations % 2 != 0 { iterations := iterations + 1; }
      if iterations < 8 { return 8; }
      return iterations;
    }
  }

  /** gbToTransfer * 1024 * 1024 / testSize in 64-bit arithmetic. */
  method Divide(gb: Word, testSize: Word) returns (q: nat)
    requires testSize >= 1
    ensures q == Wrap(gb * 1024 * 1024) / testSize && q + 1 < TWO64
  {
    hide Wrap;
    var kb: nat := Wrap(gb * 1024 * 1024);
    WholeMegabytes(gb);
    q := kb / testSize;
    SmallQuotient(kb, testSize);
  }

  lemma WholeMegabytes(gb: nat)
    ensures gb * 1024 * 1024 == gb * 0x10_0000 && Wrap(gb * 0x10_0000) % 0x10_0000 == 0
  {
    var x := gb * 0x10_0000;
    assert x / 0x10_0000 == gb;
    assert x == Wrap(x) + 0x1_0000_0000_0000_0000 * (x / 0x1_0000_0000_0000_0000);
  }

  /** A multiple of 2^20 below 2^64 divided by any size leaves room to round up. */
  lemma SmallQuotient(kb: nat, size: nat)
    requires size >= 1 && kb < TWO64 && kb % 0x10_0000 == 0
    ensures kb / size + 1 < TWO64
  {
    assert kb <= TWO64 - 0x10_0000;
    Divides(kb, size);
  }

  lemma Divides(x: nat, d: nat)
    requires d >= 1
    ensures x / d <= x
  {
    var q := x / d;
    assert x == q * d + x % d;
    assert q * d >= q;
  }

  // ----- MeasureBw

  datatype Kernel = Read | Write | Copy | Cflip | Add

  function CeilDiv(a: nat, b: nat): nat
    requires b >= 1
  {
    (a + b - 1) / b
  }

  /** Floats per array: the whole size shared, or each thread's share of it rounded up to whole KB. */
  function Elements(sizeKb: nat, threads: nat, shared: bool): nat
    requires threads >= 1
  {
    if shared then sizeKb * 1024 / 4 else CeilDiv(sizeKb, threads) * 256
  }

  /** Whatever the size and thread count, the kernels get whole blocks, and asm_copy halves of them. */
  lemma ElementsFit(sizeKb: nat, threads: nat, shared: bool)
    requires sizeKb >= 1 && threads >= 1
    ensures Blocks(Elements(sizeKb, threads, shared), 0)
    ensures Elements(sizeKb, threads, shared) % (2 * CopyKernel.TURN) == 0
  {
    hide CeilDiv;
    CeilPositive(sizeKb, threads);
    var kb := if shared then sizeKb else CeilDiv(sizeKb, threads);
    assert Elements(sizeKb, threads, shared) == 256 * kb;
    Whole(kb);
  }

  lemma Whole(kb: nat)
    ensures 256 * kb % BLOCK == 0 && 256 * kb % (2 * CopyKernel.TURN) == 0
  {
  }

  lemma CeilPositive(a: nat, b: nat)
    requires a >= 1 && b >= 1
    ensures CeilDiv(a, b) >= 1
  {
    var q, r := (a + b - 1) / b, (a + b - 1) % b;
    assert a + b - 1 == q * b + r;
    assert q <= 0 ==> q * b <= 0;
  }

  /** What a kernel leaves of an array: asm_write makes every vector the first one, asm_copy makes the second half the first,
      asm_cflip reverses every group of four vectors in each of its iterations / 2 passes, and the other two only read. */
  ghost predicate Leaves<V>(kernel: Kernel, now: seq<V>, was: seq<V>, iterations: nat) {
    match kernel
    case Read => now == was
    case Write => |now| == |was| && forall i :: 0 <= i < |now| ==> now[i] == was[0]
    case Copy => |now| == |was| && CopyKernel.FrontKept(now, was) && CopyKernel.BackCopied(now, was)
    case Cflip => if iterations / 2 % 2 == 0 then now == was else FlipKernel.GroupsReversed(now, was)
    case Add => now == was
  }

  /** What a thread does with its array: what its kernel leaves of it, in which order it goes through the blocks, once per pass,
      and the bytes loaded and stored. */
  method RunThread<V>(kernel: Kernel, arr: array<V>, arrLength: nat, iterations: Word) returns (visits: seq<nat>, moved: nat)
    requires Blocks(arrLength, 0) && arrLength % (2 * CopyKernel.TURN) == 0 && 8 * arr.Length == arrLength
    requires iterations % 2 == 0 && 2 <= iterations < TWO64 / 2
    modifies arr
    ensures Leaves(kernel, arr[..], old(arr[..]), iterations)
    ensures kernel != Copy ==>
      InOrder(visits, 0, arrLength / 128, if kernel == Read || kernel == Write then iterations else iterations / 2)
    ensures moved == 4 * arrLength * iterations
  {
    hide Passes, Blocks, Covers, Decrements, FlipKernel.HalfPasses, CopyKernel.AddPasses, FlipKernel.GroupsReversed, CopyKernel.FrontKept,
      CopyKernel.BackCopied, Wrap, Count, Visited, Ring, InOrder;
    VectorsFit(arrLength);
    PassCounts(iterations);
    visits := [];
    match kernel
    case Read =>
      visits, moved := AsmRead(arrLength, iterations, 0);
      FullBytes(visits, moved, arrLength, iterations);
    case Write =>
      visits, moved := AsmWrite(arr, arrLength, iterations, 0);
      FullBytes(visits, moved, arrLength, iterations);
    case Copy =>
      moved := CopyKernel.AsmCopy(arr, arrLength, iterations);
    case Cflip =>
      visits, moved := FlipKernel.AsmCflip(arr, arrLength, iterations, 0);
      HalfBytes(visits, moved, arrLength, iterations);
    case Add =>
      visits, moved := CopyKernel.AsmAdd(arrLength, iterations, 0);
      HalfBytes(visits, moved, arrLength, iterations);
  }

  lemma VectorsFit(arrLength: nat)
    requires Blocks(arrLength, 0)
    ensures 8 * (arrLength / 8) == arrLength
    ensures arrLength % (2 * CopyKernel.TURN) == 0 ==> arrLength >= 2 * CopyKernel.TURN
    ensures 0 / BLOCK == 0
  {
  }

  lemma PassCounts(n: Word)
    requires n % 2 == 0 && 2 <= n < TWO64 / 2
    ensures Decrements(n) == n && FlipKernel.HalfPasses(n) == n / 2 && CopyKernel.AddPasses(n) == n / 2
  {
  }

  lemma FullBytes(visits: seq<nat>, moved: nat, arrLength: nat, n: nat)
    requires Blocks(arrLength, 0) && visits == Passes(0, arrLength / BLOCK, n) && moved == 512 * |visits|
    ensures moved == 4 * arrLength * n
  {
    hide Passes, Count;
    BlocksWhole(arrLength);
    CountPasses(0, arrLength / BLOCK, n, 0);
    BytesOf(arrLength, arrLength / BLOCK, n);
  }

  lemma HalfBytes(visits: seq<nat>, moved: nat, arrLength: nat, n: nat)
    requires Blocks(arrLength, 0) && visits == Passes(0, arrLength / BLOCK, n / 2) && n % 2 == 0 && moved == 1024 * |visits|
    ensures moved == 4 * arrLength * n
  {
    hide Passes, Count;
    BlocksWhole(arrLength);
    CountPasses(0, arrLength / BLOCK, n / 2, 0);
    BytesOf(arrLength, arrLength / BLOCK, n / 2);
    Halved(arrLength, n);
  }

  lemma BlocksWhole(arrLength: nat)
    requires Blocks(arrLength, 0)
    ensures arrLength == BLOCK * (arrLength / BLOCK) && arrLength / BLOCK >= 1
  {
  }

  lemma BytesOf(arrLength: nat, nb: nat, n: nat)
    requires arrLength == BLOCK * nb
    ensures 512 * (n * nb) == 4 * arrLength * n && 1024 * (n * nb) == 8 * arrLength * n
  {
  }

  lemma Halved(arrLength: nat, n: nat)
    requires n % 2 == 0
    ensures 8 * arrLength * (n / 2) == 4 * arrLength * n
  {
    var h := n / 2;
    assert n == 2 * h;
  }

  /** The least number of whole KB that covers the size when every thread has as many. */
  ghost predicate LeastShare(kb: nat, sizeKb: nat, threads: nat) {
    kb * threads >= sizeKb && (kb == 0 || (kb - 1) * threads < sizeKb)
  }

  lemma ShareIsLeast(sizeKb: nat, threads: nat)
    requires threads >= 1
    ensures LeastShare(CeilDiv(sizeKb, threads), sizeKb, threads)
  {
    var a := sizeKb + threads - 1;
    var q, r := a / threads, a % threads;
    assert a == q * threads + r;
    assert q > 0 ==> (q - 1) * threads == q * threads - threads;
  }

  /** MeasureBw for thread counts and sizes the arguments allow: too many threads for the size is refused. Otherwise every
      thread gets the whole size, or in private mode the least whole KB that together cover it, and the bytes credited
      before dividing by time are exactly the bytes all threads' kernels move. */
  method Measure(kernel: Kernel, sizeKb: nat, iterations: Word, threads: nat, shared: bool)
    returns (ok: bool, elements: nat, credited: nat, moved: nat)
    requires sizeKb >= 1 && threads >= 1 && iterations % 2 == 0 && iterations >= 8
    requires iterations * threads < TWO64 / 2
    ensures ok <==> shared || sizeKb >= threads
    ensures !ok ==> elements == credited == moved == 0
    ensures ok && shared ==> elements == 256 * sizeKb && credited == moved == 1024 * sizeKb * iterations * threads
    ensures ok && !shared ==> elements % 256 == 0 && LeastShare(elements / 256, sizeKb, threads)
    ensures ok && !shared ==> credited == moved == 1024 * (elements / 256 * threads) * iterations * threads
    ensures ok && !shared ==> 1024 * sizeKb * iterations * threads <= credited < 1024 * (sizeKb + threads) * iterations * threads
  {
    elements, credited, moved := 0, 0, 0;
    if !shared && sizeKb < threads { return false, 0, 0, 0; }
    ok := true;
    elements := Elements(sizeKb, threads, shared);
    ElementsFit(sizeKb, threads, shared);
    EvenProduct(iterations, threads);
    var perThread: Word := if shared then iterations else iterations * threads;
    moved := RunThreads(kernel, elements, perThread, threads, shared);
    credited := iterations * 4 * elements * threads;
    if !shared { credited := credited * threads; }
    Accounts(elements, iterations, threads);
    if shared {
      SharedBytes(sizeKb, iterations, threads);
    } else {
      PrivateBytes(CeilDiv(sizeKb, threads), sizeKb, iterations, threads);
    }
  }

  /** The threads one after the other, each on its own array unless they share one. */
  method RunThreads(kernel: Kernel, elements: nat, perThread: Word, threads: nat, shared: bool) returns (moved: nat)
    requires Blocks(elements, 0) && elements % (2 * CopyKernel.TURN) == 0
    requires perThread % 2 == 0 && 2 <= perThread < TWO64 / 2
    ensures moved == 4 * elements * perThread * threads
  {
    hide Blocks, Leaves;
    VectorsFit(elements);
    var arr := new int[elements / 8];
    moved := 0;
    for i := 0 to threads
      invariant fresh(arr) && 8 * arr.Length == elements
      invariant moved == 4 * elements * perThread * i
    {
      if !shared {
        arr := new int[elements / 8];
      }
      var _, m := RunThread(kernel, arr, elements, perThread);
      OneMore(4 * elements * perThread, i);
      moved := moved + m;
    }
  }

  lemma SharedBytes(kb: nat, n: nat, t: nat)
    ensures kb * 1024 / 4 == 256 * kb && 4 * (256 * kb) * n * t == 1024 * kb * n * t
  {
  }

  lemma PrivateBytes(kb: nat, sizeKb: nat, n: nat, t: nat)
    requires t >= 1 && n >= 1 && kb == CeilDiv(sizeKb, t)
    ensures kb * 256 % 256 == 0 && kb * 256 / 256 == kb && LeastShare(kb, sizeKb, t)
    ensures var bytes := 4 * (kb * 256) * n * t * t;
      bytes == 1024 * (kb * t) * n * t && 1024 * sizeKb * n * t <= bytes < 1024 * (sizeKb + t) * n * t
  {
    hide CeilDiv;
    ShareIsLeast(sizeKb, t);
    Regroup(kb, n, t);
    assert kb * t < sizeKb + t by { assert kb > 0 ==> (kb - 1) * t == kb * t - t; }
    Grows(sizeKb, kb * t, n, t);
    Strictly(kb * t, sizeKb + t, n, t);
  }

  lemma Regroup(kb: nat, n: nat, t: nat)
    ensures 4 * (kb * 256) * n * t * t == 1024 * (kb * t) * n * t
  {
    var x := kb * n;
    assert 4 * (kb * 256) * n == 1024 * x;
    assert 1024 * x * t * t == 1024 * (x * t) * t;
    assert x * t == kb * t * n by { assert kb * n * t == kb * t * n; }
    assert 1024 * (kb * t) * n == 1024 * (kb * t * n);
  }

  lemma Grows(a: nat, b: nat, n: nat, t: nat)
    requires a <= b
    ensures 1024 * a * n * t <= 1024 * b * n * t
  {
    assert 1024 * b * n - 1024 * a * n == 1024 * (b - a) * n;
    assert (1024 * b * n - 1024 * a * n) * t == 1024 * b * n * t - 1024 * a * n * t;
  }

  lemma Strictly(a: nat, b: nat, n: nat, t: nat)
    requires a < b && n >= 1 && t >= 1
    ensures 1024 * a * n * t < 1024 * b * n * t
  {
    var d := b - a;
    assert 1024 * b * n - 1024 * a * n == 1024 * (d * n);
    assert d * n >= 1;
    assert (1024 * (d * n)) * t == 1024 * b * n * t - 1024 * a * n * t;
    assert (d * n) * t >= 1;
  }

  lemma EvenProduct(n: nat, t: nat)
    requires n % 2 == 0 && n >= 8 && t >= 1
    ensures n * t % 2 == 0 && n * t >= n
  {
    var h := n / 2;
    assert n * t == 2 * (h * t);
    assert h * t >= h;
  }

  lemma OneMore(x: nat, i: nat)
    ensures x * (i + 1) == x * i + x
  {
  }

  lemma Accounts(elements: nat, iterations: nat, threads: nat)
    ensures iterations * 4 * elements * threads == 4 * elements * iterations * threads
    ensures 4 * elements * (iterations * threads) * threads == 4 * elements * iterations * threads * threads
  {
    assert iterations * 4 * elements == 4 * elements * iterations;
    assert 4 * elements * (iterations * threads) == 4 * elements * iterations * threads;
  }
}
