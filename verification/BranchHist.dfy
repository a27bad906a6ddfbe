/** The branch-history test: its data, and its listing on the three instruction sets. */
module BranchHist {
  import opened Words
  import opened Listing
  import opened Machine
  import opened Symbols
  import opened BranchHistText
  import opened BranchHistLoop
  import opened Trace
  import BranchHistRiscv
  import BranchHistArm
  import BranchHistX86

  // ----- the data

  /** Element idx of the test array, drawn holding the values of rand. */
  function Element(random: bool, drawn: seq<nat>, idx: nat): nat
    requires idx < |drawn|
  {
    if random then drawn[idx] % 2 else 0
  }

  /** The part of runBranchHistTest that fills the test array, row by row. */
  method FillTestArray(historyLen: nat, branchCount: nat, random: bool, drawn: seq<nat>) returns (testArrToArr: array<nat>)
    requires branchCount >= 1 && |drawn| == branchCount * historyLen
    ensures fresh(testArrToArr) && testArrToArr.Length == branchCount * historyLen
    ensures forall idx :: 0 <= idx < |drawn| ==> testArrToArr[idx] == if random then drawn[idx] % 2 else 0
  {
    testArrToArr := new nat[branchCount * historyLen];
    var testArrIdx := 0;
    ghost var h := 0;
    while testArrIdx < branchCount * historyLen
      invariant testArrIdx == branchCount * h && h <= historyLen
      invariant forall idx :: 0 <= idx < testArrIdx ==> testArrToArr[idx] == Element(random, drawn, idx)
      decreases historyLen - h
    {
      RowFits(branchCount, h, historyLen);
      for i := 0 to branchCount
        invariant forall idx :: 0 <= idx < testArrIdx + i ==> testArrToArr[idx] == Element(random, drawn, idx)
      {
        testArrToArr[testArrIdx + i] := if random then drawn[testArrIdx + i] % 2 else 0;
      }
      testArrIdx := testArrIdx + branchCount;
      h := h + 1;
    }
  }

  lemma RowFits(count: nat, h: nat, n: nat)
    requires count * h < count * n
    ensures h < n && count * (h + 1) == count * h + count <= count * n
  {
    assert h < n by { Monotone(count, n, h); }
    Monotone(count, h + 1, n);
  }

  lemma Monotone(count: nat, a: nat, b: nat)
    ensures a <= b ==> count * a <= count * b
  {
  }

  /** The rows of a flat array, one element per branch. */
  function RowsOf(a: seq<nat>, count: nat, n: nat): (rows: seq<seq<nat>>)
    requires |a| == count * n
    ensures |rows| == n
  {
    seq(n, h requires 0 <= h < n => RowFlat(a, count, h, n))
  }

  function RowFlat(a: seq<nat>, count: nat, h: nat, n: nat): (row: seq<nat>)
    requires |a| == count * n && h < n
    ensures |row| == count
  {
    RowEnds(count, h, n);
    a[count * h..count * h + count]
  }

  lemma RowEnds(count: nat, h: nat, n: nat)
    requires h < n
    ensures count * h + count <= count * n
  {
    Monotone(count, h + 1, n);
    assert count * (h + 1) == count * h + count;
  }

  /** A test array in memory holds its rows, and ends where the caller's end pointer says. */
  lemma ArrayHoldsRows(m: Memory, base: nat, a: seq<nat>, count: nat, n: nat)
    requires |a| == count * n && n >= 1 && base + 4 * |a| < TWO64
    requires forall idx {:trigger a[idx]} :: 0 <= idx < |a| ==> Load32(m, base + 4 * idx) == a[idx]
    ensures Rectangular(RowsOf(a, count, n), count) && Pattern(m, base, count, RowsOf(a, count, n))
    ensures RowAt(base, count, n) == base + 4 * |a|
  {
    hide Load32, RowAt;
    var rows := RowsOf(a, count, n);
    RowValue(base, count, n);
    forall h, j {:trigger rows[h][j]} | 0 <= h < |rows| && 0 <= j < |rows[h]|
      ensures |rows[h]| == count && Load32(m, RowAt(base, count, h) + 4 * j) == rows[h][j]
    {
      RowEnds(count, h, n);
      RowValue(base, count, h);
      assert rows[h][j] == a[count * h + j];
    }
  }

  // ----- the listings

  /** The line of the loop in a function at line p. */
  function LoopLine(v: Arch, p: nat): nat {
    p + OpeningSize(v)
  }

  /** Iteration k of n, for every k below n, begins with the pointer at row k modulo the number of rows. */
  ghost predicate Cycles(v: Arch, prog: Program, s: State, base: nat, count: nat, rows: seq<seq<nat>>, n: nat)
    requires rows != []
  {
    forall k {:trigger Begins(v, prog, s, LoopLine(v, s.pc), base, count, |rows|, k, n)} :: 0 <= k < n ==>
      Begins(v, prog, s, LoopLine(v, s.pc), base, count, |rows|, k, n)
  }

  lemma LoopCycles(v: Arch, prog: Program, s: State, steps: nat, base: nat, count: nat, rows: seq<seq<nat>>, n: nat)
    requires rows != [] && Run(prog, s, OpeningSize(v)).pc == LoopLine(v, s.pc)
    requires LoopDone(v, prog, Run(prog, s, OpeningSize(v)), steps, count, base, rows, 0, n)
    ensures Cycles(v, prog, s, base, count, rows, n)
  {
    hide Run, Begins, Looped, Loop, Sum, RowAt, OpeningSize, Outcomes, History;
    var s1 := Run(prog, s, OpeningSize(v));
    forall k {:trigger Begins(v, prog, s, LoopLine(v, s.pc), base, count, |rows|, k, n)} | 0 <= k < n
      ensures Begins(v, prog, s, LoopLine(v, s.pc), base, count, |rows|, k, n)
    {
      assert Begins(v, prog, s1, s1.pc, base, count, |rows|, k, n);
      BeginsLater(v, prog, s, OpeningSize(v), s1.pc, base, count, |rows|, k, n);
    }
  }

  /** Nothing branches before and behind the loop. */
  lemma CallOutcomes(v: Arch, prog: Program, s: State, count: nat, steps: nat, base: nat, rows: seq<seq<nat>>, n: nat)
    requires rows != [] && Embedded(prog, s.pc, Fn(v, count)) && s.ok && Run(prog, s, OpeningSize(v)).pc == LoopLine(v, s.pc)
    requires LoopDone(v, prog, Run(prog, s, OpeningSize(v)), steps, count, base, rows, 0, n)
    ensures Outcomes(prog, s, OpeningSize(v) + (steps + |Ending(v)|)) == History(v, rows, 0, n)
  {
    hide Run, Begins, Loop, Sum, RowAt, OpeningSize, Outcomes, History, Embedded, Opening, Ending, Get, Falling, NoTransfers;
    EmbedThree(prog, s.pc, Opening(v, count), Loop(v, count), Ending(v));
    OpeningFalls(v, prog, count);
    TextFalls(prog, s.pc, Opening(v, count));
    BlockOutcomes(prog, s, OpeningSize(v));
    var s1 := Run(prog, s, OpeningSize(v));
    var s2 := Run(prog, s1, steps);
    EndingFalls(v, prog, s2.pc);
    EndingOutcomes(prog, s2, |Ending(v)| - 1);
    OutcomesAdd(prog, s1, steps, |Ending(v)|);
    OutcomesAdd(prog, s, OpeningSize(v), steps + |Ending(v)|);
  }

  /** What a call whose loop is done was seen to do. */
  lemma CallDone(v: Arch, prog: Program, s: State, k: nat, steps: nat, base: nat, count: nat, rows: seq<seq<nat>>, n: nat)
    requires rows != [] && Embedded(prog, s.pc, Fn(v, count)) && Callable(v, s, base, count, rows, n)
    requires Run(prog, s, OpeningSize(v)).pc == s.pc + OpeningSize(v)
    requires LoopDone(v, prog, Run(prog, s, OpeningSize(v)), steps, count, base, rows, 0, n)
    requires k == OpeningSize(v) + (steps + match v case RiscV => 12 case Aarch64 => 9 case X64 => 5)
    ensures Cycles(v, prog, s, base, count, rows, n) && Outcomes(prog, s, k) == History(v, rows, 0, n)
    ensures k == Sum(v, rows, 0, n) + match v
      case RiscV => 33 + n * (4 * count + 8)
      case Aarch64 => 23 + n * (4 * count + 5)
      case X64 => 13 + n * (5 * count + 5)
  {
    hide Run, Begins, Fn, Sum, RowAt, OpeningSize, Outcomes, History, Embedded, Ending, Get, LoopDone, Cycles, Pattern;
    EndingOps(v);
    LoopCycles(v, prog, s, steps, base, count, rows, n);
    CallOutcomes(v, prog, s, count, steps, base, rows, n);
    StepsTaken(v, prog, Run(prog, s, OpeningSize(v)), steps, count, base, rows, n);
    OpeningSizes(v);
  }

  lemma StepsTaken(v: Arch, prog: Program, s: State, steps: nat, count: nat, base: nat, rows: seq<seq<nat>>, n: nat)
    requires rows != [] && LoopDone(v, prog, s, steps, count, base, rows, 0, n)
    ensures steps == Sum(v, rows, 0, n) + n * ((if v == X64 then 5 else 4) * count + if v == RiscV then 8 else 5)
  {
    hide Run, Begins, Sum, Outcomes, History, Looped, Loop, Get;
  }

  lemma OpeningSizes(v: Arch)
    ensures OpeningSize(v) == match v case RiscV => 21 case Aarch64 => 14 case X64 => 8
  {
  }

  lemma OpeningFalls(v: Arch, prog: Program, count: nat)
    ensures Falling(prog, Opening(v, count))
  {
  }

  lemma EndingFalls(v: Arch, prog: Program, p: nat)
    requires Embedded(prog, p, Ending(v))
    ensures |Ending(v)| >= 1 && NoTransfers(prog, p, |Ending(v)| - 1)
    ensures var l := p + |Ending(v)| - 1; l < |prog| && prog[l].Op? && !prog[l].instr.Branch?
  {
    hide Embedded, Ending;
    var e := Ending(v);
    EmbedLines(prog, p, e);
    EndingOps(v);
    forall l | p <= l < p + |e| - 1 && prog[l].Op?
      ensures FallsThrough(prog[l].instr)
    {
      assert prog[l] == e[l - p];
    }
    assert prog[p + |e| - 1] == e[|e| - 1];
  }

  lemma EndingOps(v: Arch)
    ensures var e := Ending(v); |e| == (match v case RiscV => 12 case Aarch64 => 9 case X64 => 5)
    ensures var e := Ending(v); e[|e| - 1].Op? && !e[|e| - 1].instr.Branch?
    ensures var e := Ending(v); forall j :: 0 <= j < |e| - 1 && e[j].Op? ==> FallsThrough(e[j].instr)
  {
  }

  lemma TopResolves(v: Arch, prog: Program, p: nat, count: nat)
    requires Embedded(prog, p, Fn(v, count))
    ensures Resolve(prog, BranchTop(count)) == Some(p)
  {
    hide Embedded, Resolve, Loop, Ending;
    EmbedThree(prog, p, Opening(v, count), Loop(v, count), Ending(v));
    EmbedLines(prog, p, Opening(v, count));
    assert Opening(v, count)[0].Label?;
  }

  /** The RISC-V listing for any distinct counts, called for `count` branches with n iterations on any rows: iteration
      k begins at row k mod H, its branches are taken exactly at the nonzero elements of that row, in order, and the call
      returns the number of zeros in the rows visited, modulo 2^64. */
  lemma RiscvTest(counts: seq<nat>, count: nat, s: State, base: nat, rows: seq<seq<nat>>, n: nat) returns (k: nat)
    requires Distinct(counts) && count in counts && rows != []
    requires Resolve(Text(RiscV, counts), BranchTop(count)) == Some(s.pc) && Callable(RiscV, s, base, count, rows, n)
    ensures var prog := Text(RiscV, counts); var e := Run(prog, s, k);
      && Cycles(RiscV, prog, s, base, count, rows, n)
      && e.ok && e.pc == Get(s, Ra) && (forall r :: r != A0 ==> Get(e, r) == Get(s, r)) && e.log == s.log + [Returned(Get(s, Ra))]
      && Get(e, A0) == Wrap(Sum(RiscV, rows, 0, n))
    ensures Outcomes(Text(RiscV, counts), s, k) == History(RiscV, rows, 0, n)
    ensures AgreeOutside(s.mem, Run(Text(RiscV, counts), s, k).mem, Get(s, Sp) - 80, Get(s, Sp))
    ensures k == 33 + n * (4 * count + 8) + Sum(RiscV, rows, 0, n)
  {
    hide AgreeOutside, Run, Get, Text, Fn, Embedded, Resolve, Callable, LoopDone, Sum, Wrap, Cycles, Pointing, Outcomes, History, Ending;
    var prog := Text(RiscV, counts);
    var at := Found(RiscV, counts, count);
    TopResolves(RiscV, prog, at, count);
    var steps: nat;
    k, steps := BranchHistRiscv.FunctionRuns(prog, s, count, base, rows, n);
    BranchHistRiscv.Starts(prog, s, count, base, rows, n);
    CallDone(RiscV, prog, s, k, steps, base, count, rows, n);
  }

  /** The ARM listing: the same trajectory, branches and result. */
  lemma ArmTest(counts: seq<nat>, count: nat, s: State, base: nat, rows: seq<seq<nat>>, n: nat) returns (k: nat)
    requires Distinct(counts) && count in counts && rows != []
    requires Resolve(Text(Aarch64, counts), BranchTop(count)) == Some(s.pc) && Callable(Aarch64, s, base, count, rows, n)
    ensures var prog := Text(Aarch64, counts); var e := Run(prog, s, k);
      && Cycles(Aarch64, prog, s, base, count, rows, n)
      && e.ok && e.pc == Get(s, X30) && (forall r :: r != X0 ==> Get(e, r) == Get(s, r)) && e.log == s.log + [Returned(Get(s, X30))]
      && Get(e, X0) == Wrap(Sum(Aarch64, rows, 0, n))
    ensures Outcomes(Text(Aarch64, counts), s, k) == History(Aarch64, rows, 0, n)
    ensures AgreeOutside(s.mem, Run(Text(Aarch64, counts), s, k).mem, Get(s, Sp) - 64, Get(s, Sp))
    ensures k == 23 + n * (4 * count + 5) + Sum(Aarch64, rows, 0, n)
  {
    hide AgreeOutside, Run, Get, Text, Fn, Embedded, Resolve, Callable, LoopDone, Sum, Wrap, Cycles, Pointing, Outcomes, History, Ending;
    var prog := Text(Aarch64, counts);
    var at := Found(Aarch64, counts, count);
    TopResolves(Aarch64, prog, at, count);
    var steps: nat;
    k, steps := BranchHistArm.FunctionRuns(prog, s, count, base, rows, n);
    BranchHistArm.FnParts(prog, at, count);
    BranchHistArm.Starts(prog, s, count, base, rows, n);
    CallDone(Aarch64, prog, s, k, steps, base, count, rows, n);
  }

  /** The x86 listing: the same trajectory; the branches are taken at the zeros, and the result counts the nonzero elements
      instead. */
  lemma X86Test(counts: seq<nat>, count: nat, s: State, base: nat, rows: seq<seq<nat>>, n: nat) returns (k: nat)
    requires Distinct(counts) && count in counts && rows != []
    requires Resolve(Text(X64, counts), BranchTop(count)) == Some(s.pc) && Callable(X64, s, base, count, rows, n)
    ensures var prog := Text(X64, counts); var e := Run(prog, s, k); var to := Load64(s.mem, Get(s, Sp));
      && Cycles(X64, prog, s, base, count, rows, n)
      && e.ok && e.pc == to && Get(e, Sp) == Get(s, Sp) + 8 && e.log == s.log + [Returned(to)]
      && (forall r :: !BranchHistX86.Changed(r) && r != Sp ==> Get(e, r) == Get(s, r)) && Get(e, Rax) == Wrap(Sum(X64, rows, 0, n))
    ensures Outcomes(Text(X64, counts), s, k) == History(X64, rows, 0, n)
    ensures AgreeOutside(s.mem, Run(Text(X64, counts), s, k).mem, Get(s, Sp) - 24, Get(s, Sp))
    ensures k == 13 + n * (5 * count + 5) + Sum(X64, rows, 0, n)
  {
    hide AgreeOutside, Run, Get, Text, Fn, Embedded, Resolve, Callable, LoopDone, Sum, Wrap, Cycles, Pointing, Outcomes, History, Ending, Load64, BranchHistX86.Changed;
    var prog := Text(X64, counts);
    var at := Found(X64, counts, count);
    TopResolves(X64, prog, at, count);
    var steps: nat;
    k, steps := BranchHistX86.FunctionRuns(prog, s, count, base, rows, n);
    BranchHistX86.FnParts(prog, at, count);
    BranchHistX86.Starts(prog, s, count, base, rows, n);
    CallDone(X64, prog, s, k, steps, base, count, rows, n);
  }

  /** On the same rows the three programs account for every branch once: what RISC-V (or ARM) returns and what x86
      returns add up to n * count. */
  lemma ResultsComplete(rows: seq<seq<nat>>, count: nat, n: nat)
    requires rows != [] && Rectangular(rows, count)
    ensures Wrap(Sum(RiscV, rows, 0, n)) == Wrap(Sum(Aarch64, rows, 0, n))
    ensures Wrap(Wrap(Sum(RiscV, rows, 0, n)) + Wrap(Sum(X64, rows, 0, n))) == Wrap(n * count)
  {
    hide Wrap;
    SumSplit(rows, count, 0, n);
    WrapBoth(Sum(RiscV, rows, 0, n), Sum(X64, rows, 0, n));
  }

  lemma WrapBoth(a: nat, b: nat)
    ensures Wrap(Wrap(a) + Wrap(b)) == Wrap(a + b)
  {
    WrapAdd(a, Wrap(b));
    WrapAdd(b, a);
  }
}
