/** Running the loop of the branch-history test. */
module BranchHistLoop {
  import opened Words
  import opened Listing
  import opened Machine
  import opened Symbols
  import opened Sums
  import opened BranchHistText
  import opened Trace

  // ----- the array

  /** The address of row h: one element per branch, 4 bytes each. */
  function RowAt(base: nat, count: nat, h: nat): nat {
    if h == 0 then base else RowAt(base, count, h - 1) + 4 * count
  }

  lemma {:induction false} RowValue(base: nat, count: nat, h: nat)
    ensures RowAt(base, count, h) == base + 4 * (count * h)
  {
    if h != 0 {
      RowValue(base, count, h - 1);
      assert count * h == count * (h - 1) + count;
    }
  }

  lemma RowNext(base: nat, count: nat, h: nat)
    ensures RowAt(base, count, h + 1) == RowAt(base, count, h) + 4 * count && RowAt(base, count, 0) == base
  {
  }

  lemma {:induction false} RowOrder(base: nat, count: nat, h: nat, n: nat)
    requires h < n && count >= 1
    ensures RowAt(base, count, h) < RowAt(base, count, h) + 4 * count <= RowAt(base, count, n)
    decreases n
  {
    RowNext(base, count, n - 1);
    if h + 1 < n {
      RowOrder(base, count, h, n - 1);
    }
  }

  /** Memory holds the rows: rows[h][j] is what branch j sees in an iteration at position h. */
  ghost predicate Pattern(m: Memory, base: nat, count: nat, rows: seq<seq<nat>>) {
    && rows != [] && RowAt(base, count, |rows|) < TWO64
    && forall h, j {:trigger rows[h][j]} :: 0 <= h < |rows| && 0 <= j < |rows[h]| ==>
         |rows[h]| == count && Load32(m, RowAt(base, count, h) + 4 * j) == rows[h][j]
  }

  ghost predicate Rectangular(rows: seq<seq<nat>>, count: nat) {
    forall h :: 0 <= h < |rows| ==> |rows[h]| == count
  }

  /** The x86 program counts nonzero elements, the other two count zeros. */
  predicate Counts(v: Arch, x: nat) {
    if v == X64 then x != 0 else x == 0
  }

  /** How many of the first n elements of a row are counted. */
  function Counted(v: Arch, row: seq<nat>, n: nat): nat
    requires n <= |row|
  {
    if n == 0 then 0 else Counted(v, row, n - 1) + if Counts(v, row[n - 1]) then 1 else 0
  }

  /** The count over iterations k .. k+n-1, iteration k being at row k modulo the number of rows. */
  function Sum(v: Arch, rows: seq<seq<nat>>, k: nat, n: nat): nat
    requires rows != []
    decreases n
  {
    if n == 0 then 0 else Counted(v, rows[k % |rows|], |rows[k % |rows|]|) + Sum(v, rows, k + 1, n - 1)
  }

  /** The outcomes of the first n branches of a row: x86 jumps over the count at a zero, the other two at anything else. */
  function RowOutcomes(v: Arch, row: seq<nat>, n: nat): seq<bool>
    requires n <= |row|
  {
    if n == 0 then [] else RowOutcomes(v, row, n - 1) + [if v == X64 then row[n - 1] == 0 else row[n - 1] != 0]
  }

  /** The outcomes of iterations k .. k+n-1: the branches of each row in order, and one that loops back but for the last. */
  function History(v: Arch, rows: seq<seq<nat>>, k: nat, n: nat): seq<bool>
    requires rows != []
    decreases n
  {
    if n == 0 then []
    else RowOutcomes(v, rows[k % |rows|], |rows[k % |rows|]|) + [n > 1] + History(v, rows, k + 1, n - 1)
  }

  /** Outcome j of iteration i: below the row's length that of its branch j, and then whether the loop goes on. */
  lemma {:induction false} HistoryAt(v: Arch, rows: seq<seq<nat>>, count: nat, k: nat, n: nat, i: nat, j: nat)
    requires rows != [] && Rectangular(rows, count) && i < n && j <= count
    ensures |History(v, rows, k, n)| == n * (count + 1) && i * (count + 1) + j < n * (count + 1)
    ensures History(v, rows, k, n)[i * (count + 1) + j]
      == if j == count then i + 1 < n else (rows[(k + i) % |rows|][j] == 0) == (v == X64)
    decreases n
  {
    hide Rectangular, RowOutcomes, History;
    HistoryUnfold(v, rows, k, n);
    HistoryFront(v, rows, count, k, n);
    OneRowMore(n, count);
    if n == 1 {
    } else if i == 0 {
      HistoryAt(v, rows, count, k + 1, n - 1, 0, j);
    } else {
      HistoryAt(v, rows, count, k + 1, n - 1, i - 1, j);
      OneRowMore(i, count);
      assert (k + 1) + (i - 1) == k + i;
    }
  }

  lemma OneRowMore(n: nat, count: nat)
    requires n >= 1
    ensures n * (count + 1) == (count + 1) + (n - 1) * (count + 1)
  {
  }

  /** The outcomes of the first iteration. */
  lemma HistoryFront(v: Arch, rows: seq<seq<nat>>, count: nat, k: nat, n: nat)
    requires rows != [] && Rectangular(rows, count) && n >= 1
    ensures var row := rows[k % |rows|]; var front := RowOutcomes(v, row, |row|) + [n > 1];
      && |row| == count && |front| == count + 1 && front[count] == (n > 1)
      && forall j :: 0 <= j < count ==> front[j] == ((row[j] == 0) == (v == X64))
  {
    hide RowOutcomes;
    RowLength(rows, count, k % |rows|);
    RowOutcomesAt(v, rows[k % |rows|], count);
  }

  lemma RowLength(rows: seq<seq<nat>>, count: nat, h: nat)
    requires Rectangular(rows, count) && h < |rows|
    ensures |rows[h]| == count
  {
  }

  lemma {:induction false} RowOutcomesAt(v: Arch, row: seq<nat>, n: nat)
    requires n <= |row|
    ensures |RowOutcomes(v, row, n)| == n
    ensures forall j :: 0 <= j < n ==> RowOutcomes(v, row, n)[j] == ((row[j] == 0) == (v == X64))
  {
    if n > 0 {
      RowOutcomesAt(v, row, n - 1);
    }
  }

  lemma HistoryUnfold(v: Arch, rows: seq<seq<nat>>, k: nat, n: nat)
    requires rows != [] && n >= 1
    ensures History(v, rows, k, n) == RowOutcomes(v, rows[k % |rows|], |rows[k % |rows|]|) + [n > 1] + History(v, rows, k + 1, n - 1)
    ensures n == 1 ==> History(v, rows, k, n) == RowOutcomes(v, rows[k % |rows|], |rows[k % |rows|]|) + [false]
  {
    hide RowOutcomes;
    assert History(v, rows, k + 1, 0) == [];
  }

  /** Every branch is counted by x86 or by the other two, never by both. */
  lemma {:induction false} CountedSplit(row: seq<nat>, n: nat)
    requires n <= |row|
    ensures Counted(X64, row, n) + Counted(RiscV, row, n) == n && Counted(Aarch64, row, n) == Counted(RiscV, row, n)
  {
    if n != 0 {
      CountedSplit(row, n - 1);
    }
  }

  lemma {:induction false} SumSplit(rows: seq<seq<nat>>, count: nat, k: nat, n: nat)
    requires rows != [] && Rectangular(rows, count)
    ensures Sum(X64, rows, k, n) + Sum(RiscV, rows, k, n) == n * count && Sum(Aarch64, rows, k, n) == Sum(RiscV, rows, k, n)
    decreases n
  {
    if n != 0 {
      CountedSplit(rows[k % |rows|], count);
      SumSplit(rows, count, k + 1, n - 1);
      assert n * count == count + (n - 1) * count;
    }
  }

  // ----- one branch

  /** Only the registers a branch uses have changed. */
  ghost predicate Branched(v: Arch, s: State, e: State) {
    && e.ok && e.low == s.low && e.log == s.log && e.mem == s.mem
    && forall r :: r != Ptr(v) && r != Datum(v) && r != Tally(v) ==> Get(e, r) == Get(s, r)
  }

  lemma BranchedTrans(v: Arch, s: State, s': State, e: State)
    requires Branched(v, s, s') && Branched(v, s', e)
    ensures Branched(v, s, e)
  {
    hide Get, Ptr, Datum, Tally;
  }

  lemma BlockLines(v: Arch, prog: Program, p: nat, count: nat, j: nat)
    requires Embedded(prog, p, Block(v, count, j))
    ensures p + BlockSize(v) <= |prog| && Resolve(prog, BranchZero(count, j)) == Some(p + BlockSize(v) - 1)
    ensures prog[p + BlockSize(v) - 1] == Label(BranchZero(count, j))
    ensures prog[p] == Op(Load(Datum(v), if v == RiscV then SignedHalf else Half, Address(Ptr(v), I(0), By1, 0)))
    ensures prog[p + 1] == Op(Alu(Ptr(v), Plus, R(Ptr(v)), I(4), v == X64))
    ensures v != X64 ==> prog[p + 2] == Op(Branch(IfNonzero(Datum(v)), BranchZero(count, j)))
    ensures v != X64 ==> prog[p + 3] == Op(Alu(Tally(v), Plus, R(Tally(v)), I(1), false))
    ensures v == X64 ==> prog[p + 2] == Op(Compare(Conj, R(Rax), R(Rax))) && prog[p + 3] == Op(Branch(IfFlag(true), BranchZero(count, j)))
    ensures v == X64 ==> prog[p + 4] == Op(Alu(R8, Plus, R(R8), I(1), true))
  {
    hide Embedded, Resolve;
    var f := Block(v, count, j);
    EmbedLines(prog, p, f);
    assert f[0].Op? && f[1].Op? && f[2].Op? && f[3].Op? && f[BlockSize(v) - 1].Label?;
    assert v == X64 ==> f[4].Op?;
  }

  lemma ArchRegisters(v: Arch)
    ensures Ptr(v) != Sp && Ptr(v) != Zero && Datum(v) != Sp && Datum(v) != Zero && Tally(v) != Sp && Tally(v) != Zero
    ensures Ptr(v) != Datum(v) && Ptr(v) != Tally(v) && Datum(v) != Tally(v)
    ensures Left(v) != Ptr(v) && Left(v) != Datum(v) && Left(v) != Tally(v) && Left(v) != Sp && Left(v) != Zero
    ensures First(v) != Ptr(v) && First(v) != Datum(v) && First(v) != Tally(v) && First(v) != Left(v)
    ensures Last(v) != Ptr(v) && Last(v) != Datum(v) && Last(v) != Tally(v) && Last(v) != Left(v)
    ensures First(v) != Zero && Last(v) != Zero && First(v) != Sp && Last(v) != Sp
  {
  }

  /** The element in the register is zero exactly if the element in memory is. */
  lemma ReadRuns(v: Arch, prog: Program, s: State, count: nat, j: nat, x: nat) returns (e: State)
    requires Embedded(prog, s.pc, Block(v, count, j)) && s.ok && Get(s, Ptr(v)) + 4 < TWO64 && Load32(s.mem, Get(s, Ptr(v))) == x
    ensures e == Run(prog, s, 2) && Branched(v, s, e) && e.pc == s.pc + 2
    ensures Get(e, Ptr(v)) == Get(s, Ptr(v)) + 4 && Get(e, Tally(v)) == Get(s, Tally(v)) && (Get(e, Datum(v)) == 0 <==> x == 0)
  {
    hide Block, Get, Step, Embedded, Load32, Load64, Resolve, Eval, Fetch, Effective;
    BlockLines(v, prog, s.pc, count, j);
    ArchRegisters(v);
    var a := Get(s, Ptr(v));
    var size := if v == RiscV then SignedHalf else Half;
    var d := Fetch(s.mem, size, a);
    FetchZero(s.mem, size, a);
    EffectiveAt(s, Ptr(v));
    var s1 := StepLoad(prog, s, s.pc, Datum(v), size, Address(Ptr(v), I(0), By1, 0), a, d);
    e := StepNext(v, prog, s1, s.pc + 1, a + 4);
    RunSingle(prog, s);
    RunOneMore(prog, s, 1);
  }

  lemma FetchZero(m: Memory, size: Size, a: nat)
    requires size != Full
    ensures Fetch(m, size, a) == 0 <==> Load32(m, a) == 0
  {
    hide Load32;
  }

  /** The pointer moves to the next element. */
  lemma StepNext(v: Arch, prog: Program, s: State, p: nat, a: Word) returns (e: State)
    requires Ready(prog, s, p, Alu(Ptr(v), Plus, R(Ptr(v)), I(4), v == X64)) && Get(s, Ptr(v)) + 4 == a
    ensures e == Step(prog, s) && Wrote(s, e, Ptr(v), a, p + 1) && e.mem == s.mem && e.log == s.log
  {
    hide Get, Step, Eval;
    AddFour(Get(s, Ptr(v)));
    if v == X64 {
      e := StepFlags(prog, s, p, R11, Plus, R(R11), I(4), a);
    } else {
      e := StepAddI(prog, s, p, Ptr(v), Ptr(v), 4, a);
    }
  }

  lemma EffectiveAt(s: State, r: Reg)
    ensures Effective(s, Address(r, I(0), By1, 0)) == Get(s, r)
  {
    hide Get;
  }

  lemma AddFour(a: Word)
    requires a + 4 < TWO64
    ensures Eval(Plus, a, Wrap(4)) == a + 4
  {
  }

  /** The sum after a branch on x. */
  function Added(v: Arch, sum: Word, x: nat): Word {
    if Counts(v, x) then Wrap(sum + 1) else sum
  }

  lemma {:induction false} AndSelf(x: nat)
    ensures BitAnd(x, x) == x
  {
    if x != 0 {
      AndSelf(x / 2);
    }
  }

  lemma SameAnd(x: Word)
    ensures Eval(Conj, x, x) == x
  {
    AndSelf(x);
  }

  /** From the conditional branch to the end of the block, on RISC-V and ARM. */
  lemma TestRuns(v: Arch, prog: Program, s: State, p: nat, count: nat, j: nat, x: nat) returns (k: nat)
    requires v != X64 && Embedded(prog, p, Block(v, count, j)) && s.ok && s.pc == p + 2 && (Get(s, Datum(v)) == 0 <==> x == 0)
    ensures k == if x != 0 then 2 else 3
    ensures var e := Run(prog, s, k);
      Branched(v, s, e) && e.pc == p + BlockSize(v) && Get(e, Ptr(v)) == Get(s, Ptr(v)) && Get(e, Tally(v)) == Added(v, Get(s, Tally(v)), x)
  {
    hide Block, Get, Step, Embedded, Resolve;
    BlockLines(v, prog, p, count, j);
    ArchRegisters(v);
    var s1 := StepBranch(prog, s, p + 2, IfNonzero(Datum(v)), BranchZero(count, j), p + 4);
    RunSingle(prog, s);
    if x != 0 {
      var e := StepMark(prog, s1, p + 4);
      RunOneMore(prog, s, 1);
      k := 2;
    } else {
      var s2 := StepAlu(prog, s1, p + 3, Tally(v), Plus, R(Tally(v)), I(1), Wrap(Get(s, Tally(v)) + 1));
      var e := StepMark(prog, s2, p + 4);
      RunOneMore(prog, s, 1);
      RunOneMore(prog, s, 2);
      k := 3;
    }
  }

  /** The branch is taken at a nonzero element. */
  lemma TestOutcomes(v: Arch, prog: Program, s: State, p: nat, count: nat, j: nat, x: nat)
    requires v != X64 && Embedded(prog, p, Block(v, count, j)) && s.ok && s.pc == p + 2 && (Get(s, Datum(v)) == 0 <==> x == 0)
    ensures Outcomes(prog, s, if x != 0 then 2 else 3) == [x != 0]
  {
    hide Block, Get, Step, Embedded, Resolve, Outcomes, Run;
    BlockLines(v, prog, p, count, j);
    var s1 := StepBranch(prog, s, p + 2, IfNonzero(Datum(v)), BranchZero(count, j), p + 4);
    RunSingle(prog, s);
    OutcomesBranch(prog, s, IfNonzero(Datum(v)), BranchZero(count, j));
    var rest := if x != 0 then 1 else 2;
    BlockOutcomes(prog, s1, rest);
    OutcomesAdd(prog, s, 1, rest);
  }

  lemma TestRunsX64(prog: Program, s: State, p: nat, count: nat, j: nat, x: nat) returns (k: nat)
    requires Embedded(prog, p, Block(X64, count, j)) && s.ok && s.pc == p + 2 && (Get(s, Rax) == 0 <==> x == 0)
    ensures k == if x == 0 then 3 else 4
    ensures var e := Run(prog, s, k);
      Branched(X64, s, e) && e.pc == p + 6 && Get(e, R11) == Get(s, R11) && Get(e, R8) == Added(X64, Get(s, R8), x)
  {
    hide Block, Get, Step, Embedded, Resolve, BitAnd;
    BlockLines(X64, prog, p, count, j);
    SameAnd(Get(s, Rax));
    var s1 := StepCompare(prog, s, p + 2, Conj, R(Rax), R(Rax));
    var s2 := StepBranch(prog, s1, p + 3, IfFlag(true), BranchZero(count, j), p + 5);
    RunSingle(prog, s);
    RunOneMore(prog, s, 1);
    RunOneMore(prog, s, 2);
    if x == 0 {
      var e := StepMark(prog, s2, p + 5);
      k := 3;
    } else {
      var s3 := StepFlags(prog, s2, p + 4, R8, Plus, R(R8), I(1), Wrap(Get(s, R8) + 1));
      var e := StepMark(prog, s3, p + 5);
      RunOneMore(prog, s, 3);
      k := 4;
    }
  }

  /** The x86 branch is taken at a zero. */
  lemma TestOutcomesX64(prog: Program, s: State, p: nat, count: nat, j: nat, x: nat)
    requires Embedded(prog, p, Block(X64, count, j)) && s.ok && s.pc == p + 2 && (Get(s, Rax) == 0 <==> x == 0)
    ensures Outcomes(prog, s, if x == 0 then 3 else 4) == [x == 0]
  {
    hide Block, Get, Step, Embedded, Resolve, BitAnd, Outcomes, Run;
    BlockLines(X64, prog, p, count, j);
    SameAnd(Get(s, Rax));
    var s1 := StepCompare(prog, s, p + 2, Conj, R(Rax), R(Rax));
    var s2 := StepBranch(prog, s1, p + 3, IfFlag(true), BranchZero(count, j), p + 5);
    RunSingle(prog, s);
    RunSingle(prog, s1);
    OutcomesOne(prog, s);
    OutcomesBranch(prog, s1, IfFlag(true), BranchZero(count, j));
    var rest := if x == 0 then 1 else 2;
    BlockOutcomes(prog, s2, rest);
    OutcomesAdd(prog, s1, 1, rest);
    OutcomesAdd(prog, s, 1, 1 + rest);
  }

  /** One branch block: the pointer moves to the next element, and the element is counted or not. */
  lemma BlockRuns(v: Arch, prog: Program, s: State, count: nat, j: nat, x: nat) returns (k: nat)
    requires Embedded(prog, s.pc, Block(v, count, j)) && s.ok && Get(s, Ptr(v)) + 4 < TWO64 && Load32(s.mem, Get(s, Ptr(v))) == x
    ensures var e := Run(prog, s, k);
      && Branched(v, s, e) && e.pc == s.pc + BlockSize(v)
      && Get(e, Ptr(v)) == Get(s, Ptr(v)) + 4 && Get(e, Tally(v)) == Added(v, Get(s, Tally(v)), x)
    ensures Outcomes(prog, s, k) == [if v == X64 then x == 0 else x != 0]
    ensures k == (if v == X64 then 5 else 4) + if Counts(v, x) then 1 else 0
  {
    hide Block, Run, Get, Embedded, Load32, Added, Branched, Outcomes;
    var s1 := ReadRuns(v, prog, s, count, j, x);
    BranchedOk(v, s, s1);
    var k1: nat;
    if v == X64 {
      k1 := TestRunsX64(prog, s1, s.pc, count, j, x);
      TestOutcomesX64(prog, s1, s.pc, count, j, x);
    } else {
      k1 := TestRuns(v, prog, s1, s.pc, count, j, x);
      TestOutcomes(v, prog, s1, s.pc, count, j, x);
    }
    RunAdd(prog, s, 2, k1);
    ReadOutcomes(v, prog, s, count, j);
    OutcomesAdd(prog, s, 2, k1);
    BranchedTrans(v, s, s1, Run(prog, s1, k1));
    k := 2 + k1;
  }

  lemma ReadOutcomes(v: Arch, prog: Program, s: State, count: nat, j: nat)
    requires Embedded(prog, s.pc, Block(v, count, j)) && s.ok
    ensures Outcomes(prog, s, 2) == []
  {
    hide Block, Embedded, Outcomes, Run, Resolve;
    BlockLines(v, prog, s.pc, count, j);
    BlockOutcomes(prog, s, 2);
  }

  lemma BranchedOk(v: Arch, s: State, e: State)
    requires Branched(v, s, e)
    ensures e.ok && e.mem == s.mem && e.log == s.log && e.low == s.low
  {
  }

  // ----- one iteration

  /** The pointer is at row h. */
  ghost predicate Pointing(v: Arch, s: State, base: nat, count: nat, rows: seq<seq<nat>>, h: nat) {
    && s.ok && count >= 1 && h < |rows| && Rectangular(rows, count) && Pattern(s.mem, base, count, rows)
    && Get(s, First(v)) == base && Get(s, Last(v)) == RowAt(base, count, |rows|) && Get(s, Ptr(v)) == RowAt(base, count, h)
  }

  lemma ElementAt(m: Memory, base: nat, count: nat, rows: seq<seq<nat>>, h: nat, j: nat)
    requires Pattern(m, base, count, rows) && Rectangular(rows, count) && h < |rows| && j < count
    ensures Load32(m, RowAt(base, count, h) + 4 * j) == rows[h][j] && RowAt(base, count, h) + 4 * count < TWO64
  {
    hide Load32, RowAt;
    RowOrder(base, count, h, |rows|);
    assert |rows[h]| == count && rows[h][j] == rows[h][j];
  }

  lemma AddedCounted(v: Arch, t: Word, row: seq<nat>, n: nat)
    requires 1 <= n <= |row|
    ensures Added(v, Wrap(t + Counted(v, row, n - 1)), row[n - 1]) == Wrap(t + Counted(v, row, n))
  {
    WrapAdd(t + Counted(v, row, n - 1), 1);
  }

  /** The lines of a block that are passed either way. */
  function Passing(v: Arch): nat { if v == X64 then 5 else 4 }

  lemma CountedMore(v: Arch, row: seq<nat>, n: nat)
    requires 1 <= n <= |row|
    ensures Counted(v, row, n) == Counted(v, row, n - 1) + if Counts(v, row[n - 1]) then 1 else 0
  {
  }

  lemma WrapWord(t: Word)
    ensures Wrap(t + 0) == t
  {
  }

  /** The first n branches of a row. */
  lemma {:induction false} BlocksRun(v: Arch, prog: Program, s: State, count: nat, base: nat, rows: seq<seq<nat>>, h: nat, n: nat)
    returns (k: nat)
    requires Embedded(prog, s.pc, Concat(Blocks(v, count, count))) && h < |rows| && |rows[h]| == count && n <= count
    requires Pointing(v, s, base, count, rows, h)
    ensures var e := Run(prog, s, k);
      && Branched(v, s, e) && e.pc == s.pc + |Concat(Blocks(v, count, count)[..n])|
      && Get(e, Ptr(v)) == RowAt(base, count, h) + 4 * n && Get(e, Tally(v)) == Wrap(Get(s, Tally(v)) + Counted(v, rows[h], n))
    ensures Outcomes(prog, s, k) == RowOutcomes(v, rows[h], n) && k == Product(n, Passing(v)) + Counted(v, rows[h], n)
    decreases n
  {
    hide Product, Counts, Run, Get, Embedded, Block, Branched, Counted, RowAt, Load32, Wrap, Added, Pattern, Outcomes;
    var pieces := Blocks(v, count, count);
    if n == 0 {
      assert pieces[..0] == [];
      RunNone(prog, s);
      k := 0;
      BranchedNone(v, s);
      OutcomesNone(prog, s);
      CountedNone(v, rows[h]);
      ProductMore(1, Passing(v));
      WrapWord(Get(s, Tally(v)));
    } else {
      var k1 := BlocksRun(v, prog, s, count, base, rows, h, n - 1);
      var e := Run(prog, s, k1);
      BranchedOk(v, s, e);
      PieceAt(prog, s.pc, pieces, n - 1);
      assert pieces[n - 1] == Block(v, count, n - 1);
      ElementAt(s.mem, base, count, rows, h, n - 1);
      var k2 := BlockRuns(v, prog, e, count, n - 1, rows[h][n - 1]);
      AddedCounted(v, Get(s, Tally(v)), rows[h], n);
      CountedMore(v, rows[h], n);
      ProductMore(n, Passing(v));
      RunAdd(prog, s, k1, k2);
      OutcomesAdd(prog, s, k1, k2);
      BranchedTrans(v, s, e, Run(prog, e, k2));
      k := k1 + k2;
    }
  }

  lemma BranchedNone(v: Arch, s: State)
    requires s.ok
    ensures Branched(v, s, s)
  {
    hide Get;
  }

  lemma CountedNone(v: Arch, row: seq<nat>)
    ensures Counted(v, row, 0) == 0
  {
  }

  // ----- the wrap

  /** On every pointer q up to the end, the RISC-V mask (set on less than, negate, and two exclusive ors with the
      start) gives what comparing with the end and selecting gives. */
  lemma MaskIsSelect(q: Word, first: Word, last: Word)
    requires q <= last
    ensures var mask := Eval(Minus, 0, Eval(Below, q, last));
      Eval(ExOr, Eval(Conj, Eval(ExOr, q, first), mask), first) == if q == last then first else q
  {
    hide XorWord, BitAnd;
    MaskLaws(q, first);
    MaskLaws(XorWord(q, first), 0);
    AndNothing(XorWord(q, first));
    NegateBit();
  }

  lemma AndNothing(x: nat)
    ensures BitAnd(x, 0) == 0
  {
  }

  lemma NegateBit()
    ensures Wrap(0 - 1) == TWO64 - 1 && Wrap(0 - 0) == 0
  {
  }

  lemma WrapLinesAt(v: Arch, prog: Program, p: nat)
    requires Embedded(prog, p, WrapLines(v))
    ensures p + WrapSize(v) <= |prog|
    ensures v == RiscV ==>
      && prog[p] == Op(Alu(T2, Below, R(T1), R(A2), false)) && prog[p + 1] == Op(Alu(T2, Minus, R(Zero), R(T2), false))
      && prog[p + 2] == Op(Alu(T1, ExOr, R(T1), R(A1), false)) && prog[p + 3] == Op(Alu(T1, Conj, R(T1), R(T2), false))
      && prog[p + 4] == Op(Alu(T1, ExOr, R(T1), R(A1), false))
    ensures v == Aarch64 ==> prog[p] == Op(Compare(Minus, R(X16), R(X2))) && prog[p + 1] == Op(Select(X16, X1, X16))
    ensures v == X64 ==> prog[p] == Op(Compare(Minus, R(Rdx), R(R11))) && prog[p + 1] == Op(Select(R11, Rsi, R11))
  {
    hide Embedded;
    var f := WrapLines(v);
    EmbedLines(prog, p, f);
    assert f[0].Op? && f[1].Op? && (v == RiscV ==> f[2].Op? && f[3].Op? && f[4].Op?);
  }

  /** The pointer at the end of the array becomes the start of the array; any other pointer stays. */
  lemma WrapRuns(v: Arch, prog: Program, s: State)
    requires Embedded(prog, s.pc, WrapLines(v)) && s.ok && Get(s, Ptr(v)) <= Get(s, Last(v))
    ensures var e := Run(prog, s, WrapSize(v));
      && e.ok && e.pc == s.pc + WrapSize(v) && e.mem == s.mem && e.log == s.log && e.low == s.low
      && (forall r :: r != Ptr(v) && !(v == RiscV && r == T2) ==> Get(e, r) == Get(s, r))
      && Get(e, Ptr(v)) == if Get(s, Ptr(v)) == Get(s, Last(v)) then Get(s, First(v)) else Get(s, Ptr(v))
  {
    hide WrapLines, Run, Get, Embedded;
    if v == RiscV {
      MaskRuns(prog, s);
    } else {
      SelectRuns(v, prog, s);
    }
  }

  lemma WrapOutcomes(v: Arch, prog: Program, s: State)
    requires Embedded(prog, s.pc, WrapLines(v)) && s.ok
    ensures Outcomes(prog, s, WrapSize(v)) == []
  {
    hide WrapLines, Run, Embedded, Outcomes;
    WrapLinesAt(v, prog, s.pc);
    BlockOutcomes(prog, s, WrapSize(v));
  }

  lemma MaskRuns(prog: Program, s: State)
    requires Embedded(prog, s.pc, WrapLines(RiscV)) && s.ok && Get(s, T1) <= Get(s, A2)
    ensures var e := Run(prog, s, 5);
      && e.ok && e.pc == s.pc + 5 && e.mem == s.mem && e.log == s.log && e.low == s.low
      && (forall r :: r != T1 && r != T2 ==> Get(e, r) == Get(s, r))
      && Get(e, T1) == if Get(s, T1) == Get(s, A2) then Get(s, A1) else Get(s, T1)
  {
    hide WrapLines, Get, Step, Embedded, Eval;
    WrapLinesAt(RiscV, prog, s.pc);
    var q, first, last := Get(s, T1), Get(s, A1), Get(s, A2);
    var z := Eval(Below, q, last);
    var mask := Eval(Minus, 0, z);
    var x := Eval(ExOr, q, first);
    var y := Eval(Conj, x, mask);
    ZeroReads();
    var s1 := StepAlu(prog, s, s.pc, T2, Below, R(T1), R(A2), z);
    var s2 := StepAlu(prog, s1, s.pc + 1, T2, Minus, R(Zero), R(T2), mask);
    var s3 := StepAlu(prog, s2, s.pc + 2, T1, ExOr, R(T1), R(A1), x);
    var s4 := StepAlu(prog, s3, s.pc + 3, T1, Conj, R(T1), R(T2), y);
    var s5 := StepAlu(prog, s4, s.pc + 4, T1, ExOr, R(T1), R(A1), Eval(ExOr, y, first));
    MaskIsSelect(q, first, last);
  }

  lemma ZeroReads()
    ensures forall s: State :: Get(s, Zero) == 0
  {
  }

  lemma DifferenceZero(a: Word, b: Word)
    ensures Eval(Minus, a, b) == 0 <==> a == b
  {
  }

  lemma SelectRuns(v: Arch, prog: Program, s: State)
    requires v != RiscV && Embedded(prog, s.pc, WrapLines(v)) && s.ok
    ensures var e := Run(prog, s, 2);
      && e.ok && e.pc == s.pc + 2 && e.mem == s.mem && e.log == s.log && e.low == s.low
      && (forall r :: r != Ptr(v) ==> Get(e, r) == Get(s, r))
      && Get(e, Ptr(v)) == if Get(s, Ptr(v)) == Get(s, Last(v)) then Get(s, First(v)) else Get(s, Ptr(v))
  {
    hide WrapLines, Get, Step, Embedded, Eval;
    WrapLinesAt(v, prog, s.pc);
    RunSingle(prog, s);
    RunOneMore(prog, s, 1);
    if v == X64 {
      DifferenceZero(Get(s, Rdx), Get(s, R11));
      var s1 := StepCompare(prog, s, s.pc, Minus, R(Rdx), R(R11));
      var s2 := StepSelect(prog, s1, s.pc + 1, R11, Rsi, R11);
    } else {
      DifferenceZero(Get(s, X16), Get(s, X2));
      var s1 := StepCompare(prog, s, s.pc, Minus, R(X16), R(X2));
      var s2 := StepSelect(prog, s1, s.pc + 1, X16, X1, X16);
    }
  }

  lemma CountLinesAt(v: Arch, prog: Program, p: nat, count: nat)
    requires Embedded(prog, p, CountLines(v, count))
    ensures p + 2 <= |prog|
    ensures v == RiscV ==> prog[p] == Op(Alu(A0, Plus, R(A0), I(-1), false)) && prog[p + 1] == Op(Branch(IfNonzero(A0), BranchLoop(count)))
    ensures v == Aarch64 ==> prog[p] == Op(Alu(X0, Minus, R(X0), I(1), false)) && prog[p + 1] == Op(Branch(IfNonzero(X0), BranchLoop(count)))
    ensures v == X64 ==> prog[p] == Op(Alu(Rdi, Minus, R(Rdi), I(1), true)) && prog[p + 1] == Op(Branch(IfFlag(false), BranchLoop(count)))
  {
    hide Embedded;
    var f := CountLines(v, count);
    EmbedLines(prog, p, f);
    assert f[0].Op? && f[1].Op?;
  }

  lemma CountRuns(v: Arch, prog: Program, s: State, count: nat, loop: nat)
    requires Embedded(prog, s.pc, CountLines(v, count)) && s.ok && Resolve(prog, BranchLoop(count)) == Some(loop)
    ensures var e := Run(prog, s, 2); var a := Wrap(Get(s, Left(v)) - 1);
      Wrote(s, e, Left(v), a, if a != 0 then loop else s.pc + 2) && e.mem == s.mem && e.log == s.log
    ensures Outcomes(prog, s, 2) == [Wrap(Get(s, Left(v)) - 1) != 0]
  {
    hide CountLines, Get, Run, Embedded, Resolve, Wrap, Outcomes;
    CountLinesAt(v, prog, s.pc, count);
    if v == X64 {
      CountDownFlags(prog, s, count, loop);
    } else {
      CountDownTest(v, prog, s, count, loop);
    }
  }

  lemma CountDownFlags(prog: Program, s: State, count: nat, loop: nat)
    requires s.ok && s.pc + 1 < |prog| && prog[s.pc] == Op(Alu(Rdi, Minus, R(Rdi), I(1), true))
    requires prog[s.pc + 1] == Op(Branch(IfFlag(false), BranchLoop(count))) && Resolve(prog, BranchLoop(count)) == Some(loop)
    ensures var e := Run(prog, s, 2); var a := Wrap(Get(s, Rdi) - 1);
      Wrote(s, e, Rdi, a, if a != 0 then loop else s.pc + 2) && e.mem == s.mem && e.log == s.log
    ensures Outcomes(prog, s, 2) == [Wrap(Get(s, Rdi) - 1) != 0]
  {
    hide Get, Step, Resolve, Outcomes;
    RunSingle(prog, s);
    RunOneMore(prog, s, 1);
    var s1 := StepFlags(prog, s, s.pc, Rdi, Minus, R(Rdi), I(1), Wrap(Get(s, Rdi) - 1));
    var e := StepBranch(prog, s1, s.pc + 1, IfFlag(false), BranchLoop(count), loop);
    OutcomesOne(prog, s);
    OutcomesBranch(prog, s1, IfFlag(false), BranchLoop(count));
    OutcomesAdd(prog, s, 1, 1);
  }

  lemma CountDownTest(v: Arch, prog: Program, s: State, count: nat, loop: nat)
    requires v != X64 && s.ok && s.pc + 1 < |prog|
    requires prog[s.pc] == Op(Alu(Left(v), if v == RiscV then Plus else Minus, R(Left(v)), I(if v == RiscV then -1 else 1), false))
    requires prog[s.pc + 1] == Op(Branch(IfNonzero(Left(v)), BranchLoop(count))) && Resolve(prog, BranchLoop(count)) == Some(loop)
    ensures var e := Run(prog, s, 2); var a := Wrap(Get(s, Left(v)) - 1);
      Wrote(s, e, Left(v), a, if a != 0 then loop else s.pc + 2) && e.mem == s.mem && e.log == s.log
    ensures Outcomes(prog, s, 2) == [Wrap(Get(s, Left(v)) - 1) != 0]
  {
    hide Get, Step, Resolve, Outcomes;
    RunSingle(prog, s);
    RunOneMore(prog, s, 1);
    var a := Wrap(Get(s, Left(v)) - 1);
    var s1 := StepAlu(prog, s, s.pc, Left(v), if v == RiscV then Plus else Minus, R(Left(v)), I(if v == RiscV then -1 else 1), a);
    var e := StepBranch(prog, s1, s.pc + 1, IfNonzero(Left(v)), BranchLoop(count), loop);
    OutcomesOne(prog, s);
    OutcomesBranch(prog, s1, IfNonzero(Left(v)), BranchLoop(count));
    OutcomesAdd(prog, s, 1, 1);
  }

  // ----- the loop

  predicate Used(v: Arch, r: Reg) {
    r == Ptr(v) || r == Datum(v) || r == Tally(v) || r == Left(v) || (v == RiscV && r == T2)
  }

  /** Only the registers of the loop have changed. */
  ghost predicate Looped(v: Arch, s: State, e: State) {
    && e.ok && e.low == s.low && e.log == s.log && e.mem == s.mem
    && forall r :: !Used(v, r) ==> Get(e, r) == Get(s, r)
  }

  lemma LoopedTrans(v: Arch, s: State, s': State, e: State)
    requires Looped(v, s, s') && Looped(v, s', e)
    ensures Looped(v, s, e)
  {
    hide Get, Used;
  }

  lemma LoopParts(v: Arch, prog: Program, p: nat, count: nat)
    requires Embedded(prog, p, Loop(v, count))
    ensures var b := |Concat(Blocks(v, count, count))|;
      && p < |prog| && prog[p] == Label(BranchLoop(count)) && Resolve(prog, BranchLoop(count)) == Some(p)
      && Embedded(prog, p + 1, Concat(Blocks(v, count, count))) && Embedded(prog, p + 1 + b, WrapLines(v))
      && Embedded(prog, p + 1 + b + WrapSize(v), CountLines(v, count)) && |Loop(v, count)| == 3 + b + WrapSize(v)
  {
    hide Embedded, Blocks, WrapLines, CountLines, Concat, Resolve;
    var h: Program := [Label(BranchLoop(count))];
    var b, w, c := Concat(Blocks(v, count, count)), WrapLines(v), CountLines(v, count);
    assert Loop(v, count) == h + b + (w + c);
    EmbedThree(prog, p, h, b, w + c);
    assert w + c == w + c + [];
    EmbedThree(prog, p + 1 + |b|, w, c, []);
    TopLine(prog, p, BranchLoop(count));
  }

  /** The lines that an iteration passes whatever the row. */
  function RowLines(v: Arch, count: nat): nat {
    Product(count, Passing(v)) + if v == RiscV then 8 else 5
  }

  /** The row after h, and row 0 after the last. */
  function NextRow(h: nat, n: nat): nat {
    if h + 1 == n then 0 else h + 1
  }

  lemma NextRowAt(base: nat, count: nat, h: nat, n: nat)
    requires h < n && count >= 1
    ensures var q := RowAt(base, count, h) + 4 * count;
      q <= RowAt(base, count, n) && RowAt(base, count, NextRow(h, n)) == if q == RowAt(base, count, n) then base else q
  {
    hide RowAt;
    RowNext(base, count, h);
    RowOrder(base, count, h, n);
    if h + 1 < n {
      RowOrder(base, count, h + 1, n);
    }
  }

  lemma PointingOk(v: Arch, s: State, base: nat, count: nat, rows: seq<seq<nat>>, h: nat)
    requires Pointing(v, s, base, count, rows, h)
    ensures s.ok
  {
  }

  /** Passing a label changes nothing that the branches rely on. */
  lemma MarkPointing(v: Arch, s: State, e: State, base: nat, count: nat, rows: seq<seq<nat>>, h: nat)
    requires Pointing(v, s, base, count, rows, h) && Moved(s, e, e.pc) && e.mem == s.mem
    ensures Pointing(v, e, base, count, rows, h) && forall r :: Get(e, r) == Get(s, r)
  {
    hide Get, Pattern, RowAt, Rectangular;
  }

  lemma MarkBranched(v: Arch, s: State, s1: State, e: State)
    requires Moved(s, s1, s1.pc) && s1.mem == s.mem && s1.log == s.log && Branched(v, s1, e)
    ensures Looped(v, s, e) && Get(e, Left(v)) == Get(s, Left(v))
  {
    hide Get;
    ArchRegisters(v);
  }

  /** The first half of an iteration: every branch of the row once, in order. */
  lemma SweepRuns(v: Arch, prog: Program, s: State, count: nat, base: nat, rows: seq<seq<nat>>, h: nat) returns (k: nat)
    requires Embedded(prog, s.pc, Loop(v, count)) && h < |rows| && |rows[h]| == count && Pointing(v, s, base, count, rows, h)
    ensures var e := Run(prog, s, k);
      && Looped(v, s, e) && e.pc == s.pc + |Loop(v, count)| - 2 - WrapSize(v) && Get(e, Left(v)) == Get(s, Left(v))
      && Get(e, Ptr(v)) == RowAt(base, count, h) + 4 * count
      && Get(e, Tally(v)) == Wrap(Get(s, Tally(v)) + Counted(v, rows[h], count))
    ensures Outcomes(prog, s, k) == RowOutcomes(v, rows[h], count) && k == 1 + Product(count, Passing(v)) + Counted(v, rows[h], count)
  {
    hide Looped, Branched, Pointing, Product, Passing, Run, Step, Get, Embedded, Resolve, Loop, Blocks, WrapLines, CountLines, Concat, RowAt, Counted, Wrap, Pattern, Rectangular,
      Outcomes, RowOutcomes;
    LoopParts(v, prog, s.pc, count);
    ArchRegisters(v);
    assert s.ok by { PointingOk(v, s, base, count, rows, h); }
    var s1 := StepMark(prog, s, s.pc);
    RunSingle(prog, s);
    MarkPointing(v, s, s1, base, count, rows, h);
    var k1 := BlocksRun(v, prog, s1, count, base, rows, h, count);
    MarkBranched(v, s, s1, Run(prog, s1, k1));
    WholeRow(v, count);
    RunAdd(prog, s, 1, k1);
    OutcomesOne(prog, s);
    OutcomesAdd(prog, s, 1, k1);
    k := 1 + k1;
  }

  /** The second half: the pointer wraps and the iteration is counted. */
  lemma TurnRuns(v: Arch, prog: Program, s: State, count: nat, loop: nat)
    requires Embedded(prog, s.pc, WrapLines(v)) && Embedded(prog, s.pc + WrapSize(v), CountLines(v, count)) && s.ok
    requires Resolve(prog, BranchLoop(count)) == Some(loop) && Get(s, Ptr(v)) <= Get(s, Last(v))
    ensures var e := Run(prog, s, WrapSize(v) + 2); var a := Wrap(Get(s, Left(v)) - 1);
      && Looped(v, s, e) && e.pc == (if a != 0 then loop else s.pc + WrapSize(v) + 2) && Get(e, Left(v)) == a
      && Get(e, Ptr(v)) == (if Get(s, Ptr(v)) == Get(s, Last(v)) then Get(s, First(v)) else Get(s, Ptr(v)))
      && Get(e, Tally(v)) == Get(s, Tally(v))
    ensures Outcomes(prog, s, WrapSize(v) + 2) == [Wrap(Get(s, Left(v)) - 1) != 0]
  {
    hide Run, Get, Embedded, Resolve, WrapLines, CountLines, Wrap, Outcomes;
    ArchRegisters(v);
    WrapRuns(v, prog, s);
    CountRuns(v, prog, Run(prog, s, WrapSize(v)), count, loop);
    RunAdd(prog, s, WrapSize(v), 2);
    WrapOutcomes(v, prog, s);
    OutcomesAdd(prog, s, WrapSize(v), 2);
  }

  /** One iteration: every branch of the row once, in order; then the next row. */
  lemma IterationRuns(v: Arch, prog: Program, s: State, count: nat, base: nat, rows: seq<seq<nat>>, h: nat) returns (k: nat)
    requires Embedded(prog, s.pc, Loop(v, count)) && h < |rows| && |rows[h]| == count && Pointing(v, s, base, count, rows, h)
    ensures var e := Run(prog, s, k); var a := Wrap(Get(s, Left(v)) - 1);
      && Looped(v, s, e) && e.pc == (if a != 0 then s.pc else s.pc + |Loop(v, count)|) && Get(e, Left(v)) == a
      && Pointing(v, e, base, count, rows, NextRow(h, |rows|))
      && Get(e, Tally(v)) == Wrap(Get(s, Tally(v)) + Counted(v, rows[h], count))
    ensures Outcomes(prog, s, k) == RowOutcomes(v, rows[h], count) + [Wrap(Get(s, Left(v)) - 1) != 0]
    ensures k == RowLines(v, count) + Counted(v, rows[h], count)
  {
    hide Product, Passing, Run, Get, Embedded, Resolve, Loop, Blocks, WrapLines, CountLines, Concat, RowAt, Counted, Wrap, Looped, Pattern, Rectangular,
      Outcomes, RowOutcomes;
    LoopParts(v, prog, s.pc, count);
    var k1 := SweepRuns(v, prog, s, count, base, rows, h);
    var s1 := Run(prog, s, k1);
    NextRowAt(base, count, h, |rows|);
    LoopedArgs(v, s, s1);
    TurnRuns(v, prog, s1, count, s.pc);
    var e := Run(prog, s1, WrapSize(v) + 2);
    LoopedTrans(v, s, s1, e);
    LoopedArgs(v, s, e);
    RunAdd(prog, s, k1, WrapSize(v) + 2);
    OutcomesAdd(prog, s, k1, WrapSize(v) + 2);
    k := k1 + (WrapSize(v) + 2);
  }

  lemma LoopedArgs(v: Arch, s: State, e: State)
    requires Looped(v, s, e)
    ensures e.ok && e.mem == s.mem && e.log == s.log && e.low == s.low
    ensures Get(e, First(v)) == Get(s, First(v)) && Get(e, Last(v)) == Get(s, Last(v))
  {
    hide Get;
    ArchRegisters(v);
  }

  lemma WholeRow(v: Arch, count: nat)
    ensures Blocks(v, count, count)[..count] == Blocks(v, count, count)
  {
  }

  /** Control is at the loop's head with so many iterations left and the pointer at the address. */
  ghost predicate HeadIs(v: Arch, e: State, loop: nat, left: Word, address: nat) {
    e.pc == loop && Get(e, Left(v)) == left && Get(e, Ptr(v)) == address
  }

  /** At some point of the run from s iteration k of `stop` begins, with the pointer at row k modulo n. */
  ghost predicate Begins(v: Arch, prog: Program, s: State, loop: nat, base: nat, count: nat, n: nat, k: nat, stop: nat)
    requires n >= 1
  {
    exists j: nat :: HeadIs(v, Run(prog, s, j), loop, Wrap(stop - k), RowAt(base, count, k % n))
  }

  /** After so many steps from s the loop has run iterations it .. stop-1: each began at its row, the elements of all their
      rows are counted, and the branches went as those elements say. */
  ghost predicate LoopDone(v: Arch, prog: Program, s: State, steps: nat, count: nat, base: nat, rows: seq<seq<nat>>, it: nat, stop: nat)
    requires rows != [] && it <= stop
  {
    var e := Run(prog, s, steps);
    && Looped(v, s, e) && e.pc == s.pc + |Loop(v, count)|
    && Get(e, Tally(v)) == Wrap(Get(s, Tally(v)) + Sum(v, rows, it, stop - it))
    && Outcomes(prog, s, steps) == History(v, rows, it, stop - it)
    && steps == Product(stop - it, RowLines(v, count)) + Sum(v, rows, it, stop - it)
    && forall k {:trigger Begins(v, prog, s, s.pc, base, count, |rows|, k, stop)} :: it <= k < stop ==>
         Begins(v, prog, s, s.pc, base, count, |rows|, k, stop)
  }

  lemma {:induction false} IterationsRun(v: Arch, prog: Program, s: State, count: nat, base: nat, rows: seq<seq<nat>>, it: nat, m: nat)
    returns (k: nat)
    requires Embedded(prog, s.pc, Loop(v, count)) && rows != [] && Rectangular(rows, count)
    requires Pointing(v, s, base, count, rows, it % |rows|) && 1 <= m <= TWO64 && Get(s, Left(v)) == Wrap(m)
    ensures LoopDone(v, prog, s, k, count, base, rows, it, it + m)
    decreases m
  {
    hide RowLines, Product, Run, Get, Embedded, Loop, RowAt, Counted, Sum, Wrap, Looped, Pointing, LoopDone, Outcomes, RowOutcomes;
    var h := it % |rows|;
    var k1 := IterationRuns(v, prog, s, count, base, rows, h);
    var s1 := Run(prog, s, k1);
    ModStep(it, |rows|);
    CountDown(m);
    PointingAt(v, s, base, count, rows, h);
    if m == 1 {
      k := k1;
      DoneOnce(v, prog, s, k1, count, base, rows, it);
    } else {
      var k2 := IterationsRun(v, prog, s1, count, base, rows, it + 1, m - 1);
      k := k1 + k2;
      DoneMore(v, prog, s, k1, k2, count, base, rows, it, it + m);
    }
  }

  lemma CountDown(m: nat)
    requires 1 <= m <= TWO64
    ensures Wrap(Wrap(m) - 1) == m - 1 && Wrap(m - 1) == m - 1
  {
  }

  lemma PointingAt(v: Arch, s: State, base: nat, count: nat, rows: seq<seq<nat>>, h: nat)
    requires Pointing(v, s, base, count, rows, h)
    ensures Get(s, Ptr(v)) == RowAt(base, count, h)
  {
  }

  lemma DoneOnce(v: Arch, prog: Program, s: State, k: nat, count: nat, base: nat, rows: seq<seq<nat>>, it: nat)
    requires rows != [] && Rectangular(rows, count) && Get(s, Left(v)) == Wrap(1)
    requires Get(s, Ptr(v)) == RowAt(base, count, it % |rows|)
    requires var e := Run(prog, s, k);
      && Looped(v, s, e) && e.pc == s.pc + |Loop(v, count)|
      && Get(e, Tally(v)) == Wrap(Get(s, Tally(v)) + Counted(v, rows[it % |rows|], count))
      && Outcomes(prog, s, k) == RowOutcomes(v, rows[it % |rows|], count) + [false]
      && k == RowLines(v, count) + Counted(v, rows[it % |rows|], count)
    ensures LoopDone(v, prog, s, k, count, base, rows, it, it + 1)
  {
    hide RowLines, Product, Run, Get, Loop, RowAt, Counted, Wrap, Looped, Begins, Outcomes, RowOutcomes, History;
    HistoryUnfold(v, rows, it, 1);
    ProductMore(1, RowLines(v, count));
    BeginsNow(v, prog, s, base, count, |rows|, it, it + 1);
    assert Sum(v, rows, it + 1, 0) == 0;
  }

  lemma DoneMore(v: Arch, prog: Program, s: State, k1: nat, k2: nat, count: nat, base: nat, rows: seq<seq<nat>>, it: nat, stop: nat)
    requires rows != [] && Rectangular(rows, count) && it + 2 <= stop && Get(s, Left(v)) == Wrap(stop - it)
    requires Get(s, Ptr(v)) == RowAt(base, count, it % |rows|)
    requires var s1 := Run(prog, s, k1);
      && Looped(v, s, s1) && s1.pc == s.pc
      && Get(s1, Tally(v)) == Wrap(Get(s, Tally(v)) + Counted(v, rows[it % |rows|], count))
      && Outcomes(prog, s, k1) == RowOutcomes(v, rows[it % |rows|], count) + [true]
      && k1 == RowLines(v, count) + Counted(v, rows[it % |rows|], count)
    requires LoopDone(v, prog, Run(prog, s, k1), k2, count, base, rows, it + 1, stop)
    ensures LoopDone(v, prog, s, k1 + k2, count, base, rows, it, stop)
  {
    hide RowLines, Product, Run, Get, Loop, RowAt, Counted, Wrap, Looped, Begins, Outcomes, RowOutcomes, History;
    var s1 := Run(prog, s, k1);
    RunAdd(prog, s, k1, k2);
    OutcomesAdd(prog, s, k1, k2);
    HistoryUnfold(v, rows, it, stop - it);
    ProductMore(stop - it, RowLines(v, count));
    LoopedTrans(v, s, s1, Run(prog, s1, k2));
    WrapAdd(Get(s, Tally(v)) + Counted(v, rows[it % |rows|], count), Sum(v, rows, it + 1, stop - (it + 1)));
    BeginsNow(v, prog, s, base, count, |rows|, it, stop);
    forall k {:trigger Begins(v, prog, s, s.pc, base, count, |rows|, k, stop)} | it < k < stop
      ensures Begins(v, prog, s, s.pc, base, count, |rows|, k, stop)
    {
      BeginsLater(v, prog, s, k1, s.pc, base, count, |rows|, k, stop);
    }
  }

  lemma BeginsNow(v: Arch, prog: Program, s: State, base: nat, count: nat, n: nat, k: nat, stop: nat)
    requires n >= 1 && k < stop && Get(s, Left(v)) == Wrap(stop - k) && Get(s, Ptr(v)) == RowAt(base, count, k % n)
    ensures Begins(v, prog, s, s.pc, base, count, n, k, stop)
  {
    hide Run, RowAt, Wrap, Get;
    RunNone(prog, s);
    assert HeadIs(v, Run(prog, s, 0), s.pc, Wrap(stop - k), RowAt(base, count, k % n));
  }

  lemma BeginsLater(v: Arch, prog: Program, s: State, steps: nat, loop: nat, base: nat, count: nat, n: nat, k: nat, stop: nat)
    requires n >= 1 && Begins(v, prog, Run(prog, s, steps), loop, base, count, n, k, stop)
    ensures Begins(v, prog, s, loop, base, count, n, k, stop)
  {
    hide Run, HeadIs, RowAt, Wrap;
    var j: nat :| HeadIs(v, Run(prog, Run(prog, s, steps), j), loop, Wrap(stop - k), RowAt(base, count, k % n));
    RunAdd(prog, s, steps, j);
    assert HeadIs(v, Run(prog, s, steps + j), loop, Wrap(stop - k), RowAt(base, count, k % n));
  }

  // ----- calls

  /** The bytes of stack a function uses. */
  function FrameSize(v: Arch): nat { match v case RiscV => 80 case Aarch64 => 64 case X64 => 24 }

  /** A call with n iterations (zero standing for 2^64) on the rows at base, which are apart from the stack frame. */
  ghost predicate Callable(v: Arch, s: State, base: nat, count: nat, rows: seq<seq<nat>>, n: nat) {
    && s.ok && count >= 1 && rows != [] && Rectangular(rows, count) && Pattern(s.mem, base, count, rows)
    && 1 <= n <= TWO64 && Get(s, Left(v)) == Wrap(n) && Get(s, First(v)) == base && Get(s, Last(v)) == RowAt(base, count, |rows|)
    && Get(s, Sp) >= FrameSize(v) && Get(s, Sp) + 8 < TWO64 && s.low <= Get(s, Sp)
    && (RowAt(base, count, |rows|) <= Get(s, Sp) - FrameSize(v) || Get(s, Sp) + 8 <= base)
  }

  /** A memory that differs from m only in a frame apart from the rows still holds them. */
  lemma PatternKept(m: Memory, m': Memory, base: nat, count: nat, rows: seq<seq<nat>>, lo: nat, hi: nat)
    requires Pattern(m, base, count, rows) && Rectangular(rows, count) && AgreeOutside(m, m', lo, hi)
    requires RowAt(base, count, |rows|) <= lo || hi <= base
    ensures Pattern(m', base, count, rows)
  {
    hide Load32, RowAt, ByteAt;
    forall h, j {:trigger rows[h][j]} | 0 <= h < |rows| && 0 <= j < |rows[h]|
      ensures |rows[h]| == count && Load32(m', RowAt(base, count, h) + 4 * j) == rows[h][j]
    {
      RowInside(base, count, h, j, |rows|);
      Load32Agree(m, m', RowAt(base, count, h) + 4 * j);
    }
  }

  lemma RowInside(base: nat, count: nat, h: nat, j: nat, n: nat)
    requires h < n && j < count
    ensures base <= RowAt(base, count, h) && RowAt(base, count, h) + 4 * j + 4 <= RowAt(base, count, n)
  {
    RowOrder(base, count, h, n);
  }

  /** Ready to enter the loop for the first time. */
  lemma FirstRow(v: Arch, s: State, e: State, base: nat, count: nat, rows: seq<seq<nat>>, n: nat)
    requires Callable(v, s, base, count, rows, n) && e.ok && AgreeOutside(s.mem, e.mem, Get(s, Sp) - FrameSize(v), Get(s, Sp))
    requires Get(e, First(v)) == Get(s, First(v)) && Get(e, Last(v)) == Get(s, Last(v)) && Get(e, Ptr(v)) == base
    ensures Pointing(v, e, base, count, rows, 0 % |rows|) && Get(s, Left(v)) == Wrap(n)
  {
    hide Get, RowAt, AgreeOutside, Wrap;
    RowNext(base, count, 0);
    PatternKept(s.mem, e.mem, base, count, rows, Get(s, Sp) - FrameSize(v), Get(s, Sp));
    Remainder(0, |rows|, 0, 0);
  }
}
