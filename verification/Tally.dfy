/** How often a call of a throughput test executes each instruction. */
module Tally {
  import opened Listing
  import opened Machine
  import opened Symbols
  import opened Sums
  import opened Trace
  import opened ThroughputText
  import opened ThroughputListing
  import Riscv
  import X86

  function One(b: bool): nat {
    if b then 1 else 0
  }

  /** How many lines of the text are the instruction. */
  function Occurs(text: Program, i: Instr): nat {
    if text == [] then 0 else Occurs(text[..|text| - 1], i) + One(text[|text| - 1] == Op(i))
  }

  predicate AtOp(prog: Program, s: State, i: Instr) {
    s.pc < |prog| && prog[s.pc] == Op(i)
  }

  /** How many of the next k steps execute the instruction. */
  function Performed(prog: Program, s: State, k: nat, i: Instr): nat
    decreases k
  {
    if k == 0 then 0 else One(AtOp(prog, s, i)) + Performed(prog, Step(prog, s), k - 1, i)
  }

  lemma {:induction false} OccursAppend(a: Program, b: Program, i: Instr)
    ensures Occurs(a + b, i) == Occurs(a, i) + Occurs(b, i)
    decreases |b|
  {
    hide One;
    if b == [] {
      assert a + b == a;
    } else {
      var front := b[..|b| - 1];
      OccursAppend(a, front, i);
      assert (a + b)[..|a + b| - 1] == a + front;
    }
  }

  lemma {:induction false} PerformedAdd(prog: Program, s: State, a: nat, b: nat, i: Instr)
    ensures Performed(prog, s, a + b, i) == Performed(prog, s, a, i) + Performed(prog, Run(prog, s, a), b, i)
    decreases a
  {
    hide Step, AtOp, One;
    if a != 0 {
      PerformedAdd(prog, Step(prog, s), a - 1, b, i);
    }
  }

  lemma PerformedOne(prog: Program, s: State, i: Instr)
    ensures Performed(prog, s, 1, i) == One(AtOp(prog, s, i)) && Performed(prog, s, 0, i) == 0
  {
    hide Step, AtOp, One;
    assert Performed(prog, Step(prog, s), 0, i) == 0;
  }

  /** A straight run executes its lines once each. */
  lemma {:induction false} PerformedStraight(prog: Program, s: State, n: nat, i: Instr)
    requires Straight(prog, s, n) && s.pc + n <= |prog|
    ensures Performed(prog, s, n, i) == Occurs(prog[s.pc..s.pc + n], i)
    decreases n
  {
    hide Step, Run, One;
    PerformedOne(prog, s, i);
    if n != 0 {
      StraightFewer(prog, s, n - 1, n);
      PerformedStraight(prog, s, n - 1, i);
      PerformedAdd(prog, s, n - 1, 1, i);
      PerformedOne(prog, Run(prog, s, n - 1), i);
      assert prog[s.pc..s.pc + n][..n - 1] == prog[s.pc..s.pc + n - 1];
    }
  }

  /** So do straight lines and the jump behind them. */
  lemma PerformedEnding(prog: Program, s: State, n: nat, i: Instr)
    requires Straight(prog, s, n) && s.pc + n + 1 <= |prog|
    ensures Performed(prog, s, n + 1, i) == Occurs(prog[s.pc..s.pc + n + 1], i)
  {
    hide Step, Run, One;
    PerformedStraight(prog, s, n, i);
    PerformedAdd(prog, s, n, 1, i);
    PerformedOne(prog, Run(prog, s, n), i);
    assert prog[s.pc..s.pc + n + 1][..n] == prog[s.pc..s.pc + n];
  }

  // ----- line by line

  /** The executions of the instruction at the first n lines. */
  function ByLine(prog: Program, s: State, k: nat, i: Instr, n: nat): nat
    requires n <= |prog|
  {
    if n == 0 then 0 else ByLine(prog, s, k, i, n - 1) + if prog[n - 1] == Op(i) then Visits(prog, s, k, n - 1) else 0
  }

  lemma {:induction false} ByLineNone(prog: Program, s: State, i: Instr, n: nat)
    requires n <= |prog|
    ensures ByLine(prog, s, 0, i, n) == 0
  {
    if n != 0 {
      ByLineNone(prog, s, i, n - 1);
    }
  }

  lemma {:induction false} ByLineStep(prog: Program, s: State, k: nat, i: Instr, n: nat)
    requires n <= |prog| && k >= 1
    ensures ByLine(prog, s, k, i, n) == One(s.pc < n && prog[s.pc] == Op(i)) + ByLine(prog, Step(prog, s), k - 1, i, n)
    decreases n
  {
    hide Step;
    if n != 0 {
      ByLineStep(prog, s, k, i, n - 1);
    }
  }

  lemma {:induction false} PerformedByLine(prog: Program, s: State, k: nat, i: Instr)
    ensures Performed(prog, s, k, i) == ByLine(prog, s, k, i, |prog|)
    decreases k
  {
    hide Step, One;
    if k == 0 {
      ByLineNone(prog, s, i, |prog|);
    } else {
      PerformedByLine(prog, Step(prog, s), k - 1, i);
      ByLineStep(prog, s, k, i, |prog|);
    }
  }

  /** In k steps from s the lines from p on are visited m times each, and no other line. */
  ghost predicate VisitsOnly(prog: Program, s: State, k: nat, p: nat, size: nat, m: nat) {
    forall line: nat {:trigger Visits(prog, s, k, line)} :: Visits(prog, s, k, line) == if p <= line < p + size then m else 0
  }

  lemma {:induction false} ByLineOnly(prog: Program, s: State, k: nat, i: Instr, p: nat, size: nat, m: nat, n: nat)
    requires n <= |prog| && VisitsOnly(prog, s, k, p, size, m)
    ensures ByLine(prog, s, k, i, n) == if n <= p then 0 else m * Occurs(prog[p..if n <= p + size then n else p + size], i)
    decreases n
  {
    hide Visits, One;
    if n != 0 {
      ByLineOnly(prog, s, k, i, p, size, m, n - 1);
      if p < n <= p + size {
        var part := prog[p..n];
        assert part[..|part| - 1] == prog[p..n - 1] && part[|part| - 1] == prog[n - 1];
        MoreTimes(m, Occurs(prog[p..n - 1], i), prog[n - 1] == Op(i));
        if n - 1 <= p {
          assert prog[p..n - 1] == [];
          NoTimes(m);
        }
      } else if n == p + size + 1 && size == 0 {
        assert prog[p..p] == [];
        NoTimes(m);
      }
    }
  }

  lemma MoreTimes(m: nat, x: nat, b: bool)
    ensures m * (x + One(b)) == m * x + if b then m else 0
  {
    assert m * (x + 1) == m * x + m;
  }

  lemma NoTimes(m: nat)
    ensures m * 0 == 0
  {
  }

  /** A loop whose lines are passed m times each executes them m times. */
  lemma PerformedLoop(prog: Program, s: State, k: nat, i: Instr, p: nat, size: nat, m: nat)
    requires VisitsOnly(prog, s, k, p, size, m) && p + size < |prog|
    ensures Performed(prog, s, k, i) == m * Occurs(prog[p..p + size], i)
  {
    hide Visits, Occurs;
    PerformedByLine(prog, s, k, i);
    ByLineOnly(prog, s, k, i, p, size, m, |prog|);
  }

  /** Straight to a loop, m times through it, and straight to the jump behind it. */
  lemma CallPerforms(prog: Program, s: State, head: nat, k1: nat, size: nat, m: nat, tail: nat, i: Instr)
    requires Straight(prog, s, head)
    requires var s2 := Run(prog, s, head); var s3 := Run(prog, s2, k1);
      && s2.pc == s.pc + head && VisitsOnly(prog, s2, k1, s2.pc, size, m) && s3.pc == s2.pc + size
      && Straight(prog, s3, tail) && s3.pc + tail + 1 <= |prog|
    ensures var loop := s.pc + head;
      Performed(prog, s, head + (k1 + (tail + 1)), i)
        == Occurs(prog[s.pc..loop], i) + m * Occurs(prog[loop..loop + size], i) + Occurs(prog[loop + size..loop + size + tail + 1], i)
  {
    hide Run, Visits, Straight, VisitsOnly, Performed, Occurs;
    var s2 := Run(prog, s, head);
    var s3 := Run(prog, s2, k1);
    PerformedAdd(prog, s, head, k1 + (tail + 1), i);
    PerformedAdd(prog, s2, k1, tail + 1, i);
    PerformedStraight(prog, s, head, i);
    PerformedLoop(prog, s2, k1, i, s2.pc, size, m);
    PerformedEnding(prog, s3, tail, i);
  }

  // ----- what one iteration of a test is made of

  /** The instruction's occurrences in the first n fillers, entry k modulo the length of the array for filler k. */
  function InFillers(fillers: seq<Program>, n: nat, i: Instr): nat
    requires n > 0 ==> fillers != []
  {
    if n == 0 then 0 else InFillers(fillers, n - 1, i) + Occurs(fillers[(n - 1) % |fillers|], i)
  }

  /** The number of fillers: the count, less two when it includes the chasing loads, and never negative. */
  function Fillers(count: nat, includePtrChasingLoads: bool): nat {
    if !includePtrChasingLoads then count else if count < 2 then 0 else count - 2
  }

  function CountsDown(isa: Isa, start: Symbol, i: Instr): nat {
    One(i == if isa == Rv then Riscv.Addi(A0, A0, -1) else X86.Dec(Rcx)) + One(i == if isa == Rv then Riscv.Bnez(A0, start) else X86.Jne(start))
  }

  /** One iteration executes the texts around the fillers once, as many fillers as the count asks for, two fences on RISC-V
      or one on x86 if there are any, and the two instructions of the counter. */
  function PerIteration(isa: Isa, t: Throughput, count: nat, i: Instr): nat
    requires Fillers(count, t.includePtrChasingLoads) > 0 ==> t.body.fillers != []
  {
    Occurs(t.body.preLoad1, i) + Occurs(t.body.postLoad1, i)
      + InFillers(t.body.fillers, Fillers(count, t.includePtrChasingLoads), i) + Occurs(t.body.preLoad2, i)
      + (if t.body.fence && i == Barrier then (if isa == Rv then 2 else 1) else 0) + CountsDown(isa, TestStart(t.prefix, count), i)
  }

  lemma {:induction false} PiecesOccur(fillers: seq<Program>, n: nat, i: Instr)
    requires n > 0 ==> fillers != []
    ensures Occurs(Concat(Pieces(fillers, n)), i) == InFillers(fillers, n, i)
    decreases n
  {
    hide Occurs, Concat;
    if n == 0 {
      assert Pieces(fillers, 0) == [];
      NoPieces<Instr>();
      NoneOccurs(i);
    } else {
      PiecesOccur(fillers, n - 1, i);
      PieceNext(fillers, n - 1);
      OccursAppend(Concat(Pieces(fillers, n - 1)), fillers[(n - 1) % |fillers|], i);
    }
  }

  lemma NoneOccurs(i: Instr)
    ensures Occurs([], i) == 0
  {
  }

  lemma OneOccurs(x: Line<Instr>, i: Instr)
    ensures Occurs([x], i) == One(x == Op(i))
  {
    hide One;
    assert [x][..0] == [];
  }

  lemma TwoOccur(x: Line<Instr>, y: Line<Instr>, i: Instr)
    ensures Occurs([x, y], i) == One(x == Op(i)) + One(y == Op(i))
  {
    hide Occurs, One;
    OneOccurs(x, i);
    OneOccurs(y, i);
    OccursAppend([x], [y], i);
    assert [x, y] == [x] + [y];
  }

  lemma FenceOccurs(isa: Isa, fence: bool, i: Instr)
    ensures Occurs(FenceLines(isa, fence), i) == if fence && i == Barrier then (if isa == Rv then 2 else 1) else 0
  {
    hide Occurs;
    NoneOccurs(i);
    OneOccurs(Op(Barrier), i);
    TwoOccur(Op(Barrier), Op(Barrier), i);
  }

  lemma CountOccurs(isa: Isa, start: Symbol, i: Instr)
    ensures Occurs(CountLines(isa, start), i) == CountsDown(isa, start, i)
  {
    hide Occurs, One;
    TwoOccur(Op(Riscv.Addi(A0, A0, -1)), Op(Riscv.Bnez(A0, start)), i);
    TwoOccur(Op(X86.Dec(Rcx)), Op(X86.Jne(start)), i);
  }

  /** The loop of a test holds what one iteration executes. */
  lemma LoopOccurs(isa: Isa, t: Throughput, count: nat, i: Instr)
    requires Assigned(t, count)
    ensures Fillers(count, t.includePtrChasingLoads) > 0 ==> t.body.fillers != []
    ensures Occurs(LoopOf(isa, t, count), i) == PerIteration(isa, t, count, i)
  {
    hide Occurs, FenceLines, CountLines, Concat, Pieces, CountsDown, InFillers;
    var b, n := t.body, SlotCount(t, count);
    var start := TestStart(t.prefix, count);
    var h: Program := [Label(start)];
    var c, f, g := Concat(Pieces(b.fillers, n)), FenceLines(isa, b.fence), CountLines(isa, start);
    OneOccurs(Label(start), i);
    PiecesOccur(b.fillers, n, i);
    FenceOccurs(isa, b.fence, i);
    CountOccurs(isa, start, i);
    OccursSeven(h, b.preLoad1, b.postLoad1, c, b.preLoad2, f, g, i);
  }

  lemma OccursSeven(a: Program, b: Program, c: Program, d: Program, e: Program, f: Program, g: Program, i: Instr)
    ensures Occurs(a + b + c + d + e + f + g, i)
         == Occurs(a, i) + Occurs(b, i) + Occurs(c, i) + Occurs(d, i) + Occurs(e, i) + Occurs(f, i) + Occurs(g, i)
  {
    hide Occurs;
    OccursAppend(a, b, i);
    OccursAppend(a + b, c, i);
    OccursAppend(a + b + c, d, i);
    OccursAppend(a + b + c + d, e, i);
    OccursAppend(a + b + c + d + e, f, i);
    OccursAppend(a + b + c + d + e + f, g, i);
  }

  // ----- whole calls

  /** In k steps a call with m iterations executes each instruction as often as prologue, text before the loop and epilogue
      hold it, and m times what one iteration executes. */
  ghost predicate Performs(isa: Isa, prog: Program, s: State, k: nat, t: Throughput, count: nat, m: nat)
    requires Fillers(count, t.includePtrChasingLoads) > 0 ==> t.body.fillers != []
  {
    forall i: Instr {:trigger Performed(prog, s, k, i)} ::
      Performed(prog, s, k, i)
        == Occurs(PrologueOf(isa), i) + Occurs(t.init, i) + m * PerIteration(isa, t, count, i) + Occurs(EpilogueOf(isa), i)
  }

  lemma FnPerforms(isa: Isa, prog: Program, s: State, t: Throughput, count: nat, k1: nat, m: nat)
    requires Assigned(t, count) && Embedded(prog, s.pc, Fn(isa, t, count)) && |EpilogueOf(isa)| >= 1
    requires var head := |Entry(isa, t.prefix, count)| + |t.init|; var size := |LoopOf(isa, t, count)|;
      && Straight(prog, s, head)
      && var s2 := Run(prog, s, head); var s3 := Run(prog, s2, k1);
      && s2.pc == s.pc + head && VisitsOnly(prog, s2, k1, s2.pc, size, m) && s3.pc == s2.pc + size
      && Straight(prog, s3, |EpilogueOf(isa)| - 1)
    ensures Fillers(count, t.includePtrChasingLoads) > 0 ==> t.body.fillers != []
    ensures var head := |Entry(isa, t.prefix, count)| + |t.init|;
      Performs(isa, prog, s, head + (k1 + |EpilogueOf(isa)|), t, count, m)
  {
    hide Run, Visits, Straight, VisitsOnly, Performed, Occurs, PerIteration, Entry, LoopOf, EpilogueOf, PrologueOf;
    var head, size, last := |Entry(isa, t.prefix, count)| + |t.init|, |LoopOf(isa, t, count)|, |EpilogueOf(isa)|;
    var loop := s.pc + head;
    FnSlices(isa, prog, s.pc, t, count);
    forall i: Instr {:trigger Performed(prog, s, head + (k1 + last), i)}
      ensures Performed(prog, s, head + (k1 + last), i)
        == Occurs(PrologueOf(isa), i) + Occurs(t.init, i) + m * PerIteration(isa, t, count, i) + Occurs(EpilogueOf(isa), i)
    {
      CallPerforms(prog, s, head, k1, size, m, last - 1, i);
      LoopOccurs(isa, t, count, i);
      EntryOccurs(isa, t, count, i);
    }
    LoopOccurs(isa, t, count, Nop);
  }

  lemma EntryOccurs(isa: Isa, t: Throughput, count: nat, i: Instr)
    ensures Occurs(Entry(isa, t.prefix, count) + t.init, i) == Occurs(PrologueOf(isa), i) + Occurs(t.init, i)
  {
    hide Occurs, PrologueOf;
    OccursAppend(Entry(isa, t.prefix, count), t.init, i);
    OccursAppend([Label(TestTop(t.prefix, count))], PrologueOf(isa), i);
    OneOccurs(Label(TestTop(t.prefix, count)), i);
  }

  /** The parts of a function as slices of the listing. */
  lemma FnSlices(isa: Isa, prog: Program, p: nat, t: Throughput, count: nat)
    requires Assigned(t, count) && Embedded(prog, p, Fn(isa, t, count))
    ensures var loop := p + |Entry(isa, t.prefix, count)| + |t.init|; var size := |LoopOf(isa, t, count)|;
      && loop + size + |EpilogueOf(isa)| <= |prog|
      && prog[p..loop] == Entry(isa, t.prefix, count) + t.init && prog[loop..loop + size] == LoopOf(isa, t, count)
      && prog[loop + size..loop + size + |EpilogueOf(isa)|] == EpilogueOf(isa)
  {
    hide Entry, LoopOf, EpilogueOf, Resolve;
    var a, l, e := Entry(isa, t.prefix, count) + t.init, LoopOf(isa, t, count), EpilogueOf(isa);
    var f := Fn(isa, t, count);
    assert prog[p..p + |f|] == f == a + l + e;
    Slices(prog, p, a, l, e);
  }

  lemma Slices(prog: Program, p: nat, a: Program, b: Program, c: Program)
    requires p + |a + b + c| <= |prog| && prog[p..p + |a + b + c|] == a + b + c
    ensures prog[p..p + |a|] == a && prog[p + |a|..p + |a| + |b|] == b && prog[p + |a| + |b|..p + |a| + |b| + |c|] == c
  {
    var n := |a + b + c|;
    assert (a + b + c)[..|a|] == a && (a + b + c)[|a|..|a| + |b|] == b && (a + b + c)[|a| + |b|..n] == c;
    SliceOf(prog, p, n, 0, |a|);
    SliceOf(prog, p, n, |a|, |a| + |b|);
    SliceOf(prog, p, n, |a| + |b|, n);
  }

  lemma SliceOf(prog: Program, p: nat, n: nat, x: nat, y: nat)
    requires x <= y <= n && p + n <= |prog|
    ensures prog[p..p + n][x..y] == prog[p + x..p + y]
  {
    forall k {:trigger prog[p + x..p + y][k]} | 0 <= k < y - x
      ensures prog[p..p + n][x..y][k] == prog[p + x..p + y][k]
    {
      assert prog[p..p + n][x + k] == prog[p + (x + k)];
    }
  }
}
