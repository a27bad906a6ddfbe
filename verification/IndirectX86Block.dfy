/** Running one branch block of the x86 indirect-branch test. */
module IndirectX86Block {
  import opened Words
  import opened Listing
  import opened Machine
  import opened Symbols
  import opened JumpTables
  import opened IndirectX86Text
  import opened IndirectX86Fill
  import opened Trace
  import opened BranchBits
  import IndirectBlock
  import Rv = IndirectText

  /** Registers a branch block uses, besides rsi, which it puts back. */
  predicate Clobbered(r: Reg) {
    r == Rax || r == R10 || r == R11 || r == R13 || r == R14 || r == R15
  }

  ghost predicate Clobbers(s: State, e: State) {
    e.ok && e.low == s.low && forall r :: !Clobbered(r) && r != Rsi ==> Get(e, r) == Get(s, r)
  }

  lemma LookupLines(prog: Program, p: nat)
    requires Embedded(prog, p, Lookup())
    ensures p + 7 <= |prog| && prog[p] == Op(Load(R15, Full, Address(Rcx, R(R11), By8, 0)))
    ensures prog[p + 1] == Op(Load(R10, Full, Address(Rsi, R(R11), By8, 0))) && prog[p + 2] == Op(Alu(R11, Plus, R(R11), I(1), true))
    ensures prog[p + 3] == Op(Load(Rax, Half, Address(R10, R(Rbx), By4, 0)))
    ensures prog[p + 4] == Op(Load(R14, Full, Address(R15, R(Rax), By8, 0)))
    ensures prog[p + 5] == Op(Alu(R13, Plus, R(Rsi), I(0), false)) && prog[p + 6] == Op(Alu(Rsi, Plus, R(Zero), I(1), false))
  {
    hide Embedded;
    var f := Lookup();
    EmbedLines(prog, p, f);
    assert f[0].Op? && f[1].Op? && f[2].Op? && f[3].Op? && f[4].Op? && f[5].Op? && f[6].Op?;
  }

  lemma PointersRun(prog: Program, p: nat, b: nat, s: State, x: Tables, table: Word, sel: Word)
    requires Embedded(prog, p, Lookup()) && s.ok && s.pc == p && Get(s, R11) == b && b + 1 < TWO64
    requires Get(s, Rcx) == x.tableArr && Get(s, Rsi) == x.selArr
    requires x.tableArr + 8 * b + 8 <= TWO64 && x.selArr + 8 * b + 8 <= TWO64
    requires Load64(s.mem, x.tableArr + 8 * b) == table && Load64(s.mem, x.selArr + 8 * b) == sel
    ensures var e := Run(prog, s, 3);
      && Clobbers(s, e) && e.pc == p + 3 && e.log == s.log && e.mem == s.mem
      && Get(e, R15) == table && Get(e, R10) == sel && Get(e, R11) == b + 1 && Get(e, Rsi) == x.selArr
  {
    hide Lookup, Step, Get, Embedded, Load64, Effective;
    LookupLines(prog, p);
    Indexed(s, Rcx, R11, x.tableArr + 8 * b);
    var s1 := StepLoad(prog, s, p, R15, Full, Address(Rcx, R(R11), By8, 0), x.tableArr + 8 * b, table);
    Indexed(s1, Rsi, R11, x.selArr + 8 * b);
    var s2 := StepLoad(prog, s1, p + 1, R10, Full, Address(Rsi, R(R11), By8, 0), x.selArr + 8 * b, sel);
    var s3 := StepInc(prog, s2, p + 2, R11, b + 1);
  }

  lemma TargetReadRuns(prog: Program, p: nat, pos: nat, s: State, table: nat, sel: nat, pick: nat, q: Word)
    requires Embedded(prog, p, Lookup()) && s.ok && s.pc == p + 3 && Get(s, Rbx) == pos && Get(s, R10) == sel && Get(s, R15) == table
    requires sel + 4 * pos + 4 <= TWO64 && Load32(s.mem, sel + 4 * pos) == pick
    requires table + 8 * pick + 8 <= TWO64 && Load64(s.mem, table + 8 * pick) == q
    ensures var e := Run(prog, s, 2);
      && Keeps(s, e, Rax, R14, R14, R14, R14) && e.pc == p + 5 && e.log == s.log && e.mem == s.mem && Get(e, R14) == q
      && Get(e, Rax) == pick
  {
    hide Lookup, Step, Get, Embedded, Load64, Load32, Effective;
    LookupLines(prog, p);
    Indexed(s, R10, Rbx, sel + 4 * pos);
    var s1 := StepLoad(prog, s, p + 3, Rax, Half, Address(R10, R(Rbx), By4, 0), sel + 4 * pos, pick);
    Indexed(s1, R15, Rax, table + 8 * pick);
    var s2 := StepLoad(prog, s1, p + 4, R14, Full, Address(R15, R(Rax), By8, 0), table + 8 * pick, q);
    RunSingle(prog, s);
    RunOneMore(prog, s, 1);
  }

  lemma SetAsideRuns(prog: Program, p: nat, s: State)
    requires Embedded(prog, p, Lookup()) && s.ok && s.pc == p + 5
    ensures var e := Run(prog, s, 2);
      && Keeps(s, e, R13, Rsi, Rsi, Rsi, Rsi) && e.pc == p + 7 && e.log == s.log && e.mem == s.mem && Get(e, R13) == Get(s, Rsi)
      && Get(e, Rsi) == 1
  {
    hide Lookup, Step, Get, Embedded;
    LookupLines(prog, p);
    var s1 := StepAddI(prog, s, p + 5, R13, Rsi, 0, Get(s, Rsi));
    var s2 := StepLi(prog, s1, p + 6, Rsi, 1);
    RunSingle(prog, s);
    RunOneMore(prog, s, 1);
  }

  /** After the lookup r14 holds the address of the label the branch's selection names. */
  lemma LookupRuns(prog: Program, p: nat, bc: nat, tc: nat, b: nat, pos: nat, s: State, x: Tables, table: Word, sel: Word, pick: nat)
    requires Embedded(prog, p, Lookup()) && s.ok && s.pc == p && Get(s, R11) == b && Get(s, Rbx) == pos
    requires Get(s, Rcx) == x.tableArr && Get(s, Rsi) == x.selArr
    requires IndirectBlock.Selects(prog, s.mem, x, bc, tc, b, pos, table, sel, pick)
    ensures var e := Run(prog, s, 7);
      && Clobbers(s, e) && e.pc == p + 7 && e.log == s.log && e.mem == s.mem
      && Get(e, R14) == LineOf(prog, IndirectTarget(bc, tc, b, pick)) && Get(e, R13) == x.selArr && Get(e, R11) == b + 1
      && Testing(e, pick, 0)
  {
    hide Run, Get, Embedded, Load64, Load32, Lookup, LineOf;
    FirstPower();
    PointersRun(prog, p, b, s, x, table, sel);
    var s1 := Run(prog, s, 3);
    TargetReadRuns(prog, p, pos, s1, table, sel, pick, LineOf(prog, IndirectTarget(bc, tc, b, pick)));
    var s2 := Run(prog, s1, 2);
    SetAsideRuns(prog, p, s2);
    RunAdd(prog, s1, 2, 2);
    RunAdd(prog, s, 3, 4);
  }

  lemma HistLines(prog: Program, p: nat, bc: nat, tc: nat, b: nat, g: nat)
    requires Embedded(prog, p, Hist(bc, tc, b, g))
    ensures p + 5 <= |prog| && prog[p] == Op(Compare(Conj32, R(Rsi), R(Rax)))
    ensures prog[p + 1] == Op(Branch(IfFlag(false), IndirectHist(bc, tc, b, g))) && prog[p + 2] == Op(Nop)
    ensures prog[p + 3] == Label(IndirectHist(bc, tc, b, g)) && prog[p + 4] == Op(Alu(Rsi, Shl32, R(Rsi), I(1), true))
    ensures Resolve(prog, IndirectHist(bc, tc, b, g)) == Some(p + 3)
  {
    hide Embedded, Resolve;
    var f := Hist(bc, tc, b, g);
    EmbedLines(prog, p, f);
    assert f[0].Op? && f[1].Op? && f[2].Op? && f[3].Label? && f[4].Op?;
  }

  /** The state at history branch g: eax holds the selection and esi bit g alone. */
  ghost predicate Testing(s: State, pick: nat, g: nat) {
    s.ok && pick < TWO32 && Get(s, Rax) == pick && Get(s, Rsi) == Pow2(g) && Pow2(g + 1) < TWO32
  }

  lemma FirstPower()
    ensures Pow2(0) == 1 && Pow2(1) == 2
  {
  }

  /** Nothing branches during the lookup. */
  lemma LookupOutcomes(prog: Program, s: State)
    requires Embedded(prog, s.pc, Lookup()) && s.ok
    ensures Outcomes(prog, s, 7) == []
  {
    hide Run, Step, Embedded, Lookup, NoTransfers, Falling;
    LookupFalls(prog);
    TextFalls(prog, s.pc, Lookup());
    BlockOutcomes(prog, s, 7);
  }

  lemma LookupFalls(prog: Program)
    ensures Falling(prog, Lookup())
  {
  }

  /** A history branch is taken exactly when its bit of the selection is one, and meets its own label whichever way it goes. */
  lemma HistRuns(prog: Program, p: nat, bc: nat, tc: nat, b: nat, g: nat, pick: nat, s: State) returns (k: nat)
    requires Embedded(prog, p, Hist(bc, tc, b, g)) && s.pc == p && Testing(s, pick, g)
    ensures var e := Run(prog, s, k); Keeps(s, e, Rsi, Rsi, Rsi, Rsi, Rsi) && e.pc == p + 5 && e.log == s.log && e.mem == s.mem
    ensures Get(Run(prog, s, k), Rsi) == Pow2(g + 1) && Outcomes(prog, s, k) == [Bit(pick, g)] && k == (if Bit(pick, g) then 4 else 5)
  {
    hide Run, Hist, Get, Embedded, Bit, Pow2, Outcomes;
    HistBranches(prog, p, bc, tc, b, g, pick, s);
    var s2 := Run(prog, s, 2);
    var k1 := HistEnds(prog, p, bc, tc, b, g, s2);
    RunAdd(prog, s, 2, k1);
    OutcomesAdd(prog, s, 2, k1);
    k := 2 + k1;
  }

  /** The test and the branch. */
  lemma HistBranches(prog: Program, p: nat, bc: nat, tc: nat, b: nat, g: nat, pick: nat, s: State)
    requires Embedded(prog, p, Hist(bc, tc, b, g)) && s.pc == p && Testing(s, pick, g)
    ensures var e := Run(prog, s, 2);
      Moved(s, e, e.pc) && (e.pc == p + 2 || e.pc == p + 3) && e.log == s.log && e.mem == s.mem
    ensures Outcomes(prog, s, 2) == [Bit(pick, g)] && (Bit(pick, g) <==> Run(prog, s, 2).pc == p + 3)
  {
    hide Run, Hist, Step, Get, Embedded, Resolve, Pow2, Bit, Outcomes, Eval;
    HistLines(prog, p, bc, tc, b, g);
    LowTest(pick, g);
    var s1 := StepCompare(prog, s, p, Conj32, R(Rsi), R(Rax));
    var s2 := StepBranch(prog, s1, p + 1, IfFlag(false), IndirectHist(bc, tc, b, g), p + 3);
    RunSingle(prog, s);
    RunOneMore(prog, s, 1);
    OutcomesOne(prog, s);
    OutcomesBranch(prog, s1, IfFlag(false), IndirectHist(bc, tc, b, g));
    OutcomesAdd(prog, s, 1, 1);
  }

  lemma LowTest(pick: nat, g: nat)
    requires pick < TWO32 && Pow2(g + 1) < TWO32
    ensures Pow2(g) < TWO32 && (Eval(Conj32, Pow2(g), pick) != 0 <==> Bit(pick, g))
  {
    hide Bit, BitAnd;
    BitTest(pick, g);
    AndCommutes(pick, Pow2(g));
  }

  /** From either side of the branch the bit moves up and control leaves behind the label. */
  lemma HistEnds(prog: Program, p: nat, bc: nat, tc: nat, b: nat, g: nat, s: State) returns (k: nat)
    requires Embedded(prog, p, Hist(bc, tc, b, g)) && s.ok && (s.pc == p + 2 || s.pc == p + 3)
    requires Get(s, Rsi) == Pow2(g) && Pow2(g + 1) < TWO32
    ensures var e := Run(prog, s, k);
      Keeps(s, e, Rsi, Rsi, Rsi, Rsi, Rsi) && e.pc == p + 5 && e.log == s.log && e.mem == s.mem && Get(e, Rsi) == Pow2(g + 1)
    ensures Outcomes(prog, s, k) == [] && k == p + 5 - s.pc
  {
    hide Run, Hist, Step, Get, Embedded, Resolve, Pow2, Outcomes;
    HistLines(prog, p, bc, tc, b, g);
    if s.pc == p + 2 {
      var s1 := StepMark(prog, s, p + 2);
      HistEnd(prog, p, bc, tc, b, g, s1);
      RunSingle(prog, s);
      RunAdd(prog, s, 1, 2);
      k := 3;
    } else {
      HistEnd(prog, p, bc, tc, b, g, s);
      k := 2;
    }
    BlockOutcomes(prog, s, k);
  }

  lemma HistEnd(prog: Program, p: nat, bc: nat, tc: nat, b: nat, g: nat, s: State)
    requires Embedded(prog, p, Hist(bc, tc, b, g)) && s.ok && s.pc == p + 3 && Get(s, Rsi) == Pow2(g) && Pow2(g + 1) < TWO32
    ensures var e := Run(prog, s, 2);
      Keeps(s, e, Rsi, Rsi, Rsi, Rsi, Rsi) && e.pc == p + 5 && e.log == s.log && e.mem == s.mem && Get(e, Rsi) == Pow2(g + 1)
  {
    hide Run, Hist, Step, Get, Embedded, Resolve, Pow2;
    HistLines(prog, p, bc, tc, b, g);
    IndirectBlock.PowMore(g);
    var s1 := StepMark(prog, s, p + 3);
    var s2 := StepFlags(prog, s1, p + 4, Rsi, Shl32, R(Rsi), I(1), Pow2(g + 1));
    RunSingle(prog, s);
    RunOneMore(prog, s, 1);
  }

  /** The history branches up to bit n. */
  lemma {:induction false} HistsRun(prog: Program, p: nat, bc: nat, tc: nat, b: nat, n: nat, pick: nat, s: State) returns (k: nat)
    requires Embedded(prog, p, Concat(HistPieces(bc, tc, b, HISTORY_BITS))) && n <= HISTORY_BITS && s.pc == p && Testing(s, pick, 0)
    ensures var e := Run(prog, s, k);
      && Keeps(s, e, Rsi, Rsi, Rsi, Rsi, Rsi) && e.log == s.log && e.mem == s.mem && Get(e, Rsi) == Pow2(n)
      && e.pc == p + |Concat(HistPieces(bc, tc, b, HISTORY_BITS)[..n])|
    ensures Outcomes(prog, s, k) == FirstBits(pick, n) && k + Taken(FirstBits(pick, n)) == 5 * n
    decreases n
  {
    hide Taken, Run, Get, Embedded, Hist, Pow2, Bit, Outcomes, FirstBits;
    var pieces := HistPieces(bc, tc, b, HISTORY_BITS);
    if n == 0 {
      k := 0;
      RunNone(prog, s);
      OutcomesNone(prog, s);
      assert pieces[..0] == [];
      assert FirstBits(pick, 0) == [];
      TakenMore(pick, 0);
    } else {
      var k1 := HistsRun(prog, p, bc, tc, b, n - 1, pick, s);
      PieceAt(prog, p, pieces, n - 1);
      assert pieces[n - 1] == Hist(bc, tc, b, n - 1);
      SmallPower(n);
      var k2 := HistRuns(prog, p + |Concat(pieces[..n - 1])|, bc, tc, b, n - 1, pick, Run(prog, s, k1));
      RunAdd(prog, s, k1, k2);
      OutcomesAdd(prog, s, k1, k2);
      FirstBitsMore(pick, n - 1);
      TakenMore(pick, n - 1);
      k := k1 + k2;
    }
  }

  lemma SmallPower(n: nat)
    requires n <= HISTORY_BITS
    ensures Pow2(n) < TWO32
  {
    assert Pow2(4) == 16;
  }

  /** Where the parts of a block stand. */
  lemma BlockParts(prog: Program, p: nat, bc: nat, tc: nat, b: nat)
    requires Embedded(prog, p, Block(bc, tc, b))
    ensures var hists, targets := Concat(HistPieces(bc, tc, b, HISTORY_BITS)), Concat(Rv.TargetPieces(bc, tc, b, tc));
      && Embedded(prog, p, Lookup()) && Embedded(prog, p + 7, hists) && Embedded(prog, p + 7 + |hists|, Jump())
      && Embedded(prog, p + 9 + |hists|, targets) && |Block(bc, tc, b)| == 9 + |hists| + |targets|
  {
    hide Embedded, Lookup, HistPieces, Jump, Rv.TargetPieces, Concat;
    var l, h, j, t := Lookup(), Concat(HistPieces(bc, tc, b, HISTORY_BITS)), Jump(), Concat(Rv.TargetPieces(bc, tc, b, tc));
    assert Block(bc, tc, b) == l + h + (j + t) && j + t == j + t + [];
    EmbedThree(prog, p, l, h, j + t);
    EmbedThree(prog, p + 7 + |h|, j, t, []);
  }

  /** rsi is put back and control goes where r14 says. */
  lemma JumpRuns(prog: Program, p: nat, s: State)
    requires Embedded(prog, p, Jump()) && s.ok && s.pc == p
    ensures var e := Run(prog, s, 2);
      Wrote(s, e, Rsi, Get(s, R13), Get(s, R14)) && e.log == s.log + [Jumped(Get(s, R14))] && e.mem == s.mem
    ensures Outcomes(prog, s, 2) == []
  {
    hide Step, Get, Embedded, Outcomes;
    var f := Jump();
    EmbedLines(prog, p, f);
    assert f[0].Op? && f[1].Op?;
    var s1 := StepAddI(prog, s, p, Rsi, R13, 0, Get(s, R13));
    var s2 := StepJumpReg(prog, s1, p + 1, R14);
    RunSingle(prog, s);
    RunOneMore(prog, s, 1);
    OutcomesOne(prog, s);
    OutcomesOne(prog, s1);
    OutcomesAdd(prog, s, 1, 1);
  }

  /** Up to the jump: r14 holds the selected label's address. */
  lemma FrontRuns(prog: Program, p: nat, bc: nat, tc: nat, b: nat, pos: nat, s: State, x: Tables, table: Word, sel: Word, pick: nat)
    returns (k: nat)
    requires Embedded(prog, p, Block(bc, tc, b)) && s.ok && s.pc == p && Get(s, R11) == b && Get(s, Rbx) == pos
    requires Get(s, Rcx) == x.tableArr && Get(s, Rsi) == x.selArr
    requires IndirectBlock.Selects(prog, s.mem, x, bc, tc, b, pos, table, sel, pick)
    ensures var e := Run(prog, s, k);
      && Clobbers(s, e) && e.pc == p + 7 + |Concat(HistPieces(bc, tc, b, HISTORY_BITS))| && e.log == s.log && e.mem == s.mem
      && Get(e, R14) == LineOf(prog, IndirectTarget(bc, tc, b, pick)) && Get(e, R13) == x.selArr && Get(e, R11) == b + 1
    ensures Outcomes(prog, s, k) == BitsOf(pick, true)
    ensures k == 42 - Ones(pick, true)
  {
    hide Ones, Taken, Run, Get, Embedded, Lookup, Concat, Jump, Block, IndirectBlock.Selects, LineOf, HistPieces, Outcomes, BitsOf, FirstBits,
      Testing, Pow2, Clobbers;
    BlockParts(prog, p, bc, tc, b);
    LookupRuns(prog, p, bc, tc, b, pos, s, x, table, sel, pick);
    LookupOutcomes(prog, s);
    var s1 := Run(prog, s, 7);
    var k1 := HistsRun(prog, p + 7, bc, tc, b, HISTORY_BITS, pick, s1);
    WholeHists(bc, tc, b);
    FirstBitsAre(pick);
    FirstTaken(pick);
    ClobbersMore(s, s1, Run(prog, s1, k1));
    RunAdd(prog, s, 7, k1);
    OutcomesAdd(prog, s, 7, k1);
    k := 7 + k1;
  }

  /** The history branches change rsi only. */
  lemma ClobbersMore(s: State, s1: State, e: State)
    requires Clobbers(s, s1) && Keeps(s1, e, Rsi, Rsi, Rsi, Rsi, Rsi)
    ensures Clobbers(s, e)
  {
    hide Get;
  }

  /** From the jump to the end of the block. */
  lemma BackRuns(prog: Program, p: nat, bc: nat, tc: nat, b: nat, s: State, pick: nat) returns (k: nat)
    requires Embedded(prog, p, Block(bc, tc, b)) && pick < tc && Get(s, R14) == LineOf(prog, IndirectTarget(bc, tc, b, pick))
    requires s.ok && s.pc == p + 7 + |Concat(HistPieces(bc, tc, b, HISTORY_BITS))|
    ensures var e := Run(prog, s, k);
      && Wrote(s, e, Rsi, Get(s, R13), p + |Block(bc, tc, b)|) && e.mem == s.mem
      && e.log == s.log + [Jumped(LineOf(prog, IndirectTarget(bc, tc, b, pick)))]
    ensures Outcomes(prog, s, k) == [] && k == 2 + 2 * (tc - pick)
  {
    hide Run, Get, Embedded, Lookup, Concat, Jump, Block, LineOf, HistPieces, Outcomes;
    BlockParts(prog, p, bc, tc, b);
    IndirectBlock.TargetLine(prog, s.pc + 2, bc, tc, b, pick);
    JumpRuns(prog, s.pc, s);
    var s1 := Run(prog, s, 2);
    IndirectBlock.TargetsRun(prog, s.pc + 2, bc, tc, b, pick, s1);
    RunAdd(prog, s, 2, 2 * (tc - pick));
    OutcomesAdd(prog, s, 2, 2 * (tc - pick));
    k := 2 + 2 * (tc - pick);
  }

  /** One block: one branch per low bit of the selection, then exactly one indirect jump, to the label (b, pick), and control
      leaves at the block's end. */
  lemma BlockRuns(prog: Program, p: nat, bc: nat, tc: nat, b: nat, pos: nat, s: State, x: Tables, table: Word, sel: Word, pick: nat)
    returns (k: nat)
    requires Embedded(prog, p, Block(bc, tc, b)) && pick < tc
    requires s.ok && s.pc == p && Get(s, R11) == b && Get(s, Rbx) == pos && Get(s, Rcx) == x.tableArr && Get(s, Rsi) == x.selArr
    requires IndirectBlock.Selects(prog, s.mem, x, bc, tc, b, pos, table, sel, pick)
    ensures var e := Run(prog, s, k);
      && Clobbers(s, e) && Get(e, Rsi) == x.selArr && e.pc == p + |Block(bc, tc, b)| && e.mem == s.mem && Get(e, R11) == b + 1
      && e.log == s.log + [Jumped(LineOf(prog, IndirectTarget(bc, tc, b, pick)))]
    ensures Outcomes(prog, s, k) == BitsOf(pick, true)
    ensures k == 44 - Ones(pick, true) + 2 * (tc - pick)
  {
    hide Ones, Run, Get, Embedded, Block, IndirectBlock.Selects, LineOf, Concat, HistPieces, Outcomes, BitsOf;
    var k1 := FrontRuns(prog, p, bc, tc, b, pos, s, x, table, sel, pick);
    var k2 := BackRuns(prog, p, bc, tc, b, Run(prog, s, k1), pick);
    RunAdd(prog, s, k1, k2);
    OutcomesAdd(prog, s, k1, k2);
    k := k1 + k2;
  }

  lemma WholeHists(bc: nat, tc: nat, b: nat)
    ensures HistPieces(bc, tc, b, HISTORY_BITS)[..HISTORY_BITS] == HistPieces(bc, tc, b, HISTORY_BITS)
  {
  }
}
