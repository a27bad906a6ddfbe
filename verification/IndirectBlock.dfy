/** Running one branch block of the RISC-V indirect-branch test. */
module IndirectBlock {
  import opened Words
  import opened Listing
  import opened Machine
  import opened Symbols
  import opened Riscv
  import opened RiscvFrame
  import opened IndirectText
  import opened JumpTables
  import opened Trace
  import opened BranchBits

  /** Registers a branch block uses. */
  predicate Clobbered(r: Reg) {
    r == T0 || r == T1 || r == T2 || r == T3 || r == T4 || r == T6 || r == S1 || r == S2
  }

  ghost predicate Clobbers(s: State, e: State) {
    e.ok && e.low == s.low && forall r :: !Clobbered(r) ==> Get(e, r) == Get(s, r)
  }

  lemma PointersLines(prog: Program, p: nat)
    requires Embedded(prog, p, LookupPointers())
    ensures p + 6 <= |prog|
    ensures prog[p] == Op(Slli(T4, T3, 3)) && prog[p + 1] == Op(Add(T4, A3, T4)) && prog[p + 2] == Op(Ld(T0, 0, T4))
    ensures prog[p + 3] == Op(Slli(T4, T3, 3)) && prog[p + 4] == Op(Add(T4, A1, T4)) && prog[p + 5] == Op(Ld(T4, 0, T4))
  {
    hide Embedded;
    var f := LookupPointers();
    EmbedLines(prog, p, f);
    assert f[0].Op? && f[1].Op? && f[2].Op? && f[3].Op? && f[4].Op? && f[5].Op?;
  }

  lemma PointersRun(prog: Program, p: nat, b: nat, s: State, x: Tables, table: Word, sel: Word)
    requires Embedded(prog, p, LookupPointers()) && s.ok && s.pc == p && Get(s, T3) == b
    requires Get(s, A3) == x.tableArr && Get(s, A1) == x.selArr
    requires x.tableArr + 8 * b + 8 <= TWO64 && x.selArr + 8 * b + 8 <= TWO64
    requires Load64(s.mem, x.tableArr + 8 * b) == table && Load64(s.mem, x.selArr + 8 * b) == sel
    ensures var e := Run(prog, s, 6);
      Keeps(s, e, T0, T4, T4, T4, T4) && e.pc == p + 6 && e.log == s.log && e.mem == s.mem && Get(e, T0) == table && Get(e, T4) == sel
  {
    hide LookupPointers, Step, Exec, Get, Embedded, Load64, Resolve, XorWord, BitAnd, Pow2, Load32;
    PointersLines(prog, p);
    var s1 := StepSlli3(prog, s, p, T4, T3, 8 * b);
    var s2 := StepAdd(prog, s1, p + 1, T4, A3, T4, x.tableArr + 8 * b);
    var s3 := StepLd(prog, s2, p + 2, T0, T4, 0, x.tableArr + 8 * b, table);
    var s4 := StepSlli3(prog, s3, p + 3, T4, T3, 8 * b);
    var s5 := StepAdd(prog, s4, p + 4, T4, A1, T4, x.selArr + 8 * b);
    var s6 := StepLd(prog, s5, p + 5, T4, T4, 0, x.selArr + 8 * b, sel);
  }

  lemma PickLines(prog: Program, p: nat)
    requires Embedded(prog, p, LookupPick())
    ensures p + 4 <= |prog|
    ensures prog[p] == Op(Addi(T3, T3, 1)) && prog[p + 1] == Op(Slli(T1, T5, 2))
    ensures prog[p + 2] == Op(Add(T1, T4, T1)) && prog[p + 3] == Op(Lw(T2, 0, T1))
  {
    hide Embedded;
    var f := LookupPick();
    EmbedLines(prog, p, f);
    assert f[0].Op? && f[1].Op? && f[2].Op? && f[3].Op?;
  }

  lemma PickRuns(prog: Program, p: nat, b: nat, pos: nat, s: State, sel: nat, pick: nat)
    requires Embedded(prog, p, LookupPick()) && s.ok && s.pc == p && Get(s, T3) == b && b + 1 < TWO64
    requires Get(s, T5) == pos && Get(s, T4) == sel && sel + 4 * pos + 4 <= TWO64
    requires Load32(s.mem, sel + 4 * pos) == pick < 0x8000_0000
    ensures var e := Run(prog, s, 4);
      Keeps(s, e, T1, T2, T3, T3, T3) && e.pc == p + 4 && e.log == s.log && e.mem == s.mem && Get(e, T2) == pick && Get(e, T3) == b + 1
  {
    hide LookupPick, Step, Exec, Get, Embedded, Load32, Load64, Resolve, XorWord, BitAnd, Pow2;
    PickLines(prog, p);
    var s1 := StepAddI(prog, s, p, T3, T3, 1, b + 1);
    var s2 := StepSlli2(prog, s1, p + 1, T1, T5, 4 * pos);
    var s3 := StepAdd(prog, s2, p + 2, T1, T4, T1, sel + 4 * pos);
    var s4 := StepLw(prog, s3, p + 3, T2, T1, 0, sel + 4 * pos, pick);
  }

  lemma TargetReadLines(prog: Program, p: nat)
    requires Embedded(prog, p, LookupTarget())
    ensures p + 5 <= |prog|
    ensures prog[p] == Op(Slli(T1, T2, 3)) && prog[p + 1] == Op(Add(T1, T0, T1)) && prog[p + 2] == Op(Ld(T6, 0, T1))
    ensures prog[p + 3] == Op(Li(S1, 1)) && prog[p + 4] == Op(Xor(S2, S2, S2))
  {
    hide Embedded;
    var f := LookupTarget();
    EmbedLines(prog, p, f);
    assert f[0].Op? && f[1].Op? && f[2].Op? && f[3].Op? && f[4].Op?;
  }

  lemma TargetReadRuns(prog: Program, p: nat, s: State, table: nat, pick: nat, q: Word)
    requires Embedded(prog, p, LookupTarget()) && s.ok && s.pc == p
    requires Get(s, T0) == table && Get(s, T2) == pick && table + 8 * pick + 8 <= TWO64
    requires Load64(s.mem, table + 8 * pick) == q
    ensures var e := Run(prog, s, 5);
      Keeps(s, e, T1, T6, S1, S2, S2) && e.pc == p + 5 && e.log == s.log && e.mem == s.mem && Get(e, T6) == q && Get(e, S1) == 1
  {
    hide LookupTarget, Step, Exec, Get, Embedded, Load64, Resolve, XorWord, BitAnd, Pow2, Load32;
    TargetReadLines(prog, p);
    var s1 := StepSlli3(prog, s, p, T1, T2, 8 * pick);
    var s2 := StepAdd(prog, s1, p + 1, T1, T0, T1, table + 8 * pick);
    var s3 := StepLd(prog, s2, p + 2, T6, T1, 0, table + 8 * pick, q);
    var s4 := StepLi(prog, s3, p + 3, S1, 1);
    var s5 := StepXorSelf(prog, s4, p + 4, S2, S2);
  }

  /** After the lookup t6 holds the address of the label the branch's selection names. */
  lemma LookupRuns(prog: Program, p: nat, b: nat, pos: nat, s: State, x: Tables, table: Word, sel: Word, pick: nat, q: Word)
    requires Embedded(prog, p, Lookup()) && s.ok && s.pc == p && Get(s, T3) == b && b + 1 < TWO64 && Get(s, T5) == pos
    requires Get(s, A3) == x.tableArr && Get(s, A1) == x.selArr
    requires x.tableArr + 8 * b + 8 <= TWO64 && x.selArr + 8 * b + 8 <= TWO64
    requires Load64(s.mem, x.tableArr + 8 * b) == table && Load64(s.mem, x.selArr + 8 * b) == sel
    requires sel + 4 * pos + 4 <= TWO64 && Load32(s.mem, sel + 4 * pos) == pick < 0x8000_0000
    requires table + 8 * pick + 8 <= TWO64 && Load64(s.mem, table + 8 * pick) == q
    ensures var e := Run(prog, s, 15);
      && Clobbers(s, e) && e.pc == p + 15 && e.log == s.log && e.mem == s.mem
      && Get(e, T6) == q && Get(e, T3) == b + 1 && Get(e, T2) == pick && Get(e, S1) == 1
  {
    hide Run, Step, Exec, Get, Embedded, Load64, Load32, LookupPointers, LookupPick, LookupTarget, XorWord, BitAnd, Pow2;
    var a, b', c := LookupPointers(), LookupPick(), LookupTarget();
    assert Lookup() == [] + a + (b' + c) == a + b' + c == (a + b') + c + [];
    EmbedPart(prog, p, [], a, b' + c);
    EmbedPart(prog, p, a, b', c);
    EmbedPart(prog, p, a + b', c, []);
    PointersRun(prog, p, b, s, x, table, sel);
    var s1 := Run(prog, s, 6);
    PickRuns(prog, p + 6, b, pos, s1, sel, pick);
    var s2 := Run(prog, s1, 4);
    TargetReadRuns(prog, p + 10, s2, table, pick, q);
    RunAdd(prog, s1, 4, 5);
    RunAdd(prog, s, 6, 9);
  }

  lemma HistLines(prog: Program, p: nat, bc: nat, tc: nat, b: nat, g: nat)
    requires Embedded(prog, p, Hist(bc, tc, b, g))
    ensures p + 5 <= |prog|
    ensures prog[p] == Op(And(S2, T2, S1)) && prog[p + 1] == Op(Bnez(S2, IndirectHist(bc, tc, b, g))) && prog[p + 2] == Op(Nop)
    ensures prog[p + 3] == Label(IndirectHist(bc, tc, b, g)) && prog[p + 4] == Op(Slli(S1, S1, 1))
    ensures Resolve(prog, IndirectHist(bc, tc, b, g)) == Some(p + 3)
  {
    hide Embedded, Resolve;
    var f := Hist(bc, tc, b, g);
    EmbedLines(prog, p, f);
    assert f[0].Op? && f[1].Op? && f[2].Op? && f[3].Label? && f[4].Op?;
  }

  /** Nothing branches during the lookup. */
  lemma LookupOutcomes(prog: Program, s: State)
    requires Embedded(prog, s.pc, Lookup()) && s.ok
    ensures Outcomes(prog, s, 15) == []
  {
    hide Run, Step, Embedded, Lookup, NoTransfers, Falling;
    LookupFalls(prog);
    TextFalls(prog, s.pc, Lookup());
    BlockOutcomes(prog, s, 15);
  }

  lemma LookupFalls(prog: Program)
    ensures Falling(prog, Lookup())
  {
  }

  /** The state at history branch g: t2 holds the selection and s1 bit g alone. */
  ghost predicate Testing(s: State, pick: nat, g: nat) {
    s.ok && Get(s, T2) == pick && Get(s, S1) == Pow2(g) && Pow2(g + 1) < TWO64
  }

  /** A history branch is taken exactly when its bit of the selection is one, and meets its own label whichever way it goes. */
  lemma HistRuns(prog: Program, p: nat, bc: nat, tc: nat, b: nat, g: nat, pick: nat, s: State) returns (k: nat)
    requires Embedded(prog, p, Hist(bc, tc, b, g)) && s.pc == p && Testing(s, pick, g)
    ensures var e := Run(prog, s, k); Keeps(s, e, S1, S2, S2, S2, S2) && e.pc == p + 5 && e.log == s.log && e.mem == s.mem
    ensures Get(Run(prog, s, k), S1) == Pow2(g + 1) && Outcomes(prog, s, k) == [Bit(pick, g)] && k == (if Bit(pick, g) then 4 else 5)
  {
    hide Run, Hist, Get, Embedded, Bit, Pow2, Outcomes;
    HistBranches(prog, p, bc, tc, b, g, pick, s);
    var s2 := Run(prog, s, 2);
    var k1 := HistEnds(prog, p, bc, tc, b, g, s2);
    RunAdd(prog, s, 2, k1);
    OutcomesAdd(prog, s, 2, k1);
    k := 2 + k1;
  }

  /** The test and the branch. */
  lemma HistBranches(prog: Program, p: nat, bc: nat, tc: nat, b: nat, g: nat, pick: nat, s: State)
    requires Embedded(prog, p, Hist(bc, tc, b, g)) && s.pc == p && Testing(s, pick, g)
    ensures var e := Run(prog, s, 2);
      Keeps(s, e, S2, S2, S2, S2, S2) && (e.pc == p + 2 || e.pc == p + 3) && e.log == s.log && e.mem == s.mem
    ensures Outcomes(prog, s, 2) == [Bit(pick, g)] && (Bit(pick, g) <==> Run(prog, s, 2).pc == p + 3)
  {
    hide Run, Hist, Step, Get, Embedded, Resolve, BitAnd, Pow2, Bit, Outcomes;
    HistLines(prog, p, bc, tc, b, g);
    BitTest(pick, g);
    var v := BitAnd(pick, Pow2(g));
    var s1 := StepAlu(prog, s, p, S2, Conj, R(T2), R(S1), v);
    var s2 := StepBranch(prog, s1, p + 1, IfNonzero(S2), IndirectHist(bc, tc, b, g), p + 3);
    RunSingle(prog, s);
    RunOneMore(prog, s, 1);
    OutcomesOne(prog, s);
    OutcomesBranch(prog, s1, IfNonzero(S2), IndirectHist(bc, tc, b, g));
    OutcomesAdd(prog, s, 1, 1);
  }

  /** From either side of the branch the bit moves up and control leaves behind the label. */
  lemma HistEnds(prog: Program, p: nat, bc: nat, tc: nat, b: nat, g: nat, s: State) returns (k: nat)
    requires Embedded(prog, p, Hist(bc, tc, b, g)) && s.ok && (s.pc == p + 2 || s.pc == p + 3)
    requires Get(s, S1) == Pow2(g) && Pow2(g + 1) < TWO64
    ensures var e := Run(prog, s, k);
      Keeps(s, e, S1, S1, S1, S1, S1) && e.pc == p + 5 && e.log == s.log && e.mem == s.mem && Get(e, S1) == Pow2(g + 1)
    ensures Outcomes(prog, s, k) == [] && k == p + 5 - s.pc
  {
    hide Run, Hist, Step, Get, Embedded, Resolve, Pow2, Outcomes;
    HistLines(prog, p, bc, tc, b, g);
    if s.pc == p + 2 {
      var s1 := StepMark(prog, s, p + 2);
      HistEnd(prog, p, bc, tc, b, g, s1);
      RunSingle(prog, s);
      RunAdd(prog, s, 1, 2);
      k := 3;
    } else {
      HistEnd(prog, p, bc, tc, b, g, s);
      k := 2;
    }
    BlockOutcomes(prog, s, k);
  }

  lemma HistEnd(prog: Program, p: nat, bc: nat, tc: nat, b: nat, g: nat, s: State)
    requires Embedded(prog, p, Hist(bc, tc, b, g)) && s.ok && s.pc == p + 3 && Get(s, S1) == Pow2(g) && Pow2(g + 1) < TWO64
    ensures var e := Run(prog, s, 2);
      Keeps(s, e, S1, S1, S1, S1, S1) && e.pc == p + 5 && e.log == s.log && e.mem == s.mem && Get(e, S1) == Pow2(g + 1)
  {
    hide Run, Hist, Step, Get, Embedded, Resolve, Pow2;
    HistLines(prog, p, bc, tc, b, g);
    PowMore(g);
    var s1 := StepMark(prog, s, p + 3);
    var s2 := StepAlu(prog, s1, p + 4, S1, Shl1, R(S1), I(0), Pow2(g + 1));
    RunSingle(prog, s);
    RunOneMore(prog, s, 1);
  }

  lemma PowMore(g: nat)
    ensures Pow2(g + 1) == 2 * Pow2(g)
  {
  }

  /** The history branches up to bit n. */
  lemma {:induction false} HistsRun(prog: Program, p: nat, bc: nat, tc: nat, b: nat, n: nat, pick: nat, s: State) returns (k: nat)
    requires Embedded(prog, p, Concat(HistPieces(bc, tc, b, HISTORY_BITS))) && n <= HISTORY_BITS && s.pc == p && Testing(s, pick, 0)
    ensures var e := Run(prog, s, k);
      && Keeps(s, e, S1, S2, S2, S2, S2) && e.log == s.log && e.mem == s.mem && Get(e, S1) == Pow2(n)
      && e.pc == p + |Concat(HistPieces(bc, tc, b, HISTORY_BITS)[..n])|
    ensures Outcomes(prog, s, k) == FirstBits(pick, n) && k + Taken(FirstBits(pick, n)) == 5 * n
    decreases n
  {
    hide Taken, Run, Get, Embedded, Hist, Pow2, Bit, Outcomes, FirstBits;
    var pieces := HistPieces(bc, tc, b, HISTORY_BITS);
    if n == 0 {
      k := 0;
      RunNone(prog, s);
      OutcomesNone(prog, s);
      assert pieces[..0] == [];
      assert FirstBits(pick, 0) == [];
      TakenMore(pick, 0);
    } else {
      var k1 := HistsRun(prog, p, bc, tc, b, n - 1, pick, s);
      PieceAt(prog, p, pieces, n - 1);
      assert pieces[n - 1] == Hist(bc, tc, b, n - 1);
      SmallPower(n);
      var k2 := HistRuns(prog, p + |Concat(pieces[..n - 1])|, bc, tc, b, n - 1, pick, Run(prog, s, k1));
      RunAdd(prog, s, k1, k2);
      OutcomesAdd(prog, s, k1, k2);
      FirstBitsMore(pick, n - 1);
      TakenMore(pick, n - 1);
      k := k1 + k2;
    }
  }

  lemma SmallPower(n: nat)
    requires n <= HISTORY_BITS
    ensures Pow2(n) < TWO64
  {
  }

  /** From the label of target t, control falls through the later targets to the end of the block. */
  lemma {:induction false} TargetsRun(prog: Program, p: nat, bc: nat, tc: nat, b: nat, t: nat, s: State)
    requires Embedded(prog, p, Concat(TargetPieces(bc, tc, b, tc))) && t <= tc && s.ok
    requires s.pc == p + |Concat(TargetPieces(bc, tc, b, tc)[..t])|
    ensures var e := Run(prog, s, 2 * (tc - t));
      Moved(s, e, p + |Concat(TargetPieces(bc, tc, b, tc))|) && e.log == s.log && e.mem == s.mem
    ensures Outcomes(prog, s, 2 * (tc - t)) == []
    decreases tc - t
  {
    hide Run, Step, Exec, Get, Embedded, Target, XorWord, BitAnd, Pow2, Load32, Outcomes;
    var pieces := TargetPieces(bc, tc, b, tc);
    if t == tc {
      RunNone(prog, s);
      OutcomesNone(prog, s);
      assert pieces[..tc] == pieces;
    } else {
      PieceAt(prog, p, pieces, t);
      assert pieces[t] == Target(bc, tc, b, t);
      TargetRuns(prog, s.pc, bc, tc, b, t, s);
      var s2 := Run(prog, s, 2);
      TargetsRun(prog, p, bc, tc, b, t + 1, s2);
      RunAdd(prog, s, 2, 2 * (tc - t - 1));
      OutcomesAdd(prog, s, 2, 2 * (tc - t - 1));
    }
  }

  lemma TargetRuns(prog: Program, p: nat, bc: nat, tc: nat, b: nat, t: nat, s: State)
    requires Embedded(prog, p, Target(bc, tc, b, t)) && s.ok && s.pc == p
    ensures var e := Run(prog, s, 2); Moved(s, e, p + 2) && e.log == s.log && e.mem == s.mem && Outcomes(prog, s, 2) == []
  {
    hide Step, Exec, Get, Embedded, Resolve, XorWord, BitAnd, Pow2, Load32, Outcomes;
    var f := Target(bc, tc, b, t);
    EmbedLines(prog, p, f);
    assert f[0].Label? && f[1].Op?;
    var s1 := StepMark(prog, s, p);
    var s2 := StepMark(prog, s1, p + 1);
    BlockOutcomes(prog, s, 2);
  }

  /** The line of target t of a block whose targets start at line p. */
  lemma TargetLine(prog: Program, p: nat, bc: nat, tc: nat, b: nat, t: nat)
    requires Embedded(prog, p, Concat(TargetPieces(bc, tc, b, tc))) && t < tc
    ensures LineOf(prog, IndirectTarget(bc, tc, b, t)) == p + |Concat(TargetPieces(bc, tc, b, tc)[..t])|
    ensures Resolve(prog, IndirectTarget(bc, tc, b, t)).Some?
    ensures var q := LineOf(prog, IndirectTarget(bc, tc, b, t)); q + 1 < |prog| && prog[q + 1] == Op(Nop)
  {
    hide Embedded, Resolve;
    var pieces := TargetPieces(bc, tc, b, tc);
    PieceAt(prog, p, pieces, t);
    EmbedLines(prog, p + |Concat(pieces[..t])|, Target(bc, tc, b, t));
    assert Target(bc, tc, b, t)[0].Label? && Target(bc, tc, b, t)[1].Op?;
  }

  lemma JumpRuns(prog: Program, p: nat, s: State)
    requires Embedded(prog, p, Jump()) && s.ok && s.pc == p
    ensures var e := Run(prog, s, 1);
      Moved(s, e, Get(s, T6)) && e.log == s.log + [Jumped(Get(s, T6))] && e.mem == s.mem && Outcomes(prog, s, 1) == []
  {
    hide Step, Exec, Get, Embedded, Resolve, XorWord, BitAnd, Pow2, Load32, Outcomes;
    EmbedLines(prog, p, Jump());
    assert Jump()[0].Op?;
    OutcomesOne(prog, s);
    var s1 := StepJumpReg(prog, s, p, T6);
  }

  /** Where the parts of a block stand. */
  lemma BlockParts(prog: Program, p: nat, bc: nat, tc: nat, b: nat)
    requires Embedded(prog, p, Block(bc, tc, b))
    ensures var hists, targets := Concat(HistPieces(bc, tc, b, HISTORY_BITS)), Concat(TargetPieces(bc, tc, b, tc));
      && Embedded(prog, p, Lookup()) && Embedded(prog, p + 15, hists) && Embedded(prog, p + 15 + |hists|, Jump())
      && Embedded(prog, p + 17 + |hists|, targets) && |Block(bc, tc, b)| == 17 + |hists| + |targets|
  {
    hide Embedded, Lookup, HistPieces, Jump, TargetPieces, Concat;
    var l, h, j, t := Lookup(), Concat(HistPieces(bc, tc, b, HISTORY_BITS)), Jump(), Concat(TargetPieces(bc, tc, b, tc));
    assert Block(bc, tc, b) == [] + l + (h + j + t) == l + h + (j + t) == (l + h) + j + t == (l + h + j) + t + [];
    EmbedPart(prog, p, [], l, h + j + t);
    EmbedPart(prog, p, l, h, j + t);
    EmbedPart(prog, p, l + h, j, t);
    EmbedPart(prog, p, l + h + j, t, []);
  }

  /** What branch b reads at pattern position pos. */
  ghost predicate Selects(prog: Program, m: Memory, x: Tables, bc: nat, tc: nat, b: nat, pos: nat, table: Word, sel: Word, pick: nat)
  {
    && x.tableArr + 8 * b + 8 <= TWO64 && x.selArr + 8 * b + 8 <= TWO64 && pick < tc < 0x8000_0000 && b + 1 < TWO64
    && Load64(m, x.tableArr + 8 * b) == table && Load64(m, x.selArr + 8 * b) == sel
    && sel + 4 * pos + 4 <= TWO64 && Load32(m, sel + 4 * pos) == pick
    && table + 8 * pick + 8 <= TWO64 && Load64(m, table + 8 * pick) == LineOf(prog, IndirectTarget(bc, tc, b, pick))
  }

  lemma ChoiceRuns(prog: Program, p: nat, bc: nat, tc: nat, b: nat, pos: nat, s: State, x: Tables, table: Word, sel: Word, pick: nat)
    requires Embedded(prog, p, Lookup()) && s.ok && s.pc == p && Get(s, T3) == b && Get(s, T5) == pos
    requires Get(s, A3) == x.tableArr && Get(s, A1) == x.selArr
    requires LineOf(prog, IndirectTarget(bc, tc, b, pick)) < TWO64
    requires Selects(prog, s.mem, x, bc, tc, b, pos, table, sel, pick)
    ensures var e := Run(prog, s, 15);
      && Clobbers(s, e) && e.pc == p + 15 && e.mem == s.mem && e.log == s.log && Testing(e, pick, 0)
      && Get(e, T3) == b + 1 && Get(e, T6) == LineOf(prog, IndirectTarget(bc, tc, b, pick))
  {
    hide Run, Get, Embedded, Load64, Load32, Lookup, LineOf, Clobbered;
    LookupRuns(prog, p, b, pos, s, x, table, sel, pick, LineOf(prog, IndirectTarget(bc, tc, b, pick)));
    FirstPower();
  }

  /** The history branches leave the choice. */
  lemma ClobbersMore(s: State, s1: State, e: State)
    requires Clobbers(s, s1) && Keeps(s1, e, S1, S2, S2, S2, S2)
    ensures Clobbers(s, e) && Get(e, T3) == Get(s1, T3) && Get(e, T6) == Get(s1, T6)
  {
    hide Get;
  }

  /** The lookup and the history branches. */
  lemma ChoosesRun(prog: Program, p: nat, bc: nat, tc: nat, b: nat, pos: nat, s: State, x: Tables, table: Word, sel: Word, pick: nat)
    returns (k: nat)
    requires Embedded(prog, p, Lookup()) && Embedded(prog, p + 15, Concat(HistPieces(bc, tc, b, HISTORY_BITS)))
    requires s.ok && s.pc == p && Get(s, T3) == b && Get(s, T5) == pos
    requires Get(s, A3) == x.tableArr && Get(s, A1) == x.selArr
    requires LineOf(prog, IndirectTarget(bc, tc, b, pick)) < TWO64
    requires Selects(prog, s.mem, x, bc, tc, b, pos, table, sel, pick)
    ensures var e := Run(prog, s, k);
      && Clobbers(s, e) && e.pc == p + 15 + |Concat(HistPieces(bc, tc, b, HISTORY_BITS))| && e.mem == s.mem && e.log == s.log
      && Get(e, T3) == b + 1 && Get(e, T6) == LineOf(prog, IndirectTarget(bc, tc, b, pick))
    ensures Outcomes(prog, s, k) == BitsOf(pick, false)
    ensures k == 35 - Ones(pick, false)
  {
    hide Ones, Taken, Run, Get, Embedded, Lookup, Concat, HistPieces, Outcomes, FirstBits, BitsOf, LineOf, Selects, Testing, Clobbers, Pow2;
    ChoiceRuns(prog, p, bc, tc, b, pos, s, x, table, sel, pick);
    LookupOutcomes(prog, s);
    var s1 := Run(prog, s, 15);
    var k1 := HistsRun(prog, p + 15, bc, tc, b, HISTORY_BITS, pick, s1);
    AllPieces(bc, tc, b);
    FirstBitsAre(pick);
    FirstTaken(pick);
    ClobbersMore(s, s1, Run(prog, s1, k1));
    RunAdd(prog, s, 15, k1);
    OutcomesAdd(prog, s, 15, k1);
    k := 15 + k1;
  }

  lemma AllPieces(bc: nat, tc: nat, b: nat)
    ensures HistPieces(bc, tc, b, HISTORY_BITS)[..HISTORY_BITS] == HistPieces(bc, tc, b, HISTORY_BITS)
  {
  }

  /** One block: one branch per low bit of the selection, then exactly one indirect jump, to the label (b, pick), and control
      leaves at the block's end. */
  lemma BlockRuns(prog: Program, p: nat, bc: nat, tc: nat, b: nat, pos: nat, s: State, x: Tables, table: Word, sel: Word, pick: nat)
    returns (k: nat)
    requires Embedded(prog, p, Block(bc, tc, b)) && |prog| < TWO64
    requires s.ok && s.pc == p && Get(s, T3) == b && Get(s, T5) == pos
    requires Get(s, A3) == x.tableArr && Get(s, A1) == x.selArr
    requires Selects(prog, s.mem, x, bc, tc, b, pos, table, sel, pick)
    ensures var e := Run(prog, s, k);
      && Clobbers(s, e) && e.pc == p + |Block(bc, tc, b)| && e.mem == s.mem && Get(e, T3) == b + 1
      && e.log == s.log + [Jumped(LineOf(prog, IndirectTarget(bc, tc, b, pick)))]
    ensures Outcomes(prog, s, k) == BitsOf(pick, false)
    ensures k == 36 - Ones(pick, false) + 2 * (tc - pick)
  {
    hide Ones, Run, Get, Embedded, Lookup, Concat, HistPieces, TargetPieces, Jump, Resolve, Outcomes, BitsOf, Block, LineOf, Clobbered, Selects;
    BlockParts(prog, p, bc, tc, b);
    var hists := Concat(HistPieces(bc, tc, b, HISTORY_BITS));
    SelectsTarget(prog, s.mem, x, bc, tc, b, pos, table, sel, pick);
    var k1 := ChoosesRun(prog, p, bc, tc, b, pos, s, x, table, sel, pick);
    var s1 := Run(prog, s, k1);
    var k2 := JumpsOut(prog, p + 15 + |hists|, bc, tc, b, pick, s1);
    RunAdd(prog, s, k1, k2);
    OutcomesAdd(prog, s, k1, k2);
    k := k1 + k2;
  }

  lemma SelectsTarget(prog: Program, m: Memory, x: Tables, bc: nat, tc: nat, b: nat, pos: nat, table: Word, sel: Word, pick: nat)
    requires Selects(prog, m, x, bc, tc, b, pos, table, sel, pick)
    ensures pick < tc && LineOf(prog, IndirectTarget(bc, tc, b, pick)) < TWO64
  {
    hide Load64, Load32, LineOf;
  }

  lemma FirstPower()
    ensures Pow2(0) == 1 && Pow2(1) == 2
  {
  }

  /** The jump and the fall through the targets behind the one it goes to. */
  lemma JumpsOut(prog: Program, p: nat, bc: nat, tc: nat, b: nat, pick: nat, s: State) returns (k: nat)
    requires Embedded(prog, p, Jump()) && Embedded(prog, p + 2, Concat(TargetPieces(bc, tc, b, tc))) && pick < tc
    requires s.ok && s.pc == p && Get(s, T6) == LineOf(prog, IndirectTarget(bc, tc, b, pick))
    ensures var e := Run(prog, s, k);
      && Moved(s, e, p + 2 + |Concat(TargetPieces(bc, tc, b, tc))|) && e.mem == s.mem
      && e.log == s.log + [Jumped(LineOf(prog, IndirectTarget(bc, tc, b, pick)))]
    ensures Outcomes(prog, s, k) == [] && k == 1 + 2 * (tc - pick)
  {
    hide Run, Get, Embedded, Concat, TargetPieces, Jump, Outcomes, LineOf;
    TargetLine(prog, p + 2, bc, tc, b, pick);
    JumpRuns(prog, p, s);
    var s1 := Run(prog, s, 1);
    TargetsRun(prog, p + 2, bc, tc, b, pick, s1);
    k := 1 + 2 * (tc - pick);
    RunAdd(prog, s, 1, 2 * (tc - pick));
    OutcomesAdd(prog, s, 1, 2 * (tc - pick));
  }
}
