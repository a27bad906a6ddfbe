/** Running the whole RISC-V indirect-branch test. */
module IndirectRiscv {
  import opened Words
  import opened Listing
  import opened Machine
  import opened Symbols
  import opened Riscv
  import opened RiscvFrame
  import opened Sums
  import opened IndirectText
  import opened JumpTables
  import opened IndirectFill
  import opened IndirectBlock
  import opened Trace
  import opened BranchBits

  // ----- one iteration

  /** Registers that hold the arguments, and the filled memory. */
  ghost predicate Looping(prog: Program, s: State, x: Tables, bc: nat, tc: nat, len: nat) {
    && |prog| < TWO64 && s.ok && Get(s, A1) == x.selArr && Get(s, A2) == len && Get(s, A3) == x.tableArr
    && Inputs(s.mem, x, bc, len) && TablesFilled(prog, s.mem, x, bc, tc, bc)
  }

  /** Sizes the emitted instructions can address. */
  ghost predicate Sizes(bc: nat, tc: nat, len: nat) {
    1 <= len < TWO64 && tc < 0x8000_0000 && bc + 1 < TWO64
  }

  lemma BranchSelects(prog: Program, m: Memory, x: Tables, bc: nat, tc: nat, len: nat, lo: nat, hi: nat, b: nat, pos: nat)
    requires WellPlaced(x, bc, tc, len, lo, hi) && Inputs(m, x, bc, len) && TablesFilled(prog, m, x, bc, tc, bc) && Sizes(bc, tc, len)
    requires b < bc && pos < len
    ensures x.tables[b] < TWO64 && x.sels[b] < TWO64 && x.picks[b][pos] < tc
    ensures Selects(prog, m, x, bc, tc, b, pos, x.tables[b], x.sels[b], x.picks[b][pos])
  {
    hide Load64, Load32, LineOf;
    var pick := x.picks[b][pos];
    assert TableHas(prog, m, x.tables[b], bc, tc, b, tc);
    assert IndirectTarget(bc, tc, b, pick).index == pick;
  }

  /** So many steps go through the first n blocks of an iteration. */
  ghost predicate BlocksDone(prog: Program, s: State, k: nat, p: nat, x: Tables, bc: nat, tc: nat, len: nat, pos: nat, n: nat) {
    var e := Run(prog, s, k);
    && n <= bc == |x.picks| == |x.tables| && (forall b :: 0 <= b < bc ==> |x.picks[b]| == len) && pos < len
    && Clobbers(s, e) && e.pc == p + |Concat(BlockAll(bc, tc, bc)[..n])| && e.mem == s.mem && Get(e, T3) == n
    && e.log == s.log + RoundJumps(prog, x, bc, tc, pos, n)
    && Outcomes(prog, s, k) == RoundBits(x, pos, n, false) && k == RoundLines(x, tc, pos, n, false)
  }

  lemma {:induction false} BlocksRun(prog: Program, p: nat, x: Tables, bc: nat, tc: nat, len: nat, lo: nat, hi: nat, pos: nat, n: nat, s: State)
    returns (k: nat)
    requires Embedded(prog, p, Concat(BlockAll(bc, tc, bc))) && n <= bc
    requires WellPlaced(x, bc, tc, len, lo, hi) && Looping(prog, s, x, bc, tc, len) && Sizes(bc, tc, len)
    requires s.pc == p && Get(s, T3) == 0 && Get(s, T5) == pos < len
    ensures BlocksDone(prog, s, k, p, x, bc, tc, len, pos, n)
    decreases n
  {
    hide Ones, Run, Get, Embedded, Block, Inputs, TablesFilled, WellPlaced, Selects, LineOf, Clobbered, Outcomes, BitsOf;
    PicksShape(x, bc, tc, len, lo, hi);
    KeptByBlocks();
    var pieces := BlockAll(bc, tc, bc);
    if n == 0 {
      k := 0;
      RunNone(prog, s);
      OutcomesNone(prog, s);
      assert pieces[..0] == [];
    } else {
      var k1 := BlocksRun(prog, p, x, bc, tc, len, lo, hi, pos, n - 1, s);
      var e := Run(prog, s, k1);
      PieceAt(prog, p, pieces, n - 1);
      assert pieces[n - 1] == Block(bc, tc, n - 1);
      BranchSelects(prog, s.mem, x, bc, tc, len, lo, hi, n - 1, pos);
      var k2 := BlockRuns(prog, e.pc, bc, tc, n - 1, pos, e, x, x.tables[n - 1], x.sels[n - 1], x.picks[n - 1][pos]);
      RunAdd(prog, s, k1, k2);
      OutcomesAdd(prog, s, k1, k2);
      k := k1 + k2;
    }
  }

  lemma KeptByBlocks()
    ensures !Clobbered(A0) && !Clobbered(A1) && !Clobbered(A2) && !Clobbered(A3) && !Clobbered(T5)
    ensures !Clobbered(Sp) && !Clobbered(Ra) && !Clobbered(S0) && Clobbered(T3)
  {
  }

  lemma PicksShape(x: Tables, bc: nat, tc: nat, len: nat, lo: nat, hi: nat)
    requires WellPlaced(x, bc, tc, len, lo, hi)
    ensures |x.tables| == |x.sels| == |x.picks| == bc && forall b :: 0 <= b < bc ==> |x.picks[b]| == len
  {
  }

  lemma HeadRuns(prog: Program, p: nat, bc: nat, tc: nat, s: State)
    requires Embedded(prog, p, LoopHead(bc, tc)) && s.ok && s.pc == p
    ensures Resolve(prog, IndirectLoop(bc, tc)) == Some(p)
    ensures var e := Run(prog, s, 2);
      Keeps(s, e, T3, T3, T3, T3, T3) && e.pc == p + 2 && e.mem == s.mem && e.log == s.log && Get(e, T3) == 0
    ensures Outcomes(prog, s, 2) == []
  {
    hide Step, Exec, Get, Embedded, Resolve, Eval, Outcomes;
    var f := LoopHead(bc, tc);
    EmbedLines(prog, p, f);
    assert f[0].Label? && f[1].Op?;
    var s1 := StepMark(prog, s, p);
    var s2 := StepXorSelf(prog, s1, p + 1, T3, T3);
    BlockOutcomes(prog, s, 2);
  }

  /** The branchless wrap: xor, seqz, negate, complement and mask leave v unless v is the length. */
  lemma MaskWrap(v: Word, len: Word)
    ensures var z := Eval(Below, Eval(ExOr, v, len), 1);
      Eval(Conj, v, Eval(ExOr, Eval(Minus, 0, z), Wrap(-1))) == if v == len then 0 else v
  {
    hide XorWord, BitAnd;
    MaskLaws(v, len);
    MaskLaws(0, 0);
    MaskLaws(TWO64 - 1, 0);
    AndZero(v);
  }

  lemma AndZero(v: nat)
    ensures BitAnd(v, 0) == 0
  {
  }

  /** Moves the pattern position on and counts the iteration down. */
  lemma TailRuns(prog: Program, p: nat, loop: nat, bc: nat, tc: nat, len: nat, pos: nat, s: State)
    requires Embedded(prog, p, Tail(bc, tc)) && Resolve(prog, IndirectLoop(bc, tc)) == Some(loop)
    requires s.ok && s.pc == p && Get(s, T5) == pos && Get(s, A2) == len && pos < len < TWO64
    ensures var e := Run(prog, s, 8); var a := Wrap(Get(s, A0) - 1);
      && Keeps(s, e, T1, T5, A0, A0, A0) && e.pc == (if a != 0 then loop else p + 8) && e.mem == s.mem && e.log == s.log
      && Get(e, A0) == a && Get(e, T5) == (if pos + 1 == len then 0 else pos + 1)
    ensures Outcomes(prog, s, 8) == [Wrap(Get(s, A0) - 1) != 0]
  {
    hide Run, Step, Get, Embedded, Resolve, Eval, XorWord, BitAnd, Tail, Outcomes;
    TailPosition(prog, p, bc, tc, len, pos, s);
    var s1 := Run(prog, s, 6);
    TailCount(prog, p, loop, bc, tc, s1);
    RunAdd(prog, s, 6, 2);
    TailStraight(prog, bc, tc, s);
    OutcomesAdd(prog, s, 6, 2);
  }

  lemma TailLines(prog: Program, p: nat, bc: nat, tc: nat)
    requires Embedded(prog, p, Tail(bc, tc))
    ensures p + 9 <= |prog|
    ensures prog[p] == Op(Addi(T5, T5, 1)) && prog[p + 1] == Op(Xor(T1, T5, A2)) && prog[p + 2] == Op(Seqz(T1, T1))
    ensures prog[p + 3] == Op(Sub(T1, Zero, T1)) && prog[p + 4] == Op(Xori(T1, T1, -1)) && prog[p + 5] == Op(And(T5, T5, T1))
    ensures prog[p + 6] == Op(Addi(A0, A0, -1)) && prog[p + 7] == Op(Bnez(A0, IndirectLoop(bc, tc))) && prog[p + 8] == Op(Mv(A0, S0))
  {
    hide Embedded;
    var f := Tail(bc, tc);
    EmbedLines(prog, p, f);
    assert f[0].Op? && f[1].Op? && f[2].Op? && f[3].Op? && f[4].Op? && f[5].Op? && f[6].Op? && f[7].Op? && f[8].Op?;
  }

  lemma TailStraight(prog: Program, bc: nat, tc: nat, s: State)
    requires Embedded(prog, s.pc, Tail(bc, tc)) && s.ok
    ensures Outcomes(prog, s, 6) == []
  {
    hide Run, Step, Embedded, Tail, Outcomes;
    TailLines(prog, s.pc, bc, tc);
    BlockOutcomes(prog, s, 6);
  }

  lemma TailPosition(prog: Program, p: nat, bc: nat, tc: nat, len: nat, pos: nat, s: State)
    requires Embedded(prog, p, Tail(bc, tc)) && s.ok && s.pc == p && Get(s, T5) == pos && Get(s, A2) == len && pos < len < TWO64
    ensures var e := Run(prog, s, 6);
      && Keeps(s, e, T1, T5, T5, T5, T5) && e.pc == p + 6 && e.mem == s.mem && e.log == s.log
      && Get(e, T5) == (if pos + 1 == len then 0 else pos + 1)
  {
    hide Tail, Step, Exec, Get, Embedded, Resolve, Eval, XorWord, BitAnd;
    TailLines(prog, p, bc, tc);
    var v: Word := pos + 1;
    var x := Eval(ExOr, v, len);
    var z := Eval(Below, x, 1);
    var n := Eval(Minus, 0, z);
    var c := Eval(ExOr, n, Wrap(-1));
    ZeroGets();
    var s1 := StepAddI(prog, s, p, T5, T5, 1, v);
    var s2 := StepAlu(prog, s1, p + 1, T1, ExOr, R(T5), R(A2), x);
    var s3 := StepAlu(prog, s2, p + 2, T1, Below, R(T1), I(1), z);
    var s4 := StepAlu(prog, s3, p + 3, T1, Minus, R(Zero), R(T1), n);
    var s5 := StepAlu(prog, s4, p + 4, T1, ExOr, R(T1), I(-1), c);
    var s6 := StepAlu(prog, s5, p + 5, T5, Conj, R(T5), R(T1), Eval(Conj, v, c));
    MaskWrap(v, len);
  }

  lemma ZeroGets()
    ensures forall s: State :: Get(s, Zero) == 0
  {
  }

  lemma TailCount(prog: Program, p: nat, loop: nat, bc: nat, tc: nat, s: State)
    requires Embedded(prog, p, Tail(bc, tc)) && Resolve(prog, IndirectLoop(bc, tc)) == Some(loop) && s.ok && s.pc == p + 6
    ensures var e := Run(prog, s, 2); var a := Wrap(Get(s, A0) - 1);
      Wrote(s, e, A0, a, if a != 0 then loop else p + 8) && e.mem == s.mem && e.log == s.log
    ensures Outcomes(prog, s, 2) == [Wrap(Get(s, A0) - 1) != 0]
  {
    hide Tail, Step, Exec, Get, Embedded, Resolve, XorWord, BitAnd, Outcomes;
    TailLines(prog, p, bc, tc);
    var s1 := StepAlu(prog, s, p + 6, A0, Plus, R(A0), I(-1), Wrap(Get(s, A0) - 1));
    var s2 := StepBranch(prog, s1, p + 7, IfNonzero(A0), IndirectLoop(bc, tc), loop);
    OutcomesOne(prog, s);
    OutcomesBranch(prog, s1, IfNonzero(A0), IndirectLoop(bc, tc));
    OutcomesAdd(prog, s, 1, 1);
  }

  lemma ScratchCovers(r: Reg)
    ensures Clobbered(r) || r == T1 || r == T3 || r == T5 ==> Scratch(r)
    ensures !Scratch(A0) && !Scratch(A1) && !Scratch(A2) && !Scratch(A3) && !Scratch(Sp) && !Scratch(Ra) && !Scratch(S0)
  {
  }

  /** Where the parts of a function stand. */
  lemma FnParts(prog: Program, p: nat, bc: nat, tc: nat)
    requires Embedded(prog, p, Fn(bc, tc))
    ensures var f, b := |Concat(FillAll(bc, tc, bc))|, |Concat(BlockAll(bc, tc, bc))|;
      && Embedded(prog, p, Opening(bc, tc)) && Embedded(prog, p + 20, Concat(FillAll(bc, tc, bc)))
      && Embedded(prog, p + 20 + f, LoopHead(bc, tc)) && Embedded(prog, p + 22 + f, Concat(BlockAll(bc, tc, bc)))
      && Embedded(prog, p + 22 + f + b, Tail(bc, tc)) && Embedded(prog, p + 31 + f + b, Epilogue())
  {
    hide Embedded, Opening, FillAll, LoopHead, BlockAll, Tail, Epilogue, Concat;
    var o, f, h := Opening(bc, tc), Concat(FillAll(bc, tc, bc)), LoopHead(bc, tc);
    var b, t, e := Concat(BlockAll(bc, tc, bc)), Tail(bc, tc), Epilogue();
    assert Fn(bc, tc) == [] + o + (f + h + b + t + e) == o + f + (h + b + t + e) == (o + f) + h + (b + t + e);
    assert Fn(bc, tc) == (o + f + h) + b + (t + e) == (o + f + h + b) + t + e == (o + f + h + b + t) + e + [];
    EmbedPart(prog, p, [], o, f + h + b + t + e);
    EmbedPart(prog, p, o, f, h + b + t + e);
    EmbedPart(prog, p, o + f, h, b + t + e);
    EmbedPart(prog, p, o + f + h, b, t + e);
    EmbedPart(prog, p, o + f + h + b, t, e);
    EmbedPart(prog, p, o + f + h + b + t, e, []);
  }

  /** The head changes nothing that the blocks rely on. */
  lemma HeadLooping(prog: Program, s: State, e: State, x: Tables, bc: nat, tc: nat, len: nat, pos: nat)
    requires Looping(prog, s, x, bc, tc, len) && Keeps(s, e, T3, T3, T3, T3, T3) && e.mem == s.mem && Get(s, T5) == pos
    ensures Looping(prog, e, x, bc, tc, len) && Get(e, T5) == pos
  {
    hide Inputs, TablesFilled, Get;
  }

  lemma LoopingOk(prog: Program, s: State, x: Tables, bc: nat, tc: nat, len: nat)
    requires Looping(prog, s, x, bc, tc, len)
    ensures s.ok
  {
    hide Inputs, TablesFilled, Get;
  }

  lemma HeadClobbers(s: State, s1: State, e: State)
    requires Keeps(s, s1, T3, T3, T3, T3, T3) && Clobbers(s1, e)
    ensures Clobbers(s, e)
  {
    hide Get, Clobbered;
    KeptByBlocks();
  }

  /** The head and the branch blocks of an iteration. */
  lemma SweepRuns(prog: Program, p: nat, x: Tables, bc: nat, tc: nat, len: nat, lo: nat, hi: nat, pos: nat, s: State)
    returns (k: nat)
    requires Embedded(prog, p, Fn(bc, tc)) && WellPlaced(x, bc, tc, len, lo, hi)
    requires Looping(prog, s, x, bc, tc, len) && Sizes(bc, tc, len)
    requires s.pc == p + 20 + |Concat(FillAll(bc, tc, bc))| && Get(s, T5) == pos < len
    ensures |x.picks| == bc && forall b :: 0 <= b < bc ==> |x.picks[b]| == len
    ensures var e := Run(prog, s, k);
      && Clobbers(s, e) && e.mem == s.mem && e.pc == s.pc + 2 + |Concat(BlockAll(bc, tc, bc))|
      && e.log == s.log + RoundJumps(prog, x, bc, tc, pos, bc)
    ensures Outcomes(prog, s, k) == RoundBits(x, pos, bc, false) && k == 2 + RoundLines(x, tc, pos, bc, false)
  {
    hide Clobbers, Keeps, Sizes, Looping, RoundLines, Run, Step, Exec, Get, Embedded, Fn, Concat, FillAll, LoopHead, Tail, Epilogue, Inputs, TablesFilled, WellPlaced,
      Clobbered, RoundJumps, Outcomes, RoundBits;
    PicksShape(x, bc, tc, len, lo, hi);
    FnParts(prog, p, bc, tc);
    KeptByBlocks();
    assert s.ok by { LoopingOk(prog, s, x, bc, tc, len); }
    HeadRuns(prog, s.pc, bc, tc, s);
    var s1 := Run(prog, s, 2);
    HeadLooping(prog, s, s1, x, bc, tc, len, pos);
    var k1 := BlocksRun(prog, s.pc + 2, x, bc, tc, len, lo, hi, pos, bc, s1);
    HeadClobbers(s, s1, Run(prog, s1, k1));
    assert BlockAll(bc, tc, bc)[..bc] == BlockAll(bc, tc, bc);
    RunAdd(prog, s, 2, k1);
    OutcomesAdd(prog, s, 2, k1);
    k := 2 + k1;
  }

  /** One iteration: every branch block once, in order, at the current position; then the position moves on. */
  lemma IterationRuns(prog: Program, p: nat, x: Tables, bc: nat, tc: nat, len: nat, lo: nat, hi: nat, pos: nat, s: State)
    returns (k: nat)
    requires Embedded(prog, p, Fn(bc, tc)) && WellPlaced(x, bc, tc, len, lo, hi)
    requires Looping(prog, s, x, bc, tc, len) && Sizes(bc, tc, len)
    requires s.pc == p + 20 + |Concat(FillAll(bc, tc, bc))| && Get(s, T5) == pos < len
    ensures |x.picks| == bc && forall b :: 0 <= b < bc ==> |x.picks[b]| == len
    ensures var e := Run(prog, s, k); var a := Wrap(Get(s, A0) - 1);
      && KeepsCaller(s, e) && e.mem == s.mem && Get(e, A0) == a
      && e.pc == (if a != 0 then s.pc else s.pc + 10 + |Concat(BlockAll(bc, tc, bc))|)
      && Get(e, T5) == (if pos + 1 == len then 0 else pos + 1)
      && e.log == s.log + RoundJumps(prog, x, bc, tc, pos, bc)
    ensures Outcomes(prog, s, k) == RoundBits(x, pos, bc, false) + [Wrap(Get(s, A0) - 1) != 0] && k == RoundLines(x, tc, pos, bc, false) + 10
  {
    hide RoundLines, Run, Get, Embedded, Fn, Concat, FillAll, BlockAll, LoopHead, Tail, Epilogue, Inputs, TablesFilled, WellPlaced,
      Clobbered, Scratch, RoundJumps, Outcomes, RoundBits, Wrap;
    FnParts(prog, p, bc, tc);
    KeptByBlocks();
    forall r { ScratchCovers(r); }
    HeadRuns(prog, s.pc, bc, tc, s);
    var k1 := SweepRuns(prog, p, x, bc, tc, len, lo, hi, pos, s);
    var s1 := Run(prog, s, k1);
    TailRuns(prog, s1.pc, s.pc, bc, tc, len, pos, s1);
    RunAdd(prog, s, k1, 8);
    OutcomesAdd(prog, s, k1, 8);
    k := k1 + 8;
  }

  /** m iterations from iteration number it on. */
  lemma {:induction false} IterationsRun(prog: Program, p: nat, x: Tables, bc: nat, tc: nat, len: nat, lo: nat, hi: nat, it: nat, m: nat, s: State)
    returns (k: nat)
    requires Embedded(prog, p, Fn(bc, tc)) && WellPlaced(x, bc, tc, len, lo, hi)
    requires Looping(prog, s, x, bc, tc, len) && Sizes(bc, tc, len) && 1 <= m <= TWO64 && Get(s, A0) == Wrap(m)
    requires s.pc == p + 20 + |Concat(FillAll(bc, tc, bc))| && Get(s, T5) == it % len
    ensures |x.picks| == bc && forall b :: 0 <= b < bc ==> |x.picks[b]| == len
    ensures var e := Run(prog, s, k);
      && KeepsCaller(s, e) && e.mem == s.mem && Get(e, A0) == 0
      && e.pc == s.pc + 10 + |Concat(BlockAll(bc, tc, bc))|
      && e.log == s.log + Jumps(prog, x, bc, tc, len, it, m)
    ensures Outcomes(prog, s, k) == History(x, bc, len, it, m, false) && k == AllLines(x, bc, tc, len, it, m, false)
    decreases m
  {
    hide RoundLines, AllLines, Run, Get, Embedded, Fn, Concat, FillAll, WellPlaced, RoundJumps, BlockAll, Looping, KeepsCaller, Jumps,
      Outcomes, RoundBits, History;
    var k1 := IterationRuns(prog, p, x, bc, tc, len, lo, hi, it % len, s);
    var s1 := Run(prog, s, k1);
    ModStep(it, len);
    CountDown(m);
    KeepsLooping(prog, s, s1, x, bc, tc, len);
    JumpsUnfold(prog, x, bc, tc, len, it, m);
    HistoryUnfold(x, bc, len, it, m, false);
    AllLinesUnfold(x, bc, tc, len, it, m, false);
    if m == 1 {
      k := k1;
    } else {
      var k2 := IterationsRun(prog, p, x, bc, tc, len, lo, hi, it + 1, m - 1, s1);
      KeepsCallerTrans(s, s1, Run(prog, s1, k2));
      RunAdd(prog, s, k1, k2);
      OutcomesAdd(prog, s, k1, k2);
      k := k1 + k2;
    }
  }

  /** The counter of m iterations after one: zero only when it was the last. */
  lemma CountDown(m: nat)
    requires 1 <= m <= TWO64
    ensures Wrap(Wrap(m) - 1) == m - 1 && Wrap(m - 1) == m - 1
  {
  }

  lemma KeepsLooping(prog: Program, s: State, e: State, x: Tables, bc: nat, tc: nat, len: nat)
    requires Looping(prog, s, x, bc, tc, len) && KeepsCaller(s, e) && e.mem == s.mem
    ensures Looping(prog, e, x, bc, tc, len)
  {
    hide Inputs, TablesFilled, Get;
    ScratchCovers(A0);
  }

  lemma KeepsCallerTrans(s: State, s': State, e: State)
    requires KeepsCaller(s, s') && KeepsCaller(s', e)
    ensures KeepsCaller(s, e)
  {
    hide Get;
  }

  lemma JumpsUnfold(prog: Program, x: Tables, bc: nat, tc: nat, len: nat, it: nat, m: nat)
    requires len >= 1 && m >= 1 && bc <= |x.picks| && forall b :: 0 <= b < bc ==> |x.picks[b]| == len
    ensures Jumps(prog, x, bc, tc, len, it, m) == RoundJumps(prog, x, bc, tc, it % len, bc) + Jumps(prog, x, bc, tc, len, it + 1, m - 1)
    ensures m == 1 ==> Jumps(prog, x, bc, tc, len, it, m) == RoundJumps(prog, x, bc, tc, it % len, bc)
  {
    hide RoundJumps;
    assert Jumps(prog, x, bc, tc, len, it + 1, 0) == [];
  }

  // ----- the whole function

  lemma FrameAgree(m: Memory, m': Memory, sp: nat, s: State)
    requires Frame(m, sp, s, 9) && Agree(m, m', sp, sp + 80)
    ensures Frame(m', sp, s, 9)
  {
    hide Load64, Get;
    forall j {:trigger Saved(j)} | 0 <= j < 9
      ensures Load64(m', sp + 8 * (j + 1)) == Get(s, Saved(j))
    {
      Load64Agree(m, m', sp + 8 * (j + 1));
    }
  }

  lemma Starts(prog: Program, p: nat, bc: nat, tc: nat, s: State)
    requires Embedded(prog, p, Opening(bc, tc)) && s.ok && s.pc == p && Get(s, Sp) >= 80
    ensures var e := Run(prog, s, 20); var sp := Get(s, Sp) - 80;
      && e.ok && e.pc == p + 20 && e.log == s.log && Get(e, Sp) == sp
      && (forall r :: !Scratch(r) && r != Sp ==> Get(e, r) == Get(s, r))
      && (forall r :: Scratch(r) ==> Get(e, r) == 0)
      && Frame(e.mem, sp, s, 9) && AgreeOutside(s.mem, e.mem, sp, sp + 80)
      && e.low == (if sp < s.low then sp else s.low)
    ensures Outcomes(prog, s, 20) == []
  {
    hide Outcomes, NoTransfers, Falling, Run, Step, Exec, Get, Embedded, Prologue, Load64, Scratch, AgreeOutside, Resolve;
    var top: Program := [Label(IndirectTop(bc, tc))];
    OpeningFalls(prog, bc, tc);
    TextFalls(prog, p, Opening(bc, tc));
    BlockOutcomes(prog, s, 20);
    assert Opening(bc, tc) == [] + top + Prologue() == top + Prologue() + [];
    EmbedPart(prog, p, [], top, Prologue());
    EmbedPart(prog, p, top, Prologue(), []);
    EmbedLines(prog, p, top);
    assert top[0].Label?;
    var s1 := StepMark(prog, s, p);
    RunSingle(prog, s);
    PrologueRuns(prog, p + 1, s1);
    RunAdd(prog, s, 1, 19);
    FrameOf(Run(prog, s1, 19).mem, Get(s, Sp) - 80, s1, s);
  }

  lemma OpeningFalls(prog: Program, bc: nat, tc: nat)
    ensures Falling(prog, Opening(bc, tc)) && Falling(prog, Restores())
  {
  }

  lemma FrameOf(m: Memory, sp: nat, s: State, s': State)
    requires Frame(m, sp, s, 9) && forall r :: Get(s, r) == Get(s', r)
    ensures Frame(m, sp, s', 9)
  {
    hide Load64, Get, Saved;
  }

  lemma TargetsDefined(prog: Program, p: nat, bc: nat, tc: nat, b: nat)
    requires Embedded(prog, p, Concat(BlockAll(bc, tc, bc))) && b < bc && |prog| < TWO64
    ensures Defined(prog, bc, tc, b)
  {
    hide Embedded, Block, Concat, Resolve;
    var pieces := BlockAll(bc, tc, bc);
    PieceAt(prog, p, pieces, b);
    assert pieces[b] == Block(bc, tc, b);
    var at := p + |Concat(pieces[..b])|;
    BlockParts(prog, at, bc, tc, b);
    forall t {:trigger IndirectTarget(bc, tc, b, t)} | 0 <= t < tc
      ensures Resolve(prog, IndirectTarget(bc, tc, b, t)).Some?
    {
      TargetLine(prog, at + 17 + |Concat(HistPieces(bc, tc, b, HISTORY_BITS))|, bc, tc, b, t);
    }
  }

  /** The end of the function: the result register, then the epilogue. */
  lemma Leaves(prog: Program, p: nat, bc: nat, tc: nat, s: State, e: State)
    requires Embedded(prog, p, Tail(bc, tc)) && Embedded(prog, p + 9, Epilogue())
    requires InFrame(s, e) && e.pc == p + 8
    ensures var e' := Run(prog, e, 12);
      && e'.ok && e'.pc == Get(s, Ra) && (forall r :: r != A0 ==> Get(e', r) == Get(s, r))
      && e'.mem == e.mem && e'.log == e.log + [Returned(Get(s, Ra))] && Get(e', A0) == Get(s, S0)
    ensures Outcomes(prog, e, 12) == []
  {
    hide Outcomes, Run, Step, Get, Embedded, Tail, Epilogue, Scratch, Frame, Resolve;
    LeavesOutcomes(prog, p, bc, tc, e);
    TailLines(prog, p, bc, tc);
    ScratchCovers(A0);
    var e1 := StepAddI(prog, e, p + 8, A0, S0, 0, Get(e, S0));
    RunSingle(prog, e);
    LeaveRuns(prog, p + 9, s, e1);
    RunAdd(prog, e, 1, 11);
  }

  /** Nothing branches at the end of a function. */
  lemma LeavesOutcomes(prog: Program, p: nat, bc: nat, tc: nat, s: State)
    requires Embedded(prog, p, Tail(bc, tc)) && Embedded(prog, p + 9, Epilogue()) && s.ok && s.pc == p + 8
    ensures Outcomes(prog, s, 12) == []
  {
    hide Run, Embedded, Tail, Epilogue, Outcomes;
    TailLines(prog, p, bc, tc);
    EpilogueFalls(prog, p + 9);
    BlockStraight(prog, s, 11);
    BlockOutcomes(prog, s, 11);
    OutcomesOne(prog, Run(prog, s, 11));
    OutcomesAdd(prog, s, 11, 1);
  }

  lemma EpilogueFalls(prog: Program, p: nat)
    requires Embedded(prog, p, Epilogue())
    ensures NoTransfers(prog, p, 10) && prog[p + 10] == Op(Ret())
  {
    hide Embedded;
    var f := Epilogue();
    EmbedLines(prog, p, f);
    assert f[10].Op?;
    forall l | p <= l < p + 10 && prog[l].Op?
      ensures FallsThrough(prog[l].instr)
    {
      assert prog[l] == f[l - p];
    }
  }

  /** The state on entering the loop for the first time. */
  lemma Fills(prog: Program, p: nat, x: Tables, bc: nat, tc: nat, len: nat, s: State) returns (k: nat)
    requires Embedded(prog, p, Fn(bc, tc)) && |prog| < TWO64 && Sizes(bc, tc, len)
    requires s.ok && s.pc == p && Get(s, Sp) >= 80 && s.low <= Get(s, Sp)
    requires WellPlaced(x, bc, tc, len, Get(s, Sp) - 80, Get(s, Sp)) && Inputs(s.mem, x, bc, len)
    requires Get(s, A1) == x.selArr && Get(s, A2) == len && Get(s, A3) == x.tableArr
    ensures var e := Run(prog, s, k);
      && Looping(prog, e, x, bc, tc, len) && e.pc == p + 20 + |Concat(FillAll(bc, tc, bc))| && e.log == s.log
      && Get(e, T5) == 0 && Get(e, A0) == Get(s, A0) && InFrame(s, e)
    ensures Outcomes(prog, s, k) == [] && k == 20 + bc * (5 * tc + 6)
  {
    hide Outcomes, Run, Get, Embedded, Fn, Concat, FillAll, Opening, LoopHead, BlockAll, Tail, Epilogue, Inputs,
      AgreeOutside, Scratch, Defined, WellPlaced, Frame, FilledUpTo, Looping, InFrame;
    FnParts(prog, p, bc, tc);
    var lo, hi := Get(s, Sp) - 80, Get(s, Sp);
    PicksShape(x, bc, tc, len, lo, hi);
    Starts(prog, p, bc, tc, s);
    var s1 := Run(prog, s, 20);
    FrameApart(x, bc, tc, len, lo, hi);
    InputsKept(s.mem, s1.mem, x, bc, len, lo, 80);
    forall b | 0 <= b < bc
      ensures Defined(prog, bc, tc, b)
    {
      TargetsDefined(prog, p + 22 + |Concat(FillAll(bc, tc, bc))|, bc, tc, b);
    }
    EntryRegisters(s, s1);
    var k1 := FillAllRuns(prog, p + 20, x, bc, tc, len, lo, hi, bc, s1);
    WholeFill(bc, tc);
    FilledLoops(prog, s, s1, Run(prog, s1, k1), x, bc, tc, len);
    RunAdd(prog, s, 20, k1);
    FillAllOutcomes(prog, s1, bc, tc);
    FillsLength(bc, tc);
    OutcomesAdd(prog, s, 20, k1);
    k := 20 + k1;
  }

  lemma EntryRegisters(s: State, s1: State)
    requires forall r :: !Scratch(r) && r != Sp ==> Get(s1, r) == Get(s, r)
    requires forall r :: Scratch(r) ==> Get(s1, r) == 0
    ensures Get(s1, T3) == 0 && Get(s1, T5) == 0
    ensures Get(s1, A0) == Get(s, A0) && Get(s1, A1) == Get(s, A1) && Get(s1, A2) == Get(s, A2) && Get(s1, A3) == Get(s, A3)
  {
    hide Get;
  }

  /** Once the tables are filled the loop can start, in the frame of the call. */
  lemma FilledLoops(prog: Program, s: State, s1: State, e: State, x: Tables, bc: nat, tc: nat, len: nat)
    requires Get(s, Sp) >= 80 && Get(s1, Sp) == Get(s, Sp) - 80 && s1.low <= Get(s1, Sp) && |x.tables| == bc && |prog| < TWO64
    requires forall r :: !Scratch(r) && r != Sp ==> Get(s1, r) == Get(s, r)
    requires Frame(s1.mem, Get(s, Sp) - 80, s, 9)
    requires FilledUpTo(prog, s1, e, x, bc, tc, len, Get(s, Sp) - 80, Get(s, Sp), bc)
    requires Get(s, A1) == x.selArr && Get(s, A2) == len && Get(s, A3) == x.tableArr
    ensures Looping(prog, e, x, bc, tc, len) && InFrame(s, e)
    ensures e.log == s1.log && Get(e, T5) == 0 && Get(e, A0) == Get(s, A0)
  {
    hide Get, Scratch, Frame, Inputs, TablesFilled, Agree;
    KeptByFills();
    FrameAgree(s1.mem, e.mem, Get(s, Sp) - 80, s);
  }

  /** Every fill has five lines for each target and six around them. */
  lemma FillsLength(bc: nat, tc: nat)
    ensures |Concat(FillAll(bc, tc, bc))| == bc * (5 * tc + 6)
  {
    hide Concat, FillOne;
    forall b | 0 <= b < bc
      ensures |FillAll(bc, tc, bc)[b]| == 5 * tc + 6
    {
      ConcatLength(FillPieces(bc, tc, b, tc), 5);
    }
    ConcatLength(FillAll(bc, tc, bc), 5 * tc + 6);
  }

  lemma WholeFill(bc: nat, tc: nat)
    ensures FillAll(bc, tc, bc)[..bc] == FillAll(bc, tc, bc)
  {
  }

  lemma KeptByFills()
    ensures forall r :: !Scratch(r) ==> r != T1 && r != T3 && r != T4 && r != T5 && r != T6
    ensures !Scratch(A0) && !Scratch(A1) && !Scratch(A2) && !Scratch(A3) && !Scratch(Sp)
  {
  }

  lemma FrameApart(x: Tables, bc: nat, tc: nat, len: nat, lo: nat, hi: nat)
    requires WellPlaced(x, bc, tc, len, lo, hi)
    ensures Outside(x, len, lo, hi - lo)
  {
  }

  /** The function for bc branches and tc targets, called with n iterations (zero standing for 2^64). */
  lemma FunctionRuns(prog: Program, p: nat, x: Tables, bc: nat, tc: nat, len: nat, n: nat, s: State) returns (k: nat)
    requires Embedded(prog, p, Fn(bc, tc)) && |prog| < TWO64 && Sizes(bc, tc, len) && 1 <= n <= TWO64
    requires s.ok && s.pc == p && Get(s, Sp) >= 80 && s.low <= Get(s, Sp)
    requires WellPlaced(x, bc, tc, len, Get(s, Sp) - 80, Get(s, Sp)) && Inputs(s.mem, x, bc, len)
    requires Get(s, A0) == Wrap(n) && Get(s, A1) == x.selArr && Get(s, A2) == len && Get(s, A3) == x.tableArr
    ensures |x.tables| == |x.picks| == bc && forall b :: 0 <= b < bc ==> |x.picks[b]| == len
    ensures var e := Run(prog, s, k);
      && e.ok && e.pc == Get(s, Ra) && (forall r :: r != A0 ==> Get(e, r) == Get(s, r))
      && Get(e, A0) == Get(s, S0) && TablesFilled(prog, e.mem, x, bc, tc, bc) && Inputs(e.mem, x, bc, len)
      && e.log == s.log + Jumps(prog, x, bc, tc, len, 0, n) + [Returned(Get(s, Ra))]
    ensures Outcomes(prog, s, k) == History(x, bc, len, 0, n, false)
    ensures k == 32 + bc * (5 * tc + 6) + AllLines(x, bc, tc, len, 0, n, false)
  {
    hide AllLines, Outcomes, History, Run, Get, Embedded, Fn, Concat, FillAll, Opening, LoopHead, BlockAll, Tail, Epilogue, Inputs,
      Scratch, WellPlaced, TablesFilled, Jumps, InFrame, KeepsCaller, Looping;
    var lo, hi := Get(s, Sp) - 80, Get(s, Sp);
    PicksShape(x, bc, tc, len, lo, hi);
    FnParts(prog, p, bc, tc);
    var k1 := Fills(prog, p, x, bc, tc, len, s);
    var s1 := Run(prog, s, k1);
    ModZero(len);
    var k2 := IterationsRun(prog, p, x, bc, tc, len, lo, hi, 0, n, s1);
    var s2 := Run(prog, s1, k2);
    var tail := p + 22 + |Concat(FillAll(bc, tc, bc))| + |Concat(BlockAll(bc, tc, bc))|;
    LoopingHas(prog, s1, x, bc, tc, len);
    StillInFrame(s, s1, s2);
    Leaves(prog, tail, bc, tc, s, s2);
    RunAdd(prog, s1, k2, 12);
    RunAdd(prog, s, k1, k2 + 12);
    OutcomesAdd(prog, s1, k2, 12);
    OutcomesAdd(prog, s, k1, k2 + 12);
    k := k1 + (k2 + 12);
  }

  lemma LoopingHas(prog: Program, s: State, x: Tables, bc: nat, tc: nat, len: nat)
    requires Looping(prog, s, x, bc, tc, len)
    ensures |x.tables| == bc && TablesFilled(prog, s.mem, x, bc, tc, bc) && Inputs(s.mem, x, bc, len)
  {
    hide TableHas;
  }

  lemma ModZero(len: nat)
    requires len >= 1
    ensures 0 % len == 0
  {
  }
}
