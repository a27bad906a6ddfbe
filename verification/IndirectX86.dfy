/** Running the whole x86 indirect-branch test. */
module IndirectX86 {
  import opened Words
  import opened Listing
  import opened Machine
  import opened Symbols
  import opened Sums
  import opened X86Stack
  import opened JumpTables
  import opened IndirectX86Text
  import opened IndirectX86Fill
  import opened IndirectX86Block
  import opened Trace
  import opened BranchBits
  import IndirectBlock
  import IndirectRiscv
  import IndirectFill
  import IndirectListing
  import Rv = IndirectText

  // ----- one iteration

  /** The registers that hold the arguments, the zero that the wrap selects and the result, and the filled memory. */
  ghost predicate Looping(prog: Program, s: State, x: Tables, bc: nat, tc: nat, len: nat) {
    && s.ok && Get(s, Rsi) == x.selArr && Get(s, Rdx) == len && Get(s, Rcx) == x.tableArr && Get(s, R9) == 0 && Get(s, R8) == 0
    && Inputs(s.mem, x, bc, len) && TablesFilled(prog, s.mem, x, bc, tc, bc)
  }

  /** The selection arrays of all branches have the given length. */
  ghost predicate Shaped(x: Tables, bc: nat, len: nat) {
    |x.tables| == bc && |x.sels| == bc && |x.picks| == bc && forall b :: 0 <= b < bc ==> |x.picks[b]| == len
  }

  /** What the first n blocks of an iteration leave. */
  ghost predicate Swept(prog: Program, s: State, e: State, x: Tables, bc: nat, tc: nat, len: nat, pos: nat, n: nat)
    requires Shaped(x, bc, len) && n <= bc && pos < len
  {
    && Clobbers(s, e) && Get(e, Rsi) == x.selArr && e.mem == s.mem && Get(e, R11) == n
    && e.log == s.log + RoundJumps(prog, x, bc, tc, pos, n)
  }

  /** So many steps go through the first n blocks. */
  ghost predicate BlocksDone(prog: Program, s: State, k: nat, p: nat, x: Tables, bc: nat, tc: nat, len: nat, pos: nat, n: nat)
    requires Shaped(x, bc, len) && n <= bc && pos < len
  {
    var e := Run(prog, s, k);
    && Swept(prog, s, e, x, bc, tc, len, pos, n) && e.pc == p + |Concat(BlockAll(bc, tc, bc)[..n])|
    && Outcomes(prog, s, k) == RoundBits(x, pos, n, true) && k == RoundLines(x, tc, pos, n, true)
  }

  lemma {:induction false} BlocksRun(prog: Program, p: nat, x: Tables, bc: nat, tc: nat, len: nat, lo: nat, hi: nat, pos: nat, n: nat, s: State)
    returns (k: nat)
    requires Shaped(x, bc, len) && n <= bc && pos < len && Embedded(prog, p, Concat(BlockAll(bc, tc, bc)))
    requires WellPlaced(x, bc, tc, len, lo, hi) && Looping(prog, s, x, bc, tc, len) && IndirectRiscv.Sizes(bc, tc, len)
    requires s.pc == p && Get(s, R11) == 0 && Get(s, Rbx) == pos
    ensures BlocksDone(prog, s, k, p, x, bc, tc, len, pos, n)
    decreases n
  {
    hide Ones, Run, Get, Embedded, Block, WellPlaced, Looping, Swept, Outcomes, BitsOf;
    var pieces := BlockAll(bc, tc, bc);
    if n == 0 {
      k := 0;
      RunNone(prog, s);
      OutcomesNone(prog, s);
      assert pieces[..0] == [];
      SweptNone(prog, s, x, bc, tc, len, pos);
    } else {
      var k1 := BlocksRun(prog, p, x, bc, tc, len, lo, hi, pos, n - 1, s);
      PieceAt(prog, p, pieces, n - 1);
      assert pieces[n - 1] == Block(bc, tc, n - 1);
      var k2 := BlockNextRuns(prog, x, bc, tc, len, lo, hi, pos, n, s, Run(prog, s, k1));
      RunAdd(prog, s, k1, k2);
      OutcomesAdd(prog, s, k1, k2);
      k := k1 + k2;
    }
  }

  lemma SweptNone(prog: Program, s: State, x: Tables, bc: nat, tc: nat, len: nat, pos: nat)
    requires Shaped(x, bc, len) && pos < len && Looping(prog, s, x, bc, tc, len) && Get(s, R11) == 0
    ensures Swept(prog, s, s, x, bc, tc, len, pos, 0)
  {
    hide Get, Inputs, TablesFilled;
  }

  /** One more block. */
  lemma BlockNextRuns(prog: Program, x: Tables, bc: nat, tc: nat, len: nat, lo: nat, hi: nat, pos: nat, n: nat, s: State, e: State)
    returns (k: nat)
    requires Shaped(x, bc, len) && 1 <= n <= bc && pos < len && Embedded(prog, e.pc, Block(bc, tc, n - 1))
    requires WellPlaced(x, bc, tc, len, lo, hi) && Looping(prog, s, x, bc, tc, len) && IndirectRiscv.Sizes(bc, tc, len)
    requires Get(s, Rbx) == pos && Swept(prog, s, e, x, bc, tc, len, pos, n - 1)
    ensures var e' := Run(prog, e, k);
      Swept(prog, s, e', x, bc, tc, len, pos, n) && e'.pc == e.pc + |Block(bc, tc, n - 1)|
    ensures Outcomes(prog, e, k) == BitsOf(x.picks[n - 1][pos], true) && k == BlockLines(x.picks[n - 1][pos], tc, true)
  {
    hide Ones, Outcomes, BitsOf, Run, Get, Embedded, Block, Inputs, TablesFilled, WellPlaced, IndirectBlock.Selects, LineOf, Clobbered;
    KeptByBlocks();
    IndirectRiscv.BranchSelects(prog, s.mem, x, bc, tc, len, lo, hi, n - 1, pos);
    k := BlockRuns(prog, e.pc, bc, tc, n - 1, pos, e, x, x.tables[n - 1], x.sels[n - 1], x.picks[n - 1][pos]);
  }

  lemma TablesHave(x: Tables, bc: nat, tc: nat, len: nat, lo: nat, hi: nat)
    requires WellPlaced(x, bc, tc, len, lo, hi)
    ensures Shaped(x, bc, len)
  {
  }

  lemma KeptByBlocks()
    ensures !Clobbered(Rbx) && !Clobbered(Rcx) && !Clobbered(Rdx) && !Clobbered(Rdi) && !Clobbered(R9) && !Clobbered(R8) && !Clobbered(Sp)
  {
  }

  lemma TailLines(prog: Program, p: nat, bc: nat, tc: nat)
    requires Embedded(prog, p, Tail(bc, tc))
    ensures p + 6 <= |prog| && prog[p] == Op(Alu(Rbx, Plus, R(Rbx), I(1), true)) && prog[p + 1] == Op(Compare(Minus, R(Rdx), R(Rbx)))
    ensures prog[p + 2] == Op(Select(Rbx, R9, Rbx)) && prog[p + 3] == Op(Alu(Rdi, Minus, R(Rdi), I(1), true))
    ensures prog[p + 4] == Op(Branch(IfFlag(false), IndirectLoop(bc, tc))) && prog[p + 5] == Op(Alu(Rax, Plus, R(R8), I(0), false))
  {
    hide Embedded;
    var f := Tail(bc, tc);
    EmbedLines(prog, p, f);
    assert f[0].Op? && f[1].Op? && f[2].Op? && f[3].Op? && f[4].Op? && f[5].Op?;
  }

  lemma DifferenceZero(a: Word, b: Word)
    ensures Eval(Minus, a, b) == 0 <==> a == b
  {
  }

  /** The position moves on, back to zero at the length. */
  lemma PositionRuns(prog: Program, p: nat, bc: nat, tc: nat, len: nat, pos: nat, s: State)
    requires Embedded(prog, p, Tail(bc, tc)) && s.ok && s.pc == p && Get(s, Rbx) == pos && Get(s, Rdx) == len && Get(s, R9) == 0
    requires pos < len < TWO64
    ensures var e := Run(prog, s, 3);
      Wrote(s, e, Rbx, if pos + 1 == len then 0 else pos + 1, p + 3) && e.mem == s.mem && e.log == s.log
    ensures Outcomes(prog, s, 3) == []
  {
    hide Tail, Step, Get, Embedded, Eval, Outcomes;
    TailLines(prog, p, bc, tc);
    var s1 := StepInc(prog, s, p, Rbx, pos + 1);
    DifferenceZero(len, pos + 1);
    var s2 := StepCompare(prog, s1, p + 1, Minus, R(Rdx), R(Rbx));
    var s3 := StepSelect(prog, s2, p + 2, Rbx, R9, Rbx);
    BlockOutcomes(prog, s, 3);
  }

  /** The iteration is counted down. */
  lemma CountRuns(prog: Program, p: nat, loop: nat, bc: nat, tc: nat, s: State)
    requires Embedded(prog, p, Tail(bc, tc)) && Resolve(prog, IndirectLoop(bc, tc)) == Some(loop) && s.ok && s.pc == p + 3
    ensures var e := Run(prog, s, 2); var a := Wrap(Get(s, Rdi) - 1);
      Wrote(s, e, Rdi, a, if a != 0 then loop else p + 5) && e.mem == s.mem && e.log == s.log
    ensures Outcomes(prog, s, 2) == [Wrap(Get(s, Rdi) - 1) != 0]
  {
    hide Tail, Step, Get, Embedded, Resolve, Outcomes;
    TailLines(prog, p, bc, tc);
    var s1 := StepFlags(prog, s, p + 3, Rdi, Minus, R(Rdi), I(1), Wrap(Get(s, Rdi) - 1));
    var s2 := StepBranch(prog, s1, p + 4, IfFlag(false), IndirectLoop(bc, tc), loop);
    RunSingle(prog, s);
    RunOneMore(prog, s, 1);
    OutcomesOne(prog, s);
    OutcomesBranch(prog, s1, IfFlag(false), IndirectLoop(bc, tc));
    OutcomesAdd(prog, s, 1, 1);
  }

  lemma HeadLines(prog: Program, p: nat, bc: nat, tc: nat)
    requires Embedded(prog, p, LoopHead(bc, tc))
    ensures p + 4 <= |prog| && prog[p] == Op(Alu(R8, ExOr, R(R8), R(R8), true)) && prog[p + 1] == Op(Alu(R9, ExOr, R(R9), R(R9), true))
    ensures prog[p + 2] == Label(IndirectLoop(bc, tc)) && Resolve(prog, IndirectLoop(bc, tc)) == Some(p + 2)
    ensures prog[p + 3] == Op(Alu(R11, ExOr, R(R11), R(R11), true))
  {
    hide Embedded, Resolve;
    var f := LoopHead(bc, tc);
    EmbedLines(prog, p, f);
    assert f[0].Op? && f[1].Op? && f[2].Label? && f[3].Op?;
  }

  /** Where the parts of a function stand. */
  lemma FnParts(prog: Program, p: nat, bc: nat, tc: nat)
    requires Embedded(prog, p, Fn(bc, tc))
    ensures var f, b := |Concat(FillAll(bc, tc, bc))|, |Concat(BlockAll(bc, tc, bc))|;
      && Embedded(prog, p, Opening(bc, tc)) && Embedded(prog, p + 10, Concat(FillAll(bc, tc, bc)))
      && Embedded(prog, p + 10 + f, LoopHead(bc, tc)) && Embedded(prog, p + 14 + f, Concat(BlockAll(bc, tc, bc)))
      && Embedded(prog, p + 14 + f + b, Tail(bc, tc)) && Embedded(prog, p + 20 + f + b, Ending())
  {
    hide Embedded, Opening, FillAll, LoopHead, BlockAll, Tail, Ending, Concat;
    EmbedSix(prog, p, Opening(bc, tc), Concat(FillAll(bc, tc, bc)), LoopHead(bc, tc), Concat(BlockAll(bc, tc, bc)), Tail(bc, tc), Ending());
  }

  /** The line of the loop's label, and the line behind the loop. */
  function LoopLine(p: nat, bc: nat, tc: nat): nat {
    p + 12 + |Concat(FillAll(bc, tc, bc))|
  }

  function ExitLine(p: nat, bc: nat, tc: nat): nat {
    p + 19 + |Concat(FillAll(bc, tc, bc))| + |Concat(BlockAll(bc, tc, bc))|
  }

  predicate Used(r: Reg) {
    Clobbered(r) || r == Rbx || r == Rdi
  }

  /** Only the registers of the loop have changed. */
  ghost predicate Looped(s: State, e: State) {
    e.ok && e.mem == s.mem && forall r :: !Used(r) ==> Get(e, r) == Get(s, r)
  }

  lemma LoopedTrans(s: State, s': State, e: State)
    requires Looped(s, s') && Looped(s', e)
    ensures Looped(s, e)
  {
    hide Get, Used;
  }

  lemma LoopedLooping(prog: Program, s: State, e: State, x: Tables, bc: nat, tc: nat, len: nat)
    requires Looping(prog, s, x, bc, tc, len) && Looped(s, e)
    ensures Looping(prog, e, x, bc, tc, len)
  {
    hide Get, Inputs, TablesFilled;
  }

  /** The first half of an iteration: every branch block once, in order, at the current position. */
  lemma SweepRuns(prog: Program, p: nat, x: Tables, bc: nat, tc: nat, len: nat, lo: nat, hi: nat, pos: nat, s: State)
    returns (k: nat)
    requires Shaped(x, bc, len) && Embedded(prog, p, Fn(bc, tc)) && WellPlaced(x, bc, tc, len, lo, hi)
    requires Looping(prog, s, x, bc, tc, len) && IndirectRiscv.Sizes(bc, tc, len) && s.pc == LoopLine(p, bc, tc) && Get(s, Rbx) == pos < len
    ensures var e := Run(prog, s, k);
      && Looped(s, e) && e.pc == ExitLine(p, bc, tc) - 5 && Get(e, Rbx) == pos && Get(e, Rdi) == Get(s, Rdi)
      && e.log == s.log + RoundJumps(prog, x, bc, tc, pos, bc)
    ensures Outcomes(prog, s, k) == RoundBits(x, pos, bc, true) && k == 2 + RoundLines(x, tc, pos, bc, true)
  {
    hide RoundLines, Outcomes, RoundBits, Run, Step, Get, Embedded, Resolve, Fn, Concat, FillAll, LoopHead, Tail, Ending, Opening, Inputs, TablesFilled, WellPlaced, Clobbered, RoundJumps;
    FnParts(prog, p, bc, tc);
    HeadLines(prog, s.pc - 2, bc, tc);
    KeptByBlocks();
    ClobberedIsUsed();
    var s1 := StepMark(prog, s, s.pc);
    var s2 := StepClear(prog, s1, s.pc + 1, R11);
    RunSingle(prog, s);
    RunOneMore(prog, s, 1);
    var k1 := BlocksRun(prog, s.pc + 2, x, bc, tc, len, lo, hi, pos, bc, s2);
    assert BlockAll(bc, tc, bc)[..bc] == BlockAll(bc, tc, bc);
    RunAdd(prog, s, 2, k1);
    BlockOutcomes(prog, s, 2);
    OutcomesAdd(prog, s, 2, k1);
    k := 2 + k1;
  }

  lemma ClobberedIsUsed()
    ensures forall r :: Clobbered(r) ==> Used(r)
    ensures Used(R11) && !Used(Rsi) && !Used(Rdx) && !Used(Rcx) && !Used(R9) && !Used(R8) && !Used(Sp) && Used(Rbx) && Used(Rdi)
  {
  }

  /** One iteration: the branch blocks, then the position moves on and the iteration is counted. */
  lemma IterationRuns(prog: Program, p: nat, x: Tables, bc: nat, tc: nat, len: nat, lo: nat, hi: nat, pos: nat, s: State)
    returns (k: nat)
    requires Shaped(x, bc, len) && Embedded(prog, p, Fn(bc, tc)) && WellPlaced(x, bc, tc, len, lo, hi)
    requires Looping(prog, s, x, bc, tc, len) && IndirectRiscv.Sizes(bc, tc, len) && s.pc == LoopLine(p, bc, tc) && Get(s, Rbx) == pos < len
    ensures var e := Run(prog, s, k); var a := Wrap(Get(s, Rdi) - 1);
      && Looped(s, e) && Get(e, Rdi) == a && e.pc == (if a != 0 then s.pc else ExitLine(p, bc, tc))
      && Get(e, Rbx) == (if pos + 1 == len then 0 else pos + 1) && e.log == s.log + RoundJumps(prog, x, bc, tc, pos, bc)
    ensures Outcomes(prog, s, k) == RoundBits(x, pos, bc, true) + [Wrap(Get(s, Rdi) - 1) != 0] && k == RoundLines(x, tc, pos, bc, true) + 7
  {
    hide RoundLines, Outcomes, RoundBits, Run, Get, Embedded, Fn, Inputs, TablesFilled, WellPlaced, RoundJumps, Wrap, Looped, LoopLine, ExitLine, Looping;
    var k1 := SweepRuns(prog, p, x, bc, tc, len, lo, hi, pos, s);
    var s1 := Run(prog, s, k1);
    LoopedLooping(prog, s, s1, x, bc, tc, len);
    TurnRuns(prog, p, x, bc, tc, len, pos, s1);
    LoopedTrans(s, s1, Run(prog, s1, 5));
    RunAdd(prog, s, k1, 5);
    OutcomesAdd(prog, s, k1, 5);
    k := k1 + 5;
  }

  /** The second half of an iteration. */
  lemma TurnRuns(prog: Program, p: nat, x: Tables, bc: nat, tc: nat, len: nat, pos: nat, s: State)
    requires Embedded(prog, p, Fn(bc, tc)) && Looping(prog, s, x, bc, tc, len) && s.pc == ExitLine(p, bc, tc) - 5 && Get(s, Rbx) == pos < len
    requires len < TWO64
    ensures var e := Run(prog, s, 5); var a := Wrap(Get(s, Rdi) - 1);
      && Looped(s, e) && Get(e, Rdi) == a && e.pc == (if a != 0 then LoopLine(p, bc, tc) else ExitLine(p, bc, tc))
      && Get(e, Rbx) == (if pos + 1 == len then 0 else pos + 1) && e.log == s.log
    ensures Outcomes(prog, s, 5) == [Wrap(Get(s, Rdi) - 1) != 0]
  {
    hide Outcomes, Run, Get, Embedded, Resolve, Fn, Concat, FillAll, BlockAll, LoopHead, Tail, Ending, Opening, Inputs, TablesFilled, Wrap, Used;
    FnParts(prog, p, bc, tc);
    HeadLines(prog, LoopLine(p, bc, tc) - 2, bc, tc);
    ClobberedIsUsed();
    PositionRuns(prog, s.pc, bc, tc, len, pos, s);
    CountRuns(prog, s.pc, LoopLine(p, bc, tc), bc, tc, Run(prog, s, 3));
    RunAdd(prog, s, 3, 2);
    OutcomesAdd(prog, s, 3, 2);
  }

  /** m iterations from iteration number it on. */
  lemma {:induction false} IterationsRun(prog: Program, p: nat, x: Tables, bc: nat, tc: nat, len: nat, lo: nat, hi: nat, it: nat, m: nat, s: State)
    returns (k: nat)
    requires Shaped(x, bc, len) && Embedded(prog, p, Fn(bc, tc)) && WellPlaced(x, bc, tc, len, lo, hi)
    requires Looping(prog, s, x, bc, tc, len) && IndirectRiscv.Sizes(bc, tc, len) && 1 <= m <= TWO64 && Get(s, Rdi) == Wrap(m)
    requires s.pc == LoopLine(p, bc, tc) && Get(s, Rbx) == it % len
    ensures var e := Run(prog, s, k);
      && Looped(s, e) && Get(e, Rdi) == 0 && e.pc == ExitLine(p, bc, tc) && e.log == s.log + Jumps(prog, x, bc, tc, len, it, m)
    ensures Outcomes(prog, s, k) == History(x, bc, len, it, m, true) && k == AllLines(x, bc, tc, len, it, m, true)
    decreases m
  {
    hide RoundLines, AllLines, Outcomes, RoundBits, History, Run, Get, Embedded, Fn, WellPlaced, RoundJumps, Looping, Looped, Jumps, LoopLine, ExitLine, Wrap;
    var k1 := IterationRuns(prog, p, x, bc, tc, len, lo, hi, it % len, s);
    var s1 := Run(prog, s, k1);
    ModStep(it, len);
    IndirectRiscv.CountDown(m);
    LoopedLooping(prog, s, s1, x, bc, tc, len);
    IndirectRiscv.JumpsUnfold(prog, x, bc, tc, len, it, m);
    HistoryUnfold(x, bc, len, it, m, true);
    AllLinesUnfold(x, bc, tc, len, it, m, true);
    if m == 1 {
      k := k1;
    } else {
      var k2 := IterationsRun(prog, p, x, bc, tc, len, lo, hi, it + 1, m - 1, s1);
      LoopedTrans(s, s1, Run(prog, s1, k2));
      RunAdd(prog, s, k1, k2);
      OutcomesAdd(prog, s, k1, k2);
      k := k1 + k2;
    }
  }

  // ----- the whole function

  /** Registers a call leaves changed. */
  function Changes(): seq<Reg> {
    [Rax, R10, R11, Rdi]
  }

  predicate Saved(r: Reg) {
    r == Rbx || r == R8 || r == R9 || r == R13 || r == R15 || r == R14
  }

  predicate Changed(r: Reg) {
    r == Rax || r == R10 || r == R11 || r == Rdi
  }

  lemma Lists()
    ensures Plain(Saves()) && !Changed(Sp) && !Saved(Sp)
    ensures forall r :: r in Saves() <==> Saved(r)
    ensures forall r :: r in Changes() <==> Changed(r)
  {
    var a, b := Saves(), Changes();
    assert a[0] == Rbx && a[1] == R8 && a[2] == R9 && a[3] == R13 && a[4] == R15 && a[5] == R14;
    assert b[0] == Rax && b[1] == R10 && b[2] == R11 && b[3] == Rdi;
  }

  ghost predicate Entered(s: State, e: State) {
    InFrame(s, e, Saves(), Changes())
  }

  /** The stack as the call left it, in a memory that agrees with e's on the frame and the return address. */
  lemma StackAgree(s: State, m: Memory, m': Memory)
    requires Get(s, Sp) >= 48 && Stacked(m, Get(s, Sp), s, Saves(), 6) && Load64(m, Get(s, Sp)) == Load64(s.mem, Get(s, Sp))
    requires Agree(m, m', Get(s, Sp) - 48, Get(s, Sp) + 8)
    ensures Stacked(m', Get(s, Sp), s, Saves(), 6) && Load64(m', Get(s, Sp)) == Load64(s.mem, Get(s, Sp))
  {
    hide Load64, Get, Saves, ByteAt;
    var sp, regs := Get(s, Sp), Saves();
    Load64Agree(m, m', sp);
    forall j {:trigger regs[j]} | 0 <= j < 6
      ensures Load64(m', sp - 8 * (j + 1)) == Get(s, regs[j])
    {
      Load64Agree(m, m', sp - 8 * (j + 1));
    }
  }

  /** Saved and changed registers may change, and memory off the stack. */
  lemma StillEntered(s: State, e: State, e': State)
    requires Entered(s, e) && e'.ok && (forall r :: !Saved(r) && !Changed(r) ==> Get(e', r) == Get(e, r))
    requires Agree(e.mem, e'.mem, Get(s, Sp) - 48, Get(s, Sp) + 8)
    ensures Entered(s, e')
  {
    hide Get, Stacked, Saved, Changed, Saves, Changes, Load64, Agree;
    Lists();
    StackAgree(s, e.mem, e'.mem);
  }

  lemma AgreeSelf(m: Memory, lo: nat, hi: nat)
    ensures Agree(m, m, lo, hi)
  {
  }

  lemma OpeningParts(prog: Program, p: nat, bc: nat, tc: nat)
    requires Embedded(prog, p, Opening(bc, tc))
    ensures Embedded(prog, p, [Label(IndirectTop(bc, tc))]) && Embedded(prog, p + 1, Pushes(Saves()))
    ensures p + 10 <= |prog| && prog[p + 7] == Op(Alu(Rbx, ExOr, R(Rbx), R(Rbx), true))
    ensures prog[p + 8] == Op(Alu(R8, ExOr, R(R8), R(R8), true)) && prog[p + 9] == Op(Alu(R9, ExOr, R(R9), R(R9), true))
  {
    hide Embedded, Saves, Pushes;
    EmbedThree(prog, p, [Label(IndirectTop(bc, tc))], Pushes(Saves()), Clears());
    EmbedLines(prog, p + 7, Clears());
    assert Clears()[0].Op? && Clears()[1].Op? && Clears()[2].Op?;
  }

  /** Three registers cleared. */
  lemma ClearsRun(prog: Program, p: nat, s: State, bc: nat, tc: nat)
    requires Embedded(prog, p, Opening(bc, tc)) && s.ok && s.pc == p + 7
    ensures var e := Run(prog, s, 3);
      && e.ok && e.pc == p + 10 && e.mem == s.mem && e.log == s.log && Get(e, Rbx) == 0 && Get(e, R9) == 0
      && forall r :: r != Rbx && r != R8 && r != R9 ==> Get(e, r) == Get(s, r)
  {
    hide Opening, Step, Get, Embedded;
    OpeningParts(prog, p, bc, tc);
    var s1 := StepClear(prog, s, p + 7, Rbx);
    var s2 := StepClear(prog, s1, p + 8, R8);
    var s3 := StepClear(prog, s2, p + 9, R9);
  }

  /** Up to the table fills. */
  lemma Starts(prog: Program, p: nat, bc: nat, tc: nat, s: State)
    requires Embedded(prog, p, Opening(bc, tc)) && s.ok && s.pc == p && Get(s, Sp) >= 48
    ensures var e := Run(prog, s, 10); var sp := Get(s, Sp);
      && Entered(s, e) && e.ok && e.pc == p + 10 && e.log == s.log && Get(e, Rbx) == 0 && Get(e, R9) == 0 && Get(e, Rdi) == Get(s, Rdi)
      && Get(e, Rsi) == Get(s, Rsi) && Get(e, Rdx) == Get(s, Rdx) && Get(e, Rcx) == Get(s, Rcx) && AgreeOutside(s.mem, e.mem, sp - 48, sp)
    ensures Outcomes(prog, s, 10) == []
  {
    hide Run, Step, Get, Embedded, Opening, Pushes, AgreeOutside, InFrame, Saves, Changes, Saved, Changed, Plain, Resolve, Agree,
      Outcomes, NoTransfers, Falling;
    PartsFall(prog, bc, tc);
    TextFalls(prog, p, Opening(bc, tc));
    BlockOutcomes(prog, s, 10);
    OpeningParts(prog, p, bc, tc);
    Lists();
    TopLine(prog, p, IndirectTop(bc, tc));
    var s1 := StepMark(prog, s, p);
    RunSingle(prog, s);
    EnterRuns(prog, p + 1, s1, Saves(), Changes());
    var s2 := Run(prog, s1, 6);
    ClearsRun(prog, p, s2, bc, tc);
    RunAdd(prog, s1, 6, 3);
    RunAdd(prog, s, 1, 9);
    Framed(s, s1, s2, Run(prog, s2, 3));
  }

  lemma PartsFall(prog: Program, bc: nat, tc: nat)
    ensures Falling(prog, Opening(bc, tc)) && Falling(prog, Pops(Saves()))
  {
    hide Saves;
  }

  lemma Framed(s: State, s1: State, s2: State, e: State)
    requires InFrame(s1, s2, Saves(), Changes()) && (forall r :: Get(s1, r) == Get(s, r)) && s1.mem == s.mem
    requires e.ok && e.mem == s2.mem && forall r :: r != Rbx && r != R8 && r != R9 ==> Get(e, r) == Get(s2, r)
    ensures Entered(s, e)
  {
    hide Get, Changes, Saves, Load64;
    Lists();
  }

  lemma TargetsDefined(prog: Program, p: nat, bc: nat, tc: nat, b: nat)
    requires Embedded(prog, p, Concat(BlockAll(bc, tc, bc))) && b < bc && |prog| < TWO64
    ensures Defined(prog, bc, tc, b)
  {
    hide Embedded, Block, Concat, Resolve;
    var pieces := BlockAll(bc, tc, bc);
    PieceAt(prog, p, pieces, b);
    assert pieces[b] == Block(bc, tc, b);
    var at := p + |Concat(pieces[..b])|;
    BlockParts(prog, at, bc, tc, b);
    forall t {:trigger IndirectTarget(bc, tc, b, t)} | 0 <= t < tc
      ensures Resolve(prog, IndirectTarget(bc, tc, b, t)).Some?
    {
      IndirectBlock.TargetLine(prog, at + 9 + |Concat(HistPieces(bc, tc, b, HISTORY_BITS))|, bc, tc, b, t);
    }
  }

  lemma AllDefined(prog: Program, p: nat, bc: nat, tc: nat)
    requires Embedded(prog, p, Concat(BlockAll(bc, tc, bc))) && |prog| < TWO64
    ensures forall b :: 0 <= b < bc ==> Defined(prog, bc, tc, b)
  {
    hide Embedded, BlockAll, Concat, Defined;
    forall b | 0 <= b < bc
      ensures Defined(prog, bc, tc, b)
    {
      TargetsDefined(prog, p, bc, tc, b);
    }
  }

  lemma WholeFill(bc: nat, tc: nat)
    ensures FillAll(bc, tc, bc)[..bc] == FillAll(bc, tc, bc)
  {
  }

  /** A call with n iterations: the arguments, and the tables placed apart from inputs, frame and return address. */
  ghost predicate Callable(s: State, x: Tables, bc: nat, tc: nat, len: nat, n: nat) {
    && s.ok && Get(s, Sp) >= 48 && Get(s, Sp) + 8 < TWO64 && IndirectRiscv.Sizes(bc, tc, len) && 1 <= n <= TWO64
    && WellPlaced(x, bc, tc, len, Get(s, Sp) - 48, Get(s, Sp) + 8) && Inputs(s.mem, x, bc, len)
    && Get(s, Rdi) == Wrap(n) && Get(s, Rsi) == x.selArr && Get(s, Rdx) == len && Get(s, Rcx) == x.tableArr
  }

  /** The inputs survive the pushes. */
  lemma InputsPushed(s: State, m: Memory, x: Tables, bc: nat, tc: nat, len: nat)
    requires Get(s, Sp) >= 48 && WellPlaced(x, bc, tc, len, Get(s, Sp) - 48, Get(s, Sp) + 8) && Inputs(s.mem, x, bc, len)
    requires AgreeOutside(s.mem, m, Get(s, Sp) - 48, Get(s, Sp))
    ensures Inputs(m, x, bc, len)
  {
    hide Get, Inputs, ByteAt;
    var lo: nat := Get(s, Sp) - 48;
    assert Outside(x, len, lo, 56);
    assert AgreeOutside(s.mem, m, lo, lo + 56);
    InputsKept(s.mem, m, x, bc, len, lo, 56);
  }

  /** The state on entering the loop for the first time. */
  lemma Fills(prog: Program, p: nat, x: Tables, bc: nat, tc: nat, len: nat, n: nat, s: State) returns (k: nat)
    requires Embedded(prog, p, Fn(bc, tc)) && |prog| < TWO64 && s.pc == p && Callable(s, x, bc, tc, len, n)
    ensures var e := Run(prog, s, k);
      && Looping(prog, e, x, bc, tc, len) && e.pc == LoopLine(p, bc, tc) && e.log == s.log
      && Get(e, Rbx) == 0 && Get(e, Rdi) == Wrap(n) && Entered(s, e)
    ensures Outcomes(prog, s, k) == [] && k == 12 + bc * (3 * tc + 3)
  {
    hide Outcomes, Run, Get, Embedded, Fn, Concat, FillAll, Opening, LoopHead, BlockAll, Tail, Ending, Inputs, AgreeOutside, Defined, WellPlaced,
      FilledUpTo, Looping, Entered, Wrap, Resolve;
    FnParts(prog, p, bc, tc);
    Starts(prog, p, bc, tc, s);
    var s1 := Run(prog, s, 10);
    InputsPushed(s, s1.mem, x, bc, tc, len);
    AllDefined(prog, p + 14 + |Concat(FillAll(bc, tc, bc))|, bc, tc);
    var k1 := FillAllRuns(prog, p + 10, x, bc, tc, len, Get(s, Sp) - 48, Get(s, Sp) + 8, bc, s1);
    WholeFill(bc, tc);
    var s2 := Run(prog, s1, k1);
    FilledOk(prog, s1, s2, x, bc, tc, len, Get(s, Sp) - 48, Get(s, Sp) + 8);
    IndexClears(prog, s2, bc, tc);
    FilledLoops(prog, s, s1, s2, Run(prog, s2, 2), x, bc, tc, len);
    RunAdd(prog, s1, k1, 2);
    RunAdd(prog, s, 10, k1 + 2);
    FillAllOutcomes(prog, s1, bc, tc);
    FillsLength(bc, tc);
    OutcomesAdd(prog, s1, k1, 2);
    OutcomesAdd(prog, s, 10, k1 + 2);
    k := 10 + (k1 + 2);
  }

  /** Every fill has three lines for each target and three around them. */
  lemma FillsLength(bc: nat, tc: nat)
    ensures |Concat(FillAll(bc, tc, bc))| == bc * (3 * tc + 3)
  {
    hide Concat, FillOne;
    forall b | 0 <= b < bc
      ensures |FillAll(bc, tc, bc)[b]| == 3 * tc + 3
    {
      ConcatLength(FillPieces(bc, tc, b, tc), 3);
    }
    ConcatLength(FillAll(bc, tc, bc), 3 * tc + 3);
  }

  lemma FilledOk(prog: Program, s: State, e: State, x: Tables, bc: nat, tc: nat, len: nat, lo: nat, hi: nat)
    requires |x.tables| == bc && FilledUpTo(prog, s, e, x, bc, tc, len, lo, hi, bc)
    ensures e.ok && e.log == s.log && Get(e, Rbx) == 0
  {
  }

  /** The two indices are cleared in front of the loop's label. */
  lemma IndexClears(prog: Program, s: State, bc: nat, tc: nat)
    requires Embedded(prog, s.pc, LoopHead(bc, tc)) && s.ok
    ensures var e := Run(prog, s, 2);
      && e.ok && e.pc == s.pc + 2 && e.mem == s.mem && e.log == s.log && Get(e, R9) == 0 && Get(e, R8) == 0
      && forall r :: r != R8 && r != R9 ==> Get(e, r) == Get(s, r)
    ensures Outcomes(prog, s, 2) == []
  {
    hide Outcomes, LoopHead, Step, Get, Embedded, Resolve;
    HeadLines(prog, s.pc, bc, tc);
    var s1 := StepClear(prog, s, s.pc, R8);
    var s2 := StepClear(prog, s1, s.pc + 1, R9);
    RunSingle(prog, s);
    RunOneMore(prog, s, 1);
    BlockOutcomes(prog, s, 2);
  }

  lemma FilledLoops(prog: Program, s: State, s1: State, s2: State, e: State, x: Tables, bc: nat, tc: nat, len: nat)
    requires Entered(s, s1) && |x.tables| == bc && Get(s, Sp) >= 48
    requires FilledUpTo(prog, s1, s2, x, bc, tc, len, Get(s, Sp) - 48, Get(s, Sp) + 8, bc)
    requires e.ok && e.mem == s2.mem && Get(e, R9) == 0 && Get(e, R8) == 0 && forall r :: r != R8 && r != R9 ==> Get(e, r) == Get(s2, r)
    requires Get(s1, Rsi) == x.selArr && Get(s1, Rdx) == len && Get(s1, Rcx) == x.tableArr
    ensures Looping(prog, e, x, bc, tc, len) && Entered(s, e) && Get(e, Rbx) == 0 && Get(e, Rdi) == Get(s1, Rdi)
  {
    hide Get, Inputs, TablesFilled, Agree, Entered;
    StillEntered(s, s1, e);
  }

  lemma LoopEntered(s: State, s1: State, e: State)
    requires Entered(s, s1) && Looped(s1, e)
    ensures Entered(s, e) && Get(e, R8) == Get(s1, R8)
  {
    hide Get, Entered, Agree;
    UsedIsListed();
    EnteredSp(s, s1);
    AgreeSelf(e.mem, Get(s, Sp) - 48, Get(s, Sp) + 8);
    StillEntered(s, s1, e);
  }

  lemma EnteredSp(s: State, e: State)
    requires Entered(s, e)
    ensures Get(s, Sp) >= 48 && e.ok
  {
    hide Get, Stacked, Load64;
  }

  lemma UsedIsListed()
    ensures (forall r :: Used(r) ==> Saved(r) || Changed(r)) && !Used(R8)
  {
  }

  /** The result register, the pops and the return. */
  lemma Leaves(prog: Program, p: nat, bc: nat, tc: nat, s: State, e: State)
    requires Embedded(prog, p, Tail(bc, tc)) && Embedded(prog, p + 6, Ending()) && Entered(s, e) && e.pc == p + 5 && Get(s, Sp) + 8 < TWO64
    ensures var e' := Run(prog, e, 8); var to := Load64(s.mem, Get(s, Sp));
      && e'.ok && e'.pc == to && Get(e', Sp) == Get(s, Sp) + 8 && (forall r :: !Changed(r) && r != Sp ==> Get(e', r) == Get(s, r))
      && e'.mem == e.mem && e'.log == e.log + [Returned(to)] && Get(e', Rax) == Get(e, R8)
    ensures Outcomes(prog, e, 8) == []
  {
    hide Outcomes, Run, Get, Embedded, Tail, Pops, Saves, Changes, Plain, InFrame, Entered, Load64;
    ResultRuns(prog, p, bc, tc, s, e);
    var e1 := Run(prog, e, 1);
    EnteredIs(s, e1);
    Lists();
    LeaveRuns(prog, p + 6, s, e1, Saves(), Changes());
    RunAdd(prog, e, 1, 7);
    EnteredSp(s, e);
    LeavesOutcomes(prog, p, bc, tc, e);
  }

  /** Nothing branches at the end of a function. */
  lemma LeavesOutcomes(prog: Program, p: nat, bc: nat, tc: nat, s: State)
    requires Embedded(prog, p, Tail(bc, tc)) && Embedded(prog, p + 6, Ending()) && s.ok && s.pc == p + 5
    ensures Outcomes(prog, s, 8) == []
  {
    hide Run, Embedded, Tail, Ending, Outcomes;
    TailLines(prog, p, bc, tc);
    EndingFalls(prog, p + 6);
    BlockStraight(prog, s, 7);
    BlockOutcomes(prog, s, 7);
    OutcomesOne(prog, Run(prog, s, 7));
    OutcomesAdd(prog, s, 7, 1);
  }

  lemma EndingFalls(prog: Program, p: nat)
    requires Embedded(prog, p, Ending())
    ensures NoTransfers(prog, p, 6) && p + 6 < |prog| && prog[p + 6] == Op(ReturnPop)
  {
    hide Embedded, Pops, Falling, Saves;
    var last: Program := [Op(ReturnPop)];
    assert Ending() == [] + Pops(Saves()) + last;
    EmbedThree(prog, p, [], Pops(Saves()), last);
    PartsFall(prog, 0, 0);
    TextFalls(prog, p, Pops(Saves()));
    EmbedLines(prog, p + 6, last);
    assert last[0].Op?;
  }

  lemma ResultRuns(prog: Program, p: nat, bc: nat, tc: nat, s: State, e: State)
    requires Embedded(prog, p, Tail(bc, tc)) && Entered(s, e) && e.pc == p + 5
    ensures var e' := Run(prog, e, 1); Entered(s, e') && e'.ok && e'.pc == p + 6 && e'.mem == e.mem && e'.log == e.log && Get(e', Rax) == Get(e, R8)
  {
    hide Run, Step, Get, Embedded, Tail, Entered, Agree;
    TailLines(prog, p, bc, tc);
    EnteredSp(s, e);
    var e1 := StepAddI(prog, e, p + 5, Rax, R8, 0, Get(e, R8));
    RunSingle(prog, e);
    AgreeSelf(e.mem, Get(s, Sp) - 48, Get(s, Sp) + 8);
    StillEntered(s, e, e1);
  }

  lemma EnteredIs(s: State, e: State)
    requires Entered(s, e)
    ensures InFrame(s, e, Saves(), Changes())
  {
    hide InFrame;
  }

  /** The function for bc branches and tc targets, called with n iterations. */
  lemma FunctionRuns(prog: Program, p: nat, x: Tables, bc: nat, tc: nat, len: nat, n: nat, s: State) returns (k: nat)
    requires Embedded(prog, p, Fn(bc, tc)) && |prog| < TWO64 && s.pc == p && Callable(s, x, bc, tc, len, n)
    ensures Shaped(x, bc, len)
    ensures var e := Run(prog, s, k); var to := Load64(s.mem, Get(s, Sp));
      && e.ok && e.pc == to && Get(e, Sp) == Get(s, Sp) + 8 && (forall r :: !Changed(r) && r != Sp ==> Get(e, r) == Get(s, r))
      && Get(e, Rax) == 0 && TablesFilled(prog, e.mem, x, bc, tc, bc)
      && e.log == s.log + Jumps(prog, x, bc, tc, len, 0, n) + [Returned(to)]
    ensures Outcomes(prog, s, k) == History(x, bc, len, 0, n, true)
    ensures k == 20 + bc * (3 * tc + 3) + AllLines(x, bc, tc, len, 0, n, true)
  {
    hide AllLines, Outcomes, History, Run, Get, Embedded, Fn, Concat, FillAll, Opening, LoopHead, BlockAll, Tail, Ending, Inputs, WellPlaced, TablesFilled, Jumps,
      Looping, Entered, Wrap, Load64, Resolve;
    var lo, hi := Get(s, Sp) - 48, Get(s, Sp) + 8;
    TablesHave(x, bc, tc, len, lo, hi);
    FnParts(prog, p, bc, tc);
    var k1 := Fills(prog, p, x, bc, tc, len, n, s);
    var s1 := Run(prog, s, k1);
    IndirectRiscv.ModZero(len);
    var k2 := IterationsRun(prog, p, x, bc, tc, len, lo, hi, 0, n, s1);
    var s2 := Run(prog, s1, k2);
    LoopingHas(prog, s1, x, bc, tc, len);
    LoopEntered(s, s1, s2);
    Leaves(prog, ExitLine(p, bc, tc) - 5, bc, tc, s, s2);
    RunAdd(prog, s1, k2, 8);
    RunAdd(prog, s, k1, k2 + 8);
    OutcomesAdd(prog, s1, k2, 8);
    OutcomesAdd(prog, s, k1, k2 + 8);
    k := k1 + (k2 + 8);
  }

  lemma LoopingHas(prog: Program, s: State, x: Tables, bc: nat, tc: nat, len: nat)
    requires Looping(prog, s, x, bc, tc, len)
    ensures |x.tables| == bc && TablesFilled(prog, s.mem, x, bc, tc, bc) && Get(s, R8) == 0
  {
    hide TableHas;
  }

  // ----- the listing

  ghost predicate OfFunction(labels: set<Symbol>, bc: nat, tc: nat) {
    forall x :: x in labels ==>
      (x.IndirectTop? || x.IndirectLoop? || x.IndirectTarget? || x.IndirectHist?) && x.branches == bc && x.targets == tc
  }

  lemma HistsUnique(bc: nat, tc: nat, b: nat, n: nat)
    ensures var h := Concat(HistPieces(bc, tc, b, n)); UniqueLabels(h) && IndirectListing.OnlyHists(LabelsIn(h), bc, tc, b)
  {
    hide UniqueLabels, LabelsIn, Concat;
    var pieces := HistPieces(bc, tc, b, n);
    forall g | 0 <= g < n
      ensures UniqueLabels(pieces[g]) && LabelsIn(pieces[g]) == {IndirectHist(bc, tc, b, g)}
    {
      SingleLabel(Hist(bc, tc, b, g), 3, IndirectHist(bc, tc, b, g));
    }
    ConcatUnique(pieces);
  }

  lemma BlockUnique(bc: nat, tc: nat, b: nat)
    ensures UniqueLabels(Block(bc, tc, b)) && IndirectListing.OfBlock(LabelsIn(Block(bc, tc, b)), bc, tc, b)
  {
    hide UniqueLabels, LabelsIn, Lookup, HistPieces, Jump, Rv.TargetPieces, Concat;
    var l, h, j, t := Lookup(), Concat(HistPieces(bc, tc, b, HISTORY_BITS)), Jump(), Concat(Rv.TargetPieces(bc, tc, b, tc));
    PiecesUnlabelled(bc, tc);
    UnlabelledUnique(l);
    UnlabelledUnique(j);
    HistsUnique(bc, tc, b, HISTORY_BITS);
    IndirectListing.TargetsUnique(bc, tc, b, tc);
    LabelsAppend(l, h);
    UniqueAppend(l, h);
    LabelsAppend(l + h, j);
    UniqueAppend(l + h, j);
    LabelsAppend(l + h + j, t);
    UniqueAppend(l + h + j, t);
  }

  lemma PiecesUnlabelled(bc: nat, tc: nat)
    ensures Unlabelled(Lookup()) && Unlabelled(Jump()) && Unlabelled(Tail(bc, tc)) && Unlabelled(Ending())
  {
    hide Saves;
  }

  lemma BlocksUnique(bc: nat, tc: nat, n: nat)
    ensures var h := Concat(BlockAll(bc, tc, n));
      UniqueLabels(h) && forall x :: x in LabelsIn(h) ==>
        (x.IndirectTarget? || x.IndirectHist?) && x.branches == bc && x.targets == tc
  {
    hide UniqueLabels, LabelsIn, Concat, Block;
    var pieces := BlockAll(bc, tc, n);
    forall b | 0 <= b < n
      ensures UniqueLabels(pieces[b]) && IndirectListing.OfBlock(LabelsIn(pieces[b]), bc, tc, b)
    {
      BlockUnique(bc, tc, b);
    }
    ConcatUnique(pieces);
  }

  lemma FillsUnlabelled(bc: nat, tc: nat)
    ensures Unlabelled(Concat(FillAll(bc, tc, bc)))
  {
    var pieces := FillAll(bc, tc, bc);
    forall b | 0 <= b < bc
      ensures Unlabelled(pieces[b])
    {
      UnlabelledConcat(FillPieces(bc, tc, b, tc));
    }
    UnlabelledConcat(pieces);
  }

  lemma FnUnique(bc: nat, tc: nat)
    ensures UniqueLabels(Fn(bc, tc)) && OfFunction(LabelsIn(Fn(bc, tc)), bc, tc)
  {
    hide UniqueLabels, LabelsIn, Opening, FillAll, LoopHead, BlockAll, Tail, Ending, Concat;
    var o, f, h := Opening(bc, tc), Concat(FillAll(bc, tc, bc)), LoopHead(bc, tc);
    var b, r := Concat(BlockAll(bc, tc, bc)), Tail(bc, tc) + Ending();
    OpeningUnique(bc, tc);
    PiecesUnlabelled(bc, tc);
    FillsUnlabelled(bc, tc);
    UnlabelledUnique(f);
    UnlabelledUnique(r);
    BlocksUnique(bc, tc, bc);
    LabelsAppend(o, f);
    UniqueAppend(o, f);
    LabelsAppend(o + f, h);
    UniqueAppend(o + f, h);
    LabelsAppend(o + f + h, b);
    UniqueAppend(o + f + h, b);
    LabelsAppend(o + f + h + b, r);
    UniqueAppend(o + f + h + b, r);
    assert Fn(bc, tc) == o + f + h + b + r;
  }

  lemma OpeningUnique(bc: nat, tc: nat)
    ensures UniqueLabels(Opening(bc, tc)) && LabelsIn(Opening(bc, tc)) == {IndirectTop(bc, tc)}
    ensures UniqueLabels(LoopHead(bc, tc)) && LabelsIn(LoopHead(bc, tc)) == {IndirectLoop(bc, tc)}
  {
    hide Saves;
    SingleLabel(Opening(bc, tc), 0, IndirectTop(bc, tc));
    SingleLabel(LoopHead(bc, tc), 2, IndirectLoop(bc, tc));
  }

  ghost predicate OfRow(labels: set<Symbol>, tc: nat) {
    forall x :: x in labels ==> (x.IndirectTop? || x.IndirectLoop? || x.IndirectTarget? || x.IndirectHist?) && x.targets == tc
  }

  lemma RowUnique(bcs: seq<nat>, tc: nat)
    requires Distinct(bcs)
    ensures var r := Concat(RowPieces(bcs, tc)); UniqueLabels(r) && OfRow(LabelsIn(r), tc)
  {
    hide UniqueLabels, LabelsIn, Concat, Fn;
    var pieces := RowPieces(bcs, tc);
    forall i | 0 <= i < |bcs|
      ensures UniqueLabels(pieces[i]) && OfFunction(LabelsIn(pieces[i]), bcs[i], tc)
    {
      FnUnique(bcs[i], tc);
    }
    ConcatUnique(pieces);
  }

  lemma TextUnique(bcs: seq<nat>, tcs: seq<nat>)
    requires Distinct(bcs) && Distinct(tcs)
    ensures UniqueLabels(Text(bcs, tcs))
  {
    hide UniqueLabels, LabelsIn, Concat, RowPieces;
    var pieces := Rows(bcs, tcs);
    forall j | 0 <= j < |tcs|
      ensures UniqueLabels(pieces[j]) && OfRow(LabelsIn(pieces[j]), tcs[j])
    {
      RowUnique(bcs, tcs[j]);
    }
    ConcatUnique(pieces);
  }

  lemma Found(bcs: seq<nat>, tcs: seq<nat>, bc: nat, tc: nat) returns (p: nat)
    requires Distinct(bcs) && Distinct(tcs) && bc in bcs && tc in tcs
    ensures Embedded(Text(bcs, tcs), p, Fn(bc, tc))
  {
    hide UniqueLabels, Concat, Embedded, Fn;
    var i :| 0 <= i < |bcs| && bcs[i] == bc;
    var j :| 0 <= j < |tcs| && tcs[j] == tc;
    var prog := Text(bcs, tcs);
    TextUnique(bcs, tcs);
    assert At(prog, 0, prog);
    EmbedUnique(prog, 0, prog);
    PieceAt(prog, 0, Rows(bcs, tcs), j);
    var at := |Concat(Rows(bcs, tcs)[..j])|;
    PieceAt(prog, at, RowPieces(bcs, tc), i);
    assert RowPieces(bcs, tc)[i] == Fn(bc, tc);
    p := at + |Concat(RowPieces(bcs, tc)[..i])|;
  }

  lemma TopResolves(prog: Program, p: nat, bc: nat, tc: nat)
    requires Embedded(prog, p, Fn(bc, tc))
    ensures Resolve(prog, IndirectTop(bc, tc)) == Some(p)
  {
    hide Embedded, Resolve, Fn, Opening;
    FnParts(prog, p, bc, tc);
    OpeningParts(prog, p, bc, tc);
    TopLine(prog, p, IndirectTop(bc, tc));
  }

  lemma TargetsStand(prog: Program, p: nat, bc: nat, tc: nat)
    requires Embedded(prog, p, Fn(bc, tc))
    ensures TargetsApart(prog, bc, tc)
  {
    hide Embedded, Fn, Block, Concat, Resolve, LineOf;
    FnParts(prog, p, bc, tc);
    var at, pieces := p + 14 + |Concat(FillAll(bc, tc, bc))|, BlockAll(bc, tc, bc);
    forall b: nat, t: nat {:trigger IndirectTarget(bc, tc, b, t)} | b < bc && t < tc
      ensures var q := LineOf(prog, IndirectTarget(bc, tc, b, t)); q + 1 < |prog| && prog[q + 1] == Op(Nop)
    {
      PieceAt(prog, at, pieces, b);
      assert pieces[b] == Block(bc, tc, b);
      var here := at + |Concat(pieces[..b])|;
      BlockParts(prog, here, bc, tc, b);
      IndirectBlock.TargetLine(prog, here + 9 + |Concat(HistPieces(bc, tc, b, HISTORY_BITS))|, bc, tc, b, t);
    }
  }

  /** The x86 listing for any lists of distinct branch and target counts. A call with n iterations (zero standing for
      2^64) on selection arrays of any length len >= 1 whose entries name targets returns zero to the address on the
      stack with the registers callers keep as before; table b's entry t is the address of label (b, t); and it
      makes bc*n indirect jumps, those of iteration k going, branch by branch in order, to the labels that the
      selection arrays name at position k mod len: the jumps of the RISC-V program. The conditional branches on its
      way are those of the RISC-V program too, except that each jump is preceded by seven, one per low bit. The last
      clause counts every line the call passes. */
  lemma IndirectBranchTest(bcs: seq<nat>, tcs: seq<nat>, x: Tables, bc: nat, tc: nat, len: nat, n: nat, s: State) returns (k: nat)
    requires Distinct(bcs) && Distinct(tcs) && bc in bcs && tc in tcs && |Text(bcs, tcs)| < TWO64
    requires Resolve(Text(bcs, tcs), IndirectTop(bc, tc)) == Some(s.pc) && Callable(s, x, bc, tc, len, n)
    ensures Shaped(x, bc, len)
    ensures var prog := Text(bcs, tcs); var e := Run(prog, s, k); var to := Load64(s.mem, Get(s, Sp));
      && e.ok && e.pc == to && Get(e, Sp) == Get(s, Sp) + 8 && (forall r :: !Changed(r) && r != Sp ==> Get(e, r) == Get(s, r))
      && Get(e, Rax) == 0 && TablesFilled(prog, e.mem, x, bc, tc, bc) && TargetsApart(prog, bc, tc)
      && e.log == s.log + Jumps(prog, x, bc, tc, len, 0, n) + [Returned(to)]
      && |Jumps(prog, x, bc, tc, len, 0, n)| == bc * n
    ensures var h := Outcomes(Text(bcs, tcs), s, k); h == History(x, bc, len, 0, n, true) && Taken(h) == AllOnes(x, bc, len, 0, n, true)
    ensures k == 20 + bc * (3 * tc + 3) + AllLines(x, bc, tc, len, 0, n, true)
  {
    hide AllLines, Outcomes, History, Taken, AllOnes, TargetsApart, Run, Get, Fn, Embedded, Text, TablesFilled, Jumps, Callable, Resolve, Load64, Changed;
    var prog := Text(bcs, tcs);
    var p := Found(bcs, tcs, bc, tc);
    TopResolves(prog, p, bc, tc);
    TargetsStand(prog, p, bc, tc);
    k := FunctionRuns(prog, p, x, bc, tc, len, n, s);
    CallableLength(s, x, bc, tc, len, n);
    JumpsCount(prog, x, bc, tc, len, 0, n);
    HistoryTaken(x, bc, len, 0, n, true);
  }

  lemma CallableLength(s: State, x: Tables, bc: nat, tc: nat, len: nat, n: nat)
    requires Callable(s, x, bc, tc, len, n)
    ensures len >= 1
  {
  }
}
