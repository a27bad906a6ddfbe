/** The RISC-V indirect-branch test as text: table fills, branch blocks with fall-through targets, and a
    branchless wrap of the pattern position. */
module IndirectText {
  import opened Words
  import opened Listing
  import opened Machine
  import opened Symbols
  import opened Riscv
  import opened RiscvFrame

  const HISTORY_BITS := 4

  /** Stores the address of one target label into the current jump table. */
  function FillOne(bc: nat, tc: nat, b: nat, t: nat): (p: Program)
    ensures |p| == 5
  {
    [ Op(La(T1, IndirectTarget(bc, tc, b, t))),
      Op(Slli(T4, T5, 3)),
      Op(Add(T4, T6, T4)),
      Op(Sd(T1, 0, T4)),
      Op(Addi(T5, T5, 1))]
  }

  function FillStart(): (p: Program)
    ensures |p| == 4
  {
    [Op(Slli(T5, T3, 3)), Op(Add(T5, A3, T5)), Op(Ld(T6, 0, T5)), Op(Li(T5, 0))]
  }

  function FillEnd(): (p: Program)
    ensures |p| == 2
  {
    [Op(Xor(T5, T5, T5)), Op(Addi(T3, T3, 1))]
  }

  function FillPieces(bc: nat, tc: nat, b: nat, n: nat): (r: seq<Program>)
    ensures |r| == n
  {
    seq(n, t requires 0 <= t < n => FillOne(bc, tc, b, t))
  }

  function Fill(bc: nat, tc: nat, b: nat): Program {
    FillStart() + Concat(FillPieces(bc, tc, b, tc)) + FillEnd()
  }

  function FillAll(bc: nat, tc: nat, n: nat): (r: seq<Program>)
    ensures |r| == n
  {
    seq(n, b requires 0 <= b < n => Fill(bc, tc, b))
  }

  /** Reads the addresses of the current branch's jump table (t0) and selection array (t4). */
  function LookupPointers(): (p: Program)
    ensures |p| == 6
  {
    [ Op(Slli(T4, T3, 3)), Op(Add(T4, A3, T4)), Op(Ld(T0, 0, T4)),
      Op(Slli(T4, T3, 3)), Op(Add(T4, A1, T4)), Op(Ld(T4, 0, T4))]
  }

  /** Moves on to the next branch and reads the selection at the pattern position (t2). */
  function LookupPick(): (p: Program)
    ensures |p| == 4
  {
    [Op(Addi(T3, T3, 1)), Op(Slli(T1, T5, 2)), Op(Add(T1, T4, T1)), Op(Lw(T2, 0, T1))]
  }

  /** Reads the selected target's address (t6) and sets up the history bits. */
  function LookupTarget(): (p: Program)
    ensures |p| == 5
  {
    [Op(Slli(T1, T2, 3)), Op(Add(T1, T0, T1)), Op(Ld(T6, 0, T1)), Op(Li(S1, 1)), Op(Xor(S2, S2, S2))]
  }

  function Lookup(): (p: Program)
    ensures |p| == 15
  {
    LookupPointers() + LookupPick() + LookupTarget()
  }

  /** A conditional branch on one bit of the target index; both outcomes meet at its label. */
  function Hist(bc: nat, tc: nat, b: nat, g: nat): (p: Program)
    ensures |p| == 5
  {
    [ Op(And(S2, T2, S1)),
      Op(Bnez(S2, IndirectHist(bc, tc, b, g))),
      Op(Nop),
      Label(IndirectHist(bc, tc, b, g)),
      Op(Slli(S1, S1, 1))]
  }

  function HistPieces(bc: nat, tc: nat, b: nat, n: nat): (r: seq<Program>)
    ensures |r| == n
  {
    seq(n, g requires 0 <= g < n => Hist(bc, tc, b, g))
  }

  function Jump(): (p: Program)
    ensures |p| == 2
  {
    [Op(Jr(T6)), Op(Nop)]
  }

  function Target(bc: nat, tc: nat, b: nat, t: nat): (p: Program)
    ensures |p| == 2
  {
    [Label(IndirectTarget(bc, tc, b, t)), Op(Nop)]
  }

  function TargetPieces(bc: nat, tc: nat, b: nat, n: nat): (r: seq<Program>)
    ensures |r| == n
  {
    seq(n, t requires 0 <= t < n => Target(bc, tc, b, t))
  }

  function Block(bc: nat, tc: nat, b: nat): Program {
    Lookup() + Concat(HistPieces(bc, tc, b, HISTORY_BITS)) + Jump() + Concat(TargetPieces(bc, tc, b, tc))
  }

  function BlockAll(bc: nat, tc: nat, n: nat): (r: seq<Program>)
    ensures |r| == n
  {
    seq(n, b requires 0 <= b < n => Block(bc, tc, b))
  }

  function LoopHead(bc: nat, tc: nat): (p: Program)
    ensures |p| == 2
  {
    [Label(IndirectLoop(bc, tc)), Op(Xor(T3, T3, T3))]
  }

  /** Advances the pattern position, back to zero at the pattern's end, and counts the iteration. */
  function Tail(bc: nat, tc: nat): (p: Program)
    ensures |p| == 9
  {
    [ Op(Addi(T5, T5, 1)),
      Op(Xor(T1, T5, A2)),
      Op(Seqz(T1, T1)),
      Op(Sub(T1, Zero, T1)),
      Op(Xori(T1, T1, -1)),
      Op(And(T5, T5, T1)),
      Op(Addi(A0, A0, -1)),
      Op(Bnez(A0, IndirectLoop(bc, tc))),
      Op(Mv(A0, S0))]
  }

  function Opening(bc: nat, tc: nat): (p: Program)
    ensures |p| == 20
  {
    [Label(IndirectTop(bc, tc))] + Prologue()
  }

  function Fn(bc: nat, tc: nat): Program {
    Opening(bc, tc) + Concat(FillAll(bc, tc, bc)) + LoopHead(bc, tc) + Concat(BlockAll(bc, tc, bc)) + Tail(bc, tc) + Epilogue()
  }

  /** The functions for target count tc and the first branch counts, in the order of the inner loop. */
  function Row(bcs: seq<nat>, tc: nat): Program {
    if bcs == [] then [] else Row(bcs[..|bcs| - 1], tc) + Fn(bcs[|bcs| - 1], tc)
  }

  function Text(bcs: seq<nat>, tcs: seq<nat>): Program {
    if tcs == [] then [] else Text(bcs, tcs[..|tcs| - 1]) + Row(bcs, tcs[|tcs| - 1])
  }

  // ----- the generator

  method GenerateRiscvAsm(sb: StringBuilder<Instr>, branchCounts: seq<nat>, targetCounts: seq<nat>)
    modifies sb
    ensures sb.lines == old(sb.lines) + Text(branchCounts, targetCounts)
  {
    hide Row;
    for targetCountIdx := 0 to |targetCounts|
      invariant sb.lines == old(sb.lines) + Text(branchCounts, targetCounts[..targetCountIdx])
    {
      GenerateRow(sb, branchCounts, targetCounts[targetCountIdx]);
      assert targetCounts[..targetCountIdx + 1][..targetCountIdx] == targetCounts[..targetCountIdx];
    }
    assert targetCounts[..|targetCounts|] == targetCounts;
  }

  method GenerateRow(sb: StringBuilder<Instr>, branchCounts: seq<nat>, targetCount: nat)
    modifies sb
    ensures sb.lines == old(sb.lines) + Row(branchCounts, targetCount)
  {
    hide Fn;
    for branchCountIdx := 0 to |branchCounts|
      invariant sb.lines == old(sb.lines) + Row(branchCounts[..branchCountIdx], targetCount)
    {
      GenerateFunction(sb, branchCounts[branchCountIdx], targetCount);
      assert branchCounts[..branchCountIdx + 1][..branchCountIdx] == branchCounts[..branchCountIdx];
    }
    assert branchCounts[..|branchCounts|] == branchCounts;
  }

  method GenerateFunction(sb: StringBuilder<Instr>, bc: nat, tc: nat)
    modifies sb
    ensures sb.lines == old(sb.lines) + Fn(bc, tc)
  {
    hide Opening, LoopHead, Tail, Epilogue, FillAll, BlockAll, Concat;
    sb.AppendLines(Opening(bc, tc));
    GenerateFills(sb, bc, tc);
    sb.AppendLines(LoopHead(bc, tc));
    GenerateBlocks(sb, bc, tc);
    sb.AppendLines(Tail(bc, tc));
    sb.AppendLines(Epilogue());
  }

  method GenerateFills(sb: StringBuilder<Instr>, bc: nat, tc: nat)
    modifies sb
    ensures sb.lines == old(sb.lines) + Concat(FillAll(bc, tc, bc))
  {
    hide Fill;
    assert FillAll(bc, tc, 0) == [];
    for b := 0 to bc
      invariant sb.lines == old(sb.lines) + Concat(FillAll(bc, tc, b))
    {
      GenerateFill(sb, bc, tc, b);
      assert FillAll(bc, tc, b + 1) == FillAll(bc, tc, b) + [Fill(bc, tc, b)];
      ConcatOne(FillAll(bc, tc, b), Fill(bc, tc, b));
    }
  }

  method GenerateBlocks(sb: StringBuilder<Instr>, bc: nat, tc: nat)
    modifies sb
    ensures sb.lines == old(sb.lines) + Concat(BlockAll(bc, tc, bc))
  {
    hide Block;
    assert BlockAll(bc, tc, 0) == [];
    for b := 0 to bc
      invariant sb.lines == old(sb.lines) + Concat(BlockAll(bc, tc, b))
    {
      GenerateBlock(sb, bc, tc, b);
      assert BlockAll(bc, tc, b + 1) == BlockAll(bc, tc, b) + [Block(bc, tc, b)];
      ConcatOne(BlockAll(bc, tc, b), Block(bc, tc, b));
    }
  }

  method GenerateFill(sb: StringBuilder<Instr>, bc: nat, tc: nat, b: nat)
    modifies sb
    ensures sb.lines == old(sb.lines) + Fill(bc, tc, b)
  {
    hide FillStart, FillOne, FillEnd;
    sb.AppendLines(FillStart());
    ghost var before := sb.lines;
    assert FillPieces(bc, tc, b, 0) == [];
    for t := 0 to tc
      invariant sb.lines == before + Concat(FillPieces(bc, tc, b, t))
    {
      sb.AppendLines(FillOne(bc, tc, b, t));
      assert FillPieces(bc, tc, b, t + 1) == FillPieces(bc, tc, b, t) + [FillOne(bc, tc, b, t)];
      ConcatOne(FillPieces(bc, tc, b, t), FillOne(bc, tc, b, t));
    }
    sb.AppendLines(FillEnd());
  }

  method GenerateBlock(sb: StringBuilder<Instr>, bc: nat, tc: nat, b: nat)
    modifies sb
    ensures sb.lines == old(sb.lines) + Block(bc, tc, b)
  {
    hide Lookup, Jump, HistPieces, TargetPieces, Concat;
    sb.AppendLines(Lookup());
    GenerateHists(sb, bc, tc, b);
    sb.AppendLines(Jump());
    GenerateTargets(sb, bc, tc, b);
  }

  method GenerateHists(sb: StringBuilder<Instr>, bc: nat, tc: nat, b: nat)
    modifies sb
    ensures sb.lines == old(sb.lines) + Concat(HistPieces(bc, tc, b, HISTORY_BITS))
  {
    hide Hist;
    assert HistPieces(bc, tc, b, 0) == [];
    for g := 0 to HISTORY_BITS
      invariant sb.lines == old(sb.lines) + Concat(HistPieces(bc, tc, b, g))
    {
      sb.AppendLines(Hist(bc, tc, b, g));
      assert HistPieces(bc, tc, b, g + 1) == HistPieces(bc, tc, b, g) + [Hist(bc, tc, b, g)];
      ConcatOne(HistPieces(bc, tc, b, g), Hist(bc, tc, b, g));
    }
  }

  method GenerateTargets(sb: StringBuilder<Instr>, bc: nat, tc: nat, b: nat)
    modifies sb
    ensures sb.lines == old(sb.lines) + Concat(TargetPieces(bc, tc, b, tc))
  {
    hide Target;
    assert TargetPieces(bc, tc, b, 0) == [];
    for t := 0 to tc
      invariant sb.lines == old(sb.lines) + Concat(TargetPieces(bc, tc, b, t))
    {
      sb.AppendLines(Target(bc, tc, b, t));
      assert TargetPieces(bc, tc, b, t + 1) == TargetPieces(bc, tc, b, t) + [Target(bc, tc, b, t)];
      ConcatOne(TargetPieces(bc, tc, b, t), Target(bc, tc, b, t));
    }
  }
}
