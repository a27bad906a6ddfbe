/** The x86 indirect-branch test as text. */
module IndirectX86Text {
  import opened Words
  import opened Listing
  import opened Machine
  import opened Symbols
  import opened X86Stack
  import X86
  import Rv = IndirectText

  const HISTORY_BITS := 7

  function Saves(): (r: seq<Reg>)
    ensures |r| == 6
  {
    [Rbx, R8, R9, R13, R15, R14]
  }

  function Opening(bc: nat, tc: nat): (p: Program)
    ensures |p| == 10
  {
    [Label(IndirectTop(bc, tc))] + Pushes(Saves()) + Clears()
  }

  function Clears(): (p: Program)
    ensures |p| == 3
  {
    [Op(X86.XorRR(Rbx, Rbx)), Op(X86.XorRR(R8, R8)), Op(X86.XorRR(R9, R9))]
  }

  /** Stores the address of one target label into the current jump table. */
  function FillOne(bc: nat, tc: nat, b: nat, t: nat): (p: Program)
    ensures |p| == 3
  {
    [ Op(LoadLabel(Rax, IndirectTarget(bc, tc, b, t))),
      Op(Store(Rax, Address(R15, R(Rbx), By8, 0))),
      Op(X86.Inc(Rbx))]
  }

  function FillStart(): (p: Program)
    ensures |p| == 1
  {
    [Op(Load(R15, Full, Address(Rcx, R(R9), By8, 0)))]
  }

  function FillEnd(): (p: Program)
    ensures |p| == 2
  {
    [Op(X86.XorRR(Rbx, Rbx)), Op(X86.Inc(R9))]
  }

  function FillPieces(bc: nat, tc: nat, b: nat, n: nat): (r: seq<Program>)
    ensures |r| == n
  {
    seq(n, t requires 0 <= t < n => FillOne(bc, tc, b, t))
  }

  function Fill(bc: nat, tc: nat, b: nat): Program {
    FillStart() + Concat(FillPieces(bc, tc, b, tc)) + FillEnd()
  }

  function FillAll(bc: nat, tc: nat, n: nat): (r: seq<Program>)
    ensures |r| == n
  {
    seq(n, b requires 0 <= b < n => Fill(bc, tc, b))
  }

  /** Clears the two indices, and the branch index again at the head of the loop. */
  function LoopHead(bc: nat, tc: nat): (p: Program)
    ensures |p| == 4
  {
    [Op(X86.XorRR(R8, R8)), Op(X86.XorRR(R9, R9)), Label(IndirectLoop(bc, tc)), Op(X86.XorRR(R11, R11))]
  }

  /** Reads the current branch's jump table (r15), selection (eax) and target address (r14). */
  function Lookup(): (p: Program)
    ensures |p| == 7
  {
    [ Op(Load(R15, Full, Address(Rcx, R(R11), By8, 0))),
      Op(Load(R10, Full, Address(Rsi, R(R11), By8, 0))),
      Op(X86.Inc(R11)),
      Op(Load(Rax, Half, Address(R10, R(Rbx), By4, 0))),
      Op(Load(R14, Full, Address(R15, R(Rax), By8, 0))),
      Op(X86.MovRR(Rsi, R13)),
      Op(X86.MovI(1, Rsi))]
  }

  /** A conditional branch on one bit of the target index; both outcomes meet at its label. */
  function Hist(bc: nat, tc: nat, b: nat, g: nat): (p: Program)
    ensures |p| == 5
  {
    [ Op(Compare(Conj32, R(Rsi), R(Rax))),
      Op(X86.Jne(IndirectHist(bc, tc, b, g))),
      Op(Nop),
      Label(IndirectHist(bc, tc, b, g)),
      Op(Alu(Rsi, Shl32, R(Rsi), I(1), true))]
  }

  function HistPieces(bc: nat, tc: nat, b: nat, n: nat): (r: seq<Program>)
    ensures |r| == n
  {
    seq(n, g requires 0 <= g < n => Hist(bc, tc, b, g))
  }

  function Jump(): (p: Program)
    ensures |p| == 2
  {
    [Op(X86.MovRR(R13, Rsi)), Op(JumpReg(R14))]
  }

  function Block(bc: nat, tc: nat, b: nat): Program {
    Lookup() + Concat(HistPieces(bc, tc, b, HISTORY_BITS)) + Jump() + Concat(Rv.TargetPieces(bc, tc, b, tc))
  }

  function BlockAll(bc: nat, tc: nat, n: nat): (r: seq<Program>)
    ensures |r| == n
  {
    seq(n, b requires 0 <= b < n => Block(bc, tc, b))
  }

  /** Advances the pattern position, back to zero at the pattern's end, and counts the iteration. */
  function Tail(bc: nat, tc: nat): (p: Program)
    ensures |p| == 6
  {
    [ Op(X86.Inc(Rbx)),
      Op(Compare(Minus, R(Rdx), R(Rbx))),
      Op(Select(Rbx, R9, Rbx)),
      Op(X86.Dec(Rdi)),
      Op(X86.Jne(IndirectLoop(bc, tc))),
      Op(X86.MovRR(R8, Rax))]
  }

  function Ending(): (p: Program)
    ensures |p| == 7
  {
    Pops(Saves()) + [Op(ReturnPop)]
  }

  function Fn(bc: nat, tc: nat): Program {
    Opening(bc, tc) + Concat(FillAll(bc, tc, bc)) + LoopHead(bc, tc) + Concat(BlockAll(bc, tc, bc)) + Tail(bc, tc) + Ending()
  }

  /** The functions for target count tc, in the order of the inner loop. */
  function RowPieces(bcs: seq<nat>, tc: nat): (r: seq<Program>)
    ensures |r| == |bcs|
  {
    seq(|bcs|, i requires 0 <= i < |bcs| => Fn(bcs[i], tc))
  }

  function Rows(bcs: seq<nat>, tcs: seq<nat>): (r: seq<Program>)
    ensures |r| == |tcs|
  {
    seq(|tcs|, j requires 0 <= j < |tcs| => Concat(RowPieces(bcs, tcs[j])))
  }

  function Text(bcs: seq<nat>, tcs: seq<nat>): Program {
    Concat(Rows(bcs, tcs))
  }

  // ----- the generator

  method GenerateX86GccAsm(sb: StringBuilder<Instr>, branchCounts: seq<nat>, targetCounts: seq<nat>)
    modifies sb
    ensures sb.lines == old(sb.lines) + Text(branchCounts, targetCounts)
  {
    hide RowPieces, Concat;
    assert Rows(branchCounts, targetCounts[..0]) == [];
    NoPieces<Instr>();
    for j := 0 to |targetCounts|
      invariant sb.lines == old(sb.lines) + Concat(Rows(branchCounts, targetCounts[..j]))
    {
      GenerateRow(sb, branchCounts, targetCounts[j]);
      var row := Concat(RowPieces(branchCounts, targetCounts[j]));
      assert Rows(branchCounts, targetCounts[..j + 1]) == Rows(branchCounts, targetCounts[..j]) + [row];
      ConcatOne(Rows(branchCounts, targetCounts[..j]), row);
    }
    assert targetCounts[..|targetCounts|] == targetCounts;
  }

  method GenerateRow(sb: StringBuilder<Instr>, branchCounts: seq<nat>, targetCount: nat)
    modifies sb
    ensures sb.lines == old(sb.lines) + Concat(RowPieces(branchCounts, targetCount))
  {
    hide Fn, Concat;
    assert RowPieces(branchCounts[..0], targetCount) == [];
    NoPieces<Instr>();
    for i := 0 to |branchCounts|
      invariant sb.lines == old(sb.lines) + Concat(RowPieces(branchCounts[..i], targetCount))
    {
      var bc := branchCounts[i];
      GenerateFunction(sb, bc, targetCount);
      assert RowPieces(branchCounts[..i + 1], targetCount) == RowPieces(branchCounts[..i], targetCount) + [Fn(bc, targetCount)];
      ConcatOne(RowPieces(branchCounts[..i], targetCount), Fn(bc, targetCount));
    }
    assert branchCounts[..|branchCounts|] == branchCounts;
  }

  method GenerateFunction(sb: StringBuilder<Instr>, bc: nat, tc: nat)
    modifies sb
    ensures sb.lines == old(sb.lines) + Fn(bc, tc)
  {
    hide Opening, LoopHead, Tail, Ending, FillAll, BlockAll, Concat;
    sb.AppendLines(Opening(bc, tc));
    GenerateFills(sb, bc, tc);
    sb.AppendLines(LoopHead(bc, tc));
    GenerateBlocks(sb, bc, tc);
    sb.AppendLines(Tail(bc, tc));
    sb.AppendLines(Ending());
  }

  method GenerateFills(sb: StringBuilder<Instr>, bc: nat, tc: nat)
    modifies sb
    ensures sb.lines == old(sb.lines) + Concat(FillAll(bc, tc, bc))
  {
    hide Fill;
    assert FillAll(bc, tc, 0) == [];
    for b := 0 to bc
      invariant sb.lines == old(sb.lines) + Concat(FillAll(bc, tc, b))
    {
      GenerateFill(sb, bc, tc, b);
      assert FillAll(bc, tc, b + 1) == FillAll(bc, tc, b) + [Fill(bc, tc, b)];
      ConcatOne(FillAll(bc, tc, b), Fill(bc, tc, b));
    }
  }

  method GenerateFill(sb: StringBuilder<Instr>, bc: nat, tc: nat, b: nat)
    modifies sb
    ensures sb.lines == old(sb.lines) + Fill(bc, tc, b)
  {
    hide FillStart, FillOne, FillEnd;
    sb.AppendLines(FillStart());
    ghost var before := sb.lines;
    assert FillPieces(bc, tc, b, 0) == [];
    for t := 0 to tc
      invariant sb.lines == before + Concat(FillPieces(bc, tc, b, t))
    {
      sb.AppendLines(FillOne(bc, tc, b, t));
      assert FillPieces(bc, tc, b, t + 1) == FillPieces(bc, tc, b, t) + [FillOne(bc, tc, b, t)];
      ConcatOne(FillPieces(bc, tc, b, t), FillOne(bc, tc, b, t));
    }
    sb.AppendLines(FillEnd());
  }

  method GenerateBlocks(sb: StringBuilder<Instr>, bc: nat, tc: nat)
    modifies sb
    ensures sb.lines == old(sb.lines) + Concat(BlockAll(bc, tc, bc))
  {
    hide Block;
    assert BlockAll(bc, tc, 0) == [];
    for b := 0 to bc
      invariant sb.lines == old(sb.lines) + Concat(BlockAll(bc, tc, b))
    {
      GenerateBlock(sb, bc, tc, b);
      assert BlockAll(bc, tc, b + 1) == BlockAll(bc, tc, b) + [Block(bc, tc, b)];
      ConcatOne(BlockAll(bc, tc, b), Block(bc, tc, b));
    }
  }

  method GenerateBlock(sb: StringBuilder<Instr>, bc: nat, tc: nat, b: nat)
    modifies sb
    ensures sb.lines == old(sb.lines) + Block(bc, tc, b)
  {
    hide Lookup, Jump, HistPieces, Rv.TargetPieces, Concat;
    sb.AppendLines(Lookup());
    GenerateHists(sb, bc, tc, b);
    sb.AppendLines(Jump());
    Rv.GenerateTargets(sb, bc, tc, b);
  }

  method GenerateHists(sb: StringBuilder<Instr>, bc: nat, tc: nat, b: nat)
    modifies sb
    ensures sb.lines == old(sb.lines) + Concat(HistPieces(bc, tc, b, HISTORY_BITS))
  {
    hide Hist;
    assert HistPieces(bc, tc, b, 0) == [];
    for g := 0 to HISTORY_BITS
      invariant sb.lines == old(sb.lines) + Concat(HistPieces(bc, tc, b, g))
    {
      sb.AppendLines(Hist(bc, tc, b, g));
      assert HistPieces(bc, tc, b, g + 1) == HistPieces(bc, tc, b, g) + [Hist(bc, tc, b, g)];
      ConcatOne(HistPieces(bc, tc, b, g), Hist(bc, tc, b, g));
    }
  }
}
