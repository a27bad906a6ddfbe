/** The branch-history test as text, for three instruction sets: a row of conditional branches on array
    elements, and a branchless wrap of the pointer at the end of the array. */
module BranchHistText {
  import opened Words
  import opened Listing
  import opened Machine
  import opened Symbols
  import Riscv
  import X86
  import X86Stack
  import RiscvFrame

  datatype Arch = RiscV | Aarch64 | X64

  /** The pointer into the array, the element last read, the sum, the iterations left, the array's two ends. */
  function Ptr(v: Arch): Reg { match v case RiscV => T1 case Aarch64 => X16 case X64 => R11 }
  function Datum(v: Arch): Reg { match v case RiscV => T3 case Aarch64 => X13 case X64 => Rax }
  function Tally(v: Arch): Reg { match v case RiscV => T0 case Aarch64 => X12 case X64 => R8 }
  function Left(v: Arch): Reg { match v case RiscV => A0 case Aarch64 => X0 case X64 => Rdi }
  function First(v: Arch): Reg { match v case RiscV => A1 case Aarch64 => X1 case X64 => Rsi }
  function Last(v: Arch): Reg { match v case RiscV => A2 case Aarch64 => X2 case X64 => Rdx }

  function BlockSize(v: Arch): nat { if v == X64 then 6 else 5 }

  /** Branch j: read an element, and count it or jump over the count. */
  function Block(v: Arch, count: nat, j: nat): (p: Program)
    ensures |p| == BlockSize(v)
  {
    var z := BranchZero(count, j);
    match v
    case RiscV =>
      [ Op(Riscv.Lw(T3, 0, T1)),
        Op(Riscv.Addi(T1, T1, 4)),
        Op(Riscv.Bnez(T3, z)),
        Op(Riscv.Addi(T0, T0, 1)),
        Label(z)]
    case Aarch64 =>
      [ Op(Load(X13, Half, Address(X16, I(0), By1, 0))),
        Op(Alu(X16, Plus, R(X16), I(4), false)),
        Op(Branch(IfNonzero(X13), z)),
        Op(Alu(X12, Plus, R(X12), I(1), false)),
        Label(z)]
    case X64 =>
      [ Op(Load(Rax, Half, Address(R11, I(0), By1, 0))),
        Op(Alu(R11, Plus, R(R11), I(4), true)),
        Op(Compare(Conj, R(Rax), R(Rax))),
        Op(X86.Je(z)),
        Op(X86.Inc(R8)),
        Label(z)]
  }

  function Blocks(v: Arch, count: nat, n: nat): (r: seq<Program>)
    ensures |r| == n
  {
    seq(n, j requires 0 <= j < n => Block(v, count, j))
  }

  function WrapSize(v: Arch): nat { if v == RiscV then 5 else 2 }

  /** Back to the start of the array at its end, without a branch. */
  function WrapLines(v: Arch): (p: Program)
    ensures |p| == WrapSize(v)
  {
    match v
    case RiscV =>
      [ Op(Riscv.Sltu(T2, T1, A2)),
        Op(Riscv.Sub(T2, Zero, T2)),
        Op(Riscv.Xor(T1, T1, A1)),
        Op(Riscv.And(T1, T1, T2)),
        Op(Riscv.Xor(T1, T1, A1))]
    case Aarch64 =>
      [ Op(Compare(Minus, R(X16), R(X2))), Op(Select(X16, X1, X16))]
    case X64 =>
      [ Op(Compare(Minus, R(Rdx), R(R11))), Op(Select(R11, Rsi, R11))]
  }

  function CountLines(v: Arch, count: nat): (p: Program)
    ensures |p| == 2
  {
    match v
    case RiscV => [Op(Riscv.Addi(A0, A0, -1)), Op(Riscv.Bnez(A0, BranchLoop(count)))]
    case Aarch64 => [Op(Alu(X0, Minus, R(X0), I(1), false)), Op(Branch(IfNonzero(X0), BranchLoop(count)))]
    case X64 => [Op(X86.Dec(Rdi)), Op(X86.Jne(BranchLoop(count)))]
  }

  function Loop(v: Arch, count: nat): Program {
    [Label(BranchLoop(count))] + Concat(Blocks(v, count, count)) + WrapLines(v) + CountLines(v, count)
  }

  function OpeningSize(v: Arch): nat { match v case RiscV => 21 case Aarch64 => 14 case X64 => 8 }

  function Opening(v: Arch, count: nat): (p: Program)
    ensures |p| == OpeningSize(v)
  {
    match v
    case RiscV => [Label(BranchTop(count))] + RiscvFrame.Prologue() + [Op(Riscv.Mv(T1, A1))]
    case Aarch64 => [Label(BranchTop(count))] + ArmSaves() + ArmClears()
    case X64 => [Label(BranchTop(count))] + X86Stack.Pushes(X64Saves()) + X64Clears()
  }

  function X64Saves(): (r: seq<Reg>)
    ensures |r| == 3
  {
    [Rbx, R8, R9]
  }

  function X64Clears(): (p: Program)
    ensures |p| == 4
  {
    [Op(X86.XorRR(Rbx, Rbx)), Op(X86.XorRR(R8, R8)), Op(X86.XorRR(R9, R9)), Op(X86.MovRR(Rsi, R11))]
  }

  /** A pair store or load is two lines, the first register at the lower address. */
  function ArmSaves(): (p: Program)
    ensures |p| == 7
  {
    [ Op(Alu(Sp, Minus, R(Sp), I(0x40), false)),
      Op(Store(X11, Address(Sp, I(0), By1, 0x30))), Op(Store(X12, Address(Sp, I(0), By1, 0x38))),
      Op(Store(X15, Address(Sp, I(0), By1, 0x20))), Op(Store(X16, Address(Sp, I(0), By1, 0x28))),
      Op(Store(X13, Address(Sp, I(0), By1, 0x10))), Op(Store(X14, Address(Sp, I(0), By1, 0x18)))]
  }

  function ArmClears(): (p: Program)
    ensures |p| == 6
  {
    [ Op(Alu(X16, ExOr, R(X16), R(X16), false)), Op(Alu(X15, ExOr, R(X15), R(X15), false)),
      Op(Alu(X12, ExOr, R(X12), R(X12), false)), Op(Alu(X11, ExOr, R(X11), R(X11), false)),
      Op(Alu(X14, ExOr, R(X14), R(X14), false)), Op(Alu(X16, Plus, R(X1), I(0), false))]
  }

  function Ending(v: Arch): Program {
    match v
    case RiscV => [Op(Riscv.Mv(A0, T0))] + RiscvFrame.Epilogue()
    case Aarch64 =>
      [ Op(Alu(X0, Plus, R(X12), I(0), false)),
        Op(Load(X11, Full, Address(Sp, I(0), By1, 0x30))), Op(Load(X12, Full, Address(Sp, I(0), By1, 0x38))),
        Op(Load(X15, Full, Address(Sp, I(0), By1, 0x20))), Op(Load(X16, Full, Address(Sp, I(0), By1, 0x28))),
        Op(Load(X13, Full, Address(Sp, I(0), By1, 0x10))), Op(Load(X14, Full, Address(Sp, I(0), By1, 0x18))),
        Op(Alu(Sp, Plus, R(Sp), I(0x40), false)), Op(ReturnLink(X30))]
    case X64 => [Op(X86.MovRR(R8, Rax))] + (X86Stack.Pops(X64Saves()) + [Op(ReturnPop)])
  }

  function Fn(v: Arch, count: nat): Program {
    Opening(v, count) + Loop(v, count) + Ending(v)
  }

  function Functions(v: Arch, counts: seq<nat>): (r: seq<Program>)
    ensures |r| == |counts|
  {
    seq(|counts|, i requires 0 <= i < |counts| => Fn(v, counts[i]))
  }

  function Text(v: Arch, counts: seq<nat>): Program {
    Concat(Functions(v, counts))
  }

  // ----- the generators

  /** GenerateRiscvAsm, GenerateArmAsm and GenerateX86GccAsm, which have the same two loops. */
  method GenerateAsm(v: Arch, sb: StringBuilder<Instr>, branchCounts: seq<nat>)
    modifies sb
    ensures sb.lines == old(sb.lines) + Text(v, branchCounts)
  {
    hide Fn, Concat;
    assert Functions(v, branchCounts[..0]) == [];
    NoPieces<Instr>();
    for i := 0 to |branchCounts|
      invariant sb.lines == old(sb.lines) + Concat(Functions(v, branchCounts[..i]))
    {
      GenerateFunction(v, sb, branchCounts[i]);
      assert Functions(v, branchCounts[..i + 1]) == Functions(v, branchCounts[..i]) + [Fn(v, branchCounts[i])];
      ConcatOne(Functions(v, branchCounts[..i]), Fn(v, branchCounts[i]));
    }
    assert branchCounts[..|branchCounts|] == branchCounts;
  }

  method GenerateFunction(v: Arch, sb: StringBuilder<Instr>, count: nat)
    modifies sb
    ensures sb.lines == old(sb.lines) + Fn(v, count)
  {
    hide Opening, Concat, Blocks, WrapLines, CountLines, Ending;
    sb.AppendLines(Opening(v, count));
    sb.AppendLine(Label(BranchLoop(count)));
    GenerateBlocks(v, sb, count);
    sb.AppendLines(WrapLines(v));
    sb.AppendLines(CountLines(v, count));
    sb.AppendLines(Ending(v));
  }

  method GenerateBlocks(v: Arch, sb: StringBuilder<Instr>, count: nat)
    modifies sb
    ensures sb.lines == old(sb.lines) + Concat(Blocks(v, count, count))
  {
    hide Block;
    assert Blocks(v, count, 0) == [];
    for branchCount := 0 to count
      invariant sb.lines == old(sb.lines) + Concat(Blocks(v, count, branchCount))
    {
      sb.AppendLines(Block(v, count, branchCount));
      assert Blocks(v, count, branchCount + 1) == Blocks(v, count, branchCount) + [Block(v, count, branchCount)];
      ConcatOne(Blocks(v, count, branchCount), Block(v, count, branchCount));
    }
  }

  // ----- every label is defined once

  ghost predicate OfFunction(labels: set<Symbol>, count: nat) {
    forall x :: x in labels ==> (x.BranchTop? || x.BranchLoop? || x.BranchZero?) && x.count == count
  }

  lemma BlocksUnique(v: Arch, count: nat, n: nat)
    ensures var b := Concat(Blocks(v, count, n));
      UniqueLabels(b) && forall x :: x in LabelsIn(b) ==> x.BranchZero? && x.count == count
  {
    hide UniqueLabels, LabelsIn, Concat;
    var pieces := Blocks(v, count, n);
    forall j | 0 <= j < n
      ensures UniqueLabels(pieces[j]) && LabelsIn(pieces[j]) == {BranchZero(count, j)}
    {
      SingleLabel(Block(v, count, j), BlockSize(v) - 1, BranchZero(count, j));
    }
    ConcatUnique(pieces);
  }

  lemma EndsUnique(v: Arch, count: nat)
    ensures UniqueLabels(Opening(v, count)) && LabelsIn(Opening(v, count)) == {BranchTop(count)}
    ensures Unlabelled(WrapLines(v)) && Unlabelled(CountLines(v, count)) && Unlabelled(Ending(v))
  {
    SingleLabel(Opening(v, count), 0, BranchTop(count));
  }

  lemma FnUnique(v: Arch, count: nat)
    ensures UniqueLabels(Fn(v, count)) && OfFunction(LabelsIn(Fn(v, count)), count)
  {
    hide UniqueLabels, LabelsIn, Opening, Blocks, Concat, WrapLines, CountLines, Ending;
    var o, h: Program, b := Opening(v, count), [Label(BranchLoop(count))], Concat(Blocks(v, count, count));
    var r := WrapLines(v) + CountLines(v, count) + Ending(v);
    EndsUnique(v, count);
    UnlabelledUnique(r);
    SingleLabel(h, 0, BranchLoop(count));
    BlocksUnique(v, count, count);
    LabelsAppend(o, h);
    UniqueAppend(o, h);
    LabelsAppend(o + h, b);
    UniqueAppend(o + h, b);
    LabelsAppend(o + h + b, r);
    UniqueAppend(o + h + b, r);
    assert Fn(v, count) == o + h + b + r;
  }

  lemma TextUnique(v: Arch, counts: seq<nat>)
    requires Distinct(counts)
    ensures UniqueLabels(Text(v, counts))
  {
    hide UniqueLabels, LabelsIn, Concat, Fn;
    var pieces := Functions(v, counts);
    forall i | 0 <= i < |counts|
      ensures UniqueLabels(pieces[i]) && OfFunction(LabelsIn(pieces[i]), counts[i])
    {
      FnUnique(v, counts[i]);
    }
    ConcatUnique(pieces);
  }

  lemma Found(v: Arch, counts: seq<nat>, count: nat) returns (at: nat)
    requires Distinct(counts) && count in counts
    ensures Embedded(Text(v, counts), at, Fn(v, count))
  {
    hide UniqueLabels, Concat, Embedded, Fn;
    var i :| 0 <= i < |counts| && counts[i] == count;
    TextUnique(v, counts);
    assert At(Text(v, counts), 0, Text(v, counts));
    EmbedUnique(Text(v, counts), 0, Text(v, counts));
    var pieces := Functions(v, counts);
    PieceAt(Text(v, counts), 0, pieces, i);
    assert pieces[i] == Fn(v, count);
    at := |Concat(pieces[..i])|;
  }
}
