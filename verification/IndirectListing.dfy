/** The listing of the RISC-V indirect-branch test for all its branch and target counts. */
module IndirectListing {
  import opened Words
  import opened Listing
  import opened Machine
  import opened Symbols
  import opened RiscvFrame
  import opened IndirectText
  import opened JumpTables
  import opened IndirectRiscv
  import opened Trace
  import opened BranchBits
  import IndirectBlock

  // ----- every label is defined once

  ghost predicate OfFunction(labels: set<Symbol>, bc: nat, tc: nat) {
    forall x :: x in labels ==>
      (x.IndirectTop? || x.IndirectLoop? || x.IndirectTarget? || x.IndirectHist?) && x.branches == bc && x.targets == tc
  }

  /** Labels of branch b's block. */
  ghost predicate OfBlock(labels: set<Symbol>, bc: nat, tc: nat, b: nat) {
    forall x :: x in labels ==> (x.IndirectTarget? || x.IndirectHist?) && x.branches == bc && x.targets == tc && x.branch == b
  }

  ghost predicate OnlyHists(labels: set<Symbol>, bc: nat, tc: nat, b: nat) {
    forall x :: x in labels ==> x.IndirectHist? && x.branches == bc && x.targets == tc && x.branch == b
  }

  ghost predicate OnlyTargets(labels: set<Symbol>, bc: nat, tc: nat, b: nat) {
    forall x :: x in labels ==> x.IndirectTarget? && x.branches == bc && x.targets == tc && x.branch == b
  }

  lemma HistsUnique(bc: nat, tc: nat, b: nat, n: nat)
    ensures var h := Concat(HistPieces(bc, tc, b, n)); UniqueLabels(h) && OnlyHists(LabelsIn(h), bc, tc, b)
  {
    hide UniqueLabels, LabelsIn, Concat;
    var pieces := HistPieces(bc, tc, b, n);
    forall g | 0 <= g < n
      ensures UniqueLabels(pieces[g]) && LabelsIn(pieces[g]) == {IndirectHist(bc, tc, b, g)}
    {
      HistLabel(bc, tc, b, g);
    }
    ConcatUnique(pieces);
  }

  lemma HistLabel(bc: nat, tc: nat, b: nat, g: nat)
    ensures UniqueLabels(Hist(bc, tc, b, g)) && LabelsIn(Hist(bc, tc, b, g)) == {IndirectHist(bc, tc, b, g)}
  {
    SingleLabel(Hist(bc, tc, b, g), 3, IndirectHist(bc, tc, b, g));
  }

  lemma TargetsUnique(bc: nat, tc: nat, b: nat, n: nat)
    ensures var h := Concat(TargetPieces(bc, tc, b, n)); UniqueLabels(h) && OnlyTargets(LabelsIn(h), bc, tc, b)
  {
    hide UniqueLabels, LabelsIn, Concat;
    var pieces := TargetPieces(bc, tc, b, n);
    forall t | 0 <= t < n
      ensures UniqueLabels(pieces[t]) && LabelsIn(pieces[t]) == {IndirectTarget(bc, tc, b, t)}
    {
      SingleLabel(Target(bc, tc, b, t), 0, IndirectTarget(bc, tc, b, t));
    }
    ConcatUnique(pieces);
  }

  lemma BlockUnique(bc: nat, tc: nat, b: nat)
    ensures UniqueLabels(Block(bc, tc, b)) && OfBlock(LabelsIn(Block(bc, tc, b)), bc, tc, b)
  {
    hide UniqueLabels, LabelsIn, Lookup, HistPieces, Jump, TargetPieces, Concat;
    var l, h, j, t := Lookup(), Concat(HistPieces(bc, tc, b, HISTORY_BITS)), Jump(), Concat(TargetPieces(bc, tc, b, tc));
    LookupUnlabelled();
    UnlabelledUnique(l);
    UnlabelledUnique(j);
    HistsUnique(bc, tc, b, HISTORY_BITS);
    TargetsUnique(bc, tc, b, tc);
    LabelsAppend(l, h);
    UniqueAppend(l, h);
    LabelsAppend(l + h, j);
    UniqueAppend(l + h, j);
    LabelsAppend(l + h + j, t);
    UniqueAppend(l + h + j, t);
  }

  lemma LookupUnlabelled()
    ensures Unlabelled(Lookup()) && Unlabelled(Jump()) && Unlabelled(Epilogue()) && Unlabelled(Prologue())
  {
  }

  lemma BlocksUnique(bc: nat, tc: nat, n: nat)
    ensures var h := Concat(BlockAll(bc, tc, n));
      UniqueLabels(h) && forall x :: x in LabelsIn(h) ==>
        (x.IndirectTarget? || x.IndirectHist?) && x.branches == bc && x.targets == tc
  {
    hide UniqueLabels, LabelsIn, Concat, Block;
    var pieces := BlockAll(bc, tc, n);
    forall b | 0 <= b < n
      ensures UniqueLabels(pieces[b]) && OfBlock(LabelsIn(pieces[b]), bc, tc, b)
    {
      BlockUnique(bc, tc, b);
    }
    ConcatUnique(pieces);
  }

  lemma FillsUnlabelled(bc: nat, tc: nat)
    ensures Unlabelled(Concat(FillAll(bc, tc, bc)))
  {
    var pieces := FillAll(bc, tc, bc);
    forall b | 0 <= b < bc
      ensures Unlabelled(pieces[b])
    {
      UnlabelledConcat(FillPieces(bc, tc, b, tc));
    }
    UnlabelledConcat(pieces);
  }

  lemma OpeningUnique(bc: nat, tc: nat)
    ensures UniqueLabels(Opening(bc, tc)) && LabelsIn(Opening(bc, tc)) == {IndirectTop(bc, tc)}
    ensures UniqueLabels(LoopHead(bc, tc)) && LabelsIn(LoopHead(bc, tc)) == {IndirectLoop(bc, tc)}
    ensures Unlabelled(Tail(bc, tc))
  {
    hide Prologue;
    LookupUnlabelled();
    SingleLabel(Opening(bc, tc), 0, IndirectTop(bc, tc));
    SingleLabel(LoopHead(bc, tc), 0, IndirectLoop(bc, tc));
  }

  lemma FnUnique(bc: nat, tc: nat)
    ensures UniqueLabels(Fn(bc, tc)) && OfFunction(LabelsIn(Fn(bc, tc)), bc, tc)
  {
    hide UniqueLabels, LabelsIn, Opening, FillAll, LoopHead, BlockAll, Tail, Epilogue, Concat;
    var o, f, h := Opening(bc, tc), Concat(FillAll(bc, tc, bc)), LoopHead(bc, tc);
    var b, t, e := Concat(BlockAll(bc, tc, bc)), Tail(bc, tc), Epilogue();
    OpeningUnique(bc, tc);
    LookupUnlabelled();
    FillsUnlabelled(bc, tc);
    UnlabelledUnique(f);
    UnlabelledUnique(t);
    UnlabelledUnique(e);
    BlocksUnique(bc, tc, bc);
    LabelsAppend(o, f);
    UniqueAppend(o, f);
    LabelsAppend(o + f, h);
    UniqueAppend(o + f, h);
    LabelsAppend(o + f + h, b);
    UniqueAppend(o + f + h, b);
    LabelsAppend(o + f + h + b, t);
    UniqueAppend(o + f + h + b, t);
    LabelsAppend(o + f + h + b + t, e);
    UniqueAppend(o + f + h + b + t, e);
  }

  ghost predicate OfRow(labels: set<Symbol>, bcs: seq<nat>, tc: nat) {
    forall x :: x in labels ==>
      (x.IndirectTop? || x.IndirectLoop? || x.IndirectTarget? || x.IndirectHist?) && x.branches in bcs && x.targets == tc
  }

  ghost predicate OfText(labels: set<Symbol>, tcs: seq<nat>) {
    forall x :: x in labels ==>
      (x.IndirectTop? || x.IndirectLoop? || x.IndirectTarget? || x.IndirectHist?) && x.targets in tcs
  }

  lemma {:induction false} RowUnique(bcs: seq<nat>, tc: nat)
    requires Distinct(bcs)
    ensures UniqueLabels(Row(bcs, tc)) && OfRow(LabelsIn(Row(bcs, tc)), bcs, tc)
    decreases |bcs|
  {
    hide UniqueLabels, LabelsIn, Fn;
    if bcs == [] {
      Empty<Instr>();
    } else {
      var front, bc := bcs[..|bcs| - 1], bcs[|bcs| - 1];
      RowUnique(front, tc);
      FnUnique(bc, tc);
      LabelsAppend(Row(front, tc), Fn(bc, tc));
      UniqueAppend(Row(front, tc), Fn(bc, tc));
    }
  }

  lemma {:induction false} TextUnique(bcs: seq<nat>, tcs: seq<nat>)
    requires Distinct(bcs) && Distinct(tcs)
    ensures UniqueLabels(Text(bcs, tcs)) && OfText(LabelsIn(Text(bcs, tcs)), tcs)
    decreases |tcs|
  {
    hide UniqueLabels, LabelsIn, Row;
    if tcs == [] {
      Empty<Instr>();
    } else {
      var front, tc := tcs[..|tcs| - 1], tcs[|tcs| - 1];
      TextUnique(bcs, front);
      RowUnique(bcs, tc);
      LabelsAppend(Text(bcs, front), Row(bcs, tc));
      UniqueAppend(Text(bcs, front), Row(bcs, tc));
    }
  }

  // ----- where a function stands

  lemma AtPart(prog: Program, p: nat, a: Program, b: Program, q: nat, part: Program)
    requires prog == a + b && ((At(a, q, part) && p == q) || (At(b, q, part) && p == |a| + q))
    ensures At(prog, p, part)
  {
    assert prog[p..p + |part|] == part;
  }

  lemma {:induction false} FnInRow(bcs: seq<nat>, bc: nat, tc: nat) returns (p: nat)
    requires bc in bcs
    ensures At(Row(bcs, tc), p, Fn(bc, tc))
    decreases |bcs|
  {
    hide Fn, At;
    var front, last := bcs[..|bcs| - 1], bcs[|bcs| - 1];
    if last == bc {
      AtAll(Fn(bc, tc));
      p := |Row(front, tc)|;
      AtPart(Row(bcs, tc), p, Row(front, tc), Fn(last, tc), 0, Fn(bc, tc));
    } else {
      p := FnInRow(front, bc, tc);
      AtPart(Row(bcs, tc), p, Row(front, tc), Fn(last, tc), p, Fn(bc, tc));
    }
  }

  lemma AtAll(prog: Program)
    ensures At(prog, 0, prog)
  {
  }

  lemma {:induction false} FnInText(bcs: seq<nat>, tcs: seq<nat>, bc: nat, tc: nat) returns (p: nat)
    requires bc in bcs && tc in tcs
    ensures At(Text(bcs, tcs), p, Fn(bc, tc))
    decreases |tcs|
  {
    hide Fn, At, Row;
    var front, last := tcs[..|tcs| - 1], tcs[|tcs| - 1];
    if last == tc {
      var q := FnInRow(bcs, bc, tc);
      p := |Text(bcs, front)| + q;
      AtPart(Text(bcs, tcs), p, Text(bcs, front), Row(bcs, last), q, Fn(bc, tc));
    } else {
      p := FnInText(bcs, front, bc, tc);
      AtPart(Text(bcs, tcs), p, Text(bcs, front), Row(bcs, last), p, Fn(bc, tc));
    }
  }

  lemma TopResolves(prog: Program, p: nat, bc: nat, tc: nat)
    requires Embedded(prog, p, Fn(bc, tc))
    ensures Resolve(prog, IndirectTop(bc, tc)) == Some(p)
  {
    hide Embedded, Resolve, Fn, Prologue;
    FnParts(prog, p, bc, tc);
    EmbedLines(prog, p, Opening(bc, tc));
    assert Opening(bc, tc)[0].Label?;
  }

  lemma TargetsStand(prog: Program, p: nat, bc: nat, tc: nat)
    requires Embedded(prog, p, Fn(bc, tc))
    ensures TargetsApart(prog, bc, tc)
  {
    hide Embedded, Fn, Block, Concat, Resolve, LineOf;
    FnParts(prog, p, bc, tc);
    var at, pieces := p + 22 + |Concat(FillAll(bc, tc, bc))|, BlockAll(bc, tc, bc);
    forall b: nat, t: nat {:trigger IndirectTarget(bc, tc, b, t)} | b < bc && t < tc
      ensures var q := LineOf(prog, IndirectTarget(bc, tc, b, t)); q + 1 < |prog| && prog[q + 1] == Op(Nop)
    {
      PieceAt(prog, at, pieces, b);
      assert pieces[b] == Block(bc, tc, b);
      var here := at + |Concat(pieces[..b])|;
      IndirectBlock.BlockParts(prog, here, bc, tc, b);
      IndirectBlock.TargetLine(prog, here + 17 + |Concat(HistPieces(bc, tc, b, HISTORY_BITS))|, bc, tc, b, t);
    }
  }

  /** The listing for any lists of distinct branch and target counts. Calling the function for bc branches and
      tc targets with n iterations (zero standing for 2^64), selection arrays of any length len >= 1 whose
      entries name targets, and tables, inputs and stack frame that do not overlap: it returns to the
      caller with every register but a0, which takes the value of s0, as before; table b's entry t is the address of label (b, t), and no
      two of these addresses are the same; and
      it makes bc*n indirect jumps, those of iteration k going, branch by branch in order, to the labels
      that the selection arrays name at position k mod len. On its way it takes or passes exactly these
      conditional branches: before each jump one for each of the four low bits of the selection, lowest
      first, taken when the bit is one, and at the end of each iteration one that is taken but the last time. The last
      clause counts every line it passes: those of the fills and frame, and those of the blocks, where control falls
      through the targets behind the selected one. */
  lemma IndirectBranchTest(bcs: seq<nat>, tcs: seq<nat>, x: Tables, bc: nat, tc: nat, len: nat, n: nat, s: State) returns (k: nat)
    requires Distinct(bcs) && Distinct(tcs) && bc in bcs && tc in tcs && |Text(bcs, tcs)| < TWO64
    requires Sizes(bc, tc, len) && 1 <= n <= TWO64
    requires s.ok && Resolve(Text(bcs, tcs), IndirectTop(bc, tc)) == Some(s.pc) && Get(s, Sp) >= 80 && s.low <= Get(s, Sp)
    requires WellPlaced(x, bc, tc, len, Get(s, Sp) - 80, Get(s, Sp)) && Inputs(s.mem, x, bc, len)
    requires Get(s, A0) == Wrap(n) && Get(s, A1) == x.selArr && Get(s, A2) == len && Get(s, A3) == x.tableArr
    ensures |x.tables| == |x.picks| == bc && forall b :: 0 <= b < bc ==> |x.picks[b]| == len
    ensures var prog := Text(bcs, tcs); var e := Run(prog, s, k);
      && e.ok && e.pc == Get(s, Ra) && (forall r :: r != A0 ==> Get(e, r) == Get(s, r))
      && Get(e, A0) == Get(s, S0) && TablesFilled(prog, e.mem, x, bc, tc, bc) && TargetsApart(prog, bc, tc)
      && e.log == s.log + Jumps(prog, x, bc, tc, len, 0, n) + [Returned(Get(s, Ra))]
      && |Jumps(prog, x, bc, tc, len, 0, n)| == bc * n
    ensures var h := Outcomes(Text(bcs, tcs), s, k); h == History(x, bc, len, 0, n, false) && Taken(h) == AllOnes(x, bc, len, 0, n, false)
    ensures k == 32 + bc * (5 * tc + 6) + AllLines(x, bc, tc, len, 0, n, false)
  {
    hide AllLines, Outcomes, History, Taken, AllOnes, TargetsApart, Run, Step, Get, Fn, At, Embedded, UniqueLabels, LabelsIn, Text, TablesFilled, Jumps, Inputs, WellPlaced, Resolve;
    var prog := Text(bcs, tcs);
    TextUnique(bcs, tcs);
    var p := FnInText(bcs, tcs, bc, tc);
    EmbedUnique(prog, p, Fn(bc, tc));
    TopResolves(prog, p, bc, tc);
    TargetsStand(prog, p, bc, tc);
    k := FunctionRuns(prog, p, x, bc, tc, len, n, s);
    JumpsCount(prog, x, bc, tc, len, 0, n);
    HistoryTaken(x, bc, len, 0, n, false);
  }
}
