/** The blocked RISC-V tests: before the fillers a chain of divisions holds the loop up, and can hand them the address of
    the data in a register. */
module BlockedRiscv {
  import opened Words
  import opened Listing
  import opened Machine
  import opened Symbols
  import opened Trace
  import opened ThroughputText
  import opened ThroughputListing
  import opened ThroughputRun
  import RiscvFrame
  import opened Tally
  import ThroughputRiscv
  import Riscv

  function Divisions(n: nat): (p: Program)
    ensures |p| == n
  {
    seq(n, i => Op(Riscv.Divu(T0, T0, T1)))
  }

  function AddressLines(dest: Option<Reg>): Program {
    match dest
    case None => []
    case Some(r) => [Op(Riscv.Andi(T0, T0, 0)), Op(Riscv.Add(r, A1, T0))]
  }

  function DivBlocker(divCount: nat, dest: Option<Reg>): Program {
    [Op(Riscv.Li(T0, 1234567)), Op(Riscv.Li(T1, 3))] + Divisions(divCount) + AddressLines(dest)
  }

  method GenerateRiscvDivBlocker(divCount: nat, addressDestReg: Option<Reg>) returns (blocker: StringBuilder<Instr>)
    ensures fresh(blocker) && blocker.lines == DivBlocker(divCount, addressDestReg)
  {
    blocker := new StringBuilder();
    blocker.AppendLine(Op(Riscv.Li(T0, 1234567)));
    blocker.AppendLine(Op(Riscv.Li(T1, 3)));
    for i := 0 to divCount
      invariant fresh(blocker)
      invariant blocker.lines == [Op(Riscv.Li(T0, 1234567)), Op(Riscv.Li(T1, 3))] + Divisions(i)
    {
      blocker.AppendLine(Op(Riscv.Divu(T0, T0, T1)));
    }
    if addressDestReg.Some? {
      blocker.AppendLine(Op(Riscv.Andi(T0, T0, 0)));
      blocker.AppendLine(Op(Riscv.Add(addressDestReg.value, A1, T0)));
    }
  }

  function Blocked(prefix: string, fillers: seq<Program>, init: Program, divCount: nat, dest: Option<Reg>, fence: bool): Throughput {
    Throughput(prefix, init, Body(DivBlocker(divCount, dest), [], fillers, [], fence), false)
  }

  method GenerateRiscvAsmBlockedStructureTestFuncs(sb: StringBuilder<Instr>, counts: seq<nat>, prefix: string, fillerInstrs: seq<Program>,
                                                   init: Program, divCount: nat, addressDestReg: Option<Reg>, fence: bool)
    requires forall i :: 0 <= i < |counts| ==> Assigned(Blocked(prefix, fillerInstrs, init, divCount, addressDestReg, fence), counts[i])
    modifies sb
    ensures sb.lines == old(sb.lines) + Concat(Functions(Rv, Blocked(prefix, fillerInstrs, init, divCount, addressDestReg, fence), counts))
  {
    hide Concat, Functions, DivBlocker;
    var blocker := GenerateRiscvDivBlocker(divCount, addressDestReg);
    GenerateAsmThroughputTestFuncs(sb, Rv, counts,
      Throughput(prefix, init, Body(blocker.lines, [], fillerInstrs, [], fence), false));
  }

  // ----- what the blocker does

  /** The constants, the divisions and the two lines that make the address. */
  function InBlocker(divCount: nat, r: Reg, i: Instr): nat {
    One(i == Riscv.Li(T0, 1234567)) + One(i == Riscv.Li(T1, 3)) + (if i == Riscv.Divu(T0, T0, T1) then divCount else 0)
      + One(i == Riscv.Andi(T0, T0, 0)) + One(i == Riscv.Add(r, A1, T0))
  }

  lemma {:induction false} DivisionsOccur(n: nat, i: Instr)
    ensures Occurs(Divisions(n), i) == if i == Riscv.Divu(T0, T0, T1) then n else 0
    decreases n
  {
    if n != 0 {
      DivisionsOccur(n - 1, i);
      assert Divisions(n)[..n - 1] == Divisions(n - 1);
    }
  }

  /** What a blocker that hands over the address is made of. */
  lemma BlockerOccurs(divCount: nat, r: Reg, i: Instr)
    ensures Occurs(DivBlocker(divCount, Some(r)), i) == InBlocker(divCount, r, i)
  {
    hide Occurs, One, Divisions;
    var first: Program := [Op(Riscv.Li(T0, 1234567)), Op(Riscv.Li(T1, 3))];
    var last: Program := [Op(Riscv.Andi(T0, T0, 0)), Op(Riscv.Add(r, A1, T0))];
    TwoOccur(first[0], first[1], i);
    TwoOccur(last[0], last[1], i);
    DivisionsOccur(divCount, i);
    OccursAppend(first, Divisions(divCount), i);
    OccursAppend(first + Divisions(divCount), last, i);
    assert DivBlocker(divCount, Some(r)) == first + Divisions(divCount) + last;
  }

  /** The registers a blocker writes. */
  function Blocks(r: Reg): set<Reg> {
    {T0, T1, r}
  }

  lemma BlockerRespects(divCount: nat, r: Reg, w: set<Reg>, x: Places)
    requires Blocks(r) <= w
    ensures TextRespects(w, x, DivBlocker(divCount, Some(r)))
  {
    var text := DivBlocker(divCount, Some(r));
    assert T0 in Blocks(r) && T1 in Blocks(r) && r in Blocks(r);
    forall i | 0 <= i < |text|
      ensures text[i].Op? && Respects(w, x, text[i].instr)
    {
    }
  }

  lemma AddressLinesAt(prog: Program, p: nat, divCount: nat, r: Reg)
    requires Embedded(prog, p, DivBlocker(divCount, Some(r)))
    ensures var q := p + 2 + divCount;
      q + 2 <= |prog| && prog[q] == Op(Riscv.Andi(T0, T0, 0)) && prog[q + 1] == Op(Riscv.Add(r, A1, T0))
  {
    hide Embedded;
    var f := DivBlocker(divCount, Some(r));
    EmbedLines(prog, p, f);
    assert f[2 + divCount].Op? && f[2 + divCount + 1].Op?;
  }

  /** Whatever the divisions give, the last two lines leave the data's address in the register. */
  lemma AddressRuns(prog: Program, e: State, p: nat, divCount: nat, r: Reg)
    requires Embedded(prog, p, DivBlocker(divCount, Some(r))) && e.ok && e.pc == p + 2 + divCount && r != Zero
    ensures Get(Run(prog, e, 2), r) == Get(e, A1)
  {
    hide DivBlocker, Get, Step, Embedded;
    AddressLinesAt(prog, p, divCount, r);
    MaskNothing(Get(e, T0));
    var s1 := StepAlu(prog, e, e.pc, T0, Conj, R(T0), I(0), 0);
    var s2 := StepAdd(prog, s1, e.pc + 1, r, A1, T0, Get(e, A1));
    RunSingle(prog, e);
    RunOneMore(prog, e, 1);
  }

  /** The address register: a general one that neither the prologue's stack pointer, the arguments, the return address nor
      the divisions need. */
  predicate AddressReg(r: Reg) {
    r != Sp && r != Zero && r != A0 && r != A1 && r != Ra && r != T0 && r != T1
  }

  /** The loop of a blocked test whose fillers write registers in w and store at constant offsets from the address register. */
  ghost predicate BlockedLoop(w: set<Reg>, offsets: set<int>, prog: Program, p: nat, start: Symbol, fillers: seq<Program>, n: nat,
                              divCount: nat, r: Reg, fence: bool)
  {
    && (n > 0 ==> fillers != [])
    && Embedded(prog, p, CountedLoop(Rv, start, Body(DivBlocker(divCount, Some(r)), [], fillers, [], fence), n))
    && AddressReg(r) && Sp !in w && A0 !in w && A1 !in w && r !in w
    && forall i :: 0 <= i < |fillers| ==> TextRespects(w, AtOffsets(r, offsets), fillers[i])
  }

  lemma AnyRespects(w: set<Reg>, w': set<Reg>, x: Places, text: Program)
    requires TextRespects(w, x, text) && w <= w'
    ensures TextRespects(w', Anywhere, text)
  {
    forall i | 0 <= i < |text|
      ensures text[i].Op? && Respects(w', Anywhere, text[i].instr)
    {
    }
  }

  lemma NothingRespects(w: set<Reg>, x: Places)
    ensures TextRespects(w, x, [])
  {
  }

  /** The loop is an ordinary one that writes the fillers' registers and the blocker's. */
  lemma BlockedIsLoop(w: set<Reg>, offsets: set<int>, prog: Program, p: nat, start: Symbol, fillers: seq<Program>, n: nat,
                      divCount: nat, r: Reg, fence: bool)
    requires BlockedLoop(w, offsets, prog, p, start, fillers, n, divCount, r, fence)
    ensures LoopAt(Rv, w + Blocks(r), Anywhere, prog, p, start, Body(DivBlocker(divCount, Some(r)), [], fillers, [], fence), n)
    ensures Sp !in w + Blocks(r) && A0 !in w + Blocks(r) && A1 !in w + Blocks(r)
  {
    hide Embedded, CountedLoop, DivBlocker, TextRespects;
    BlockerRespects(divCount, r, w + Blocks(r), Anywhere);
    NothingRespects(w + Blocks(r), Anywhere);
    forall i | 0 <= i < |fillers|
      ensures TextRespects(w + Blocks(r), Anywhere, fillers[i])
    {
      AnyRespects(w, w + Blocks(r), AtOffsets(r, offsets), fillers[i]);
    }
  }

  /** Label and blocker, then fillers and fence, then the counter. */
  lemma LoopPieces(prog: Program, p: nat, start: Symbol, fillers: seq<Program>, n: nat, divCount: nat, r: Reg, fence: bool)
    requires n > 0 ==> fillers != []
    requires Embedded(prog, p, CountedLoop(Rv, start, Body(DivBlocker(divCount, Some(r)), [], fillers, [], fence), n))
    ensures var q := p + 5 + divCount; var c := Concat(Pieces(fillers, n)); var f := FenceLines(Rv, fence);
      && p < |prog| && prog[p].Label? && Resolve(prog, start) == Some(p) && Embedded(prog, p + 1, DivBlocker(divCount, Some(r)))
      && Embedded(prog, q, c) && Embedded(prog, q + |c|, f) && Embedded(prog, q + |c| + |f|, CountLines(Rv, start))
      && |CountedLoop(Rv, start, Body(DivBlocker(divCount, Some(r)), [], fillers, [], fence), n)| == 5 + divCount + |c| + |f| + 2
  {
    hide Embedded, CountedLoop, DivBlocker, Pieces, Concat, CountLines, FenceLines, Resolve;
    var b := Body(DivBlocker(divCount, Some(r)), [], fillers, [], fence);
    LoopParts(Rv, prog, p, start, b, n);
    WholePieces(b, n);
    BlockerLength(divCount, r);
  }

  lemma BlockedParts(w: set<Reg>, offsets: set<int>, prog: Program, p: nat, start: Symbol, fillers: seq<Program>, n: nat,
                     divCount: nat, r: Reg, fence: bool) returns (k: nat)
    requires (n > 0 ==> fillers != []) && BlockedLoop(w, offsets, prog, p, start, fillers, n, divCount, r, fence)
    ensures |CountedLoop(Rv, start, Body(DivBlocker(divCount, Some(r)), [], fillers, [], fence), n)| == 5 + divCount + k + 2
    ensures LinesRespect(prog, p, 5 + divCount, w + Blocks(r), AtOffsets(A1, {}))
    ensures Embedded(prog, p + 1, DivBlocker(divCount, Some(r)))
    ensures LinesRespect(prog, p + 5 + divCount, k, w, AtOffsets(r, offsets))
    ensures Embedded(prog, p + 5 + divCount + k, CountLines(Rv, start)) && Resolve(prog, start) == Some(p)
  {
    hide Embedded, CountedLoop, DivBlocker, TextRespects, LinesRespect, Pieces, Concat, CountLines, FenceLines, Resolve, Blocks;
    LoopPieces(prog, p, start, fillers, n, divCount, r, fence);
    BlockerBehind(w + Blocks(r), AtOffsets(A1, {}), prog, p, divCount, r);
    FillersBehind(w, AtOffsets(r, offsets), prog, p + 5 + divCount, fillers, n, fence);
    k := |Concat(Pieces(fillers, n))| + |FenceLines(Rv, fence)|;
  }

  lemma BlockerBehind(w: set<Reg>, x: Places, prog: Program, p: nat, divCount: nat, r: Reg)
    requires p < |prog| && prog[p].Label? && Embedded(prog, p + 1, DivBlocker(divCount, Some(r))) && Blocks(r) <= w
    ensures LinesRespect(prog, p, 5 + divCount, w, x)
  {
    hide Embedded, DivBlocker, TextRespects, LinesRespect;
    BlockerLength(divCount, r);
    LabelRespects(w, x, prog, p);
    BlockerRespects(divCount, r, w, x);
    TextLines(w, x, prog, p + 1, DivBlocker(divCount, Some(r)));
    LinesJoin(w, x, prog, p, 1, 4 + divCount);
  }

  lemma FillersBehind(w: set<Reg>, x: Places, prog: Program, q: nat, fillers: seq<Program>, n: nat, fence: bool)
    requires (n > 0 ==> fillers != []) && Embedded(prog, q, Concat(Pieces(fillers, n)))
    requires Embedded(prog, q + |Concat(Pieces(fillers, n))|, FenceLines(Rv, fence))
    requires forall i :: 0 <= i < |fillers| ==> TextRespects(w, x, fillers[i])
    ensures LinesRespect(prog, q, |Concat(Pieces(fillers, n))| + |FenceLines(Rv, fence)|, w, x)
  {
    hide Embedded, TextRespects, LinesRespect, Pieces, Concat, FenceLines;
    var c, f := Concat(Pieces(fillers, n)), FenceLines(Rv, fence);
    NothingRespects(w, x);
    FillersRespect(w, x, Body([], [], fillers, [], fence), n);
    FenceRespects(w, x, Rv, fence);
    TextLines(w, x, prog, q, c);
    TextLines(w, x, prog, q + |c|, f);
    LinesJoin(w, x, prog, q, |c|, |f|);
  }

  lemma BlockerLength(divCount: nat, r: Reg)
    ensures |DivBlocker(divCount, Some(r))| == 4 + divCount
  {
  }

  /** Nothing stored at all. */
  lemma NowhereApart(base: Word, lo: nat, hi: nat)
    ensures Apart({}, base, lo, hi)
  {
  }

  /** Up to the fillers nothing is stored, and the address register holds the data's address. */
  lemma BlockerRuns(w: set<Reg>, prog: Program, s: State, divCount: nat, r: Reg, lo: nat, hi: nat)
    requires s.ok && LinesRespect(prog, s.pc, 5 + divCount, w, AtOffsets(A1, {})) && Sp !in w && A1 !in w && r != Zero
    requires Embedded(prog, s.pc + 1, DivBlocker(divCount, Some(r)))
    ensures var e := Run(prog, s, 5 + divCount);
      && Straight(prog, s, 5 + divCount) && AlwaysSpares(prog, s, 5 + divCount, lo, hi) && Within(w, s, e)
      && e.pc == s.pc + 5 + divCount && Get(e, r) == Get(s, A1)
  {
    hide Run, Get, Embedded, DivBlocker, LinesRespect, Straight, AlwaysSpares, AlwaysWithin, Within, LinesStore, Apart;
    var x, k := AtOffsets(A1, {}), 3 + divCount;
    BlockRuns(w, x, prog, s, 5 + divCount);
    BlockAlways(w, x, prog, s, 5 + divCount);
    LinesRespectStore(prog, s.pc, 5 + divCount, w, x);
    NowhereApart(Get(s, A1), lo, hi);
    SparesAlongLine(w, prog, s, 5 + divCount, A1, {}, lo, hi);
    FewerRespect(prog, s.pc, k, 5 + divCount, w, x);
    BlockRuns(w, x, prog, s, k);
    var e := Run(prog, s, k);
    WithinKeeps(w, s, e, A1);
    AddressRuns(prog, e, s.pc + 1, divCount, r);
    RunAdd(prog, s, k, 2);
  }

  lemma FewerRespect(prog: Program, p: nat, k: nat, n: nat, w: set<Reg>, x: Places)
    requires k <= n && LinesRespect(prog, p, n, w, x)
    ensures LinesRespect(prog, p, k, w, x)
  {
    hide Respects;
  }

  /** The counter is not stored. */
  lemma CountSpares(prog: Program, s: State, start: Symbol, loop: nat, lo: nat, hi: nat)
    requires Embedded(prog, s.pc, CountLines(Rv, start)) && s.ok && Resolve(prog, start) == Some(loop)
    ensures AlwaysSpares(prog, s, 2, lo, hi)
  {
    hide Run, Get, Step, Embedded, CountLines, Resolve, ByteAt;
    CountLinesAt(Rv, prog, s.pc, start);
    RunNone(prog, s);
    RunSingle(prog, s);
    var s1 := StepAlu(prog, s, s.pc, A0, Plus, R(A0), I(-1), Wrap(Get(s, A0) - 1));
    var s2 := StepBranch(prog, s1, s.pc + 1, IfNonzero(A0), start, loop);
    forall j {:trigger Run(prog, s, j)} | 0 <= j < 2
      ensures Spares(prog, Run(prog, s, j), lo, hi)
    {
      assert j == 0 || j == 1;
    }
  }

  /** One iteration stores where the fillers do, and they have the data's address. */
  lemma IterationSpares(w: set<Reg>, offsets: set<int>, prog: Program, s: State, start: Symbol, fillers: seq<Program>, n: nat,
                        divCount: nat, r: Reg, fence: bool, lo: nat, hi: nat)
    requires (n > 0 ==> fillers != []) && BlockedLoop(w, offsets, prog, s.pc, start, fillers, n, divCount, r, fence) && s.ok
    requires Apart(offsets, Get(s, A1), lo, hi)
    ensures AlwaysSpares(prog, s, |CountedLoop(Rv, start, Body(DivBlocker(divCount, Some(r)), [], fillers, [], fence), n)|, lo, hi)
  {
    hide Run, Get, Embedded, CountedLoop, DivBlocker, LinesRespect, Straight, AlwaysSpares, AlwaysWithin, Within, LinesStore, Apart,
      CountLines, Resolve, TextRespects;
    var k := BlockedParts(w, offsets, prog, s.pc, start, fillers, n, divCount, r, fence);
    BlockedIsLoop(w, offsets, prog, s.pc, start, fillers, n, divCount, r, fence);
    BlockerRuns(w + Blocks(r), prog, s, divCount, r, lo, hi);
    var s1, x := Run(prog, s, 5 + divCount), AtOffsets(r, offsets);
    WithinOk(w + Blocks(r), s, s1);
    BlockRuns(w, x, prog, s1, k);
    BlockAlways(w, x, prog, s1, k);
    LinesRespectStore(prog, s1.pc, k, w, x);
    SparesAlongLine(w, prog, s1, k, r, offsets, lo, hi);
    var s2 := Run(prog, s1, k);
    WithinOk(w, s1, s2);
    CountSpares(prog, s2, start, s.pc, lo, hi);
    SparesAdd(prog, s1, k, 2, lo, hi);
    SparesAdd(prog, s, 5 + divCount, k + 2, lo, hi);
  }

  /** The same for m iterations. */
  lemma {:induction false} IterationsSpare(w: set<Reg>, offsets: set<int>, prog: Program, s: State, start: Symbol, fillers: seq<Program>,
                                           n: nat, divCount: nat, r: Reg, fence: bool, m: nat, steps: nat, lo: nat, hi: nat)
    requires n > 0 ==> fillers != []
    requires steps == m * |CountedLoop(Rv, start, Body(DivBlocker(divCount, Some(r)), [], fillers, [], fence), n)|
    requires BlockedLoop(w, offsets, prog, s.pc, start, fillers, n, divCount, r, fence) && s.ok
    requires Apart(offsets, Get(s, A1), lo, hi) && 1 <= m <= TWO64 && Get(s, A0) == Wrap(m)
    ensures AlwaysSpares(prog, s, steps, lo, hi)
    decreases m
  {
    hide Run, Get, CountedLoop, DivBlocker, Straight, AlwaysSpares, AlwaysWithin, Apart, BlockedLoop, LoopAt, Wrap;
    var size := |CountedLoop(Rv, start, Body(DivBlocker(divCount, Some(r)), [], fillers, [], fence), n)|;
    IterationSpares(w, offsets, prog, s, start, fillers, n, divCount, r, fence, lo, hi);
    FirstOf(m, size);
    if m > 1 {
      BlockedIsLoop(w, offsets, prog, s.pc, start, fillers, n, divCount, r, fence);
      IterationRuns(Rv, w + Blocks(r), Anywhere, prog, s, start, Body(DivBlocker(divCount, Some(r)), [], fillers, [], fence), n);
      CountDown(m);
      var s1 := Run(prog, s, size);
      AlwaysKept(w + Blocks(r) + {A0}, prog, s, size, A1);
      var rest := (m - 1) * size;
      IterationsSpare(w, offsets, prog, s1, start, fillers, n, divCount, r, fence, m - 1, rest, lo, hi);
      SparesAdd(prog, s, size, rest, lo, hi);
    }
  }

  lemma FirstOf(m: nat, size: nat)
    requires m >= 1
    ensures m * size == size + (m - 1) * size && (m - 1) * size >= 0 && 1 * size == size
  {
  }

  lemma AlwaysKept(w: set<Reg>, prog: Program, s: State, k: nat, r: Reg)
    requires AlwaysWithin(w, prog, s, k) && r !in w
    ensures Run(prog, s, k).ok && Get(Run(prog, s, k), r) == Get(s, r)
  {
    hide Run, Get, Within;
    WithinKeeps(w, s, Run(prog, s, k), r);
  }

  // ----- whole calls

  /** The texts of a blocked test write registers in w and store at constant offsets: before the loop from the data argument,
      in the fillers from the address register. */
  ghost predicate BlockedRespects(fillers: seq<Program>, init: Program, r: Reg, w: set<Reg>, offsets: set<int>) {
    && TextRespects(w, AtOffsets(A1, offsets), init) && AddressReg(r)
    && Sp !in w && A0 !in w && A1 !in w && Ra !in w && r !in w
    && forall i :: 0 <= i < |fillers| ==> TextRespects(w, AtOffsets(r, offsets), fillers[i])
  }

  lemma BlockedIsTest(fillers: seq<Program>, init: Program, r: Reg, w: set<Reg>, offsets: set<int>, prefix: string, divCount: nat, fence: bool)
    requires BlockedRespects(fillers, init, r, w, offsets)
    ensures ThroughputRiscv.TestRespects(Blocked(prefix, fillers, init, divCount, Some(r), fence), w + Blocks(r), Anywhere)
  {
    hide DivBlocker, TextRespects;
    var w' := w + Blocks(r);
    BlockerRespects(divCount, r, w', Anywhere);
    NothingRespects(w', Anywhere);
    AnyRespects(w, w', AtOffsets(A1, offsets), init);
    forall i | 0 <= i < |fillers|
      ensures TextRespects(w', Anywhere, fillers[i])
    {
      AnyRespects(w, w', AtOffsets(r, offsets), fillers[i]);
    }
  }

  /** Between prologue and epilogue a blocked test spares what is apart from the places its texts store to. */
  lemma BlockedSpares(prog: Program, s1: State, fillers: seq<Program>, init: Program, r: Reg, w: set<Reg>, offsets: set<int>,
                      prefix: string, divCount: nat, fence: bool, count: nat, m: nat, lo: nat, hi: nat)
    requires BlockedRespects(fillers, init, r, w, offsets) && (count > 0 ==> fillers != []) && s1.ok
    requires var t := Blocked(prefix, fillers, init, divCount, Some(r), fence);
      Embedded(prog, s1.pc, init) && Embedded(prog, s1.pc + |init|, LoopOf(Rv, t, count))
    requires 1 <= m <= TWO64 && Get(s1, A0) == Wrap(m) && Apart(offsets, Get(s1, A1), lo, hi)
    ensures AlwaysSpares(prog, s1, Middle(Rv, Blocked(prefix, fillers, init, divCount, Some(r), fence), count, m), lo, hi)
  {
    hide Run, Get, Embedded, CountedLoop, DivBlocker, Straight, AlwaysSpares, AlwaysWithin, Within, LinesStore, Apart, LinesRespect,
      TextRespects, Wrap;
    var x := AtOffsets(A1, offsets);
    TextLines(w, x, prog, s1.pc, init);
    LinesRespectStore(prog, s1.pc, |init|, w, x);
    BlockRuns(w, x, prog, s1, |init|);
    BlockAlways(w, x, prog, s1, |init|);
    SparesAlongLine(w, prog, s1, |init|, A1, offsets, lo, hi);
    var s2 := Run(prog, s1, |init|);
    WithinKeeps(w, s1, s2, A1);
    WithinKeeps(w, s1, s2, A0);
    var size := |LoopOf(Rv, Blocked(prefix, fillers, init, divCount, Some(r), fence), count)|;
    var steps := m * size;
    IterationsSpare(w, offsets, prog, s2, TestStart(prefix, count), fillers, count, divCount, r, fence, m, steps, lo, hi);
    SparesAdd(prog, s1, |init|, steps, lo, hi);
  }

  /** A call of a blocked test whose fillers store at constant offsets from the register the blocker loads, in places apart
      from the frame: it completes as a throughput test does, and has written its frame and those places of the data only. */
  lemma FunctionRuns(prog: Program, fillers: seq<Program>, init: Program, r: Reg, w: set<Reg>, offsets: set<int>,
                     prefix: string, divCount: nat, fence: bool, count: nat, s: State, m: nat)
    requires BlockedRespects(fillers, init, r, w, offsets) && (count > 0 ==> fillers != []) && ThroughputRiscv.CalledWith(s, m)
    requires Embedded(prog, s.pc, Fn(Rv, Blocked(prefix, fillers, init, divCount, Some(r), fence), count))
    requires Apart(offsets, Get(s, A1), Get(s, Sp) - 80, Get(s, Sp))
    ensures var t := Blocked(prefix, fillers, init, divCount, Some(r), fence); var k := ThroughputRiscv.Steps(t, count, m);
      && ThroughputRiscv.Completed(prog, s, k, t, count, w + Blocks(r), m)
      && WroteOnly(s.mem, Run(prog, s, k).mem, Get(s, Sp) - 80, Get(s, Sp), Get(s, A1), offsets)
  {
    hide Run, Get, Embedded, Entry, CountedLoop, DivBlocker, Fn, ThroughputRiscv.Completed, ThroughputRiscv.TestRespects, Apart,
      Straight, WroteOnly, AgreeOutside, AlwaysSpares, ByteAt, BlockedRespects, RiscvFrame.InFrame, Wrap;
    var t := Blocked(prefix, fillers, init, divCount, Some(r), fence);
    FnParts(Rv, prog, s.pc, t, count);
    ThroughputRiscv.EntryRuns(prog, s, prefix, count);
    var s1 := Run(prog, s, 20);
    ThroughputRiscv.InFrameOk(s, s1);
    ThroughputRiscv.InFrameData(s, s1);
    BlockedIsTest(fillers, init, r, w, offsets, prefix, divCount, fence);
    BlockedSpares(prog, s1, fillers, init, r, w, offsets, prefix, divCount, fence, count, m, Get(s, Sp) - 80, Get(s, Sp));
    ThroughputRiscv.FunctionRuns(prog, t, count, w + Blocks(r), Anywhere, s, m);
    var m2 := Run(prog, s1, Middle(Rv, t, count, m)).mem;
    forall x: nat
      ensures SameOff(s1.mem, m2, Get(s, A1), offsets, x)
    {
      if Apart(offsets, Get(s, A1), x, x + 1) {
        BlockedSpares(prog, s1, fillers, init, r, w, offsets, prefix, divCount, fence, count, m, x, x + 1);
        SparedThrough(prog, s1, Middle(Rv, t, count, m), x, x + 1);
      }
    }
    WroteOnlyThen(s.mem, s1.mem, m2, Get(s, Sp) - 80, Get(s, Sp), Get(s, A1), offsets);
  }
}
