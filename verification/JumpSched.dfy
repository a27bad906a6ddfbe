/** The not-taken-jump test: fillers that compare the two chains and jump to a trap when they meet. */
module JumpSched {
  import opened Words
  import opened Listing
  import opened Machine
  import opened Symbols
  import opened Cycles
  import opened Shuffle
  import opened DataFile
  import opened ThroughputText
  import opened ChainText
  import opened ChainLoop
  import ThroughputListing
  import ChainRiscv
  import ChainX86
  import opened Tally
  import opened ChainTally
  import Riscv
  import X86

  function JumpTest(): Test {
    Test("jmpsched", [Guard], false, true)
  }

  function TrapLines(): (p: Program)
    ensures |p| == 2
  {
    [Label(JumpTrap), Op(Trap)]
  }

  function Functions(isa: Isa, counts: seq<nat>): (r: seq<Program>)
    ensures |r| == |counts|
  {
    if isa == Rv then ChainRiscv.Functions(JumpTest(), counts) else ChainX86.Functions(JumpTest(), counts)
  }

  function Text(isa: Isa, counts: seq<nat>): Program {
    Concat(Functions(isa, counts)) + TrapLines()
  }

  method GenerateRiscvAsm(sb: StringBuilder<Instr>, counts: seq<nat>)
    modifies sb
    ensures sb.lines == old(sb.lines) + Text(Rv, counts)
  {
    hide Concat, ChainRiscv.Functions;
    ChainRiscv.GenerateRiscvAsmStructureTestFuncs(sb, counts, JumpTest());
    sb.AppendLines([Label(JumpTrap), Op(Trap)]);
  }

  method GenerateX86GccAsm(sb: StringBuilder<Instr>, counts: seq<nat>)
    modifies sb
    ensures sb.lines == old(sb.lines) + Text(Amd, counts)
  {
    hide Concat, ChainX86.Functions;
    ChainX86.GenerateX86AsmStructureTestFuncs(sb, counts, JumpTest());
    sb.AppendLines([Label(JumpTrap), Op(Trap)]);
  }

  // ----- the listing

  lemma JumpTestSupplied(isa: Isa, counts: seq<nat>)
    ensures TextsUnlabelled(Structure(isa, JumpTest())) && forall i :: 0 <= i < |counts| ==> Assigned(Structure(isa, JumpTest()), counts[i])
    ensures Functions(isa, counts) == ThroughputListing.Functions(isa, Structure(isa, JumpTest()), counts)
  {
    hide ThroughputListing.Fn, TextsUnlabelled, Structure;
    StructureUnlabelled(isa, JumpTest());
    AllAssigned(isa, JumpTest(), counts);
  }

  lemma TextUnique(isa: Isa, counts: seq<nat>)
    requires Distinct(counts)
    ensures UniqueLabels(Text(isa, counts))
  {
    hide UniqueLabels, LabelsIn, Concat, Functions, Structure, TextsUnlabelled, Assigned;
    JumpTestSupplied(isa, counts);
    ThroughputListing.ListingUnique(isa, Structure(isa, JumpTest()), counts);
    SingleLabel(TrapLines(), 0, JumpTrap);
    UniqueAppend(Concat(Functions(isa, counts)), TrapLines());
  }

  /** Where the function for a count stands, with the trap behind all functions. */
  lemma Found(isa: Isa, counts: seq<nat>, count: nat) returns (at: nat)
    requires Distinct(counts) && count in counts
    ensures Supplied(JumpTest(), count) && |Text(isa, counts)| >= 2
    ensures isa == Rv ==> Embedded(Text(isa, counts), at, ChainRiscv.Fn(JumpTest(), count))
    ensures isa == Amd ==> Embedded(Text(isa, counts), at, ChainX86.Fn(JumpTest(), count))
    ensures TrapAt(Text(isa, counts), JumpTest().fillers, |Text(isa, counts)| - 2)
  {
    hide UniqueLabels, Concat, Embedded, ThroughputListing.Fn, Functions, Structure, TextsUnlabelled, Assigned, Resolve;
    var i :| 0 <= i < |counts| && counts[i] == count;
    TextUnique(isa, counts);
    JumpTestSupplied(isa, counts);
    at := ThroughputListing.ListingAt(isa, Structure(isa, JumpTest()), counts, TrapLines(), i);
    var prog, f := Text(isa, counts), Concat(Functions(isa, counts));
    assert At(prog, 0, prog);
    EmbedUnique(prog, 0, prog);
    assert prog == f + TrapLines() + [];
    EmbedThree(prog, 0, f, TrapLines(), []);
    EmbedLines(prog, |f|, TrapLines());
    assert TrapLines()[0].Label? && TrapLines()[1].Op?;
  }

  /** The single guard of the array trips exactly when there is a filler and the chains meet at once. */
  lemma Trips(count: nat, rs: seq<nat>)
    requires |rs| >= 5
    ensures Shuffled(Drawn(rs)) != []
    ensures !Untripped(JumpTest().fillers, Slots(JumpTest(), count), Shuffled(Drawn(rs))[0], 4)
       <==> count >= 1 && ZeroToFour(rs)
  {
    hide Shuffled, ZeroToFour;
    ZeroLeadsToFour(rs);
    var fillers := JumpTest().fillers;
    assert Slots(JumpTest(), count) == count;
    if count >= 1 {
      assert 0 % |fillers| == 0 && fillers[0 % |fillers|].Guard?;
    }
  }

  /** Some run from s ends in a trap. */
  ghost predicate Traps(prog: Program, s: State) {
    exists j: nat :: !Run(prog, s, j).ok
  }

  lemma ReturnsInOrder(prog: Program, s: State, k: nat)
    requires var e := Run(prog, s, k); e.ok && e.pc >= |prog|
    ensures !Traps(prog, s)
  {
    hide Run;
    forall j: nat
      ensures Run(prog, s, j).ok
    {
      NeverStopped(prog, s, k, j);
    }
  }

  // ----- what an untripped call executes

  /** In every iteration one step along each chain, then one compare and jump per filler, then the fences; nothing is stored
      off the stack. */
  ghost predicate Counted(isa: Isa, prog: Program, s: State, k: nat, count: nat, m: nat) {
    && Chases(isa, prog, s, k, m, true)
    && (isa == Rv ==> Times(prog, s, k, Riscv.Beq(S1, S2, JumpTrap), m, count))
    && (isa == Amd ==> Times(prog, s, k, Compare(Minus, R(Rsi), R(Rdi)), m, count) && Times(prog, s, k, X86.Je(JumpTrap), m, count))
    && forall rs: Reg, a: Address {:trigger Performed(prog, s, k, Store(rs, a))} ::
         a.base != Sp ==> Performed(prog, s, k, Store(rs, a)) == 0
  }

  lemma GuardOccurs(isa: Isa, i: Instr)
    ensures isa == Rv ==> Occurs(FillerTexts(isa, JumpTest().fillers)[0], i) == One(i == Riscv.Beq(S1, S2, JumpTrap))
    ensures isa == Amd ==>
      Occurs(FillerTexts(isa, JumpTest().fillers)[0], i) == One(i == Compare(Minus, R(Rsi), R(Rdi))) + One(i == X86.Je(JumpTrap))
  {
    hide Occurs, One;
    OneOccurs(Op(Riscv.Beq(S1, S2, JumpTrap)), i);
    TwoOccur(Op(Compare(Minus, R(Rsi), R(Rdi))), Op(X86.Je(JumpTrap)), i);
  }

  /** One instruction of the loop. */
  lemma JumpTimes(isa: Isa, prog: Program, s: State, k: nat, count: nat, m: nat, i: Instr)
    requires Counts(isa, prog, s, k, JumpTest(), count, m)
    requires !FrameShape(i) && !(i.Alu? && i.b.I?) && CountsDown(isa, TestStart("jmpsched", count), i) == 0
    ensures var guard := if isa == Rv then i == Riscv.Beq(S1, S2, JumpTrap) else i == Compare(Minus, R(Rsi), R(Rdi)) || i == X86.Je(JumpTrap);
      Times(prog, s, k, i, m, Along(isa, i) + (if guard then count else 0) + if i == Barrier then (if isa == Rv then 2 else 1) else 0)
  {
    hide Performed, Occurs, FillerTexts, CountsDown, FrameShape, Along, Counts;
    GuardOccurs(isa, i);
    OneFiller(FillerTexts(isa, JumpTest().fillers), count, i);
    LoopTimes(isa, prog, s, k, JumpTest(), count, m, i, InFillers(FillerTexts(isa, JumpTest().fillers), count, i));
  }

  lemma RiscvCounts(prog: Program, s: State, k: nat, count: nat, m: nat)
    requires Counts(Rv, prog, s, k, JumpTest(), count, m)
    ensures Counted(Rv, prog, s, k, count, m)
  {
    hide Performed, Counts;
    JumpTimes(Rv, prog, s, k, count, m, Riscv.Ld(S1, 0, S1));
    JumpTimes(Rv, prog, s, k, count, m, Riscv.Add(S1, A1, S1));
    JumpTimes(Rv, prog, s, k, count, m, Riscv.Ld(S2, 0, S2));
    JumpTimes(Rv, prog, s, k, count, m, Riscv.Add(S2, A1, S2));
    JumpTimes(Rv, prog, s, k, count, m, Barrier);
    JumpTimes(Rv, prog, s, k, count, m, Riscv.Beq(S1, S2, JumpTrap));
    forall rs: Reg, a: Address {:trigger Performed(prog, s, k, Store(rs, a))} | a.base != Sp
      ensures Performed(prog, s, k, Store(rs, a)) == 0
    {
      JumpTimes(Rv, prog, s, k, count, m, Store(rs, a));
    }
  }

  lemma X86Counts(prog: Program, s: State, k: nat, count: nat, m: nat)
    requires Counts(Amd, prog, s, k, JumpTest(), count, m)
    ensures Counted(Amd, prog, s, k, count, m)
  {
    hide Performed, Counts;
    JumpTimes(Amd, prog, s, k, count, m, Load(Rdi, Full, Address(Rdi, I(0), By1, 0)));
    JumpTimes(Amd, prog, s, k, count, m, X86.AddRR(Rdx, Rdi));
    JumpTimes(Amd, prog, s, k, count, m, Load(Rsi, Full, Address(Rsi, I(0), By1, 0)));
    JumpTimes(Amd, prog, s, k, count, m, X86.AddRR(Rdx, Rsi));
    JumpTimes(Amd, prog, s, k, count, m, Barrier);
    JumpTimes(Amd, prog, s, k, count, m, Compare(Minus, R(Rsi), R(Rdi)));
    JumpTimes(Amd, prog, s, k, count, m, X86.Je(JumpTrap));
    forall rs: Reg, a: Address {:trigger Performed(prog, s, k, Store(rs, a))} | a.base != Sp
      ensures Performed(prog, s, k, Store(rs, a)) == 0
    {
      JumpTimes(Amd, prog, s, k, count, m, Store(rs, a));
    }
  }

  /** The emitted RISC-V test over a data file made from any random numbers rs, for any list of distinct counts:
      a call for `count` with m iterations ends in the trap if and only if count >= 1 and the shuffle made
      record 0 lead to record 4, and then in its first iteration; otherwise it returns in order, every line
      of its loop passed m times, having made m steps along each chain, m * count compares of the two and 2 m fences. */
  lemma RiscvTest(counts: seq<nat>, count: nat, s: State, base: nat, rs: seq<nat>, m: nat) returns (k: nat)
    requires Distinct(counts) && count in counts && |rs| >= 5 && Get(s, Ra) >= |Text(Rv, counts)|
    requires Resolve(Text(Rv, counts), TestTop("jmpsched", count)) == Some(s.pc)
    requires ChainRiscv.Callable(s, base, Shuffled(Drawn(rs)), m)
    ensures Supplied(JumpTest(), count) && InRange(Shuffled(Drawn(rs))) && |Shuffled(Drawn(rs))| >= 5
    ensures var prog := Text(Rv, counts); var e := Run(prog, s, k);
      if count >= 1 && ZeroToFour(rs)
      then e.ok && e.pc < |prog| && prog[e.pc] == Op(Trap) && Get(e, A0) == Get(s, A0) && k <= 22 + |TestLoop(Rv, JumpTest(), count)|
      else ChainRiscv.Completed(prog, s, k, JumpTest(), count, base, Shuffled(Drawn(rs)), m) && Counted(Rv, prog, s, k, count, m)
    ensures Traps(Text(Rv, counts), s) <==> count >= 1 && ZeroToFour(rs)
  {
    hide Run, Get, Embedded, Text, ChainRiscv.Fn, Loop, ChainRiscv.Callable, Functions, Shuffled, ZeroToFour, Resolve, TrapAt,
      Untripped, AllAllowed, ChainRiscv.Completed, Traps, Counted, Counts, ThroughputListing.Entry;
    var prog, t, p := Text(Rv, counts), JumpTest(), Shuffled(Drawn(rs));
    var at := Found(Rv, counts, count);
    ChainRiscv.FnParts(prog, at, t, count);
    ThroughputListing.EntryParts(Rv, prog, at, "jmpsched", count);
    ChainRiscv.CallableCycle(s, base, p, m);
    Trips(count, rs);
    GuardsAllowed(Rv, |p|);
    if count >= 1 && ZeroToFour(rs) {
      k := ChainRiscv.FunctionTraps(prog, t, count, s, base, p, m, |prog| - 2);
      TrapStops(prog, s, k);
    } else {
      k := ChainRiscv.Steps(t, count, m);
      ChainRiscv.FunctionRuns(prog, t, count, s, base, p, m, |prog| - 2);
      ChainRiscv.CompletedReturns(prog, s, k, t, count, base, p, m);
      RiscvCounts(prog, s, k, count, m);
      ReturnsInOrder(prog, s, k);
    }
  }

  /** The emitted x86 test: the same condition, the same two outcomes. */
  lemma X86Test(counts: seq<nat>, count: nat, s: State, base: nat, rs: seq<nat>, m: nat) returns (k: nat)
    requires Distinct(counts) && count in counts && |rs| >= 5 && Load64(s.mem, Get(s, Sp)) >= |Text(Amd, counts)|
    requires Resolve(Text(Amd, counts), TestTop("jmpsched", count)) == Some(s.pc)
    requires ChainX86.Callable(s, base, Shuffled(Drawn(rs)), m)
    ensures Supplied(JumpTest(), count) && InRange(Shuffled(Drawn(rs))) && |Shuffled(Drawn(rs))| >= 5
    ensures var prog := Text(Amd, counts); var e := Run(prog, s, k);
      if count >= 1 && ZeroToFour(rs)
      then e.ok && e.pc < |prog| && prog[e.pc] == Op(Trap) && Get(e, Rcx) == Get(s, Rdi) && k <= 25 + |TestLoop(Amd, JumpTest(), count)|
      else ChainX86.Completed(prog, s, k, JumpTest(), count, base, Shuffled(Drawn(rs)), m) && Counted(Amd, prog, s, k, count, m)
    ensures Traps(Text(Amd, counts), s) <==> count >= 1 && ZeroToFour(rs)
  {
    hide Run, Get, Embedded, Text, ChainX86.Fn, Loop, ChainX86.Callable, Functions, Shuffled, ZeroToFour, Resolve, TrapAt,
      Untripped, AllAllowed, ChainX86.Completed, Traps, Counted, Counts, Load64, ThroughputListing.Entry;
    var prog, t, p := Text(Amd, counts), JumpTest(), Shuffled(Drawn(rs));
    var at := Found(Amd, counts, count);
    ChainX86.FnParts(prog, at, t, count);
    ThroughputListing.EntryParts(Amd, prog, at, "jmpsched", count);
    ChainX86.CallableCycle(s, base, p, m);
    Trips(count, rs);
    GuardsAllowed(Amd, |p|);
    if count >= 1 && ZeroToFour(rs) {
      k := ChainX86.FunctionTraps(prog, t, count, s, base, p, m, |prog| - 2);
      TrapStops(prog, s, k);
    } else {
      k := ChainX86.Steps(t, count, m);
      ChainX86.FunctionRuns(prog, t, count, s, base, p, m, |prog| - 2);
      ChainX86.CompletedReturns(prog, s, k, t, count, base, p, m);
      X86Counts(prog, s, k, count, m);
      ReturnsInOrder(prog, s, k);
    }
  }

  lemma GuardsAllowed(isa: Isa, records: nat)
    ensures AllAllowed(isa, JumpTest().fillers, records)
  {
  }

  lemma TrapStops(prog: Program, s: State, k: nat)
    requires var e := Run(prog, s, k); e.ok && e.pc < |prog| && prog[e.pc] == Op(Trap)
    ensures Traps(prog, s)
  {
    hide Run;
    RunOneMore(prog, s, k);
    assert !Run(prog, s, k + 1).ok;
  }
}
