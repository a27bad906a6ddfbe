/** How often a call of a structure test executes each instruction of its loop. */
module ChainTally {
  import opened Listing
  import opened Machine
  import opened Symbols
  import opened ThroughputText
  import opened ThroughputListing
  import opened ChainText
  import opened Tally
  import Riscv
  import X86
  import RiscvFrame
  import X86Frame
  import X86Stack

  // ----- what prologues and epilogues are made of

  /** The shapes of the instructions that save, clear and restore registers and return. */
  predicate FrameShape(i: Instr) {
    match i
    case Alu(_, op, _, b, _) => op == ExOr || (b.I? && (b.imm == 0 || b.imm == 80 || b.imm == -80))
    case Load(_, _, a) => a.base == Sp
    case Store(_, a) => a.base == Sp
    case Push(_) => true
    case Pop(_) => true
    case ReturnLink(_) => true
    case ReturnPop => true
    case _ => false
  }

  ghost predicate Shaped(text: Program) {
    forall j :: 0 <= j < |text| ==> text[j].Op? && FrameShape(text[j].instr)
  }

  lemma {:induction false} ShapedOccurs(text: Program, i: Instr)
    requires Shaped(text) && !FrameShape(i)
    ensures Occurs(text, i) == 0
    decreases |text|
  {
    hide FrameShape;
    if text != [] {
      ShapedOccurs(text[..|text| - 1], i);
    }
  }

  lemma ShapedAppend(a: Program, b: Program)
    requires Shaped(a) && Shaped(b)
    ensures Shaped(a + b)
  {
    hide FrameShape;
  }

  lemma FramesShaped(isa: Isa)
    ensures Shaped(PrologueOf(isa)) && Shaped(EpilogueOf(isa))
  {
    hide Shaped, RiscvFrame.Saves, RiscvFrame.Clears, RiscvFrame.Restores, X86Stack.Pushes, X86Stack.Pops, X86Frame.Saves,
      X86Frame.Moves, X86Frame.Clears;
    if isa == Rv {
      RiscvShaped();
    } else {
      X86Shaped(X86Frame.Saves());
    }
  }

  lemma RiscvShaped()
    ensures Shaped(RiscvFrame.Prologue()) && Shaped(RiscvFrame.Epilogue())
  {
    hide Shaped, RiscvFrame.Saves, RiscvFrame.Clears, RiscvFrame.Restores;
    var first: Program := [Op(Riscv.Addi(Sp, Sp, -80))];
    var last: Program := [Op(Riscv.Addi(Sp, Sp, 80)), Op(Riscv.Ret())];
    SavesShaped();
    ClearsShaped();
    ShapedAppend(first, RiscvFrame.Saves());
    ShapedAppend(first + RiscvFrame.Saves(), RiscvFrame.Clears());
    ShapedAppend(RiscvFrame.Restores(), last);
  }

  lemma SavesShaped()
    ensures Shaped(RiscvFrame.Saves()) && Shaped([Op(Riscv.Addi(Sp, Sp, -80))])
    ensures Shaped([Op(Riscv.Addi(Sp, Sp, 80)), Op(Riscv.Ret())])
  {
  }

  lemma ClearsShaped()
    ensures Shaped(RiscvFrame.Clears()) && Shaped(RiscvFrame.Restores())
  {
  }

  lemma X86Shaped(regs: seq<Reg>)
    ensures Shaped(X86Stack.Pushes(regs) + X86Frame.Moves() + X86Frame.Clears()) && Shaped(X86Stack.Pops(regs) + [Op(ReturnPop)])
  {
    hide Shaped, X86Stack.Pushes, X86Stack.Pops, X86Frame.Moves, X86Frame.Clears;
    StackShaped(regs);
    MovesShaped();
    ShapedAppend(X86Stack.Pushes(regs), X86Frame.Moves());
    ShapedAppend(X86Stack.Pushes(regs) + X86Frame.Moves(), X86Frame.Clears());
    ShapedAppend(X86Stack.Pops(regs), [Op(ReturnPop)]);
  }

  lemma StackShaped(regs: seq<Reg>)
    ensures Shaped(X86Stack.Pushes(regs)) && Shaped(X86Stack.Pops(regs)) && Shaped([Op(ReturnPop)])
  {
  }

  lemma MovesShaped()
    ensures Shaped(X86Frame.Moves()) && Shaped(X86Frame.Clears())
  {
  }

  lemma FrameOccurs(isa: Isa, i: Instr)
    requires !FrameShape(i)
    ensures Occurs(PrologueOf(isa), i) == 0 && Occurs(EpilogueOf(isa), i) == 0
  {
    hide PrologueOf, EpilogueOf, Shaped, FrameShape, Occurs;
    FramesShaped(isa);
    ShapedOccurs(PrologueOf(isa), i);
    ShapedOccurs(EpilogueOf(isa), i);
  }

  // ----- arrays of one and of four fillers

  lemma {:induction false} OneFiller(fillers: seq<Program>, n: nat, i: Instr)
    requires |fillers| == 1 && Occurs(fillers[0], i) <= 1
    ensures InFillers(fillers, n, i) == if Occurs(fillers[0], i) == 1 then n else 0
    decreases n
  {
    hide Occurs;
    if n != 0 {
      OneFiller(fillers, n - 1, i);
      assert (n - 1) % 1 == 0;
    }
  }

  /** What the slots that hold the instruction contribute. */
  function FromSlots(n: nat, a: bool, b: bool, c: bool, d: bool): nat {
    (if a then Uses(n, 4, 0) else 0) + (if b then Uses(n, 4, 1) else 0) + (if c then Uses(n, 4, 2) else 0) + if d then Uses(n, 4, 3) else 0
  }

  lemma {:induction false} FourFillers(fillers: seq<Program>, n: nat, i: Instr, a: bool, b: bool, c: bool, d: bool)
    requires |fillers| == 4 && Occurs(fillers[0], i) == One(a) && Occurs(fillers[1], i) == One(b)
    requires Occurs(fillers[2], i) == One(c) && Occurs(fillers[3], i) == One(d)
    ensures InFillers(fillers, n, i) == FromSlots(n, a, b, c, d)
    decreases n
  {
    hide Occurs, FromSlots, One;
    if n == 0 {
      SlotsNone(a, b, c, d);
    } else {
      FourFillers(fillers, n - 1, i, a, b, c, d);
      SlotsStep(n, a, b, c, d);
    }
  }

  lemma SlotsNone(a: bool, b: bool, c: bool, d: bool)
    ensures FromSlots(0, a, b, c, d) == 0
  {
  }

  lemma SlotsStep(n: nat, a: bool, b: bool, c: bool, d: bool)
    requires n >= 1
    ensures var slot := (n - 1) % 4;
      FromSlots(n, a, b, c, d) == FromSlots(n - 1, a, b, c, d) + One(if slot == 0 then a else if slot == 1 then b else if slot == 2 then c else d)
  {
    UsesStep(n, 0);
    UsesStep(n, 1);
    UsesStep(n, 2);
    UsesStep(n, 3);
    hide Uses;
  }

  lemma UsesStep(n: nat, slot: nat)
    requires n >= 1
    ensures Uses(n, 4, slot) == Uses(n - 1, 4, slot) + if (n - 1) % 4 == slot then 1 else 0
  {
  }

  lemma SharesOf(n: nat)
    ensures Uses(n, 4, 0) == Share(n, 4, 0) && Uses(n, 4, 1) == Share(n, 4, 1) && Uses(n, 4, 2) == Share(n, 4, 2) && Uses(n, 4, 3) == Share(n, 4, 3)
    ensures Uses(n, 4, 0) + Uses(n, 4, 1) + Uses(n, 4, 2) + Uses(n, 4, 3) == n
  {
    hide Share;
    UsesExact(n, 4, 0);
    UsesExact(n, 4, 1);
    UsesExact(n, 4, 2);
    UsesExact(n, 4, 3);
    AllUsed(n);
  }

  /** One slot, two slots and all slots. */
  lemma SlotsAre(n: nat)
    ensures FromSlots(n, true, false, false, false) == Share(n, 4, 0) && FromSlots(n, false, true, false, false) == Share(n, 4, 1)
    ensures FromSlots(n, false, false, true, false) == Share(n, 4, 2) && FromSlots(n, false, false, false, true) == Share(n, 4, 3)
    ensures FromSlots(n, false, true, false, true) == Share(n, 4, 1) + Share(n, 4, 3)
    ensures FromSlots(n, true, true, true, true) == n && FromSlots(n, false, false, false, false) == 0
  {
    hide Uses, Share;
    SharesOf(n);
  }

  lemma {:induction false} AllUsed(n: nat)
    ensures Uses(n, 4, 0) + Uses(n, 4, 1) + Uses(n, 4, 2) + Uses(n, 4, 3) == n
  {
    if n != 0 {
      AllUsed(n - 1);
      var slot := (n - 1) % 4;
      assert slot == 0 || slot == 1 || slot == 2 || slot == 3;
    }
  }

  // ----- a whole structure test

  /** A call of the structure test has executed what m iterations need. */
  ghost predicate Counts(isa: Isa, prog: Program, s: State, k: nat, t: Test, count: nat, m: nat) {
    Assigned(Structure(isa, t), count) && Performs(isa, prog, s, k, Structure(isa, t), count, m)
  }

  lemma InitOccurs(isa: Isa, i: Instr)
    requires !FrameShape(i) && !(i.Alu? && i.b.I?)
    ensures Occurs(InitLines(isa), i) == 0
  {
    hide Occurs;
    var l := InitLines(isa);
    TwoOccur(l[0], l[1], i);
    assert l == [l[0], l[1]];
  }

  /** The lines along both chains. */
  function Along(isa: Isa, i: Instr): nat {
    OnChain(isa, Chase1(isa), i) + OnChain(isa, Chase2(isa), i)
  }

  function OnChain(isa: Isa, r: Reg, i: Instr): nat {
    One(i == Load(r, Full, Address(r, I(0), By1, 0)))
      + One(i == if isa == Rv then Riscv.Add(r, A1, r) else X86.AddRR(Rdx, r))
  }

  lemma ChaseOccurs(isa: Isa, r: Reg, i: Instr)
    ensures Occurs(ChaseLines(isa, r), i) == OnChain(isa, r, i)
  {
    hide Occurs, One;
    var l := ChaseLines(isa, r);
    TwoOccur(l[0], l[1], i);
    assert l == [l[0], l[1]];
  }

  /** A call with m iterations executes an instruction of the loop m times for every place it has there. */
  lemma LoopTally(isa: Isa, prog: Program, s: State, k: nat, t: Test, count: nat, m: nat, i: Instr)
    requires Supplied(t, count) && !FrameShape(i) && !(i.Alu? && i.b.I?) && Counts(isa, prog, s, k, t, count, m)
    ensures Fillers(count, t.includePtrChasingLoads) > 0 ==> FillerTexts(isa, t.fillers) != []
    ensures Performed(prog, s, k, i) == m * (Along(isa, i) + InFillers(FillerTexts(isa, t.fillers), Fillers(count, t.includePtrChasingLoads), i)
      + (if t.fence && i == Barrier then (if isa == Rv then 2 else 1) else 0) + CountsDown(isa, TestStart(t.prefix, count), i))
  {
    hide Occurs, Performed, PrologueOf, EpilogueOf, FrameShape, InitLines, ChainBody, PerIteration, OnChain, InFillers, CountsDown, FillerTexts;
    FrameOccurs(isa, i);
    InitOccurs(isa, i);
    FillersNamed(isa, t, count);
    PerIterationIs(isa, t, count, i);
    assert Structure(isa, t).init == InitLines(isa);
  }

  lemma FillersNamed(isa: Isa, t: Test, count: nat)
    requires Supplied(t, count)
    ensures Fillers(count, t.includePtrChasingLoads) > 0 ==> FillerTexts(isa, t.fillers) != []
    ensures var b := Structure(isa, t).body; b.fillers == FillerTexts(isa, t.fillers) && b.fence == t.fence
    ensures Structure(isa, t).prefix == t.prefix && Structure(isa, t).includePtrChasingLoads == t.includePtrChasingLoads
  {
    hide FillerLines, ChaseLines, InitLines;
  }

  lemma PerIterationIs(isa: Isa, t: Test, count: nat, i: Instr)
    requires Supplied(t, count)
    ensures Fillers(count, t.includePtrChasingLoads) > 0 ==> FillerTexts(isa, t.fillers) != []
    ensures PerIteration(isa, Structure(isa, t), count, i)
         == Along(isa, i) + InFillers(FillerTexts(isa, t.fillers), Fillers(count, t.includePtrChasingLoads), i)
            + (if t.fence && i == Barrier then (if isa == Rv then 2 else 1) else 0) + CountsDown(isa, TestStart(t.prefix, count), i)
  {
    hide Occurs, InitLines, ChaseLines, OnChain, InFillers, CountsDown, FillerTexts;
    FillersNamed(isa, t, count);
    ChaseOccurs(isa, Chase1(isa), i);
    ChaseOccurs(isa, Chase2(isa), i);
    NoneOccurs(i);
  }

  // ----- what every structure test executes

  /** In k steps the instruction was executed m times for each of its `each` places in the loop. */
  predicate Times(prog: Program, s: State, k: nat, i: Instr, m: nat, each: nat) {
    Performed(prog, s, k, i) == m * each
  }

  /** Every iteration takes one step along each of the two chains, and then fences, if the test does: twice on RISC-V,
      once on x86. */
  ghost predicate Chases(isa: Isa, prog: Program, s: State, k: nat, m: nat, fence: bool) {
    && (isa == Rv ==>
          && Times(prog, s, k, Riscv.Ld(S1, 0, S1), m, 1) && Times(prog, s, k, Riscv.Add(S1, A1, S1), m, 1)
          && Times(prog, s, k, Riscv.Ld(S2, 0, S2), m, 1) && Times(prog, s, k, Riscv.Add(S2, A1, S2), m, 1)
          && Times(prog, s, k, Barrier, m, if fence then 2 else 0))
    && (isa == Amd ==>
          && Times(prog, s, k, Load(Rdi, Full, Address(Rdi, I(0), By1, 0)), m, 1) && Times(prog, s, k, X86.AddRR(Rdx, Rdi), m, 1)
          && Times(prog, s, k, Load(Rsi, Full, Address(Rsi, I(0), By1, 0)), m, 1) && Times(prog, s, k, X86.AddRR(Rdx, Rsi), m, 1)
          && Times(prog, s, k, Barrier, m, if fence then 1 else 0))
  }

  /** The places of an instruction in one iteration of a structure test. */
  lemma LoopTimes(isa: Isa, prog: Program, s: State, k: nat, t: Test, count: nat, m: nat, i: Instr, inFillers: nat)
    requires Supplied(t, count) && !FrameShape(i) && !(i.Alu? && i.b.I?) && CountsDown(isa, TestStart(t.prefix, count), i) == 0
    requires Counts(isa, prog, s, k, t, count, m)
    requires Fillers(count, t.includePtrChasingLoads) > 0 ==> t.fillers != []
    requires InFillers(FillerTexts(isa, t.fillers), Fillers(count, t.includePtrChasingLoads), i) == inFillers
    ensures Times(prog, s, k, i, m, Along(isa, i) + inFillers + if t.fence && i == Barrier then (if isa == Rv then 2 else 1) else 0)
  {
    hide Performed, InFillers, FillerTexts, CountsDown, Along, Counts;
    LoopTally(isa, prog, s, k, t, count, m, i);
  }
}
