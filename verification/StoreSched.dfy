/** The tests whose fillers store to the records: the store queue, mixed queue, store data and mixed scheduler tests, and
    the x86 store address test. */
module StoreSched {
  import opened Words
  import opened Listing
  import opened Machine
  import opened Symbols
  import opened Cycles
  import opened DataFile
  import opened ThroughputText
  import opened ThroughputRun
  import ThroughputListing
  import ThroughputRiscv
  import opened ChainText
  import opened ChainLoop
  import BlockedRiscv
  import ChainRiscv
  import ChainX86
  import opened Tally
  import opened ChainTally
  import Riscv
  import X86

  datatype Kind = StoreQueue | MixedQueue | StoreData | MixedSched | StoreAddr

  /** The registers the tests name in turn. */
  function Named(isa: Isa, i: nat): Reg
    requires i < 4
  {
    if isa == Rv then [T5, T4, T3, T2][i] else [R15, R14, R13, R12][i]
  }

  function LoadFrom(r: Reg, base: Reg): Filler {
    Plain([Load(r, Full, Address(base, I(0), By1, 0))])
  }

  function Fillers(isa: Isa, kind: Kind): (f: seq<Filler>)
    ensures |f| == 4
  {
    match kind
    case StoreQueue => seq(4, i requires 0 <= i < 4 => StoreBase(Named(isa, i), 8))
    case MixedQueue =>
      [ StoreBase(Named(isa, 0), 8), LoadFrom(Named(isa, 1), Base(isa)),
        StoreBase(Named(isa, 2), 8), LoadFrom(Named(isa, 3), Base(isa))]
    case StoreData => seq(4, i => StoreBase(Chase1(isa), 8))
    case MixedSched =>
      if isa == Rv then [LoadFrom(T5, S1), StoreIndex(T4), LoadFrom(T3, S1), StoreIndex(T2)]
      else [LoadFrom(R15, Rdi), StoreIndex(R11), LoadFrom(R13, Rdi), StoreIndex(R11)]
    case StoreAddr => seq(4, i => StoreIndex(R15))
  }

  function Prefix(kind: Kind): string {
    match kind
    case StoreQueue => "stq"
    case MixedQueue => "mixldqstq"
    case StoreData => "storedatasched"
    case MixedSched => "mixloadstoresched"
    case StoreAddr => "storeaddrsched"
  }

  function StoreTest(isa: Isa, kind: Kind): Test {
    var includePtrChasingLoads := kind == StoreQueue || kind == MixedQueue || (kind == MixedSched && isa == Amd);
    Test(Prefix(kind), Fillers(isa, kind), includePtrChasingLoads, true)
  }

  /** On RISC-V the store address test goes through the blocked emitter. */
  method GenerateRiscvAsm(sb: StringBuilder<Instr>, counts: seq<nat>, kind: Kind)
    requires kind != StoreAddr
    modifies sb
    ensures sb.lines == old(sb.lines) + Concat(ChainRiscv.Functions(StoreTest(Rv, kind), counts))
  {
    hide Concat, ChainRiscv.Functions, Fillers;
    ChainRiscv.GenerateRiscvAsmStructureTestFuncs(sb, counts, StoreTest(Rv, kind));
  }

  method GenerateX86GccAsm(sb: StringBuilder<Instr>, counts: seq<nat>, kind: Kind)
    modifies sb
    ensures sb.lines == old(sb.lines) + Concat(ChainX86.Functions(StoreTest(Amd, kind), counts))
  {
    hide Concat, ChainX86.Functions, Fillers;
    ChainX86.GenerateX86AsmStructureTestFuncs(sb, counts, StoreTest(Amd, kind));
  }

  /** All of these fillers leave chains of any length alone. */
  lemma StoresAllowed(isa: Isa, kind: Kind, records: nat)
    requires records >= 1 && (isa == Rv ==> kind != StoreAddr)
    ensures AllAllowed(isa, Fillers(isa, kind), records) && Guardless(Fillers(isa, kind))
  {
  }

  // ----- what a call executes

  /** How many fillers a test of the given count has: two fewer where the chasing loads are counted too. */
  function FillerTotal(isa: Isa, kind: Kind, count: nat): nat {
    var counted := kind == StoreQueue || kind == MixedQueue || (kind == MixedSched && isa == Amd);
    if !counted then count else if count < 2 then 0 else count - 2
  }

  function OffBase(r: Reg, offset: nat): Address {
    Address(r, I(0), By1, offset)
  }

  /** The m iterations of a call take a step along each chain and fence each time, and execute the stores and loads of the four
      slots in turn. */
  ghost predicate Counted(isa: Isa, kind: Kind, prog: Program, s: State, k: nat, count: nat, m: nat) {
    var n := FillerTotal(isa, kind, count);
    Chases(isa, prog, s, k, m, true)
    && match (isa, kind)
       case (Rv, StoreQueue) =>
         && Times(prog, s, k, Store(T5, OffBase(A1, 8)), m, Share(n, 4, 0)) && Times(prog, s, k, Store(T4, OffBase(A1, 8)), m, Share(n, 4, 1))
         && Times(prog, s, k, Store(T3, OffBase(A1, 8)), m, Share(n, 4, 2)) && Times(prog, s, k, Store(T2, OffBase(A1, 8)), m, Share(n, 4, 3))
       case (Amd, StoreQueue) =>
         && Times(prog, s, k, Store(R15, OffBase(Rdx, 8)), m, Share(n, 4, 0)) && Times(prog, s, k, Store(R14, OffBase(Rdx, 8)), m, Share(n, 4, 1))
         && Times(prog, s, k, Store(R13, OffBase(Rdx, 8)), m, Share(n, 4, 2)) && Times(prog, s, k, Store(R12, OffBase(Rdx, 8)), m, Share(n, 4, 3))
       case (Rv, MixedQueue) =>
         && Times(prog, s, k, Store(T5, OffBase(A1, 8)), m, Share(n, 4, 0)) && Times(prog, s, k, Load(T4, Full, OffBase(A1, 0)), m, Share(n, 4, 1))
         && Times(prog, s, k, Store(T3, OffBase(A1, 8)), m, Share(n, 4, 2)) && Times(prog, s, k, Load(T2, Full, OffBase(A1, 0)), m, Share(n, 4, 3))
       case (Amd, MixedQueue) =>
         && Times(prog, s, k, Store(R15, OffBase(Rdx, 8)), m, Share(n, 4, 0)) && Times(prog, s, k, Load(R14, Full, OffBase(Rdx, 0)), m, Share(n, 4, 1))
         && Times(prog, s, k, Store(R13, OffBase(Rdx, 8)), m, Share(n, 4, 2)) && Times(prog, s, k, Load(R12, Full, OffBase(Rdx, 0)), m, Share(n, 4, 3))
       case (Rv, StoreData) => Times(prog, s, k, Store(S1, OffBase(A1, 8)), m, count)
       case (Amd, StoreData) => Times(prog, s, k, Store(Rdi, OffBase(Rdx, 8)), m, count)
       case (Rv, MixedSched) =>
         && Times(prog, s, k, Load(T5, Full, OffBase(S1, 0)), m, Share(n, 4, 0)) && Times(prog, s, k, Store(T4, OffBase(S1, 8)), m, Share(n, 4, 1))
         && Times(prog, s, k, Load(T3, Full, OffBase(S1, 0)), m, Share(n, 4, 2)) && Times(prog, s, k, Store(T2, OffBase(S1, 8)), m, Share(n, 4, 3))
       case (Amd, MixedSched) =>
         && Times(prog, s, k, Load(R15, Full, OffBase(Rdi, 0)), m, Share(n, 4, 0))
         && Times(prog, s, k, Load(R13, Full, OffBase(Rdi, 0)), m, Share(n, 4, 2))
         && Times(prog, s, k, Store(R11, OffBase(Rdi, 8)), m, Share(n, 4, 1) + Share(n, 4, 3))
       case (Amd, StoreAddr) => Times(prog, s, k, Store(R15, OffBase(Rdi, 8)), m, count)
       case (Rv, StoreAddr) => true
  }

  /** The four slots hold one instruction each. */
  ghost predicate FourLines(isa: Isa, kind: Kind, x0: Instr, x1: Instr, x2: Instr, x3: Instr) {
    var f := FillerTexts(isa, Fillers(isa, kind));
    |f| == 4 && f[0] == [Op(x0)] && f[1] == [Op(x1)] && f[2] == [Op(x2)] && f[3] == [Op(x3)]
  }

  /** An instruction of the loop, by its slots. */
  lemma SlotTimes(isa: Isa, kind: Kind, prog: Program, s: State, k: nat, count: nat, m: nat, i: Instr, x0: Instr, x1: Instr, x2: Instr, x3: Instr)
    requires Counts(isa, prog, s, k, StoreTest(isa, kind), count, m)
    requires FourLines(isa, kind, x0, x1, x2, x3) && !FrameShape(i) && !i.Branch? && !(i.Alu? && i.b.I?)
    ensures Times(prog, s, k, i, m, Along(isa, i) + FromSlots(FillerTotal(isa, kind, count), i == x0, i == x1, i == x2, i == x3)
      + if i == Barrier then (if isa == Rv then 2 else 1) else 0)
  {
    hide Performed, Occurs, FillerTexts, FrameShape, Along, Counts, ChainText.Slots, Fillers, FromSlots;
    var f, n := FillerTexts(isa, Fillers(isa, kind)), FillerTotal(isa, kind, count);
    OneOccurs(Op(x0), i);
    OneOccurs(Op(x1), i);
    OneOccurs(Op(x2), i);
    OneOccurs(Op(x3), i);
    FourFillers(f, n, i, i == x0, i == x1, i == x2, i == x3);
    LoopTimes(isa, prog, s, k, StoreTest(isa, kind), count, m, i, InFillers(f, n, i));
  }

  /** Loads into registers off the chains, and stores. */
  predicate OffChains(isa: Isa, i: Instr) {
    i.Store? || (i.Load? && i.rd != Chase1(isa) && i.rd != Chase2(isa))
  }

  /** The slots' instructions leave the steps along the chains to the text around them. */
  ghost predicate Filling(isa: Isa, kind: Kind, x0: Instr, x1: Instr, x2: Instr, x3: Instr) {
    FourLines(isa, kind, x0, x1, x2, x3) && OffChains(isa, x0) && OffChains(isa, x1) && OffChains(isa, x2) && OffChains(isa, x3)
  }

  /** An instruction along a chain, or a fence. */
  lemma OutsideTimes(isa: Isa, kind: Kind, prog: Program, s: State, k: nat, count: nat, m: nat, i: Instr, x0: Instr, x1: Instr, x2: Instr, x3: Instr)
    requires Counts(isa, prog, s, k, StoreTest(isa, kind), count, m)
    requires Filling(isa, kind, x0, x1, x2, x3) && !FrameShape(i) && !i.Branch? && !(i.Alu? && i.b.I?) && !OffChains(isa, i)
    ensures Times(prog, s, k, i, m, Along(isa, i) + if i == Barrier then (if isa == Rv then 2 else 1) else 0)
  {
    hide Performed, Counts, FourLines, FillerTotal, Uses, Along, FrameShape, FromSlots;
    SlotTimes(isa, kind, prog, s, k, count, m, i, x0, x1, x2, x3);
    SlotsAre(FillerTotal(isa, kind, count));
  }

  /** One step along a chain. */
  lemma StepTimes(isa: Isa, r: Reg, kind: Kind, prog: Program, s: State, k: nat, count: nat, m: nat, x0: Instr, x1: Instr, x2: Instr, x3: Instr)
    requires Counts(isa, prog, s, k, StoreTest(isa, kind), count, m) && Filling(isa, kind, x0, x1, x2, x3)
    requires r == Chase1(isa) || r == Chase2(isa)
    ensures Times(prog, s, k, Load(r, Full, Address(r, I(0), By1, 0)), m, 1)
    ensures Times(prog, s, k, if isa == Rv then Riscv.Add(r, A1, r) else X86.AddRR(Rdx, r), m, 1)
  {
    hide Performed, Counts, Filling, Times;
    OutsideTimes(isa, kind, prog, s, k, count, m, Load(r, Full, Address(r, I(0), By1, 0)), x0, x1, x2, x3);
    OutsideTimes(isa, kind, prog, s, k, count, m, if isa == Rv then Riscv.Add(r, A1, r) else X86.AddRR(Rdx, r), x0, x1, x2, x3);
  }

  lemma KindChases(isa: Isa, kind: Kind, prog: Program, s: State, k: nat, count: nat, m: nat, x0: Instr, x1: Instr, x2: Instr, x3: Instr)
    requires Counts(isa, prog, s, k, StoreTest(isa, kind), count, m) && Filling(isa, kind, x0, x1, x2, x3)
    ensures Chases(isa, prog, s, k, m, true)
  {
    hide Performed, Counts, Filling, Times;
    StepTimes(isa, Chase1(isa), kind, prog, s, k, count, m, x0, x1, x2, x3);
    StepTimes(isa, Chase2(isa), kind, prog, s, k, count, m, x0, x1, x2, x3);
    OutsideTimes(isa, kind, prog, s, k, count, m, Barrier, x0, x1, x2, x3);
  }

  /** The instruction of a slot. */
  lemma FillerTimes(isa: Isa, kind: Kind, prog: Program, s: State, k: nat, count: nat, m: nat, i: Instr, x0: Instr, x1: Instr, x2: Instr, x3: Instr)
    requires Counts(isa, prog, s, k, StoreTest(isa, kind), count, m)
    requires Filling(isa, kind, x0, x1, x2, x3) && OffChains(isa, i) && !FrameShape(i)
    ensures Times(prog, s, k, i, m, FromSlots(FillerTotal(isa, kind, count), i == x0, i == x1, i == x2, i == x3))
  {
    hide Performed, Counts, FourLines, FillerTotal, FromSlots, FrameShape;
    SlotTimes(isa, kind, prog, s, k, count, m, i, x0, x1, x2, x3);
  }

  /** Everything a call executes besides frame and counter. */
  lemma KindCounts(isa: Isa, kind: Kind, prog: Program, s: State, k: nat, count: nat, m: nat, x0: Instr, x1: Instr, x2: Instr, x3: Instr)
    requires Counts(isa, prog, s, k, StoreTest(isa, kind), count, m)
    requires Filling(isa, kind, x0, x1, x2, x3) && !FrameShape(x0) && !FrameShape(x1) && !FrameShape(x2) && !FrameShape(x3)
    ensures Chases(isa, prog, s, k, m, true)
    ensures var n := FillerTotal(isa, kind, count);
      && Times(prog, s, k, x0, m, FromSlots(n, true, x0 == x1, x0 == x2, x0 == x3))
      && Times(prog, s, k, x1, m, FromSlots(n, x1 == x0, true, x1 == x2, x1 == x3))
      && Times(prog, s, k, x2, m, FromSlots(n, x2 == x0, x2 == x1, true, x2 == x3))
      && Times(prog, s, k, x3, m, FromSlots(n, x3 == x0, x3 == x1, x3 == x2, true))
  {
    hide Performed, Counts, FourLines, FillerTotal, FromSlots, FrameShape, Times, Chases;
    FillerTimes(isa, kind, prog, s, k, count, m, x0, x0, x1, x2, x3);
    FillerTimes(isa, kind, prog, s, k, count, m, x1, x0, x1, x2, x3);
    FillerTimes(isa, kind, prog, s, k, count, m, x2, x0, x1, x2, x3);
    FillerTimes(isa, kind, prog, s, k, count, m, x3, x0, x1, x2, x3);
    KindChases(isa, kind, prog, s, k, count, m, x0, x1, x2, x3);
  }

  lemma StoreQueueRiscvLines()
    ensures Filling(Rv, StoreQueue, Store(T5, OffBase(A1, 8)), Store(T4, OffBase(A1, 8)),
      Store(T3, OffBase(A1, 8)), Store(T2, OffBase(A1, 8)))
  {
  }

  lemma StoreQueueRiscv(prog: Program, s: State, k: nat, count: nat, m: nat)
    requires Counts(Rv, prog, s, k, StoreTest(Rv, StoreQueue), count, m)
    ensures Counted(Rv, StoreQueue, prog, s, k, count, m)
  {
    hide Performed, Counts, Share, FillerTotal, FromSlots, Chases, Times, Filling, Fillers, Prefix;
    StoreQueueRiscvLines();
    KindCounts(Rv, StoreQueue, prog, s, k, count, m, Store(T5, OffBase(A1, 8)), Store(T4, OffBase(A1, 8)),
      Store(T3, OffBase(A1, 8)), Store(T2, OffBase(A1, 8)));
    SlotsAre(FillerTotal(Rv, StoreQueue, count));
  }

  lemma StoreQueueX86Lines()
    ensures Filling(Amd, StoreQueue, Store(R15, OffBase(Rdx, 8)), Store(R14, OffBase(Rdx, 8)),
      Store(R13, OffBase(Rdx, 8)), Store(R12, OffBase(Rdx, 8)))
  {
  }

  lemma StoreQueueX86(prog: Program, s: State, k: nat, count: nat, m: nat)
    requires Counts(Amd, prog, s, k, StoreTest(Amd, StoreQueue), count, m)
    ensures Counted(Amd, StoreQueue, prog, s, k, count, m)
  {
    hide Performed, Counts, Share, FillerTotal, FromSlots, Chases, Times, Filling, Fillers, Prefix;
    StoreQueueX86Lines();
    KindCounts(Amd, StoreQueue, prog, s, k, count, m, Store(R15, OffBase(Rdx, 8)), Store(R14, OffBase(Rdx, 8)),
      Store(R13, OffBase(Rdx, 8)), Store(R12, OffBase(Rdx, 8)));
    SlotsAre(FillerTotal(Amd, StoreQueue, count));
  }

  lemma MixedQueueRiscvLines()
    ensures Filling(Rv, MixedQueue, Store(T5, OffBase(A1, 8)), Load(T4, Full, OffBase(A1, 0)),
      Store(T3, OffBase(A1, 8)), Load(T2, Full, OffBase(A1, 0)))
  {
  }

  lemma MixedQueueRiscv(prog: Program, s: State, k: nat, count: nat, m: nat)
    requires Counts(Rv, prog, s, k, StoreTest(Rv, MixedQueue), count, m)
    ensures Counted(Rv, MixedQueue, prog, s, k, count, m)
  {
    hide Performed, Counts, Share, FillerTotal, FromSlots, Chases, Times, Filling, Fillers, Prefix;
    MixedQueueRiscvLines();
    KindCounts(Rv, MixedQueue, prog, s, k, count, m, Store(T5, OffBase(A1, 8)), Load(T4, Full, OffBase(A1, 0)),
      Store(T3, OffBase(A1, 8)), Load(T2, Full, OffBase(A1, 0)));
    SlotsAre(FillerTotal(Rv, MixedQueue, count));
  }

  lemma MixedQueueX86Lines()
    ensures Filling(Amd, MixedQueue, Store(R15, OffBase(Rdx, 8)), Load(R14, Full, OffBase(Rdx, 0)),
      Store(R13, OffBase(Rdx, 8)), Load(R12, Full, OffBase(Rdx, 0)))
  {
  }

  lemma MixedQueueX86(prog: Program, s: State, k: nat, count: nat, m: nat)
    requires Counts(Amd, prog, s, k, StoreTest(Amd, MixedQueue), count, m)
    ensures Counted(Amd, MixedQueue, prog, s, k, count, m)
  {
    hide Performed, Counts, Share, FillerTotal, FromSlots, Chases, Times, Filling, Fillers, Prefix;
    MixedQueueX86Lines();
    KindCounts(Amd, MixedQueue, prog, s, k, count, m, Store(R15, OffBase(Rdx, 8)), Load(R14, Full, OffBase(Rdx, 0)),
      Store(R13, OffBase(Rdx, 8)), Load(R12, Full, OffBase(Rdx, 0)));
    SlotsAre(FillerTotal(Amd, MixedQueue, count));
  }

  lemma StoreDataRiscvLines()
    ensures Filling(Rv, StoreData, Store(S1, OffBase(A1, 8)), Store(S1, OffBase(A1, 8)),
      Store(S1, OffBase(A1, 8)), Store(S1, OffBase(A1, 8)))
  {
  }

  lemma StoreDataRiscv(prog: Program, s: State, k: nat, count: nat, m: nat)
    requires Counts(Rv, prog, s, k, StoreTest(Rv, StoreData), count, m)
    ensures Counted(Rv, StoreData, prog, s, k, count, m)
  {
    hide Performed, Counts, Share, FromSlots, Chases, Times, Filling, Fillers, Prefix;
    StoreDataRiscvLines();
    KindCounts(Rv, StoreData, prog, s, k, count, m, Store(S1, OffBase(A1, 8)), Store(S1, OffBase(A1, 8)),
      Store(S1, OffBase(A1, 8)), Store(S1, OffBase(A1, 8)));
    SlotsAre(FillerTotal(Rv, StoreData, count));
  }

  lemma StoreDataX86Lines()
    ensures Filling(Amd, StoreData, Store(Rdi, OffBase(Rdx, 8)), Store(Rdi, OffBase(Rdx, 8)),
      Store(Rdi, OffBase(Rdx, 8)), Store(Rdi, OffBase(Rdx, 8)))
  {
  }

  lemma StoreDataX86(prog: Program, s: State, k: nat, count: nat, m: nat)
    requires Counts(Amd, prog, s, k, StoreTest(Amd, StoreData), count, m)
    ensures Counted(Amd, StoreData, prog, s, k, count, m)
  {
    hide Performed, Counts, Share, FromSlots, Chases, Times, Filling, Fillers, Prefix;
    StoreDataX86Lines();
    KindCounts(Amd, StoreData, prog, s, k, count, m, Store(Rdi, OffBase(Rdx, 8)), Store(Rdi, OffBase(Rdx, 8)),
      Store(Rdi, OffBase(Rdx, 8)), Store(Rdi, OffBase(Rdx, 8)));
    SlotsAre(FillerTotal(Amd, StoreData, count));
  }

  lemma MixedSchedRiscvLines()
    ensures Filling(Rv, MixedSched, Load(T5, Full, OffBase(S1, 0)), Store(T4, OffBase(S1, 8)),
      Load(T3, Full, OffBase(S1, 0)), Store(T2, OffBase(S1, 8)))
  {
  }

  lemma MixedSchedRiscv(prog: Program, s: State, k: nat, count: nat, m: nat)
    requires Counts(Rv, prog, s, k, StoreTest(Rv, MixedSched), count, m)
    ensures Counted(Rv, MixedSched, prog, s, k, count, m)
  {
    hide Performed, Counts, Share, FillerTotal, FromSlots, Chases, Times, Filling, Fillers, Prefix;
    MixedSchedRiscvLines();
    KindCounts(Rv, MixedSched, prog, s, k, count, m, Load(T5, Full, OffBase(S1, 0)), Store(T4, OffBase(S1, 8)),
      Load(T3, Full, OffBase(S1, 0)), Store(T2, OffBase(S1, 8)));
    SlotsAre(FillerTotal(Rv, MixedSched, count));
  }

  lemma MixedSchedX86Lines()
    ensures Filling(Amd, MixedSched, Load(R15, Full, OffBase(Rdi, 0)), Store(R11, OffBase(Rdi, 8)),
      Load(R13, Full, OffBase(Rdi, 0)), Store(R11, OffBase(Rdi, 8)))
  {
  }

  lemma MixedSchedX86(prog: Program, s: State, k: nat, count: nat, m: nat)
    requires Counts(Amd, prog, s, k, StoreTest(Amd, MixedSched), count, m)
    ensures Counted(Amd, MixedSched, prog, s, k, count, m)
  {
    hide Performed, Counts, Share, FillerTotal, FromSlots, Chases, Times, Filling, Fillers, Prefix;
    MixedSchedX86Lines();
    KindCounts(Amd, MixedSched, prog, s, k, count, m, Load(R15, Full, OffBase(Rdi, 0)), Store(R11, OffBase(Rdi, 8)),
      Load(R13, Full, OffBase(Rdi, 0)), Store(R11, OffBase(Rdi, 8)));
    SlotsAre(FillerTotal(Amd, MixedSched, count));
  }

  lemma StoreAddrX86Lines()
    ensures Filling(Amd, StoreAddr, Store(R15, OffBase(Rdi, 8)), Store(R15, OffBase(Rdi, 8)),
      Store(R15, OffBase(Rdi, 8)), Store(R15, OffBase(Rdi, 8)))
  {
  }

  lemma StoreAddrX86(prog: Program, s: State, k: nat, count: nat, m: nat)
    requires Counts(Amd, prog, s, k, StoreTest(Amd, StoreAddr), count, m)
    ensures Counted(Amd, StoreAddr, prog, s, k, count, m)
  {
    hide Performed, Counts, Share, FromSlots, Chases, Times, Filling, Fillers, Prefix;
    StoreAddrX86Lines();
    KindCounts(Amd, StoreAddr, prog, s, k, count, m, Store(R15, OffBase(Rdi, 8)), Store(R15, OffBase(Rdi, 8)),
      Store(R15, OffBase(Rdi, 8)), Store(R15, OffBase(Rdi, 8)));
    SlotsAre(FillerTotal(Amd, StoreAddr, count));
  }

  /** The emitted RISC-V store tests, for any list of distinct counts and any cycle in the records: the call returns in order
      with every register but the counter as before and every line of the loop passed m times; the stores have written
      index fields only, so the records still link the same cycle and the chains followed it all along. */
  lemma RiscvTest(counts: seq<nat>, kind: Kind, count: nat, s: State, base: nat, p: seq<nat>, m: nat)
    requires kind != StoreAddr && Distinct(counts) && count in counts && ChainRiscv.Callable(s, base, p, m)
    requires var t := StoreTest(Rv, kind); Resolve(Concat(ChainRiscv.Functions(t, counts)), TestTop(t.prefix, count)) == Some(s.pc)
    ensures var t := StoreTest(Rv, kind);
      ChainRiscv.Completed(Concat(ChainRiscv.Functions(t, counts)), s, ChainRiscv.Steps(t, count, m), t, count, base, p, m)
    ensures var t := StoreTest(Rv, kind); Counted(Rv, kind, Concat(ChainRiscv.Functions(t, counts)), s, ChainRiscv.Steps(t, count, m), count, m)
  {
    hide Run, Get, Embedded, Concat, ChainRiscv.Functions, Loop, Resolve, ChainRiscv.Completed, Fillers, Prefix, AllAllowed,
      ChainRiscv.Steps, ChainRiscv.Callable, Guardless, Counted, Counts;
    ChainRiscv.CallableCycle(s, base, p, m);
    StoresAllowed(Rv, kind, |p|);
    var t := StoreTest(Rv, kind);
    ChainRiscv.ListedRuns(t, counts, count, s, base, p, m);
    var prog, k := Concat(ChainRiscv.Functions(t, counts)), ChainRiscv.Steps(t, count, m);
    ChainRiscv.CompletedReturns(prog, s, k, t, count, base, p, m);
    RiscvCounts(kind, prog, s, k, count, m);
  }

  lemma RiscvCounts(kind: Kind, prog: Program, s: State, k: nat, count: nat, m: nat)
    requires Counts(Rv, prog, s, k, StoreTest(Rv, kind), count, m) && kind != StoreAddr
    ensures Counted(Rv, kind, prog, s, k, count, m)
  {
    hide Counts, Counted;
    match kind
    case StoreQueue => StoreQueueRiscv(prog, s, k, count, m);
    case MixedQueue => MixedQueueRiscv(prog, s, k, count, m);
    case StoreData => StoreDataRiscv(prog, s, k, count, m);
    case MixedSched => MixedSchedRiscv(prog, s, k, count, m);
  }

  /** The same on x86, with every register restored. */
  lemma X86Test(counts: seq<nat>, kind: Kind, count: nat, s: State, base: nat, p: seq<nat>, m: nat)
    requires Distinct(counts) && count in counts && ChainX86.Callable(s, base, p, m)
    requires var t := StoreTest(Amd, kind); Resolve(Concat(ChainX86.Functions(t, counts)), TestTop(t.prefix, count)) == Some(s.pc)
    ensures var t := StoreTest(Amd, kind);
      ChainX86.Completed(Concat(ChainX86.Functions(t, counts)), s, ChainX86.Steps(t, count, m), t, count, base, p, m)
    ensures var t := StoreTest(Amd, kind); Counted(Amd, kind, Concat(ChainX86.Functions(t, counts)), s, ChainX86.Steps(t, count, m), count, m)
  {
    hide Run, Get, Embedded, Concat, ChainX86.Functions, Loop, Resolve, ChainX86.Completed, Fillers, Prefix, AllAllowed,
      ChainX86.Steps, ChainX86.Callable, Guardless, Counted, Counts;
    ChainX86.CallableCycle(s, base, p, m);
    StoresAllowed(Amd, kind, |p|);
    var t := StoreTest(Amd, kind);
    ChainX86.ListedRuns(t, counts, count, s, base, p, m);
    var prog, k := Concat(ChainX86.Functions(t, counts)), ChainX86.Steps(t, count, m);
    ChainX86.CompletedReturns(prog, s, k, t, count, base, p, m);
    X86Counts(kind, prog, s, k, count, m);
  }

  lemma X86Counts(kind: Kind, prog: Program, s: State, k: nat, count: nat, m: nat)
    requires Counts(Amd, prog, s, k, StoreTest(Amd, kind), count, m)
    ensures Counted(Amd, kind, prog, s, k, count, m)
  {
    hide Counts, Counted;
    match kind
    case StoreQueue => StoreQueueX86(prog, s, k, count, m);
    case MixedQueue => MixedQueueX86(prog, s, k, count, m);
    case StoreData => StoreDataX86(prog, s, k, count, m);
    case MixedSched => MixedSchedX86(prog, s, k, count, m);
    case StoreAddr => StoreAddrX86(prog, s, k, count, m);
  }

  // ----- the store address test on RISC-V

  /** The m iterations of a call divide 1234567 by 3 four times over, hand the data's address to s1, store 8 bytes behind it
      once per filler, and fence twice. */
  ghost predicate AddrCounted(prog: Program, s: State, k: nat, count: nat, m: nat) {
    && Times(prog, s, k, Riscv.Li(T0, 1234567), m, 1) && Times(prog, s, k, Riscv.Li(T1, 3), m, 1)
    && Times(prog, s, k, Riscv.Divu(T0, T0, T1), m, 4) && Times(prog, s, k, Riscv.Add(S1, A1, T0), m, 1)
    && Times(prog, s, k, Store(T6, OffBase(S1, 8)), m, count) && Times(prog, s, k, Barrier, m, 2)
  }

  /** An instruction of the loop. */
  lemma AddrTimes(prog: Program, s: State, k: nat, count: nat, m: nat, i: Instr)
    requires Performs(Rv, prog, s, k, AddrTest(), count, m) && !FrameShape(i) && CountsDown(Rv, TestStart("storeaddrsched", count), i) == 0
    ensures Times(prog, s, k, i, m, Occurs(BlockedRiscv.DivBlocker(4, Some(S1)), i) + (if i == Store(T6, OffBase(S1, 8)) then count else 0)
      + if i == Barrier then 2 else 0)
  {
    hide Performed, Occurs, FrameShape, AddrFillers, BlockedRiscv.DivBlocker, PerIteration, FromSlots, CountsDown, ThroughputListing.PrologueOf,
      ThroughputListing.EpilogueOf;
    FrameOccurs(Rv, i);
    NoneOccurs(i);
    AddrFillerOccurs(i);
    var here := i == Store(T6, OffBase(S1, 8));
    FourFillers(AddrFillers(), count, i, here, here, here, here);
    SlotsAre(count);
    AddrIteration(count, i);
  }

  lemma AddrIteration(count: nat, i: Instr)
    ensures PerIteration(Rv, AddrTest(), count, i)
         == Occurs(BlockedRiscv.DivBlocker(4, Some(S1)), i) + InFillers(AddrFillers(), count, i) + (if i == Barrier then 2 else 0)
            + CountsDown(Rv, TestStart("storeaddrsched", count), i)
  {
    hide Occurs, AddrFillers, BlockedRiscv.DivBlocker, CountsDown, InFillers;
    NoneOccurs(i);
  }

  lemma AddrFillerOccurs(i: Instr)
    ensures forall j :: 0 <= j < 4 ==> Occurs(AddrFillers()[j], i) == One(i == Store(T6, OffBase(S1, 8)))
  {
    hide Occurs;
    OneOccurs(Op(Store(T6, OffBase(S1, 8))), i);
  }

  lemma AddrCounts(prog: Program, s: State, k: nat, count: nat, m: nat)
    requires Performs(Rv, prog, s, k, AddrTest(), count, m)
    ensures AddrCounted(prog, s, k, count, m)
  {
    hide Performed, Performs, Times, AddrTest, BlockedRiscv.DivBlocker;
    BlockerTimes(prog, s, k, count, m, Riscv.Li(T0, 1234567));
    BlockerTimes(prog, s, k, count, m, Riscv.Li(T1, 3));
    BlockerTimes(prog, s, k, count, m, Riscv.Divu(T0, T0, T1));
    BlockerTimes(prog, s, k, count, m, Riscv.Add(S1, A1, T0));
    BlockerTimes(prog, s, k, count, m, Store(T6, OffBase(S1, 8)));
    BlockerTimes(prog, s, k, count, m, Barrier);
  }

  lemma BlockerTimes(prog: Program, s: State, k: nat, count: nat, m: nat, i: Instr)
    requires Performs(Rv, prog, s, k, AddrTest(), count, m) && !FrameShape(i) && CountsDown(Rv, TestStart("storeaddrsched", count), i) == 0
    ensures Times(prog, s, k, i, m, BlockedRiscv.InBlocker(4, S1, i) + (if i == Store(T6, OffBase(S1, 8)) then count else 0)
      + if i == Barrier then 2 else 0)
  {
    hide Performs, Times, AddrTest, BlockedRiscv.DivBlocker, FrameShape, CountsDown, BlockedRiscv.InBlocker;
    AddrTimes(prog, s, k, count, m, i);
    BlockedRiscv.BlockerOccurs(4, S1, i);
  }

  /** A store at offset 8 of the register the blocker loads. */
  function AddrFillers(): (f: seq<Program>)
    ensures |f| == 4
  {
    seq(4, i => [Op(Store(T6, Address(S1, I(0), By1, 8)))])
  }

  function AddrTest(): Throughput {
    BlockedRiscv.Blocked(Prefix(StoreAddr), AddrFillers(), [], 4, Some(S1), true)
  }

  method GenerateRiscvAddrAsm(sb: StringBuilder<Instr>, counts: seq<nat>)
    modifies sb
    ensures sb.lines == old(sb.lines) + Concat(ThroughputListing.Functions(Rv, AddrTest(), counts))
  {
    hide Concat, ThroughputListing.Functions, BlockedRiscv.DivBlocker, AddrFillers;
    BlockedRiscv.GenerateRiscvAsmBlockedStructureTestFuncs(sb, counts, Prefix(StoreAddr), AddrFillers(), [], 4, Some(S1), true);
  }

  lemma AddrRespects()
    ensures BlockedRiscv.BlockedRespects(AddrFillers(), [], S1, {}, {8}) && TextsUnlabelled(AddrTest())
  {
  }

  /** Eight bytes written at offset 8 of the records, besides the frame, leave their links. */
  lemma LinksKept(m: Memory, m': Memory, lo: nat, hi: nat, base: Word, p: seq<nat>)
    requires Records(m, base, p) && (base + RECORD * |p| <= lo || hi <= base) && WroteOnly(m, m', lo, hi, base, {8})
    ensures Records(m', base, p)
  {
    hide Load64, ByteAt;
    forall i | 0 <= i < |p|
      ensures Load64(m', base + RECORD * i) == RECORD * p[i]
    {
      forall x: nat | base + RECORD * i <= x < base + RECORD * i + 8
        ensures ByteAt(m, x) == ByteAt(m', x)
      {
        IndexApart(base, p, i, x);
      }
      Load64Agree(m, m', base + RECORD * i);
    }
  }

  lemma IndexApart(base: Word, p: seq<nat>, i: nat, x: nat)
    requires i < |p| && base + RECORD * |p| <= TWO64 && base + RECORD * i <= x < base + RECORD * i + 8
    ensures Apart({8}, base, x, x + 1)
  {
  }

  /** The emitted RISC-V store address test, for any list of distinct counts and any cycle in the records: every call returns
      with every saved register as before and every line of the loop passed m times; all its stores are to the first
      record's index field, so the records still link the same cycle. */
  lemma RiscvAddrTest(counts: seq<nat>, count: nat, s: State, base: Word, p: seq<nat>, m: nat)
    requires Distinct(counts) && count in counts && ThroughputRiscv.CalledWith(s, m) && Get(s, A1) == base
    requires Resolve(Concat(ThroughputListing.Functions(Rv, AddrTest(), counts)), TestTop(Prefix(StoreAddr), count)) == Some(s.pc)
    requires Records(s.mem, base, p) && p != [] && (base + RECORD * |p| <= Get(s, Sp) - 80 || Get(s, Sp) <= base)
    ensures var prog := Concat(ThroughputListing.Functions(Rv, AddrTest(), counts));
      var k := ThroughputRiscv.Steps(AddrTest(), count, m); var e := Run(prog, s, k);
      && ThroughputRiscv.Completed(prog, s, k, AddrTest(), count, {T0, T1, S1}, m)
      && WroteOnly(s.mem, e.mem, Get(s, Sp) - 80, Get(s, Sp), base, {8}) && Records(e.mem, base, p)
      && AddrCounted(prog, s, k, count, m)
  {
    hide Run, Get, Embedded, Concat, CountedLoop, ThroughputListing.Fn, ThroughputListing.Functions, Resolve, ThroughputRiscv.Completed,
      AddrFillers, Prefix, BlockedRiscv.DivBlocker, BlockedRiscv.BlockedRespects, TextsUnlabelled, Records, WroteOnly, Wrap, Apart,
      Performs, AddrCounted;
    var prog := Concat(ThroughputListing.Functions(Rv, AddrTest(), counts));
    AddrRespects();
    var at := ThroughputListing.Found(Rv, AddrTest(), counts, count);
    IndexOffFrame(s.mem, base, p, Get(s, Sp) - 80, Get(s, Sp));
    BlockedRiscv.FunctionRuns(prog, AddrFillers(), [], S1, {}, {8}, Prefix(StoreAddr), 4, true, count, s, m);
    assert {} + BlockedRiscv.Blocks(S1) == {T0, T1, S1};
    var k := ThroughputRiscv.Steps(AddrTest(), count, m);
    LinksKept(s.mem, Run(prog, s, k).mem, Get(s, Sp) - 80, Get(s, Sp), base, p);
    AddrCompleted(prog, s, k, count, m);
    AddrCounts(prog, s, k, count, m);
  }

  lemma AddrCompleted(prog: Program, s: State, k: nat, count: nat, m: nat)
    requires ThroughputRiscv.Completed(prog, s, k, AddrTest(), count, {T0, T1, S1}, m)
    ensures Performs(Rv, prog, s, k, AddrTest(), count, m)
  {
    hide Run, ThroughputRiscv.Home, PassedTimes, RoundRobin, Performs, AddrFillers, CountedLoop;
  }

  lemma IndexOffFrame(m: Memory, base: Word, p: seq<nat>, lo: nat, hi: nat)
    requires Records(m, base, p) && p != [] && (base + RECORD * |p| <= lo || hi <= base)
    ensures Apart({8}, base, lo, hi)
  {
    hide Load64;
  }
}
