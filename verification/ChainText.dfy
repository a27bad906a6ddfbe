/** The structure-test emitters: the throughput emitters with a step along a pointer chain before the fillers and one
    along another behind them. */
module ChainText {
  import opened Words
  import opened Listing
  import opened Machine
  import opened Symbols
  import opened DataFile
  import opened ThroughputText
  import Riscv
  import X86

  /** The registers that follow the two chains. */
  function Chase1(isa: Isa): Reg { if isa == Rv then S1 else Rdi }
  function Chase2(isa: Isa): Reg { if isa == Rv then S2 else Rsi }

  /** Registers a filler may write: saved by the emitted prologue and not used by the loop itself. */
  predicate Free(isa: Isa, r: Reg) {
    if isa == Rv then r == T0 || r == T1 || r == T2 || r == T3 || r == T4 || r == T5 || r == T6
    else r == R8 || r == R10 || r == R11 || r == R12 || r == R13 || r == R14 || r == R15
  }

  /** A filler string: computations and loads into free registers; the compare of the two chains that jumps
      to the trap; a store through the first chain pointer to the index field of its record; or a store at a
      constant offset from the start of the records. */
  datatype Filler = Plain(instrs: seq<Instr>) | Guard | StoreIndex(rs: Reg) | StoreBase(rs: Reg, offset: nat)

  predicate Quiet(isa: Isa, i: Instr) {
    match i
    case Nop => true
    case Barrier => true
    case Compare(_, _, _) => true
    case Alu(rd, _, _, _, _) => Free(isa, rd)
    case Select(rd, _, _) => Free(isa, rd)
    case Load(rd, _, _) => Free(isa, rd)
    case _ => false
  }

  /** The fillers that leave the chains of so many records alone. */
  ghost predicate Allowed(isa: Isa, f: Filler, records: nat) {
    && (f.Plain? ==> forall i :: 0 <= i < |f.instrs| ==> Quiet(isa, f.instrs[i]))
    && (f.StoreBase? ==> f.offset < RECORD * records && f.offset % RECORD == 8)
  }

  function Ops(instrs: seq<Instr>): (p: Program)
    ensures |p| == |instrs|
  {
    seq(|instrs|, i requires 0 <= i < |instrs| => Op(instrs[i]))
  }

  function FillerLines(isa: Isa, f: Filler): Program {
    match f
    case Plain(instrs) => Ops(instrs)
    case Guard =>
      if isa == Rv then [Op(Riscv.Beq(S1, S2, JumpTrap))]
      else [Op(Compare(Minus, R(Rsi), R(Rdi))), Op(X86.Je(JumpTrap))]
    case StoreIndex(rs) => [Op(Store(rs, Address(Chase1(isa), I(0), By1, 8)))]
    case StoreBase(rs, offset) => [Op(Store(rs, Address(Base(isa), I(0), By1, offset)))]
  }

  /** One step along a chain: load the successor's offset and add the start of the records. */
  function ChaseLines(isa: Isa, r: Reg): (p: Program)
    ensures |p| == 2
  {
    [ Op(Load(r, Full, Address(r, I(0), By1, 0))),
      Op(if isa == Rv then Riscv.Add(r, A1, r) else X86.AddRR(Rdx, r))]
  }

  function InitLines(isa: Isa): (p: Program)
    ensures |p| == 2
  {
    if isa == Rv then [Op(Riscv.Addi(S1, A1, 0)), Op(Riscv.Addi(S2, A1, 0x100))]
    else [Op(X86.Lea(0x0, Rdx, Rdi)), Op(X86.Lea(0x100, Rdx, Rsi))]
  }

  /** A test: its name, its fillers, whether its counts include the two chasing loads, and whether it fences. */
  datatype Test = Test(prefix: string, fillers: seq<Filler>, includePtrChasingLoads: bool, fence: bool)

  function FillerTexts(isa: Isa, fillers: seq<Filler>): (r: seq<Program>)
    ensures |r| == |fillers|
  {
    seq(|fillers|, i requires 0 <= i < |fillers| => FillerLines(isa, fillers[i]))
  }

  function ChainBody(isa: Isa, fillers: seq<Filler>, fence: bool): Body {
    Body(ChaseLines(isa, Chase1(isa)), [], FillerTexts(isa, fillers), ChaseLines(isa, Chase2(isa)), fence)
  }

  /** The throughput test that a structure test is emitted as. */
  function Structure(isa: Isa, t: Test): Throughput {
    Throughput(t.prefix, InitLines(isa), ChainBody(isa, t.fillers, t.fence), t.includePtrChasingLoads)
  }

  function Slots(t: Test, count: nat): nat {
    FillerCount(count, t.includePtrChasingLoads)
  }

  /** The filler array has an entry to take. */
  predicate Supplied(t: Test, count: nat) {
    Slots(t, count) > 0 ==> t.fillers != []
  }

  lemma AllAssigned(isa: Isa, t: Test, counts: seq<nat>)
    requires forall i :: 0 <= i < |counts| ==> Supplied(t, counts[i])
    ensures forall i :: 0 <= i < |counts| ==> Assigned(Structure(isa, t), counts[i])
  {
    hide ChaseLines, InitLines, FillerTexts;
    forall i | 0 <= i < |counts|
      ensures Assigned(Structure(isa, t), counts[i])
    {
      assert Supplied(t, counts[i]);
    }
  }

  function FillerPieces(isa: Isa, fillers: seq<Filler>, n: nat): (r: seq<Program>)
    requires n > 0 ==> fillers != []
    ensures |r| == n
  {
    Pieces(FillerTexts(isa, fillers), n)
  }

  lemma PieceIs(isa: Isa, fillers: seq<Filler>, n: nat, k: nat)
    requires k < n && fillers != []
    ensures FillerPieces(isa, fillers, n)[k] == FillerLines(isa, fillers[k % |fillers|])
  {
    hide FillerLines;
  }

  function Loop(isa: Isa, start: Symbol, fillers: seq<Filler>, n: nat, fence: bool): Program
    requires n > 0 ==> fillers != []
  {
    CountedLoop(isa, start, ChainBody(isa, fillers, fence), n)
  }

  function TestLoop(isa: Isa, t: Test, count: nat): Program
    requires Supplied(t, count)
  {
    Loop(isa, TestStart(t.prefix, count), t.fillers, Slots(t, count), t.fence)
  }

  // ----- labels

  lemma FillerUnlabelled(isa: Isa, f: Filler)
    ensures Unlabelled(FillerLines(isa, f))
  {
  }

  lemma FixedUnlabelled(isa: Isa, r: Reg)
    ensures Unlabelled(ChaseLines(isa, r)) && Unlabelled(InitLines(isa)) && Unlabelled<Instr>([])
  {
  }

  /** The texts of a structure test have no labels. */
  lemma StructureUnlabelled(isa: Isa, t: Test)
    ensures TextsUnlabelled(Structure(isa, t))
  {
    hide FillerLines, ChaseLines, InitLines;
    FixedUnlabelled(isa, Chase1(isa));
    FixedUnlabelled(isa, Chase2(isa));
    forall i | 0 <= i < |t.fillers|
      ensures Unlabelled(FillerTexts(isa, t.fillers)[i])
    {
      FillerUnlabelled(isa, t.fillers[i]);
    }
  }
}
