/** Running the loop of a structure test on a machine whose memory holds the records of a cycle. */
module ChainLoop {
  import opened Words
  import opened Listing
  import opened Machine
  import opened Symbols
  import opened Cycles
  import opened DataFile
  import opened Trace
  import opened ThroughputText
  import opened ThroughputRun
  import opened ChainText

  /** The chain pointers of s are at the records x and y. */
  ghost predicate Chasing(isa: Isa, s: State, base: nat, p: seq<nat>, x: nat, y: nat) {
    && s.ok && x < |p| && y < |p| && Records(s.mem, base, p) && Get(s, Base(isa)) == base
    && Get(s, Chase1(isa)) == base + RECORD * x && Get(s, Chase2(isa)) == base + RECORD * y
  }

  /** From s to e only free registers and index fields of the records changed. */
  ghost predicate Filled(isa: Isa, s: State, e: State, base: nat, n: nat) {
    && e.ok && e.low == s.low && e.log == s.log && SameOffIndex(s.mem, e.mem, base, n)
    && forall r :: !Free(isa, r) ==> Get(e, r) == Get(s, r)
  }

  lemma LoopRegisters(isa: Isa)
    ensures !Free(isa, Base(isa)) && !Free(isa, Chase1(isa)) && !Free(isa, Chase2(isa)) && !Free(isa, Counter(isa))
    ensures !Free(isa, Sp) && !Free(isa, Zero) && Base(isa) != Zero && Chase1(isa) != Zero && Chase2(isa) != Zero
  {
  }

  lemma FilledNone(isa: Isa, s: State, base: nat, n: nat)
    requires s.ok
    ensures Filled(isa, s, s, base, n)
  {
    hide Get, Free, ByteAt;
  }

  lemma FilledTrans(isa: Isa, s: State, s': State, e: State, base: nat, n: nat)
    requires Filled(isa, s, s', base, n) && Filled(isa, s', e, base, n)
    ensures Filled(isa, s, e, base, n)
  {
    hide Get, Free, SameOffIndex;
    SameOffTrans(s.mem, s'.mem, e.mem, base, n);
  }

  /** Fillers leave the chain pointers and the records' links alone. */
  lemma FilledChasing(isa: Isa, s: State, e: State, base: nat, p: seq<nat>, x: nat, y: nat)
    requires Chasing(isa, s, base, p, x, y) && Filled(isa, s, e, base, |p|)
    ensures Chasing(isa, e, base, p, x, y)
  {
    hide Get, Free, SameOffIndex, Records;
    LoopRegisters(isa);
    RecordsKept(s.mem, e.mem, base, p);
  }

  // ----- plain fillers

  lemma QuietStep(isa: Isa, prog: Program, s: State, i: Instr, base: nat, n: nat)
    requires Ready(prog, s, s.pc, i) && Quiet(isa, i)
    ensures var e := Step(prog, s); Filled(isa, s, e, base, n) && e.pc == s.pc + 1
  {
    hide Eval, Effective, Fetch, Free, IndexByte, ByteAt;
    LoopRegisters(isa);
  }

  lemma QuietFallsThrough(isa: Isa, i: Instr)
    requires Quiet(isa, i)
    ensures FallsThrough(i)
  {
  }

  lemma {:induction false} PlainRuns(isa: Isa, prog: Program, s: State, instrs: seq<Instr>, n: nat, base: nat, size: nat)
    requires s.ok && Embedded(prog, s.pc, Ops(instrs)) && n <= |instrs|
    requires forall i :: 0 <= i < |instrs| ==> Quiet(isa, instrs[i])
    ensures Straight(prog, s, n) && Filled(isa, s, Run(prog, s, n), base, size)
    decreases n
  {
    hide Run, Step, Straight, Filled, Embedded, Quiet;
    if n == 0 {
      StraightNone(prog, s);
      RunNone(prog, s);
      FilledNone(isa, s, base, size);
    } else {
      PlainRuns(isa, prog, s, instrs, n - 1, base, size);
      var e := Run(prog, s, n - 1);
      StraightEnd(prog, s, n - 1);
      OkFilled(isa, s, e, base, size);
      EmbedLines(prog, s.pc, Ops(instrs));
      assert Ops(instrs)[n - 1] == Op(instrs[n - 1]);
      QuietStep(isa, prog, e, instrs[n - 1], base, size);
      QuietFallsThrough(isa, instrs[n - 1]);
      StraightOne(prog, e);
      RunSingle(prog, e);
      StraightAdd(prog, s, n - 1, 1);
      RunAdd(prog, s, n - 1, 1);
      FilledTrans(isa, s, e, Step(prog, e), base, size);
    }
  }

  lemma StraightEnd(prog: Program, s: State, m: nat)
    requires Straight(prog, s, m)
    ensures Run(prog, s, m).pc == s.pc + m
  {
    hide Run;
  }

  lemma OkFilled(isa: Isa, s: State, e: State, base: nat, n: nat)
    requires Filled(isa, s, e, base, n)
    ensures e.ok && e.log == s.log && e.low == s.low
  {
  }

  // ----- guards and stores

  lemma PlacesDiffer(base: nat, x: nat, y: nat)
    ensures base + RECORD * x == base + RECORD * y <==> x == y
  {
  }

  lemma DifferenceZero(a: Word, b: Word)
    ensures Wrap(a - b) == 0 <==> a == b
  {
  }

  /** The lines of the guard, and where it jumps. */
  lemma GuardLines(isa: Isa, prog: Program, p: nat)
    requires Embedded(prog, p, FillerLines(isa, Guard))
    ensures |FillerLines(isa, Guard)| == if isa == Rv then 1 else 2
    ensures p + |FillerLines(isa, Guard)| <= |prog|
    ensures isa == Rv ==> prog[p] == Op(Branch(IfEqual(S1, S2), JumpTrap))
    ensures isa == Amd ==> prog[p] == Op(Compare(Minus, R(Rsi), R(Rdi))) && prog[p + 1] == Op(Branch(IfFlag(true), JumpTrap))
  {
    hide Embedded;
    var f := FillerLines(isa, Guard);
    EmbedLines(prog, p, f);
    assert f[0].Op? && (isa == Amd ==> f[1].Op?);
  }

  /** The guard jumps to the trap if and only if both chains are at the same record. */
  lemma GuardRuns(isa: Isa, prog: Program, s: State, base: nat, p: seq<nat>, x: nat, y: nat, q: nat)
    requires Embedded(prog, s.pc, FillerLines(isa, Guard)) && Chasing(isa, s, base, p, x, y) && Resolve(prog, JumpTrap) == Some(q)
    ensures var n := |FillerLines(isa, Guard)|; var e := Run(prog, s, n);
      && Moved(s, e, if x == y then q else s.pc + n) && e.mem == s.mem && e.log == s.log
      && (x != y ==> Straight(prog, s, n))
  {
    hide FillerLines, Get, Step, Embedded, Resolve, Records;
    PlacesDiffer(base, x, y);
    GuardLines(isa, prog, s.pc);
    RunNone(prog, s);
    RunSingle(prog, s);
    if isa == Rv {
      var e := StepBranch(prog, s, s.pc, IfEqual(S1, S2), JumpTrap, q);
    } else {
      DifferenceZero(Get(s, Rsi), Get(s, Rdi));
      var s1 := StepCompare(prog, s, s.pc, Minus, R(Rsi), R(Rdi));
      var e := StepBranch(prog, s1, s.pc + 1, IfFlag(true), JumpTrap, q);
      RunOneMore(prog, s, 1);
    }
  }

  lemma StoreRuns(isa: Isa, prog: Program, s: State, rs: Reg, base: nat, p: seq<nat>, x: nat, y: nat)
    requires Embedded(prog, s.pc, FillerLines(isa, StoreIndex(rs))) && Chasing(isa, s, base, p, x, y)
    ensures |FillerLines(isa, StoreIndex(rs))| == 1
    ensures Straight(prog, s, 1) && Filled(isa, s, Run(prog, s, 1), base, |p|)
  {
    hide Get, Step, Embedded, Load64, Store64, Free, SameOffIndex;
    var f := FillerLines(isa, StoreIndex(rs));
    EmbedLines(prog, s.pc, f);
    assert f[0].Op?;
    RunNone(prog, s);
    RunSingle(prog, s);
    var e := StepSd(prog, s, s.pc, rs, Chase1(isa), 8, base + RECORD * x + 8);
    IndexStore(s.mem, base, |p|, x, Get(s, rs));
  }

  lemma StoreBaseRuns(isa: Isa, prog: Program, s: State, rs: Reg, offset: nat, base: nat, p: seq<nat>, x: nat, y: nat)
    requires Embedded(prog, s.pc, FillerLines(isa, StoreBase(rs, offset))) && Chasing(isa, s, base, p, x, y)
    requires offset < RECORD * |p| && offset % RECORD == 8
    ensures |FillerLines(isa, StoreBase(rs, offset))| == 1
    ensures Straight(prog, s, 1) && Filled(isa, s, Run(prog, s, 1), base, |p|)
  {
    hide Get, Step, Embedded, Load64, Store64, Free, SameOffIndex;
    var f := FillerLines(isa, StoreBase(rs, offset));
    EmbedLines(prog, s.pc, f);
    assert f[0].Op?;
    RunNone(prog, s);
    RunSingle(prog, s);
    var e := StepSd(prog, s, s.pc, rs, Base(isa), offset, base + offset);
    IndexStore(s.mem, base, |p|, offset / RECORD, Get(s, rs));
  }

  /** Any filler but a guard that trips. */
  lemma FillerRuns(isa: Isa, prog: Program, s: State, f: Filler, base: nat, p: seq<nat>, x: nat, y: nat, q: nat)
    requires Embedded(prog, s.pc, FillerLines(isa, f)) && Chasing(isa, s, base, p, x, y)
    requires Allowed(isa, f, |p|) && (f.Guard? ==> x != y && Resolve(prog, JumpTrap) == Some(q))
    ensures var n := |FillerLines(isa, f)|; Straight(prog, s, n) && Filled(isa, s, Run(prog, s, n), base, |p|)
  {
    hide Get, Run, Step, Embedded, Straight, Resolve, Records, Free, ByteAt, Quiet;
    match f
    case Plain(instrs) => PlainRuns(isa, prog, s, instrs, |instrs|, base, |p|);
    case Guard => GuardRuns(isa, prog, s, base, p, x, y, q);
    case StoreIndex(rs) => StoreRuns(isa, prog, s, rs, base, p, x, y);
    case StoreBase(rs, offset) => StoreBaseRuns(isa, prog, s, rs, offset, base, p, x, y);
  }

  ghost predicate NoGuard(fillers: seq<Filler>, n: nat)
    requires n > 0 ==> fillers != []
  {
    forall k {:trigger fillers[k % |fillers|]} :: 0 <= k < n ==> !fillers[k % |fillers|].Guard?
  }

  /** No guard among the first n fillers, or the chains are at different records. */
  ghost predicate Untripped(fillers: seq<Filler>, n: nat, x: nat, y: nat)
    requires n > 0 ==> fillers != []
  {
    x != y || NoGuard(fillers, n)
  }

  ghost predicate AllAllowed(isa: Isa, fillers: seq<Filler>, records: nat) {
    forall i :: 0 <= i < |fillers| ==> Allowed(isa, fillers[i], records)
  }

  /** If there are guards, the trap they jump to is in the listing. */
  ghost predicate TrapAt(prog: Program, fillers: seq<Filler>, q: nat) {
    (exists i :: 0 <= i < |fillers| && fillers[i].Guard?)
      ==> Resolve(prog, JumpTrap) == Some(q) && q + 1 < |prog| && prog[q + 1] == Op(Trap)
  }

  /** The first m of the n fillers in turn. */
  lemma {:induction false} FillersRun(isa: Isa, prog: Program, s: State, fillers: seq<Filler>, n: nat, m: nat,
                                      base: nat, p: seq<nat>, x: nat, y: nat, q: nat)
    requires m <= n && (n > 0 ==> fillers != []) && AllAllowed(isa, fillers, |p|) && Untripped(fillers, m, x, y)
    requires Embedded(prog, s.pc, Concat(FillerPieces(isa, fillers, n))) && Chasing(isa, s, base, p, x, y)
    requires TrapAt(prog, fillers, q)
    ensures var k := |Concat(FillerPieces(isa, fillers, n)[..m])|; var e := Run(prog, s, k);
      && Straight(prog, s, k) && Filled(isa, s, e, base, |p|) && Chasing(isa, e, base, p, x, y) && e.pc == s.pc + k
    decreases m
  {
    hide Run, Embedded, Straight, Filled, Chasing, Resolve, FillerLines, Allowed;
    var pieces := FillerPieces(isa, fillers, n);
    if m == 0 {
      assert pieces[..0] == [];
      RunNone(prog, s);
      StraightNone(prog, s);
      StraightEnd(prog, s, 0);
      ChasingOk(isa, s, base, p, x, y);
      FilledNone(isa, s, base, |p|);
    } else {
      FillersRun(isa, prog, s, fillers, n, m - 1, base, p, x, y, q);
      var k := |Concat(pieces[..m - 1])|;
      var e := Run(prog, s, k);
      PieceAt(prog, s.pc, pieces, m - 1);
      var f := fillers[(m - 1) % |fillers|];
      PieceIs(isa, fillers, n, m - 1);
      FillerRuns(isa, prog, e, f, base, p, x, y, q);
      var j := |FillerLines(isa, f)|;
      RunAdd(prog, s, k, j);
      StraightAdd(prog, s, k, j);
      StraightEnd(prog, s, k + j);
      FilledTrans(isa, s, e, Run(prog, e, j), base, |p|);
      FilledChasing(isa, e, Run(prog, e, j), base, p, x, y);
    }
  }

  lemma ChasingOk(isa: Isa, s: State, base: nat, p: seq<nat>, x: nat, y: nat)
    requires Chasing(isa, s, base, p, x, y)
    ensures s.ok && x < |p| && y < |p|
  {
  }

  // ----- before the loop

  lemma InitLinesAt(isa: Isa, prog: Program, p: nat)
    requires Embedded(prog, p, InitLines(isa))
    ensures p + 2 <= |prog|
    ensures prog[p] == Op(Alu(Chase1(isa), Plus, R(Base(isa)), I(0), false))
    ensures prog[p + 1] == Op(Alu(Chase2(isa), Plus, R(Base(isa)), I(0x100), false))
  {
    hide Embedded;
    var f := InitLines(isa);
    EmbedLines(prog, p, f);
    assert f[0].Op? && f[1].Op?;
  }

  /** The chains start at records 0 and 4. */
  lemma InitRuns(isa: Isa, prog: Program, s: State, base: nat, p: seq<nat>)
    requires Embedded(prog, s.pc, InitLines(isa)) && s.ok && Get(s, Base(isa)) == base && Records(s.mem, base, p) && |p| >= 5
    ensures var e := Run(prog, s, 2);
      && Chasing(isa, e, base, p, 0, 4) && e.ok && e.pc == s.pc + 2 && e.mem == s.mem && e.log == s.log && e.low == s.low
      && forall r :: r != Chase1(isa) && r != Chase2(isa) ==> Get(e, r) == Get(s, r)
  {
    hide InitLines, Get, Step, Embedded, Records;
    InitLinesAt(isa, prog, s.pc);
    RecordsFit(s.mem, base, p);
    LoopRegisters(isa);
    var s1 := StepAddI(prog, s, s.pc, Chase1(isa), Base(isa), 0, base);
    var s2 := StepAddI(prog, s1, s.pc + 1, Chase2(isa), Base(isa), 0x100, base + 0x100);
    RunSingle(prog, s);
    RunOneMore(prog, s, 1);
  }

  // ----- one iteration

  /** From s to e only free registers, the chain pointers, the counter and index fields changed. */
  ghost predicate Kept(isa: Isa, s: State, e: State, base: nat, n: nat) {
    && e.ok && e.low == s.low && e.log == s.log && SameOffIndex(s.mem, e.mem, base, n)
    && forall r :: !Free(isa, r) && r != Chase1(isa) && r != Chase2(isa) && r != Counter(isa) ==> Get(e, r) == Get(s, r)
  }

  lemma KeptTrans(isa: Isa, s: State, s': State, e: State, base: nat, n: nat)
    requires Kept(isa, s, s', base, n) && Kept(isa, s', e, base, n)
    ensures Kept(isa, s, e, base, n)
  {
    hide Get, Free, SameOffIndex;
    SameOffTrans(s.mem, s'.mem, e.mem, base, n);
  }

  lemma FilledKept(isa: Isa, s: State, e: State, base: nat, n: nat)
    requires Filled(isa, s, e, base, n)
    ensures Kept(isa, s, e, base, n) && Get(e, Counter(isa)) == Get(s, Counter(isa))
  {
    hide Get, SameOffIndex;
    LoopRegisters(isa);
  }

  lemma ChaseLinesAt(isa: Isa, prog: Program, p: nat, r: Reg)
    requires Embedded(prog, p, ChaseLines(isa, r))
    ensures p + 2 <= |prog| && prog[p] == Op(Load(r, Full, Address(r, I(0), By1, 0)))
    ensures isa == Rv ==> prog[p + 1] == Op(Alu(r, Plus, R(A1), R(r), false))
    ensures isa == Amd ==> prog[p + 1] == Op(Alu(r, Plus, R(r), R(Rdx), true))
  {
    hide Embedded;
    var f := ChaseLines(isa, r);
    EmbedLines(prog, p, f);
    assert f[0].Op? && f[1].Op?;
  }

  /** One step along a chain. */
  lemma ChaseRuns(isa: Isa, prog: Program, s: State, r: Reg, base: nat, p: seq<nat>, x: nat) returns (e: State)
    requires Embedded(prog, s.pc, ChaseLines(isa, r)) && s.ok && (r == Chase1(isa) || r == Chase2(isa))
    requires Records(s.mem, base, p) && x < |p| && Get(s, Base(isa)) == base && Get(s, r) == base + RECORD * x
    ensures p[x] < |p| && base + RECORD * p[x] < TWO64
    ensures e == Run(prog, s, 2) && Straight(prog, s, 2)
    ensures Wrote(s, e, r, base + RECORD * p[x], s.pc + 2) && e.mem == s.mem && e.log == s.log
  {
    hide ChaseLines, Get, Step, Embedded, Load64;
    ChaseLinesAt(isa, prog, s.pc, r);
    var s1 := StepLd(prog, s, s.pc, r, r, 0, base + RECORD * x, RECORD * p[x]);
    if isa == Rv {
      e := StepAdd(prog, s1, s.pc + 1, r, A1, r, base + RECORD * p[x]);
    } else {
      e := StepFlags(prog, s1, s.pc + 1, r, Plus, R(r), R(Rdx), base + RECORD * p[x]);
    }
    RunNone(prog, s);
    RunSingle(prog, s);
    RunOneMore(prog, s, 1);
  }

  lemma FenceRuns(isa: Isa, prog: Program, s: State, fence: bool)
    requires Embedded(prog, s.pc, FenceLines(isa, fence)) && s.ok
    ensures var n := |FenceLines(isa, fence)|; var e := Run(prog, s, n);
      Straight(prog, s, n) && Moved(s, e, s.pc + n) && e.mem == s.mem && e.log == s.log
  {
    hide Get, Step, Embedded;
    var f := FenceLines(isa, fence);
    EmbedLines(prog, s.pc, f);
    RunNone(prog, s);
    RunSingle(prog, s);
    if fence {
      assert f[0].Op?;
      var s1 := StepMark(prog, s, s.pc);
      if isa == Rv {
        assert f[1].Op?;
        var s2 := StepMark(prog, s1, s.pc + 1);
        RunOneMore(prog, s, 1);
      }
    }
  }

  /** The parts of a loop. */
  lemma ChainParts(isa: Isa, prog: Program, p: nat, start: Symbol, fillers: seq<Filler>, n: nat, fence: bool)
    requires n > 0 ==> fillers != []
    requires Embedded(prog, p, Loop(isa, start, fillers, n, fence))
    ensures var b := |Concat(FillerPieces(isa, fillers, n))|; var f := |FenceLines(isa, fence)|;
      && p < |prog| && prog[p] == Label(start) && Resolve(prog, start) == Some(p)
      && Embedded(prog, p + 1, ChaseLines(isa, Chase1(isa))) && Embedded(prog, p + 3, Concat(FillerPieces(isa, fillers, n)))
      && Embedded(prog, p + 3 + b, ChaseLines(isa, Chase2(isa))) && Embedded(prog, p + 5 + b, FenceLines(isa, fence))
      && Embedded(prog, p + 5 + b + f, CountLines(isa, start))
      && |Loop(isa, start, fillers, n, fence)| == 7 + b + f
  {
    hide Embedded, ChaseLines, FenceLines, CountLines, FillerTexts, Pieces, Concat, Resolve, CountedLoop;
    var b := ChainBody(isa, fillers, fence);
    LoopParts(isa, prog, p, start, b, n);
    WholePieces(b, n);
  }

  /** What one test's loop is made of, and where it stands. */
  ghost predicate Placed(isa: Isa, prog: Program, loop: nat, start: Symbol, fillers: seq<Filler>, n: nat, fence: bool, trap: nat, records: nat) {
    && (n > 0 ==> fillers != []) && AllAllowed(isa, fillers, records)
    && Embedded(prog, loop, Loop(isa, start, fillers, n, fence))
    && TrapAt(prog, fillers, trap)
  }

  /** From the head of the loop to its first filler: the first chain moves on. */
  lemma HeadRuns(isa: Isa, prog: Program, s: State, start: Symbol, fillers: seq<Filler>, n: nat, fence: bool, trap: nat,
                 base: nat, p: seq<nat>, x: nat, y: nat)
    requires (n > 0 ==> fillers != []) && InRange(p) && x < |p|
    requires Placed(isa, prog, s.pc, start, fillers, n, fence, trap, |p|) && Chasing(isa, s, base, p, x, y)
    ensures var e := Run(prog, s, 3);
      && Straight(prog, s, 3) && Chasing(isa, e, base, p, p[x], y) && Kept(isa, s, e, base, |p|) && e.pc == s.pc + 3
      && Get(e, Counter(isa)) == Get(s, Counter(isa))
  {
    hide Get, Run, Step, Embedded, Resolve, Loop, ChaseLines, FillerPieces, Concat, Records, Straight, Free, AllAllowed;
    ChainParts(isa, prog, s.pc, start, fillers, n, fence);
    LoopRegisters(isa);
    var s1 := StepMark(prog, s, s.pc);
    RunSingle(prog, s);
    StraightOne(prog, s);
    var e := ChaseRuns(isa, prog, s1, Chase1(isa), base, p, x);
    RunAdd(prog, s, 1, 2);
    StraightAdd(prog, s, 1, 2);
  }

  /** From the last filler to the counter: the second chain moves on. */
  lemma RestRuns(isa: Isa, prog: Program, s: State, fence: bool, base: nat, p: seq<nat>, x: nat, y: nat)
    requires Embedded(prog, s.pc, ChaseLines(isa, Chase2(isa))) && Embedded(prog, s.pc + 2, FenceLines(isa, fence))
    requires Chasing(isa, s, base, p, x, y) && InRange(p) && y < |p|
    ensures var k := 2 + |FenceLines(isa, fence)|; var e := Run(prog, s, k);
      && Straight(prog, s, k) && Chasing(isa, e, base, p, x, p[y]) && Kept(isa, s, e, base, |p|) && e.pc == s.pc + k
      && Get(e, Counter(isa)) == Get(s, Counter(isa))
  {
    hide Get, Run, Step, Embedded, ChaseLines, FenceLines, Records, Straight, Free;
    LoopRegisters(isa);
    var s1 := ChaseRuns(isa, prog, s, Chase2(isa), base, p, y);
    FenceRuns(isa, prog, s1, fence);
    RunAdd(prog, s, 2, |FenceLines(isa, fence)|);
    StraightAdd(prog, s, 2, |FenceLines(isa, fence)|);
  }

  /** One iteration, every line of the loop passed once: both chains take a step. */
  lemma IterationRuns(isa: Isa, prog: Program, s: State, start: Symbol, fillers: seq<Filler>, n: nat, fence: bool, trap: nat,
                      base: nat, p: seq<nat>, x: nat, y: nat)
    requires (n > 0 ==> fillers != []) && InRange(p) && x < |p| && y < |p|
    requires Placed(isa, prog, s.pc, start, fillers, n, fence, trap, |p|) && Chasing(isa, s, base, p, x, y)
    requires Untripped(fillers, n, p[x], y)
    ensures var k := |Loop(isa, start, fillers, n, fence)|; var e := Run(prog, s, k); var a := Wrap(Get(s, Counter(isa)) - 1);
      && k >= 1 && Straight(prog, s, k - 1) && Chasing(isa, e, base, p, p[x], p[y]) && Kept(isa, s, e, base, |p|)
      && Get(e, Counter(isa)) == a && e.pc == if a != 0 then s.pc else s.pc + k
  {
    hide Get, Run, Embedded, Resolve, Loop, ChaseLines, FillerPieces, FenceLines, CountLines, Concat, Straight, Free, Untripped,
      Chasing, Kept, Filled, AllAllowed;
    ChainParts(isa, prog, s.pc, start, fillers, n, fence);
    HeadRuns(isa, prog, s, start, fillers, n, fence, trap, base, p, x, y);
    var s1 := Run(prog, s, 3);
    FillersRun(isa, prog, s1, fillers, n, n, base, p, p[x], y, trap);
    WholeBody(isa, fillers, n);
    var b := |Concat(FillerPieces(isa, fillers, n))|;
    var s2 := Run(prog, s1, b);
    FilledKept(isa, s1, s2, base, |p|);
    KeptTrans(isa, s, s1, s2, base, |p|);
    RestRuns(isa, prog, s2, fence, base, p, p[x], y);
    var f := 2 + |FenceLines(isa, fence)|;
    var s3 := Run(prog, s2, f);
    KeptTrans(isa, s, s2, s3, base, |p|);
    Counted(isa, prog, s3, start, s.pc, base, p, p[x], p[y]);
    var e := Run(prog, s3, 2);
    KeptTrans(isa, s, s3, e, base, |p|);
    Joined(prog, s, s1, s2, s3, b, f);
  }

  lemma WholeBody(isa: Isa, fillers: seq<Filler>, n: nat)
    requires n > 0 ==> fillers != []
    ensures FillerPieces(isa, fillers, n)[..n] == FillerPieces(isa, fillers, n)
  {
  }

  lemma Joined(prog: Program, s: State, s1: State, s2: State, s3: State, b: nat, f: nat)
    requires s1 == Run(prog, s, 3) && s2 == Run(prog, s1, b) && s3 == Run(prog, s2, f)
    requires Straight(prog, s, 3) && Straight(prog, s1, b) && Straight(prog, s2, f) && Straight(prog, s3, 1)
    ensures Straight(prog, s, 4 + b + f) && Run(prog, s, 5 + b + f) == Run(prog, s3, 2)
  {
    hide Run, Straight;
    RunAdd(prog, s2, f, 1);
    RunAdd(prog, s2, f, 2);
    RunAdd(prog, s1, b, f + 1);
    RunAdd(prog, s1, b, f + 2);
    RunAdd(prog, s, 3, b + (f + 1));
    RunAdd(prog, s, 3, b + (f + 2));
    StraightAdd(prog, s2, f, 1);
    StraightAdd(prog, s1, b, f + 1);
    StraightAdd(prog, s, 3, b + (f + 1));
  }

  lemma Counted(isa: Isa, prog: Program, s: State, start: Symbol, loop: nat, base: nat, p: seq<nat>, x: nat, y: nat)
    requires Embedded(prog, s.pc, CountLines(isa, start)) && Resolve(prog, start) == Some(loop) && Chasing(isa, s, base, p, x, y)
    ensures var e := Run(prog, s, 2); var a := Wrap(Get(s, Counter(isa)) - 1);
      && Chasing(isa, e, base, p, x, y) && Kept(isa, s, e, base, |p|)
      && Get(e, Counter(isa)) == a && e.pc == if a != 0 then loop else s.pc + 2
    ensures Straight(prog, s, 1)
  {
    hide Get, Run, Embedded, Resolve, CountLines, Records, Straight, Free, ByteAt;
    LoopRegisters(isa);
    CountRuns(isa, prog, s, start, loop);
  }

  // ----- all iterations

  /** From the loop's head in s filler g is reached in as many steps as there are lines before it, with the chains at x and y. */
  ghost predicate FillerReached(isa: Isa, prog: Program, s: State, fillers: seq<Filler>, n: nat, g: nat, base: nat, p: seq<nat>, x: nat, y: nat)
    requires (n > 0 ==> fillers != []) && g <= n
  {
    var o := FillerOffset(ChainBody(isa, fillers, false), n, g);
    var e := Run(prog, s, o);
    e.pc == s.pc + o && Chasing(isa, e, base, p, x, y)
  }

  /** In an untripped iteration every filler is reached with the first chain a record further than the second. */
  lemma FillersReached(isa: Isa, prog: Program, s: State, start: Symbol, fillers: seq<Filler>, n: nat, fence: bool, trap: nat,
                       base: nat, p: seq<nat>, x: nat, y: nat, g: nat)
    requires (n > 0 ==> fillers != []) && InRange(p) && x < |p| && g <= n
    requires Placed(isa, prog, s.pc, start, fillers, n, fence, trap, |p|) && Chasing(isa, s, base, p, x, y)
    requires Untripped(fillers, n, p[x], y)
    ensures FillerReached(isa, prog, s, fillers, n, g, base, p, p[x], y)
  {
    hide Get, Run, Embedded, Resolve, Loop, ChaseLines, FillerPieces, FenceLines, CountLines, Concat, Straight, Chasing, Kept,
      Filled, AllAllowed;
    ChainParts(isa, prog, s.pc, start, fillers, n, fence);
    HeadRuns(isa, prog, s, start, fillers, n, fence, trap, base, p, x, y);
    var s1 := Run(prog, s, 3);
    FillersRun(isa, prog, s1, fillers, n, g, base, p, p[x], y, trap);
    OffsetIs(isa, fillers, n, g);
    RunAdd(prog, s, 3, |Concat(FillerPieces(isa, fillers, n)[..g])|);
  }

  lemma OffsetIs(isa: Isa, fillers: seq<Filler>, n: nat, g: nat)
    requires (n > 0 ==> fillers != []) && g <= n
    ensures FillerOffset(ChainBody(isa, fillers, false), n, g) == 3 + |Concat(FillerPieces(isa, fillers, n)[..g])|
  {
    hide Concat, FillerTexts;
  }

  /** Iteration k of m begins k * size steps from s with the chains k records on, and reaches every filler with
      the first chain another record on. */
  ghost predicate Circles(isa: Isa, prog: Program, s: State, fillers: seq<Filler>, n: nat, size: nat, base: nat, p: seq<nat>,
                          x: nat, y: nat, m: nat, k: nat)
    requires (n > 0 ==> fillers != []) && InRange(p) && x < |p| && y < |p|
  {
    var e := Run(prog, s, k * size);
    && e.pc == s.pc && Get(e, Counter(isa)) == Wrap(m - k)
    && Chasing(isa, e, base, p, Follow(p, k, x), Follow(p, k, y))
    && forall g: nat {:trigger FillerReached(isa, prog, e, fillers, n, g, base, p, Follow(p, k + 1, x), Follow(p, k, y))} ::
         g <= n ==> FillerReached(isa, prog, e, fillers, n, g, base, p, Follow(p, k + 1, x), Follow(p, k, y))
  }

  lemma CirclesFirst(isa: Isa, prog: Program, s: State, start: Symbol, fillers: seq<Filler>, n: nat, fence: bool, trap: nat,
                     size: nat, base: nat, p: seq<nat>, x: nat, y: nat, m: nat)
    requires (n > 0 ==> fillers != []) && InRange(p) && x < |p| && y < |p|
    requires Placed(isa, prog, s.pc, start, fillers, n, fence, trap, |p|) && Chasing(isa, s, base, p, x, y)
    requires Untripped(fillers, n, p[x], y) && Get(s, Counter(isa)) == Wrap(m)
    ensures Circles(isa, prog, s, fillers, n, size, base, p, x, y, m, 0)
  {
    hide Run, Get, Wrap, Placed, Chasing, Untripped, FillerReached;
    RunNone(prog, s);
    assert 0 * size == 0;
    FollowOne(p, x);
    forall g: nat | g <= n
      ensures FillerReached(isa, prog, s, fillers, n, g, base, p, p[x], y)
    {
      FillersReached(isa, prog, s, start, fillers, n, fence, trap, base, p, x, y, g);
    }
  }

  lemma CirclesLater(isa: Isa, prog: Program, s: State, fillers: seq<Filler>, n: nat, size: nat, base: nat, p: seq<nat>,
                     x: nat, y: nat, m: nat, k: nat)
    requires (n > 0 ==> fillers != []) && InRange(p) && x < |p| && y < |p| && k < m
    requires var s1 := Run(prog, s, size); s1.pc == s.pc && Circles(isa, prog, s1, fillers, n, size, base, p, p[x], p[y], m, k)
    ensures Circles(isa, prog, s, fillers, n, size, base, p, x, y, m + 1, k + 1)
  {
    hide Run, Get, Wrap, Chasing, FillerReached, Follow;
    RunAdd(prog, s, size, k * size);
    assert (k + 1) * size == size + k * size;
    FollowOne(p, x);
    FollowOne(p, y);
    FollowAdd(p, 1, k, x);
    FollowAdd(p, 1, k + 1, x);
    FollowAdd(p, 1, k, y);
  }

  /** m iterations from s: every line of the loop is passed m times, both chains take m steps, and the iterations in
      between begin and reach their fillers as they should. */
  ghost predicate LoopDone(isa: Isa, prog: Program, s: State, fillers: seq<Filler>, n: nat, size: nat, base: nat, p: seq<nat>,
                           x: nat, y: nat, m: nat)
    requires (n > 0 ==> fillers != []) && InRange(p) && x < |p| && y < |p|
  {
    var k := m * size; var e := Run(prog, s, k);
    && Chasing(isa, e, base, p, Follow(p, m, x), Follow(p, m, y)) && Kept(isa, s, e, base, |p|)
    && Get(e, Counter(isa)) == 0 && e.pc == s.pc + size
    && PassedOnly(prog, s, k, size, m)
    && AllCircles(isa, prog, s, fillers, n, size, base, p, x, y, m)
  }

  ghost predicate AllCircles(isa: Isa, prog: Program, s: State, fillers: seq<Filler>, n: nat, size: nat, base: nat, p: seq<nat>,
                             x: nat, y: nat, m: nat)
    requires (n > 0 ==> fillers != []) && InRange(p) && x < |p| && y < |p|
  {
    forall k: nat {:trigger Circles(isa, prog, s, fillers, n, size, base, p, x, y, m, k)} ::
      k < m ==> Circles(isa, prog, s, fillers, n, size, base, p, x, y, m, k)
  }

  /** In k steps from s the next size lines are passed m times each, and no other line. */
  ghost predicate PassedOnly(prog: Program, s: State, k: nat, size: nat, m: nat) {
    forall line: nat {:trigger Visits(prog, s, k, line)} ::
      Visits(prog, s, k, line) == if s.pc <= line < s.pc + size then m else 0
  }

  lemma PassedOnce(prog: Program, s: State, size: nat)
    requires size >= 1 && Straight(prog, s, size - 1)
    ensures PassedOnly(prog, s, size, size, 1)
  {
    hide Run, Straight, Visits;
    forall line: nat {:trigger Visits(prog, s, size, line)} { IterationVisits(prog, s, size, line); }
  }

  lemma PassedMore(prog: Program, s: State, k1: nat, size: nat, m: nat)
    requires size >= 1 && Straight(prog, s, size - 1)
    requires var s1 := Run(prog, s, size); s1.pc == s.pc && PassedOnly(prog, s1, k1, size, m)
    ensures PassedOnly(prog, s, size + k1, size, m + 1)
  {
    hide Run, Straight, Visits;
    forall line: nat {:trigger Visits(prog, s, size + k1, line)}
      ensures Visits(prog, s, size + k1, line) == if s.pc <= line < s.pc + size then m + 1 else 0
    {
      IterationVisits(prog, s, size, line);
      VisitsAdd(prog, s, size, k1, line);
    }
  }

  /** m iterations of the loop take m times its lines. */
  lemma {:induction false} IterationsRun(isa: Isa, prog: Program, s: State, start: Symbol, fillers: seq<Filler>, n: nat, fence: bool,
                                         trap: nat, base: nat, p: seq<nat>, x: nat, y: nat, m: nat)
    requires (n > 0 ==> fillers != []) && InRange(p) && x < |p| && y < |p| && SingleCycle(p)
    requires Placed(isa, prog, s.pc, start, fillers, n, fence, trap, |p|) && Chasing(isa, s, base, p, x, y)
    requires Untripped(fillers, n, p[x], y) && 1 <= m <= TWO64 && Get(s, Counter(isa)) == Wrap(m)
    ensures LoopDone(isa, prog, s, fillers, n, |Loop(isa, start, fillers, n, fence)|, base, p, x, y, m)
    decreases m
  {
    hide Get, Run, Placed, Loop, Straight, Chasing, Kept, Untripped, SingleCycle, Follow, Wrap, LoopDone, Circles;
    CycleInjective(p);
    var size := |Loop(isa, start, fillers, n, fence)|;
    IterationRuns(isa, prog, s, start, fillers, n, fence, trap, base, p, x, y);
    CirclesFirst(isa, prog, s, start, fillers, n, fence, trap, size, base, p, x, y, m);
    CountDown(m);
    if m == 1 {
      DoneOnce(isa, prog, s, fillers, n, size, base, p, x, y);
    } else {
      StillUntripped(fillers, n, p, p[x], y);
      IterationsRun(isa, prog, Run(prog, s, size), start, fillers, n, fence, trap, base, p, p[x], p[y], m - 1);
      DoneMore(isa, prog, s, fillers, n, size, base, p, x, y, m - 1);
    }
  }

  lemma DoneOnce(isa: Isa, prog: Program, s: State, fillers: seq<Filler>, n: nat, size: nat, base: nat, p: seq<nat>, x: nat, y: nat)
    requires (n > 0 ==> fillers != []) && InRange(p) && x < |p| && y < |p|
    requires size >= 1 && Straight(prog, s, size - 1) && Chasing(isa, Run(prog, s, size), base, p, p[x], p[y])
    requires var e := Run(prog, s, size);
      Kept(isa, s, e, base, |p|) && Get(e, Counter(isa)) == 0 && e.pc == s.pc + size
    requires Circles(isa, prog, s, fillers, n, size, base, p, x, y, 1, 0)
    ensures LoopDone(isa, prog, s, fillers, n, size, base, p, x, y, 1)
  {
    hide Get, Run, Straight, Chasing, Kept, Visits, Circles, Follow, PassedOnly;
    FollowOne(p, x);
    FollowOne(p, y);
    assert 1 * size == size;
    PassedOnce(prog, s, size);
  }

  lemma DoneMore(isa: Isa, prog: Program, s: State, fillers: seq<Filler>, n: nat, size: nat, base: nat, p: seq<nat>,
                 x: nat, y: nat, m: nat)
    requires (n > 0 ==> fillers != []) && InRange(p) && x < |p| && y < |p|
    requires size >= 1 && Straight(prog, s, size - 1)
    requires var s1 := Run(prog, s, size); Kept(isa, s, s1, base, |p|) && s1.pc == s.pc
    requires LoopDone(isa, prog, Run(prog, s, size), fillers, n, size, base, p, p[x], p[y], m)
    requires Circles(isa, prog, s, fillers, n, size, base, p, x, y, m + 1, 0)
    ensures LoopDone(isa, prog, s, fillers, n, size, base, p, x, y, m + 1)
  {
    hide Get, Run, Straight, Chasing, Kept, Visits, Circles, Follow, PassedOnly, AllCircles;
    var s1, k1 := Run(prog, s, size), m * size;
    KeptTrans(isa, s, s1, Run(prog, s1, k1), base, |p|);
    RunAdd(prog, s, size, k1);
    assert (m + 1) * size == size + k1;
    FollowOne(p, x);
    FollowOne(p, y);
    FollowAdd(p, 1, m, x);
    FollowAdd(p, 1, m, y);
    PassedMore(prog, s, k1, size, m);
    CirclesMore(isa, prog, s, fillers, n, size, base, p, x, y, m);
  }

  lemma CirclesMore(isa: Isa, prog: Program, s: State, fillers: seq<Filler>, n: nat, size: nat, base: nat, p: seq<nat>,
                    x: nat, y: nat, m: nat)
    requires (n > 0 ==> fillers != []) && InRange(p) && x < |p| && y < |p|
    requires var s1 := Run(prog, s, size); s1.pc == s.pc && AllCircles(isa, prog, s1, fillers, n, size, base, p, p[x], p[y], m)
    requires Circles(isa, prog, s, fillers, n, size, base, p, x, y, m + 1, 0)
    ensures AllCircles(isa, prog, s, fillers, n, size, base, p, x, y, m + 1)
  {
    hide Run, Circles;
    forall k: nat {:trigger Circles(isa, prog, s, fillers, n, size, base, p, x, y, m + 1, k)} | k < m + 1
      ensures Circles(isa, prog, s, fillers, n, size, base, p, x, y, m + 1, k)
    {
      if k > 0 {
        CirclesLater(isa, prog, s, fillers, n, size, base, p, x, y, m, k - 1);
      }
    }
  }

  lemma FollowOne(p: seq<nat>, x: nat)
    requires InRange(p) && x < |p|
    ensures Follow(p, 1, x) == p[x]
  {
    assert Follow(p, 0, x) == x;
  }

  /** In a cycle different records have different successors. */
  lemma StillUntripped(fillers: seq<Filler>, n: nat, p: seq<nat>, x: nat, y: nat)
    requires (n > 0 ==> fillers != []) && SingleCycle(p) && InRange(p) && x < |p| && y < |p| && Untripped(fillers, n, x, y)
    ensures Untripped(fillers, n, p[x], p[y])
  {
    hide SingleCycle;
    CycleInjective(p);
  }

  // ----- the trap

  lemma {:induction false} FirstGuard(fillers: seq<Filler>, n: nat) returns (g: nat)
    requires (n > 0 ==> fillers != []) && !NoGuard(fillers, n)
    ensures g < n && fillers[g % |fillers|].Guard? && NoGuard(fillers, g)
    decreases n
  {
    if n >= 1 && !NoGuard(fillers, n - 1) {
      g := FirstGuard(fillers, n - 1);
    } else {
      g := n - 1;
    }
  }

  /** With equal chains a guard ends the first iteration in the trap, before the counter is touched. */
  lemma TripRuns(isa: Isa, prog: Program, s: State, start: Symbol, fillers: seq<Filler>, n: nat, fence: bool, trap: nat,
                 base: nat, p: seq<nat>, x: nat, y: nat)
    returns (k: nat)
    requires (n > 0 ==> fillers != []) && InRange(p) && x < |p|
    requires Placed(isa, prog, s.pc, start, fillers, n, fence, trap, |p|) && Chasing(isa, s, base, p, x, y)
    requires !Untripped(fillers, n, p[x], y)
    ensures var e := Run(prog, s, k);
      && e.ok && e.pc == trap + 1 < |prog| && prog[e.pc] == Op(Trap) && Get(e, Counter(isa)) == Get(s, Counter(isa))
    ensures k <= |Loop(isa, start, fillers, n, fence)|
  {
    hide Get, Run, Embedded, Resolve, Loop, ChaseLines, FillerPieces, FillerLines, FenceLines, CountLines, Concat, Straight,
      Free, Chasing, Filled, Kept, NoGuard, AllAllowed;
    ChainParts(isa, prog, s.pc, start, fillers, n, fence);
    HeadRuns(isa, prog, s, start, fillers, n, fence, trap, base, p, x, y);
    var s1 := Run(prog, s, 3);
    var g := FirstGuard(fillers, n);
    FillersRun(isa, prog, s1, fillers, n, g, base, p, y, y, trap);
    var pieces := FillerPieces(isa, fillers, n);
    var b := |Concat(pieces[..g])|;
    var s2 := Run(prog, s1, b);
    PieceAt(prog, s1.pc, pieces, g);
    PieceIs(isa, fillers, n, g);
    FilledKept(isa, s1, s2, base, |p|);
    GuardRuns(isa, prog, s2, base, p, y, y, trap);
    var j := |FillerLines(isa, Guard)|;
    var s3 := Run(prog, s2, j);
    var s4 := StepMark(prog, s3, trap);
    RunOneMore(prog, s2, j);
    RunAdd(prog, s1, b, j + 1);
    RunAdd(prog, s, 3, b + (j + 1));
    k := 3 + (b + (j + 1));
    GuardInside(isa, prog, s.pc, start, fillers, n, fence, g);
  }

  lemma GuardInside(isa: Isa, prog: Program, loop: nat, start: Symbol, fillers: seq<Filler>, n: nat, fence: bool, g: nat)
    requires (n > 0 ==> fillers != []) && g < n && Embedded(prog, loop, Loop(isa, start, fillers, n, fence))
    ensures 3 + |Concat(FillerPieces(isa, fillers, n)[..g])| + |FillerLines(isa, fillers[g % |fillers|])| < |Loop(isa, start, fillers, n, fence)|
  {
    hide Embedded, CountedLoop, FillerLines, Concat;
    FillerAt(isa, prog, loop, start, ChainBody(isa, fillers, fence), n, g);
  }

  lemma ChainTurns(isa: Isa, prog: Program, s: State, steps: nat, p: nat, t: Test, count: nat, times: nat)
    requires Supplied(t, count) && Embedded(prog, p, TestLoop(isa, t, count))
    requires PassedTimes(prog, s, steps, p, |TestLoop(isa, t, count)|, times)
    ensures RoundRobin(prog, s, steps, p, ChainBody(isa, t.fillers, t.fence), Slots(t, count), times)
  {
    hide Embedded, CountedLoop, PassedTimes, RoundRobin;
    TurnsTaken(isa, prog, s, steps, p, TestStart(t.prefix, count), ChainBody(isa, t.fillers, t.fence), Slots(t, count), times);
  }

  ghost predicate Guardless(fillers: seq<Filler>) {
    forall i :: 0 <= i < |fillers| ==> !fillers[i].Guard?
  }

  lemma GuardlessRuns(prog: Program, fillers: seq<Filler>, n: nat, x: nat, y: nat)
    requires Guardless(fillers) && (n > 0 ==> fillers != [])
    ensures TrapAt(prog, fillers, 0) && Untripped(fillers, n, x, y)
  {
  }
}
