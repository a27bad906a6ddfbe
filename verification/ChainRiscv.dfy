/** Structure tests as RISC-V functions. */
module ChainRiscv {
  import opened Words
  import opened Listing
  import opened Machine
  import opened Symbols
  import opened Cycles
  import opened DataFile
  import opened Trace
  import opened RiscvFrame
  import opened ThroughputText
  import opened ChainText
  import opened ChainLoop
  import ThroughputRun
  import ThroughputListing
  import Tally
  import ChainTally
  import ThroughputRiscv

  function Fn(t: Test, count: nat): Program
    requires Supplied(t, count)
  {
    ThroughputListing.Fn(Rv, Structure(Rv, t), count)
  }

  function Functions(t: Test, counts: seq<nat>): (r: seq<Program>)
    requires forall i :: 0 <= i < |counts| ==> Supplied(t, counts[i])
    ensures |r| == |counts|
  {
    AllAssigned(Rv, t, counts);
    ThroughputListing.Functions(Rv, Structure(Rv, t), counts)
  }

  method GenerateRiscvAsmStructureTestFuncs(sb: StringBuilder<Instr>, counts: seq<nat>, t: Test)
    requires forall i :: 0 <= i < |counts| ==> Supplied(t, counts[i])
    modifies sb
    ensures sb.lines == old(sb.lines) + Concat(Functions(t, counts))
  {
    hide Concat, ThroughputListing.Functions, InitLines, ChainBody;
    AllAssigned(Rv, t, counts);
    var initInstrs := InitLines(Rv);
    ThroughputListing.GenerateAsmThroughputTestFuncs(sb, Rv, counts,
      Throughput(t.prefix, initInstrs, ChainBody(Rv, t.fillers, t.fence), t.includePtrChasingLoads));
  }

  // ----- running a function

  lemma FnParts(prog: Program, p: nat, t: Test, count: nat)
    requires Supplied(t, count) && Embedded(prog, p, Fn(t, count))
    ensures var size := |TestLoop(Rv, t, count)|;
      && Embedded(prog, p, ThroughputListing.Entry(Rv, t.prefix, count)) && Embedded(prog, p + 20, InitLines(Rv))
      && Embedded(prog, p + 22, TestLoop(Rv, t, count)) && Embedded(prog, p + 22 + size, Epilogue())
  {
    hide Embedded, InitLines, ChainBody, CountedLoop, ThroughputListing.Entry, Epilogue;
    AllAssigned(Rv, t, [count]);
    assert [count][0] == count;
    ThroughputListing.FnParts(Rv, prog, p, Structure(Rv, t), count);
  }

  lemma InitFallsThrough(prog: Program, p: nat)
    requires Embedded(prog, p, InitLines(Rv))
    ensures NoTransfers(prog, p, 2)
  {
    hide Embedded;
    InitLinesAt(Rv, prog, p);
  }

  /** A call with m iterations (zero standing for 2^64) over the records of a cycle, apart from the frame. */
  ghost predicate Callable(s: State, base: nat, p: seq<nat>, m: nat) {
    && s.ok && Get(s, Sp) >= 80 && s.low <= Get(s, Sp) && 1 <= m <= TWO64 && Get(s, A0) == Wrap(m) && Get(s, A1) == base
    && SingleCycle(p) && |p| >= 5 && Records(s.mem, base, p)
    && (base + RECORD * |p| <= Get(s, Sp) - 80 || Get(s, Sp) <= base)
  }

  /** Up to the loop: the frame is set up and the chains start at records 0 and 4. */
  lemma Starts(prog: Program, t: Test, count: nat, s: State, base: nat, p: seq<nat>, m: nat)
    requires Supplied(t, count) && Embedded(prog, s.pc, Fn(t, count)) && Callable(s, base, p, m)
    ensures var e := Run(prog, s, 22);
      && InFrame(s, e) && e.pc == s.pc + 22 && e.log == s.log && Get(e, A0) == Wrap(m)
      && Chasing(Rv, e, base, p, 0, 4) && AgreeOutside(s.mem, e.mem, Get(s, Sp) - 80, Get(s, Sp))
      && Straight(prog, s, 22)
  {
    hide Run, Step, Get, Embedded, Fn, ThroughputListing.Entry, InitLines, TestLoop, Epilogue, Scratch, Frame, AgreeOutside, Straight,
      Records, SingleCycle, Resolve, Wrap, Chasing;
    FnParts(prog, s.pc, t, count);
    ThroughputRiscv.EntryRuns(prog, s, t.prefix, count);
    var s2 := Run(prog, s, 20);
    SpIsKept();
    ArgsKept();
    RecordsApart(s.mem, s2.mem, base, p, Get(s, Sp) - 80, Get(s, Sp));
    InitRuns(Rv, prog, s2, base, p);
    var s4 := Run(prog, s2, 2);
    RunAdd(prog, s, 20, 2);
    StillInFrame(s, s2, s4);
    InitFallsThrough(prog, s2.pc);
    BlockStraight(prog, s2, 2);
    StraightAdd(prog, s, 20, 2);
  }

  lemma ArgsKept()
    ensures !Scratch(A1) && Scratch(S1) && Scratch(S2)
  {
  }

  /** The loop leaves the frame alone. */
  lemma LoopInFrame(s: State, s1: State, e: State, base: nat, n: nat)
    requires InFrame(s, s1) && Kept(Rv, s1, e, base, n) && (base + RECORD * n <= Get(s, Sp) - 80 || Get(s, Sp) <= base)
    ensures InFrame(s, e)
  {
    hide Get, Scratch, Frame, SameOffIndex, Free;
    FreeIsScratch();
    FrameOffIndex(s1.mem, e.mem, Get(s, Sp) - 80, s, base, n);
  }

  lemma FreeIsScratch()
    ensures forall r :: !Scratch(r) && r != A0 ==> !Free(Rv, r) && r != S1 && r != S2
    ensures !Scratch(Sp)
  {
  }

  lemma FrameOffIndex(m: Memory, m': Memory, sp: nat, s: State, base: nat, n: nat)
    requires Frame(m, sp, s, 9) && SameOffIndex(m, m', base, n) && (base + RECORD * n <= sp || sp + 80 <= base)
    ensures Frame(m', sp, s, 9)
  {
    hide Load64, Get, Saved, ByteAt;
    forall j {:trigger Saved(j)} | 0 <= j < 9
      ensures Load64(m', sp + 8 * (j + 1)) == Get(s, Saved(j))
    {
      Load64Agree(m, m', sp + 8 * (j + 1));
    }
  }

  /** What a completed call looks like after k steps: registers, return and memory; every line of the loop passed m times;
      the slots of the filler array taken in turn; every instruction executed as often as m iterations need; and every iteration
      begun and its fillers reached with the chains where they should be. */
  ghost predicate Completed(prog: Program, s: State, k: nat, t: Test, count: nat, base: nat, p: seq<nat>, m: nat)
    requires Supplied(t, count) && InRange(p) && |p| >= 5
  {
    var size := |TestLoop(Rv, t, count)|;
    && Returned(s, Run(prog, s, k), base, p) && PassedTimes(prog, s, k, s.pc + 22, size, m)
    && RoundRobin(prog, s, k, s.pc + 22, ChainBody(Rv, t.fillers, t.fence), Slots(t, count), m)
    && AllCircles(Rv, prog, Run(prog, s, 22), t.fillers, Slots(t, count), size, base, p, 0, 4, m)
    && ChainTally.Counts(Rv, prog, s, k, t, count, m)
  }

  /** The call made in s has returned in e: every register but the counter is as before, and nothing is written but the frame
      and index fields. */
  ghost predicate Returned(s: State, e: State, base: nat, p: seq<nat>) {
    && e.ok && e.pc == Get(s, Ra) && (forall r :: r != A0 ==> Get(e, r) == Get(s, r)) && Get(e, A0) == 0
    && e.log == s.log + [Event.Returned(Get(s, Ra))]
    && Get(s, Sp) >= 80 && Untouched(s.mem, e.mem, Get(s, Sp) - 80, Get(s, Sp), base, |p|) && Records(e.mem, base, p)
  }

  lemma CompletedReturns(prog: Program, s: State, k: nat, t: Test, count: nat, base: nat, p: seq<nat>, m: nat)
    requires Supplied(t, count) && InRange(p) && |p| >= 5 && Completed(prog, s, k, t, count, base, p, m)
    ensures ChainTally.Counts(Rv, prog, s, k, t, count, m)
    ensures var e := Run(prog, s, k); e.ok && e.pc == Get(s, Ra)
  {
    hide Run, Get, Untouched, Records, PassedTimes, AllCircles, Loop, RoundRobin, ChainTally.Counts;
  }

  lemma CallableCycle(s: State, base: nat, p: seq<nat>, m: nat)
    requires Callable(s, base, p, m)
    ensures |p| >= 5 && InRange(p)
  {
    hide Get, Records, SingleCycle;
    CycleInjective(p);
  }

  /** The steps of a call. */
  function Steps(t: Test, count: nat, m: nat): nat
    requires Supplied(t, count)
  {
    22 + (m * |TestLoop(Rv, t, count)| + 11)
  }

  /** The function with m iterations when no guard trips. */
  lemma FunctionRuns(prog: Program, t: Test, count: nat, s: State, base: nat, p: seq<nat>, m: nat, trap: nat)
    requires Supplied(t, count) && Embedded(prog, s.pc, Fn(t, count)) && Callable(s, base, p, m) && |p| >= 5 && InRange(p)
    requires AllAllowed(Rv, t.fillers, |p|) && TrapAt(prog, t.fillers, trap) && Untripped(t.fillers, Slots(t, count), p[0], 4)
    ensures Completed(prog, s, Steps(t, count, m), t, count, base, p, m)
  {
    hide Run, Get, Embedded, Fn, InitLines, Loop, Epilogue, Scratch, Frame, AgreeOutside, Straight,
      Records, SingleCycle, Resolve, AllAllowed, TrapAt, Untripped, InFrame, Wrap, LoopDone, Returned, PassedTimes, PassedOnly, RoundRobin, FillerTexts,
      AllCircles, LoopLeft, Left, Chasing, ChainTally.Counts;
    FnParts(prog, s.pc, t, count);
    Starts(prog, t, count, s, base, p, m);
    var s1 := Run(prog, s, 22);
    var size := |TestLoop(Rv, t, count)|;
    IterationsRun(Rv, prog, s1, TestStart(t.prefix, count), t.fillers, Slots(t, count), t.fence, trap, base, p, 0, 4, m);
    var k1 := m * size;
    AfterLoop(prog, s, s1, t.fillers, Slots(t, count), size, base, p, m, k1);
    var s2 := Run(prog, s1, k1);
    LeftInFrame(s, s1, s2, base, p);
    ExitRuns(prog, s, s2);
    Joined(prog, s, s1, k1);
    Returns(s, s1, s2, Run(prog, s2, 11), base, p);
    LoopPassed(prog, s, s1, k1, size, m);
    CallTally(prog, s, t, count, k1, m);
    ChainTurns(Rv, prog, s, Steps(t, count, m), s1.pc, t, count, m);
  }

  lemma LeftInFrame(s: State, s1: State, s2: State, base: nat, p: seq<nat>)
    requires LoopLeft(s, s1, s2, base, p)
    ensures InFrame(s, s2)
  {
  }

  lemma Joined(prog: Program, s: State, s1: State, k1: nat)
    requires s1 == Run(prog, s, 22)
    ensures Run(prog, s, 22 + (k1 + 11)) == Run(prog, Run(prog, s1, k1), 11)
  {
    hide Run;
    RunAdd(prog, s1, k1, 11);
    RunAdd(prog, s, 22, k1 + 11);
  }

  /** The epilogue of the call made in s has led from s2 to e: everything is restored. */
  ghost predicate Left(s: State, s2: State, e: State) {
    && e.ok && e.pc == Get(s, Ra) && (forall r :: r != A0 ==> Get(e, r) == Get(s, r)) && Get(e, A0) == Get(s2, A0)
    && e.mem == s2.mem && e.log == s2.log + [Event.Returned(Get(s, Ra))]
  }

  lemma ExitRuns(prog: Program, s: State, s2: State)
    requires Embedded(prog, s2.pc, Epilogue()) && InFrame(s, s2)
    ensures Get(s, Sp) >= 80 && Straight(prog, s2, 10) && Left(s, s2, Run(prog, s2, 11))
  {
    hide Run, Get, Embedded, Epilogue, Straight, InFrame;
    LeaveRuns(prog, s2.pc, s, s2);
    ThroughputRiscv.EpilogueFallsThrough(prog, s2.pc);
    ThroughputRiscv.InFrameOk(s, s2);
    BlockStraight(prog, s2, 10);
  }

  /** What the loop leaves, from s1 in the frame of the call made in s. */
  ghost predicate LoopLeft(s: State, s1: State, s2: State, base: nat, p: seq<nat>) {
    && InFrame(s, s2) && Get(s2, A0) == 0 && s2.log == s1.log
    && SameOffIndex(s1.mem, s2.mem, base, |p|) && Records(s2.mem, base, p)
  }

  lemma AfterLoop(prog: Program, s: State, s1: State, fillers: seq<Filler>, n: nat, size: nat, base: nat, p: seq<nat>, m: nat, k1: nat)
    requires k1 == m * size && (n > 0 ==> fillers != []) && InRange(p) && |p| >= 5
    requires LoopDone(Rv, prog, s1, fillers, n, size, base, p, 0, 4, m)
    requires InFrame(s, s1) && (base + RECORD * |p| <= Get(s, Sp) - 80 || Get(s, Sp) <= base)
    ensures AllCircles(Rv, prog, s1, fillers, n, size, base, p, 0, 4, m)
    ensures Run(prog, s1, k1).pc == s1.pc + size && PassedOnly(prog, s1, k1, size, m)
    ensures LoopLeft(s, s1, Run(prog, s1, k1), base, p)
  {
    hide Get, Run, InFrame, PassedOnly, AllCircles, Follow, Records, SameOffIndex, Free;
    LoopInFrame(s, s1, Run(prog, s1, k1), base, |p|);
  }

  lemma Returns(s: State, s1: State, s2: State, e: State, base: nat, p: seq<nat>)
    requires Get(s, Sp) >= 80 && s1.log == s.log && AgreeOutside(s.mem, s1.mem, Get(s, Sp) - 80, Get(s, Sp))
    requires LoopLeft(s, s1, s2, base, p) && Left(s, s2, e)
    ensures Returned(s, e, base, p)
  {
    hide Get, Records, AgreeOutside, Untouched, SameOffIndex, InFrame;
    UntouchedBy(s.mem, s1.mem, s2.mem, Get(s, Sp) - 80, Get(s, Sp), base, |p|);
  }

  /** The loop's lines are passed by the loop only. */
  lemma LoopPassed(prog: Program, s: State, s1: State, k1: nat, size: nat, m: nat)
    requires s1 == Run(prog, s, 22) && s1.pc == s.pc + 22 && Straight(prog, s, 22) && PassedOnly(prog, s1, k1, size, m)
    requires var s2 := Run(prog, s1, k1); s2.pc == s1.pc + size && Straight(prog, s2, 10)
    ensures PassedTimes(prog, s, 22 + (k1 + 11), s.pc + 22, size, m)
  {
    hide Run, Straight, Visits;
    var s2 := Run(prog, s1, k1);
    var k := 22 + (k1 + 11);
    forall line: nat {:trigger Visits(prog, s, k, line)} | s.pc + 22 <= line < s.pc + 22 + size
      ensures Visits(prog, s, k, line) == m
    {
      VisitsAdd(prog, s, 22, k1 + 11, line);
      VisitsAdd(prog, s1, k1, 11, line);
      VisitsStraight(prog, s, 22, line);
      ThroughputRun.IterationVisits(prog, s2, 11, line);
    }
  }

  /** The whole call, instruction by instruction. */
  lemma CallTally(prog: Program, s: State, t: Test, count: nat, k1: nat, m: nat)
    requires Supplied(t, count) && Embedded(prog, s.pc, Fn(t, count)) && Straight(prog, s, 22)
    requires var s1 := Run(prog, s, 22); var s2 := Run(prog, s1, k1); var size := |TestLoop(Rv, t, count)|;
      && s1.pc == s.pc + 22 && PassedOnly(prog, s1, k1, size, m) && s2.pc == s1.pc + size && Straight(prog, s2, 10)
    ensures ChainTally.Counts(Rv, prog, s, 22 + (k1 + 11), t, count, m)
  {
    hide Run, Embedded, CountedLoop, Epilogue, Straight, Tally.Performs, Tally.VisitsOnly, InitLines, FillerTexts, ChaseLines;
    AllAssigned(Rv, t, [count]);
    assert [count][0] == count;
    VisitsAre(prog, Run(prog, s, 22), k1, |TestLoop(Rv, t, count)|, m);
    Tally.FnPerforms(Rv, prog, s, Structure(Rv, t), count, k1, m);
  }

  lemma VisitsAre(prog: Program, s: State, k: nat, size: nat, m: nat)
    requires PassedOnly(prog, s, k, size, m)
    ensures Tally.VisitsOnly(prog, s, k, s.pc, size, m)
  {
    hide Visits;
  }

  /** When a guard trips, the first iteration ends in the trap with the counter untouched. */
  lemma FunctionTraps(prog: Program, t: Test, count: nat, s: State, base: nat, p: seq<nat>, m: nat, trap: nat) returns (k: nat)
    requires Supplied(t, count) && Embedded(prog, s.pc, Fn(t, count)) && Callable(s, base, p, m) && |p| >= 5 && InRange(p)
    requires AllAllowed(Rv, t.fillers, |p|) && TrapAt(prog, t.fillers, trap) && !Untripped(t.fillers, Slots(t, count), p[0], 4)
    ensures k <= 22 + |TestLoop(Rv, t, count)|
    ensures var e := Run(prog, s, k); e.ok && e.pc == trap + 1 < |prog| && prog[e.pc] == Op(Trap) && Get(e, A0) == Get(s, A0)
  {
    hide Run, Get, Embedded, Fn, InitLines, Loop, Epilogue, AgreeOutside, Straight,
      Records, SingleCycle, AllAllowed, TrapAt, Untripped, InFrame, Wrap, Chasing;
    FnParts(prog, s.pc, t, count);
    Starts(prog, t, count, s, base, p, m);
    var s1 := Run(prog, s, 22);
    var k1 := TripRuns(Rv, prog, s1, TestStart(t.prefix, count), t.fillers, Slots(t, count), t.fence, trap, base, p, 0, 4);
    RunAdd(prog, s, 22, k1);
    k := 22 + k1;
  }

  /** Where the function for a count stands in a listing of tests. */
  lemma Found(t: Test, counts: seq<nat>, count: nat) returns (at: nat)
    requires Distinct(counts) && count in counts && forall i :: 0 <= i < |counts| ==> Supplied(t, counts[i])
    ensures Supplied(t, count) && Embedded(Concat(Functions(t, counts)), at, Fn(t, count))
    ensures Resolve(Concat(Functions(t, counts)), TestTop(t.prefix, count)) == Some(at)
  {
    hide Concat, Embedded, ThroughputListing.Fn, Structure, TextsUnlabelled, Assigned, Resolve;
    AllAssigned(Rv, t, counts);
    StructureUnlabelled(Rv, t);
    PrefixIs(t);
    assert exists i :: 0 <= i < |counts| && counts[i] == count;
    at := ThroughputListing.Found(Rv, Structure(Rv, t), counts, count);
  }

  lemma PrefixIs(t: Test)
    ensures Structure(Rv, t).prefix == t.prefix
  {
  }

  /** Called by its label in a listing of tests without guards, for any list of distinct counts. */
  lemma ListedRuns(t: Test, counts: seq<nat>, count: nat, s: State, base: nat, p: seq<nat>, m: nat)
    requires Distinct(counts) && count in counts && (forall i :: 0 <= i < |counts| ==> Supplied(t, counts[i])) && Supplied(t, count)
    requires Guardless(t.fillers) && AllAllowed(Rv, t.fillers, |p|) && Callable(s, base, p, m) && |p| >= 5 && InRange(p)
    requires Resolve(Concat(Functions(t, counts)), TestTop(t.prefix, count)) == Some(s.pc)
    ensures Completed(Concat(Functions(t, counts)), s, Steps(t, count, m), t, count, base, p, m)
  {
    hide Run, Get, Embedded, Concat, Fn, Functions, Loop, Callable, Resolve, Completed, Untripped, TrapAt, AllAllowed;
    var at := Found(t, counts, count);
    GuardlessRuns(Concat(Functions(t, counts)), t.fillers, Slots(t, count), p[0], 4);
    FunctionRuns(Concat(Functions(t, counts)), t, count, s, base, p, m, 0);
  }
}
