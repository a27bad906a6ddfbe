/** Structure tests as x86 functions. */
module ChainX86 {
  import opened Words
  import opened Listing
  import opened Machine
  import opened Symbols
  import opened Cycles
  import opened DataFile
  import opened Trace
  import opened X86Stack
  import opened X86Frame
  import opened ThroughputText
  import opened ChainText
  import opened ChainLoop
  import ThroughputRun
  import ThroughputListing
  import Tally
  import ChainTally
  import ThroughputX86

  function Fn(t: Test, count: nat): Program
    requires Supplied(t, count)
  {
    ThroughputListing.Fn(Amd, Structure(Amd, t), count)
  }

  function Functions(t: Test, counts: seq<nat>): (r: seq<Program>)
    requires forall i :: 0 <= i < |counts| ==> Supplied(t, counts[i])
    ensures |r| == |counts|
  {
    AllAssigned(Amd, t, counts);
    ThroughputListing.Functions(Amd, Structure(Amd, t), counts)
  }

  method GenerateX86AsmStructureTestFuncs(sb: StringBuilder<Instr>, counts: seq<nat>, t: Test)
    requires forall i :: 0 <= i < |counts| ==> Supplied(t, counts[i])
    modifies sb
    ensures sb.lines == old(sb.lines) + Concat(Functions(t, counts))
  {
    hide Concat, ThroughputListing.Functions, InitLines, ChainBody;
    AllAssigned(Amd, t, counts);
    var initInstrs := InitLines(Amd);
    ThroughputListing.GenerateAsmThroughputTestFuncs(sb, Amd, counts,
      Throughput(t.prefix, initInstrs, ChainBody(Amd, t.fillers, t.fence), t.includePtrChasingLoads));
  }

  // ----- running a function

  lemma FnParts(prog: Program, p: nat, t: Test, count: nat)
    requires Supplied(t, count) && Embedded(prog, p, Fn(t, count))
    ensures var size := |TestLoop(Amd, t, count)|;
      && Embedded(prog, p, ThroughputListing.Entry(Amd, t.prefix, count)) && Embedded(prog, p + 23, InitLines(Amd))
      && Embedded(prog, p + 25, TestLoop(Amd, t, count)) && Embedded(prog, p + 25 + size, Epilogue())
  {
    hide Embedded, InitLines, ChainBody, CountedLoop, ThroughputListing.Entry, Epilogue;
    AllAssigned(Amd, t, [count]);
    assert [count][0] == count;
    ThroughputListing.FnParts(Amd, prog, p, Structure(Amd, t), count);
  }

  lemma InitFallsThrough(prog: Program, p: nat)
    requires Embedded(prog, p, InitLines(Amd))
    ensures NoTransfers(prog, p, 2)
  {
    hide Embedded;
    InitLinesAt(Amd, prog, p);
  }

  /** A call with m iterations (zero standing for 2^64): the return address is on the stack, and the records are
      apart from it and from the frame. */
  ghost predicate Callable(s: State, base: nat, p: seq<nat>, m: nat) {
    && s.ok && 88 <= Get(s, Sp) && Get(s, Sp) + 8 < TWO64 && 1 <= m <= TWO64 && Get(s, Rdi) == Wrap(m) && Get(s, Rsi) == base
    && SingleCycle(p) && |p| >= 5 && Records(s.mem, base, p)
    && (base + RECORD * |p| <= Get(s, Sp) - 88 || Get(s, Sp) + 8 <= base)
  }

  lemma CallableCycle(s: State, base: nat, p: seq<nat>, m: nat)
    requires Callable(s, base, p, m)
    ensures |p| >= 5 && InRange(p)
  {
    hide Get, Records, SingleCycle;
    CycleInjective(p);
  }

  /** Up to the loop: the registers are pushed and the chains start at records 0 and 4. */
  lemma Starts(prog: Program, t: Test, count: nat, s: State, base: nat, p: seq<nat>, m: nat)
    requires Supplied(t, count) && Embedded(prog, s.pc, Fn(t, count)) && Callable(s, base, p, m)
    ensures var e := Run(prog, s, 25);
      && Entered(s, e) && e.pc == s.pc + 25 && e.log == s.log && Get(e, Rcx) == Wrap(m)
      && Chasing(Amd, e, base, p, 0, 4) && AgreeOutside(s.mem, e.mem, Get(s, Sp) - 88, Get(s, Sp))
      && Straight(prog, s, 25)
  {
    hide Run, Step, Get, Embedded, Fn, ThroughputListing.Entry, InitLines, TestLoop, Epilogue, IsPushed, Entered, AgreeOutside, Straight,
      Records, SingleCycle, Resolve, Wrap, Load64, Chasing;
    FnParts(prog, s.pc, t, count);
    ThroughputX86.StartRuns(prog, s, t.prefix, count);
    var s2 := Run(prog, s, 23);
    EnteredStack(s, s2);
    RecordsApart(s.mem, s2.mem, base, p, Get(s, Sp) - 88, Get(s, Sp));
    InitRuns(Amd, prog, s2, base, p);
    var s4 := Run(prog, s2, 2);
    RunAdd(prog, s, 23, 2);
    ChasesPushed();
    StillEntered(s, s2, s4);
    InitFallsThrough(prog, s2.pc);
    BlockStraight(prog, s2, 2);
    StraightAdd(prog, s, 23, 2);
  }

  lemma ChasesPushed()
    ensures IsPushed(Rdi) && IsPushed(Rsi)
  {
  }

  /** The loop leaves the frame and the return address alone. */
  lemma LoopEntered(s: State, s1: State, e: State, base: nat, n: nat)
    requires Entered(s, s1) && Kept(Amd, s1, e, base, n) && (base + RECORD * n <= Get(s, Sp) - 88 || Get(s, Sp) + 8 <= base)
    ensures Entered(s, e)
  {
    hide Get, IsPushed, Stacked, SameOffIndex, Free, Load64, Saves, Entered;
    FreeIsPushed();
    EnteredStack(s, s1);
    StackOffIndex(s1.mem, e.mem, Get(s, Sp), s, base, n);
    StillEntered(s, s1, e);
  }

  lemma FreeIsPushed()
    ensures forall r :: !IsPushed(r) ==> !Free(Amd, r) && r != Rdi && r != Rsi && r != Rcx
    ensures !IsPushed(Sp)
  {
  }

  lemma StackOffIndex(m: Memory, m': Memory, sp: nat, s: State, base: nat, n: nat)
    requires sp >= 88 && Stacked(m, sp, s, Saves(), 11) && SameOffIndex(m, m', base, n) && (base + RECORD * n <= sp - 88 || sp + 8 <= base)
    ensures Stacked(m', sp, s, Saves(), 11) && Load64(m', sp) == Load64(m, sp)
  {
    hide Load64, Get, Saves, ByteAt;
    Load64Agree(m, m', sp);
    var regs := Saves();
    forall j {:trigger regs[j]} | 0 <= j < 11
      ensures Load64(m', sp - 8 * (j + 1)) == Get(s, regs[j])
    {
      Load64Agree(m, m', sp - 8 * (j + 1));
    }
  }

  /** What a completed call looks like after k steps: registers, return and memory; every line of the loop passed m times;
      the slots of the filler array taken in turn; every instruction executed as often as m iterations need; and every iteration
      begun and its fillers reached with the chains where they should be. */
  ghost predicate Completed(prog: Program, s: State, k: nat, t: Test, count: nat, base: nat, p: seq<nat>, m: nat)
    requires Supplied(t, count) && InRange(p) && |p| >= 5
  {
    var size := |TestLoop(Amd, t, count)|;
    && Returned(s, Run(prog, s, k), base, p) && PassedTimes(prog, s, k, s.pc + 25, size, m)
    && RoundRobin(prog, s, k, s.pc + 25, ChainBody(Amd, t.fillers, t.fence), Slots(t, count), m)
    && AllCircles(Amd, prog, Run(prog, s, 25), t.fillers, Slots(t, count), size, base, p, 0, 4, m)
    && ChainTally.Counts(Amd, prog, s, k, t, count, m)
  }

  /** The call made in s has returned in e: every register is as before, and nothing is written but the frame and index fields. */
  ghost predicate Returned(s: State, e: State, base: nat, p: seq<nat>) {
    var to := Load64(s.mem, Get(s, Sp));
    && e.ok && e.pc == to && Get(e, Sp) == Get(s, Sp) + 8 && (forall r :: r != Sp ==> Get(e, r) == Get(s, r))
    && e.log == s.log + [Event.Returned(to)]
    && Get(s, Sp) >= 88 && Untouched(s.mem, e.mem, Get(s, Sp) - 88, Get(s, Sp), base, |p|) && Records(e.mem, base, p)
  }

  lemma CompletedReturns(prog: Program, s: State, k: nat, t: Test, count: nat, base: nat, p: seq<nat>, m: nat)
    requires Supplied(t, count) && InRange(p) && |p| >= 5 && Completed(prog, s, k, t, count, base, p, m)
    ensures ChainTally.Counts(Amd, prog, s, k, t, count, m)
    ensures var e := Run(prog, s, k); e.ok && e.pc == Load64(s.mem, Get(s, Sp))
  {
    hide Run, Get, Untouched, Records, Load64, PassedTimes, AllCircles, Loop, RoundRobin, ChainTally.Counts;
  }

  /** The steps of a call. */
  function Steps(t: Test, count: nat, m: nat): nat
    requires Supplied(t, count)
  {
    25 + (m * |TestLoop(Amd, t, count)| + 12)
  }

  /** The function with m iterations when no guard trips. */
  lemma FunctionRuns(prog: Program, t: Test, count: nat, s: State, base: nat, p: seq<nat>, m: nat, trap: nat)
    requires Supplied(t, count) && Embedded(prog, s.pc, Fn(t, count)) && Callable(s, base, p, m) && |p| >= 5 && InRange(p)
    requires AllAllowed(Amd, t.fillers, |p|) && TrapAt(prog, t.fillers, trap) && Untripped(t.fillers, Slots(t, count), p[0], 4)
    ensures Completed(prog, s, Steps(t, count, m), t, count, base, p, m)
  {
    hide Run, Get, Embedded, Fn, InitLines, Loop, Epilogue, IsPushed, AgreeOutside, Straight,
      Records, SingleCycle, Resolve, AllAllowed, TrapAt, Untripped, Entered, Wrap, LoopDone, Returned, PassedTimes, PassedOnly, RoundRobin, FillerTexts,
      AllCircles, LoopLeft, Left, Chasing, ChainTally.Counts;
    FnParts(prog, s.pc, t, count);
    Starts(prog, t, count, s, base, p, m);
    var s1 := Run(prog, s, 25);
    var size := |TestLoop(Amd, t, count)|;
    IterationsRun(Amd, prog, s1, TestStart(t.prefix, count), t.fillers, Slots(t, count), t.fence, trap, base, p, 0, 4, m);
    var k1 := m * size;
    AfterLoop(prog, s, s1, t.fillers, Slots(t, count), size, base, p, m, k1);
    var s2 := Run(prog, s1, k1);
    LeftEntered(s, s1, s2, base, p);
    ReturnRuns(prog, s, s2);
    Joined(prog, s, s1, k1);
    Returns(s, s1, s2, Run(prog, s2, 12), base, p);
    LoopPassed(prog, s, s1, k1, size, m);
    CallTally(prog, s, t, count, k1, m);
    ChainTurns(Amd, prog, s, Steps(t, count, m), s1.pc, t, count, m);
  }

  lemma LeftEntered(s: State, s1: State, s2: State, base: nat, p: seq<nat>)
    requires LoopLeft(s, s1, s2, base, p)
    ensures Entered(s, s2)
  {
    hide Entered;
  }

  lemma Joined(prog: Program, s: State, s1: State, k1: nat)
    requires s1 == Run(prog, s, 25)
    ensures Run(prog, s, 25 + (k1 + 12)) == Run(prog, Run(prog, s1, k1), 12)
  {
    hide Run;
    RunAdd(prog, s1, k1, 12);
    RunAdd(prog, s, 25, k1 + 12);
  }

  /** The epilogue of the call made in s has led from s2 to e: everything is restored. */
  ghost predicate Left(s: State, s2: State, e: State) {
    var to := Load64(s.mem, Get(s, Sp));
    && e.ok && e.pc == to && Get(e, Sp) == Get(s, Sp) + 8 && (forall r :: r != Sp ==> Get(e, r) == Get(s, r))
    && e.mem == s2.mem && e.log == s2.log + [Event.Returned(to)]
  }

  lemma ReturnRuns(prog: Program, s: State, s2: State)
    requires Embedded(prog, s2.pc, Epilogue()) && Entered(s, s2) && Get(s, Sp) + 8 < TWO64
    ensures Get(s, Sp) >= 88 && Straight(prog, s2, 11) && Left(s, s2, Run(prog, s2, 12))
  {
    hide Run, Get, Embedded, Epilogue, Straight, Entered, Load64;
    ExitRuns(prog, s2.pc, s, s2);
    ThroughputX86.EpilogueFallsThrough(prog, s2.pc);
    EnteredStack(s, s2);
    BlockStraight(prog, s2, 11);
  }

  /** What the loop leaves, from s1 in the frame of the call made in s. */
  ghost predicate LoopLeft(s: State, s1: State, s2: State, base: nat, p: seq<nat>) {
    Entered(s, s2) && s2.log == s1.log && SameOffIndex(s1.mem, s2.mem, base, |p|) && Records(s2.mem, base, p)
  }

  lemma AfterLoop(prog: Program, s: State, s1: State, fillers: seq<Filler>, n: nat, size: nat, base: nat, p: seq<nat>, m: nat, k1: nat)
    requires k1 == m * size && (n > 0 ==> fillers != []) && InRange(p) && |p| >= 5
    requires LoopDone(Amd, prog, s1, fillers, n, size, base, p, 0, 4, m)
    requires Entered(s, s1) && (base + RECORD * |p| <= Get(s, Sp) - 88 || Get(s, Sp) + 8 <= base)
    ensures AllCircles(Amd, prog, s1, fillers, n, size, base, p, 0, 4, m)
    ensures Run(prog, s1, k1).pc == s1.pc + size && PassedOnly(prog, s1, k1, size, m)
    ensures LoopLeft(s, s1, Run(prog, s1, k1), base, p)
  {
    hide Get, Run, Entered, PassedOnly, AllCircles, Follow, Records, SameOffIndex, Free;
    LoopEntered(s, s1, Run(prog, s1, k1), base, |p|);
  }

  lemma Returns(s: State, s1: State, s2: State, e: State, base: nat, p: seq<nat>)
    requires Get(s, Sp) >= 88 && s1.log == s.log && AgreeOutside(s.mem, s1.mem, Get(s, Sp) - 88, Get(s, Sp))
    requires LoopLeft(s, s1, s2, base, p) && Left(s, s2, e)
    ensures Returned(s, e, base, p)
  {
    hide Get, Records, AgreeOutside, Untouched, SameOffIndex, Entered, Load64;
    UntouchedBy(s.mem, s1.mem, s2.mem, Get(s, Sp) - 88, Get(s, Sp), base, |p|);
  }

  /** The loop's lines are passed by the loop only. */
  lemma LoopPassed(prog: Program, s: State, s1: State, k1: nat, size: nat, m: nat)
    requires s1 == Run(prog, s, 25) && s1.pc == s.pc + 25 && Straight(prog, s, 25) && PassedOnly(prog, s1, k1, size, m)
    requires var s2 := Run(prog, s1, k1); s2.pc == s1.pc + size && Straight(prog, s2, 11)
    ensures PassedTimes(prog, s, 25 + (k1 + 12), s.pc + 25, size, m)
  {
    hide Run, Straight, Visits;
    var s2 := Run(prog, s1, k1);
    var k := 25 + (k1 + 12);
    forall line: nat {:trigger Visits(prog, s, k, line)} | s.pc + 25 <= line < s.pc + 25 + size
      ensures Visits(prog, s, k, line) == m
    {
      VisitsAdd(prog, s, 25, k1 + 12, line);
      VisitsAdd(prog, s1, k1, 12, line);
      VisitsStraight(prog, s, 25, line);
      ThroughputRun.IterationVisits(prog, s2, 12, line);
    }
  }

  /** The whole call, instruction by instruction. */
  lemma CallTally(prog: Program, s: State, t: Test, count: nat, k1: nat, m: nat)
    requires Supplied(t, count) && Embedded(prog, s.pc, Fn(t, count)) && Straight(prog, s, 25)
    requires var s1 := Run(prog, s, 25); var s2 := Run(prog, s1, k1); var size := |TestLoop(Amd, t, count)|;
      && s1.pc == s.pc + 25 && PassedOnly(prog, s1, k1, size, m) && s2.pc == s1.pc + size && Straight(prog, s2, 11)
    ensures ChainTally.Counts(Amd, prog, s, 25 + (k1 + 12), t, count, m)
  {
    hide Run, Embedded, CountedLoop, Epilogue, Straight, Tally.Performs, Tally.VisitsOnly, InitLines, FillerTexts, ChaseLines;
    AllAssigned(Amd, t, [count]);
    assert [count][0] == count;
    VisitsAre(prog, Run(prog, s, 25), k1, |TestLoop(Amd, t, count)|, m);
    Tally.FnPerforms(Amd, prog, s, Structure(Amd, t), count, k1, m);
  }

  lemma VisitsAre(prog: Program, s: State, k: nat, size: nat, m: nat)
    requires PassedOnly(prog, s, k, size, m)
    ensures Tally.VisitsOnly(prog, s, k, s.pc, size, m)
  {
    hide Visits;
  }

  /** When a guard trips, the first iteration ends in the trap with the counter untouched. */
  lemma FunctionTraps(prog: Program, t: Test, count: nat, s: State, base: nat, p: seq<nat>, m: nat, trap: nat) returns (k: nat)
    requires Supplied(t, count) && Embedded(prog, s.pc, Fn(t, count)) && Callable(s, base, p, m) && |p| >= 5 && InRange(p)
    requires AllAllowed(Amd, t.fillers, |p|) && TrapAt(prog, t.fillers, trap) && !Untripped(t.fillers, Slots(t, count), p[0], 4)
    ensures k <= 25 + |TestLoop(Amd, t, count)|
    ensures var e := Run(prog, s, k);
      e.ok && e.pc == trap + 1 < |prog| && prog[e.pc] == Op(Trap) && Get(e, Rcx) == Get(s, Rdi)
  {
    hide Run, Get, Embedded, Fn, InitLines, Loop, Epilogue, AgreeOutside, Straight,
      Records, SingleCycle, AllAllowed, TrapAt, Untripped, Entered, Wrap, Chasing;
    FnParts(prog, s.pc, t, count);
    Starts(prog, t, count, s, base, p, m);
    var s1 := Run(prog, s, 25);
    var k1 := TripRuns(Amd, prog, s1, TestStart(t.prefix, count), t.fillers, Slots(t, count), t.fence, trap, base, p, 0, 4);
    RunAdd(prog, s, 25, k1);
    k := 25 + k1;
  }

  /** Where the function for a count stands in a listing of tests. */
  lemma Found(t: Test, counts: seq<nat>, count: nat) returns (at: nat)
    requires Distinct(counts) && count in counts && forall i :: 0 <= i < |counts| ==> Supplied(t, counts[i])
    ensures Supplied(t, count) && Embedded(Concat(Functions(t, counts)), at, Fn(t, count))
    ensures Resolve(Concat(Functions(t, counts)), TestTop(t.prefix, count)) == Some(at)
  {
    hide Concat, Embedded, ThroughputListing.Fn, Structure, TextsUnlabelled, Assigned, Resolve;
    AllAssigned(Amd, t, counts);
    StructureUnlabelled(Amd, t);
    PrefixIs(t);
    assert exists i :: 0 <= i < |counts| && counts[i] == count;
    at := ThroughputListing.Found(Amd, Structure(Amd, t), counts, count);
  }

  lemma PrefixIs(t: Test)
    ensures Structure(Amd, t).prefix == t.prefix
  {
  }

  /** Called by its label in a listing of tests without guards, for any list of distinct counts. */
  lemma ListedRuns(t: Test, counts: seq<nat>, count: nat, s: State, base: nat, p: seq<nat>, m: nat)
    requires Distinct(counts) && count in counts && (forall i :: 0 <= i < |counts| ==> Supplied(t, counts[i])) && Supplied(t, count)
    requires Guardless(t.fillers) && AllAllowed(Amd, t.fillers, |p|) && Callable(s, base, p, m) && |p| >= 5 && InRange(p)
    requires Resolve(Concat(Functions(t, counts)), TestTop(t.prefix, count)) == Some(s.pc)
    ensures Completed(Concat(Functions(t, counts)), s, Steps(t, count, m), t, count, base, p, m)
  {
    hide Run, Get, Embedded, Concat, Fn, Functions, Loop, Callable, Resolve, Completed, Untripped, TrapAt, AllAllowed, Load64;
    var at := Found(t, counts, count);
    GuardlessRuns(Concat(Functions(t, counts)), t.fillers, Slots(t, count), p[0], 4);
    FunctionRuns(Concat(Functions(t, counts)), t, count, s, base, p, m, 0);
  }
}
