/** Throughput tests as x86 functions. */
module ThroughputX86 {
  import opened Words
  import opened Listing
  import opened Machine
  import opened Symbols
  import opened Trace
  import opened X86Frame
  import opened ThroughputText
  import opened ThroughputListing
  import opened ThroughputRun
  import opened Tally
  import X86Stack

  lemma EntryFallsThrough(prog: Program, p: nat, prefix: string, count: nat)
    requires Embedded(prog, p, Entry(Amd, prefix, count))
    ensures NoTransfers(prog, p, 23)
  {
    hide Embedded;
    var f := Entry(Amd, prefix, count);
    EmbedLines(prog, p, f);
    EntryOps(prefix, count);
    forall l | p <= l < p + 23 && prog[l].Op?
      ensures FallsThrough(prog[l].instr)
    {
      assert prog[l] == f[l - p];
    }
  }

  lemma EntryOps(prefix: string, count: nat)
    ensures forall o :: 0 <= o < 23 && Entry(Amd, prefix, count)[o].Op? ==> FallsThrough(Entry(Amd, prefix, count)[o].instr)
  {
  }

  lemma EpilogueFallsThrough(prog: Program, p: nat)
    requires Embedded(prog, p, Epilogue())
    ensures NoTransfers(prog, p, 11)
  {
    hide Embedded;
    var f := Epilogue();
    EmbedLines(prog, p, f);
    EpilogueOps();
    forall l | p <= l < p + 11 && prog[l].Op?
      ensures FallsThrough(prog[l].instr)
    {
      assert prog[l] == f[l - p];
    }
  }

  lemma EpilogueOps()
    ensures forall o :: 0 <= o < 11 && Epilogue()[o].Op? ==> FallsThrough(Epilogue()[o].instr)
  {
  }

  /** From the label through the prologue: the registers are pushed and the arguments moved. */
  lemma StartRuns(prog: Program, s: State, prefix: string, count: nat)
    requires Embedded(prog, s.pc, Entry(Amd, prefix, count)) && s.ok && Get(s, Sp) >= 88
    ensures var e := Run(prog, s, 23);
      && Entered(s, e) && e.pc == s.pc + 23 && e.log == s.log && Get(e, Rcx) == Get(s, Rdi) && Get(e, Rdx) == Get(s, Rsi)
      && AgreeOutside(s.mem, e.mem, Get(s, Sp) - 88, Get(s, Sp)) && Straight(prog, s, 23)
  {
    hide Run, Step, Get, Embedded, Entry, Prologue, Entered, AgreeOutside, Straight, Resolve, Load64, Cleared;
    EntryParts(Amd, prog, s.pc, prefix, count);
    var s1 := StepMark(prog, s, s.pc);
    RunSingle(prog, s);
    EntryRuns(prog, s.pc + 1, s1);
    RunAdd(prog, s, 1, 22);
    SameCaller(s, s1, Run(prog, s1, 22));
    EntryFallsThrough(prog, s.pc, prefix, count);
    BlockStraight(prog, s, 23);
  }

  lemma SameCaller(s: State, s1: State, e: State)
    requires Entered(s1, e) && s.ok && (forall r :: Get(s, r) == Get(s1, r)) && s1.mem == s.mem
    ensures Entered(s, e)
  {
    hide Get, Load64, Saves, X86Stack.Stacked, Entered;
    EnteredStack(s1, e);
    SameStack(s, s1, e.mem);
    SameEntered(s, s1, e);
  }

  lemma SameStack(s: State, s1: State, m: Memory)
    requires X86Stack.Stacked(m, Get(s1, Sp), s1, Saves(), 11) && forall r :: Get(s, r) == Get(s1, r)
    ensures X86Stack.Stacked(m, Get(s, Sp), s, Saves(), 11)
  {
    hide Get, Load64, Saves;
  }

  lemma SameEntered(s: State, s1: State, e: State)
    requires Entered(s1, e) && (forall r :: Get(s, r) == Get(s1, r)) && s1.mem == s.mem
    requires X86Stack.Stacked(e.mem, Get(s, Sp), s, Saves(), 11)
    ensures Entered(s, e)
  {
    hide Get, Load64, Saves, X86Stack.Stacked;
  }

  /** A call with m iterations (zero standing for 2^64): the return address is on the stack. */
  ghost predicate CalledWith(s: State, m: nat) {
    s.ok && 88 <= Get(s, Sp) && Get(s, Sp) + 8 < TWO64 && 1 <= m <= TWO64 && Get(s, Rdi) == Wrap(m)
  }

  /** The texts write registers in w only, which leave out the stack pointer and the counter. */
  ghost predicate TestRespects(t: Throughput, w: set<Reg>, x: Places) {
    TextRespects(w, x, t.init) && BodyRespects(w, x, t.body) && Sp !in w && Rcx !in w
  }

  /** The steps between prologue and epilogue do not write the pushed registers or the return address. */
  ghost predicate FrameSpared(prog: Program, s: State, steps: nat) {
    Get(s, Sp) >= 88 && AlwaysSpares(prog, Run(prog, s, 23), steps, Get(s, Sp) - 88, Get(s, Sp) + 8)
  }

  /** A call made in s has returned in e: every register but the stack pointer, if it is pushed or outside w, is as before. */
  ghost predicate Home(s: State, e: State, w: set<Reg>, log: seq<Event>) {
    var to := Load64(s.mem, Get(s, Sp));
    && e.ok && e.pc == to && Get(e, Sp) == Get(s, Sp) + 8 && e.log == log + [Returned(to)]
    && forall r :: r != Sp && (IsPushed(r) || r !in w) ==> Get(e, r) == Get(s, r)
  }

  /** What a completed call looks like after k steps: it has returned, every line of the loop was passed m times, the slots of
      the filler array took turns, and every instruction was executed as often as m iterations need. */
  ghost predicate Completed(prog: Program, s: State, k: nat, t: Throughput, count: nat, w: set<Reg>, m: nat)
    requires Assigned(t, count)
  {
    var loop := s.pc + 23 + |t.init|;
    && Home(s, Run(prog, s, k), w, s.log)
    && PassedTimes(prog, s, k, loop, |LoopOf(Amd, t, count)|, m)
    && RoundRobin(prog, s, k, loop, t.body, SlotCount(t, count), m)
    && Performs(Amd, prog, s, k, t, count, m)
  }

  /** A call with m iterations of a test whose texts keep to w and whose steps spare the frame: it takes exactly the steps
      of its lines, passes every line of the loop m times, and returns with every pushed register and every register
      outside w as before. */
  lemma FunctionRuns(prog: Program, t: Throughput, count: nat, w: set<Reg>, x: Places, s: State, m: nat)
    requires Assigned(t, count) && Embedded(prog, s.pc, Fn(Amd, t, count)) && CalledWith(s, m)
    requires TestRespects(t, w, x) && FrameSpared(prog, s, Middle(Amd, t, count, m))
    ensures Completed(prog, s, 23 + Middle(Amd, t, count, m) + 12, t, count, w, m)
  {
    hide Run, Get, Embedded, Entry, CountedLoop, Epilogue, Straight, Entered, Wrap, LoopDone, AgreeOutside, AlwaysSpares,
      TextRespects, BodyRespects, LinesRespect, Within, Home, PassedTimes, RoundRobin, Load64, IsPushed, Saves, Performs, VisitsOnly;
    var size := |LoopOf(Amd, t, count)|;
    FnParts(Amd, prog, s.pc, t, count);
    StartRuns(prog, s, t.prefix, count);
    var s1 := Run(prog, s, 23);
    EnteredStack(s, s1);
    TextLines(w, x, prog, s1.pc, t.init);
    BlockRuns(w, x, prog, s1, |t.init|);
    var s2 := Run(prog, s1, |t.init|);
    InitDone(s1, s2, w);
    IterationsRun(Amd, w, x, prog, s2, TestStart(t.prefix, count), t.body, SlotCount(t, count), m);
    var k1 := m * size;
    LoopLeft(w, prog, s1, s2, size, m, k1);
    var s3 := Run(prog, s2, k1);
    SparedThrough(prog, s1, Middle(Amd, t, count, m), Get(s, Sp) - 88, Get(s, Sp) + 8);
    RunAdd(prog, s1, |t.init|, k1);
    ReturnRuns(prog, s, s1, s3, w);
    LoopPassed(prog, s, s1, s2, |t.init|, size, k1, m);
    Joined(prog, s, s1, s2, |t.init|, k1);
    CallTally(w, prog, s, t, count, m, size, k1);
    TurnsTaken(Amd, prog, s, 23 + Middle(Amd, t, count, m) + 12, s2.pc, TestStart(t.prefix, count), t.body, SlotCount(t, count), m);
  }

  /** The whole call, instruction by instruction. */
  lemma CallTally(w: set<Reg>, prog: Program, s: State, t: Throughput, count: nat, m: nat, size: nat, k1: nat)
    requires Assigned(t, count) && Embedded(prog, s.pc, Fn(Amd, t, count)) && size == |LoopOf(Amd, t, count)| && k1 == m * size
    requires var s1 := Run(prog, s, 23); var s2 := Run(prog, s1, |t.init|); var s3 := Run(prog, s2, k1);
      && Straight(prog, s, 23) && s1.pc == s.pc + 23 && Straight(prog, s1, |t.init|) && s2.pc == s1.pc + |t.init|
      && LoopDone(Amd, w, prog, s2, size, m) && Straight(prog, s3, 11)
    ensures Performs(Amd, prog, s, 23 + Middle(Amd, t, count, m) + 12, t, count, m)
  {
    hide Run, Get, Embedded, LoopOf, Epilogue, Straight, LoopDone, Performs, VisitsOnly;
    var s2 := Run(prog, Run(prog, s, 23), |t.init|);
    LoopDoneOnly(w, prog, s2, size, m, k1);
    RunAdd(prog, s, 23, |t.init|);
    StraightAdd(prog, s, 23, |t.init|);
    FnPerforms(Amd, prog, s, t, count, k1, m);
    assert 23 + Middle(Amd, t, count, m) + 12 == 23 + |t.init| + (k1 + 12);
  }

  lemma LoopDoneOnly(w: set<Reg>, prog: Program, s: State, size: nat, m: nat, k1: nat)
    requires k1 == m * size && LoopDone(Amd, w, prog, s, size, m)
    ensures VisitsOnly(prog, s, k1, s.pc, size, m) && Run(prog, s, k1).pc == s.pc + size
  {
    hide Run, Get, AlwaysWithin, Turns, Visits;
  }

  lemma InitDone(s: State, e: State, w: set<Reg>)
    requires Within(w, s, e) && Rcx !in w
    ensures e.ok && Get(e, Rcx) == Get(s, Rcx)
  {
    hide Get;
  }

  lemma LoopLeft(w: set<Reg>, prog: Program, s1: State, s2: State, size: nat, m: nat, k1: nat)
    requires k1 == m * size && Within(w, s1, s2) && LoopDone(Amd, w, prog, s2, size, m)
    ensures var s3 := Run(prog, s2, k1); Within(w + {Rcx}, s1, s3) && s3.pc == s2.pc + size
    ensures PassedTimes(prog, s2, k1, s2.pc, size, m)
  {
    hide Get, Run, Within, AlwaysWithin, Turns, Visits;
    AlwaysOk(w + {Rcx}, prog, s2, k1);
    WithinMore(w, w + {Rcx}, s1, s2);
    WithinTrans(w + {Rcx}, s1, s2, Run(prog, s2, k1));
  }

  /** The registers of a set in a list. */
  lemma Listed(w: set<Reg>) returns (l: seq<Reg>)
    ensures forall r :: r in l <==> r in w
    decreases w
  {
    if w == {} {
      l := [];
    } else {
      var r :| r in w;
      var rest := Listed(w - {r});
      l := rest + [r];
    }
  }

  /** The frame of the call still stands when memory there is as it was and registers changed within w only. */
  lemma StillFramed(s: State, s1: State, s3: State, w: set<Reg>, l: seq<Reg>)
    requires Entered(s, s1) && Within(w + {Rcx}, s1, s3) && Sp !in w && (forall r :: r in l <==> r in w)
    requires X86Stack.Stacked(s3.mem, Get(s, Sp), s, Saves(), 11) && Load64(s3.mem, Get(s, Sp)) == Load64(s.mem, Get(s, Sp))
    ensures X86Stack.InFrame(s, s3, Saves(), l)
  {
    hide Get, X86Stack.Stacked, Load64, Saves;
    CounterPushed();
  }

  lemma CounterPushed()
    ensures Rcx in Saves()
  {
    InSaves(Rcx);
  }

  lemma StackStays(m: Memory, m': Memory, sp: nat, s: State)
    requires sp >= 88 && X86Stack.Stacked(m, sp, s, Saves(), 11) && Agree(m, m', sp - 88, sp + 8)
    ensures X86Stack.Stacked(m', sp, s, Saves(), 11) && Load64(m', sp) == Load64(m, sp)
  {
    hide Load64, Get, Saves, ByteAt;
    Load64Agree(m, m', sp);
    var regs := Saves();
    forall j {:trigger regs[j]} | 0 <= j < 11
      ensures Load64(m', sp - 8 * (j + 1)) == Get(s, regs[j])
    {
      Load64Agree(m, m', sp - 8 * (j + 1));
    }
  }

  /** The epilogue restores what was pushed and returns. */
  lemma ReturnRuns(prog: Program, s: State, s1: State, s3: State, w: set<Reg>)
    requires Entered(s, s1) && Within(w + {Rcx}, s1, s3) && Sp !in w && 88 <= Get(s, Sp) && Get(s, Sp) + 8 < TWO64
    requires Agree(s1.mem, s3.mem, Get(s, Sp) - 88, Get(s, Sp) + 8) && Embedded(prog, s3.pc, Epilogue())
    ensures Straight(prog, s3, 11) && Home(s, Run(prog, s3, 12), w, s1.log)
  {
    hide Run, Get, Embedded, Straight, Entered, ByteAt, X86Stack.Stacked, X86Stack.InFrame, Load64, Saves, X86Stack.Pops, IsPushed;
    var l := Listed(w);
    EnteredStack(s, s1);
    StackStays(s1.mem, s3.mem, Get(s, Sp), s);
    StillFramed(s, s1, s3, w, l);
    SavesPlain();
    EpilogueFallsThrough(prog, s3.pc);
    BlockStraight(prog, s3, 11);
    X86Stack.LeaveRuns(prog, s3.pc, s, s3, Saves(), l);
    forall r | IsPushed(r)
      ensures r in Saves()
    {
      InSaves(r);
    }
  }

  /** The loop's lines are passed by the loop only. */
  lemma LoopPassed(prog: Program, s: State, s1: State, s2: State, init: nat, size: nat, k1: nat, m: nat)
    requires s1 == Run(prog, s, 23) && s1.pc == s.pc + 23 && Straight(prog, s, 23)
    requires s2 == Run(prog, s1, init) && s2.pc == s1.pc + init && Straight(prog, s1, init)
    requires PassedTimes(prog, s2, k1, s2.pc, size, m)
    requires var s3 := Run(prog, s2, k1); s3.pc == s2.pc + size && Straight(prog, s3, 11)
    ensures PassedTimes(prog, s, 23 + (init + k1) + 12, s2.pc, size, m)
  {
    hide Run, Straight, Visits;
    var s3 := Run(prog, s2, k1);
    var k := 23 + (init + k1) + 12;
    assert k == 23 + (init + (k1 + 12));
    forall line: nat {:trigger Visits(prog, s, k, line)} | s2.pc <= line < s2.pc + size
      ensures Visits(prog, s, k, line) == m
    {
      VisitsAdd(prog, s, 23, init + (k1 + 12), line);
      VisitsAdd(prog, s1, init, k1 + 12, line);
      VisitsAdd(prog, s2, k1, 12, line);
      VisitsStraight(prog, s, 23, line);
      VisitsStraight(prog, s1, init, line);
      IterationVisits(prog, s3, 12, line);
    }
  }

  lemma Joined(prog: Program, s: State, s1: State, s2: State, init: nat, k1: nat)
    requires s1 == Run(prog, s, 23) && s2 == Run(prog, s1, init)
    ensures Run(prog, s, 23 + (init + k1) + 12) == Run(prog, Run(prog, s2, k1), 12)
  {
    hide Run;
    RunAdd(prog, s2, k1, 12);
    RunAdd(prog, s1, init, k1 + 12);
    RunAdd(prog, s, 23, init + (k1 + 12));
    assert 23 + (init + k1) + 12 == 23 + (init + (k1 + 12));
  }

  /** Stores at constant offsets from the data argument, apart from the frame, spare it. */
  lemma OffsetsSpareFrame(prog: Program, t: Throughput, count: nat, w: set<Reg>, offsets: set<int>, s: State, m: nat)
    requires Assigned(t, count) && Embedded(prog, s.pc, Fn(Amd, t, count)) && CalledWith(s, m)
    requires TestRespects(t, w, AtOffsets(Rdx, offsets)) && Rdx !in w
    requires Apart(offsets, Get(s, Rsi), Get(s, Sp) - 88, Get(s, Sp) + 8)
    ensures FrameSpared(prog, s, Middle(Amd, t, count, m))
  {
    hide Run, Get, Embedded, Entry, CountedLoop, Epilogue, Straight, Entered, Wrap, AgreeOutside, AlwaysSpares, Load64,
      TextRespects, BodyRespects, LinesRespect, LinesStore, AlwaysWithin, Within, Apart, IsPushed, Saves;
    FnParts(Amd, prog, s.pc, t, count);
    StartRuns(prog, s, t.prefix, count);
    var s1 := Run(prog, s, 23);
    EnteredStack(s, s1);
    TestSpares(Amd, prog, s1, w, offsets, t, count, m, Get(s, Sp) - 88, Get(s, Sp) + 8);
  }
}
