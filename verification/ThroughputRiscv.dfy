/** Throughput tests as RISC-V functions. */
module ThroughputRiscv {
  import opened Words
  import opened Listing
  import opened Machine
  import opened Symbols
  import opened Trace
  import opened RiscvFrame
  import opened ThroughputText
  import opened ThroughputListing
  import opened ThroughputRun
  import opened Tally

  // ----- running a function

  lemma EntryFallsThrough(prog: Program, p: nat, prefix: string, count: nat)
    requires Embedded(prog, p, Entry(Rv, prefix, count))
    ensures NoTransfers(prog, p, 20)
  {
    hide Embedded;
    var f := Entry(Rv, prefix, count);
    EmbedLines(prog, p, f);
    EntryOps(prefix, count);
    forall l | p <= l < p + 20 && prog[l].Op?
      ensures FallsThrough(prog[l].instr)
    {
      assert prog[l] == f[l - p];
    }
  }

  lemma EntryOps(prefix: string, count: nat)
    ensures forall o :: 0 <= o < 20 && Entry(Rv, prefix, count)[o].Op? ==> FallsThrough(Entry(Rv, prefix, count)[o].instr)
  {
  }

  lemma EpilogueFallsThrough(prog: Program, p: nat)
    requires Embedded(prog, p, Epilogue())
    ensures NoTransfers(prog, p, 10)
  {
    hide Embedded;
    var f := Epilogue();
    EmbedLines(prog, p, f);
    EpilogueOps();
    forall l | p <= l < p + 10 && prog[l].Op?
      ensures FallsThrough(prog[l].instr)
    {
      assert prog[l] == f[l - p];
    }
  }

  lemma EpilogueOps()
    ensures forall o :: 0 <= o < 10 && Epilogue()[o].Op? ==> FallsThrough(Epilogue()[o].instr)
  {
  }

  /** From the label through the prologue: the frame is set up. */
  lemma EntryRuns(prog: Program, s: State, prefix: string, count: nat)
    requires Embedded(prog, s.pc, Entry(Rv, prefix, count)) && s.ok && Get(s, Sp) >= 80 && s.low <= Get(s, Sp)
    ensures var e := Run(prog, s, 20);
      && InFrame(s, e) && e.pc == s.pc + 20 && e.log == s.log && Get(e, A0) == Get(s, A0)
      && AgreeOutside(s.mem, e.mem, Get(s, Sp) - 80, Get(s, Sp)) && Straight(prog, s, 20)
  {
    hide Run, Step, Get, Embedded, Entry, Prologue, Scratch, Frame, AgreeOutside, Straight, Resolve;
    EntryParts(Rv, prog, s.pc, prefix, count);
    var s1 := StepMark(prog, s, s.pc);
    RunSingle(prog, s);
    EnterRuns(prog, s.pc + 1, s1);
    RunAdd(prog, s, 1, 19);
    SameCaller(s, s1, Run(prog, s1, 19));
    EntryFallsThrough(prog, s.pc, prefix, count);
    BlockStraight(prog, s, 20);
  }

  lemma SameCaller(s: State, s1: State, e: State)
    requires InFrame(s1, e) && s.ok && forall r :: Get(s, r) == Get(s1, r)
    ensures InFrame(s, e)
  {
    hide Get, Scratch, Load64, Saved;
  }

  /** A call with m iterations (zero standing for 2^64). */
  ghost predicate CalledWith(s: State, m: nat) {
    s.ok && Get(s, Sp) >= 80 && s.low <= Get(s, Sp) && 1 <= m <= TWO64 && Get(s, A0) == Wrap(m)
  }

  /** The texts write registers in w only, which leave out the stack pointer, the counter and the return address. */
  ghost predicate TestRespects(t: Throughput, w: set<Reg>, x: Places) {
    TextRespects(w, x, t.init) && BodyRespects(w, x, t.body) && Sp !in w && A0 !in w && Ra !in w
  }

  /** The steps between prologue and epilogue do not write the frame. */
  ghost predicate FrameSpared(prog: Program, s: State, steps: nat) {
    Get(s, Sp) >= 80 && AlwaysSpares(prog, Run(prog, s, 20), steps, Get(s, Sp) - 80, Get(s, Sp))
  }

  /** A call made in s has returned in e: the stack pointer, the saved registers and all registers outside w are as they
      were, except the counter. */
  ghost predicate Home(s: State, e: State, w: set<Reg>, log: seq<Event>) {
    && e.ok && e.pc == Get(s, Ra) && Get(e, Sp) == Get(s, Sp) && e.log == log + [Returned(Get(s, Ra))]
    && forall r :: r != A0 && (Scratch(r) || r !in w) ==> Get(e, r) == Get(s, r)
  }

  /** What a completed call looks like after k steps: it has returned, every line of the loop was passed m times, the slots of
      the filler array took turns, and every instruction was executed as often as m iterations need. */
  ghost predicate Completed(prog: Program, s: State, k: nat, t: Throughput, count: nat, w: set<Reg>, m: nat)
    requires Assigned(t, count)
  {
    var loop := s.pc + 20 + |t.init|;
    && Home(s, Run(prog, s, k), w, s.log) && Get(Run(prog, s, k), A0) == 0
    && PassedTimes(prog, s, k, loop, |LoopOf(Rv, t, count)|, m)
    && RoundRobin(prog, s, k, loop, t.body, SlotCount(t, count), m)
    && Performs(Rv, prog, s, k, t, count, m)
  }

  function Steps(t: Throughput, count: nat, m: nat): nat
    requires Assigned(t, count)
  {
    20 + Middle(Rv, t, count, m) + 11
  }

  /** A call with m iterations of a test whose texts keep to w and whose steps spare the frame: it takes exactly the steps
      of its lines, passes every line of the loop m times, and returns with the stack pointer, every saved register and
      every register outside w as before. */
  lemma FunctionRuns(prog: Program, t: Throughput, count: nat, w: set<Reg>, x: Places, s: State, m: nat)
    requires Assigned(t, count) && Embedded(prog, s.pc, Fn(Rv, t, count)) && CalledWith(s, m)
    requires TestRespects(t, w, x) && FrameSpared(prog, s, Middle(Rv, t, count, m))
    ensures Completed(prog, s, Steps(t, count, m), t, count, w, m)
    ensures Run(prog, s, Steps(t, count, m)).mem == Run(prog, Run(prog, s, 20), Middle(Rv, t, count, m)).mem
  {
    hide Run, Get, Embedded, Entry, CountedLoop, Epilogue, Straight, InFrame, Wrap, LoopDone, AgreeOutside, AlwaysSpares,
      TextRespects, BodyRespects, LinesRespect, Within, Home, PassedTimes, RoundRobin, Performs, VisitsOnly;
    var size := |LoopOf(Rv, t, count)|;
    FnParts(Rv, prog, s.pc, t, count);
    EntryRuns(prog, s, t.prefix, count);
    var s1 := Run(prog, s, 20);
    InFrameOk(s, s1);
    TextLines(w, x, prog, s1.pc, t.init);
    BlockRuns(w, x, prog, s1, |t.init|);
    var s2 := Run(prog, s1, |t.init|);
    InitDone(s1, s2, w);
    IterationsRun(Rv, w, x, prog, s2, TestStart(t.prefix, count), t.body, SlotCount(t, count), m);
    LoopLeft(w, prog, s1, s2, size, m);
    var s3 := Run(prog, s2, m * size);
    SparedThrough(prog, s1, Middle(Rv, t, count, m), Get(s, Sp) - 80, Get(s, Sp));
    RunAdd(prog, s1, |t.init|, m * size);
    ExitRuns(prog, s, s1, s3, w);
    LoopDonePassed(w, prog, s2, size, m);
    LoopPassed(prog, s, s1, s2, |t.init|, size, m * size, m);
    Joined(prog, s, s1, s2, |t.init|, m * size);
    CallTally(w, prog, s, t, count, m, size);
    TurnsTaken(Rv, prog, s, Steps(t, count, m), s2.pc, TestStart(t.prefix, count), t.body, SlotCount(t, count), m);
  }

  /** The whole call, instruction by instruction. */
  lemma CallTally(w: set<Reg>, prog: Program, s: State, t: Throughput, count: nat, m: nat, size: nat)
    requires Assigned(t, count) && Embedded(prog, s.pc, Fn(Rv, t, count)) && size == |LoopOf(Rv, t, count)|
    requires var s1 := Run(prog, s, 20); var s2 := Run(prog, s1, |t.init|); var s3 := Run(prog, s2, m * size);
      && Straight(prog, s, 20) && s1.pc == s.pc + 20 && Straight(prog, s1, |t.init|) && s2.pc == s1.pc + |t.init|
      && LoopDone(Rv, w, prog, s2, size, m) && Straight(prog, s3, 10)
    ensures Performs(Rv, prog, s, Steps(t, count, m), t, count, m)
  {
    hide Run, Get, Embedded, LoopOf, Epilogue, Straight, LoopDone, Performs, VisitsOnly;
    var s2 := Run(prog, Run(prog, s, 20), |t.init|);
    LoopDoneOnly(w, prog, s2, size, m);
    RunAdd(prog, s, 20, |t.init|);
    StraightAdd(prog, s, 20, |t.init|);
    FnPerforms(Rv, prog, s, t, count, m * size, m);
    assert Steps(t, count, m) == 20 + |t.init| + (m * size + 11);
  }

  lemma LoopDoneOnly(w: set<Reg>, prog: Program, s: State, size: nat, m: nat)
    requires LoopDone(Rv, w, prog, s, size, m)
    ensures VisitsOnly(prog, s, m * size, s.pc, size, m) && Run(prog, s, m * size).pc == s.pc + size
  {
    hide Run, Get, AlwaysWithin, Turns, Visits;
  }

  lemma InFrameOk(s: State, e: State)
    requires InFrame(s, e)
    ensures e.ok && Get(s, Sp) >= 80
  {
  }

  lemma InitDone(s: State, e: State, w: set<Reg>)
    requires Within(w, s, e) && A0 !in w
    ensures e.ok && Get(e, A0) == Get(s, A0)
  {
    hide Get;
  }

  lemma LoopLeft(w: set<Reg>, prog: Program, s1: State, s2: State, size: nat, m: nat)
    requires Within(w, s1, s2) && LoopDone(Rv, w, prog, s2, size, m)
    ensures var s3 := Run(prog, s2, m * size);
      Within(w + {A0}, s1, s3) && s3.pc == s2.pc + size && Get(s3, A0) == 0
  {
    hide Get, Run, Within, AlwaysWithin, Turns, Visits;
    AlwaysOk(w + {A0}, prog, s2, m * size);
    WithinMore(w, w + {A0}, s1, s2);
    WithinTrans(w + {A0}, s1, s2, Run(prog, s2, m * size));
  }

  /** The epilogue restores what the frame holds and returns. */
  lemma ExitRuns(prog: Program, s: State, s1: State, s3: State, w: set<Reg>)
    requires InFrame(s, s1) && Within(w + {A0}, s1, s3) && Sp !in w && Ra !in w && Get(s, Sp) >= 80
    requires Agree(s1.mem, s3.mem, Get(s, Sp) - 80, Get(s, Sp)) && Embedded(prog, s3.pc, Epilogue())
    ensures Straight(prog, s3, 10) && Home(s, Run(prog, s3, 11), w, s1.log) && Get(Run(prog, s3, 11), A0) == Get(s3, A0)
    ensures Run(prog, s3, 11).mem == s3.mem
  {
    hide Run, Get, Embedded, Epilogue, Straight, Scratch, Frame, ByteAt;
    SpIsKept();
    FrameStays(s1.mem, s3.mem, Get(s, Sp) - 80, s);
    EpilogueRuns(prog, s3.pc, s3, s);
    EpilogueFallsThrough(prog, s3.pc);
    BlockStraight(prog, s3, 10);
  }

  lemma FrameStays(m: Memory, m': Memory, sp: nat, s: State)
    requires Frame(m, sp, s, 9) && Agree(m, m', sp, sp + 80)
    ensures Frame(m', sp, s, 9)
  {
    hide Load64, Get, Saved, ByteAt;
    forall j {:trigger Saved(j)} | 0 <= j < 9
      ensures Load64(m', sp + 8 * (j + 1)) == Get(s, Saved(j))
    {
      Load64Agree(m, m', sp + 8 * (j + 1));
    }
  }

  /** The loop's lines are passed by the loop only. */
  lemma LoopPassed(prog: Program, s: State, s1: State, s2: State, init: nat, size: nat, k1: nat, m: nat)
    requires s1 == Run(prog, s, 20) && s1.pc == s.pc + 20 && Straight(prog, s, 20)
    requires s2 == Run(prog, s1, init) && s2.pc == s1.pc + init && Straight(prog, s1, init)
    requires PassedTimes(prog, s2, k1, s2.pc, size, m)
    requires var s3 := Run(prog, s2, k1); s3.pc == s2.pc + size && Straight(prog, s3, 10)
    ensures PassedTimes(prog, s, 20 + (init + k1) + 11, s2.pc, size, m)
  {
    hide Run, Straight, Visits;
    var s3 := Run(prog, s2, k1);
    var k := 20 + (init + k1) + 11;
    assert k == 20 + (init + (k1 + 11));
    forall line: nat {:trigger Visits(prog, s, k, line)} | s2.pc <= line < s2.pc + size
      ensures Visits(prog, s, k, line) == m
    {
      VisitsAdd(prog, s, 20, init + (k1 + 11), line);
      VisitsAdd(prog, s1, init, k1 + 11, line);
      VisitsAdd(prog, s2, k1, 11, line);
      VisitsStraight(prog, s, 20, line);
      VisitsStraight(prog, s1, init, line);
      IterationVisits(prog, s3, 11, line);
    }
  }

  lemma LoopDonePassed(w: set<Reg>, prog: Program, s: State, size: nat, m: nat)
    requires LoopDone(Rv, w, prog, s, size, m)
    ensures PassedTimes(prog, s, m * size, s.pc, size, m)
  {
    hide Run, Get, AlwaysWithin, Turns, Visits;
  }

  lemma Joined(prog: Program, s: State, s1: State, s2: State, init: nat, k1: nat)
    requires s1 == Run(prog, s, 20) && s2 == Run(prog, s1, init)
    ensures Run(prog, s, 20 + (init + k1) + 11) == Run(prog, Run(prog, s2, k1), 11)
  {
    hide Run;
    RunAdd(prog, s2, k1, 11);
    RunAdd(prog, s1, init, k1 + 11);
    RunAdd(prog, s, 20, init + (k1 + 11));
    assert 20 + (init + k1) + 11 == 20 + (init + (k1 + 11));
  }

  /** Stores at constant offsets from the data argument, apart from the frame, spare it. */
  lemma OffsetsSpareFrame(prog: Program, t: Throughput, count: nat, w: set<Reg>, offsets: set<int>, s: State, m: nat)
    requires Assigned(t, count) && Embedded(prog, s.pc, Fn(Rv, t, count)) && CalledWith(s, m)
    requires TestRespects(t, w, AtOffsets(A1, offsets)) && A1 !in w
    requires Apart(offsets, Get(s, A1), Get(s, Sp) - 80, Get(s, Sp))
    ensures FrameSpared(prog, s, Middle(Rv, t, count, m))
  {
    hide Run, Get, Embedded, Entry, CountedLoop, Epilogue, Straight, InFrame, Wrap, AgreeOutside, AlwaysSpares,
      TextRespects, BodyRespects, LinesRespect, LinesStore, AlwaysWithin, Within, Apart;
    FnParts(Rv, prog, s.pc, t, count);
    EntryRuns(prog, s, t.prefix, count);
    var s1 := Run(prog, s, 20);
    InFrameOk(s, s1);
    InFrameData(s, s1);
    TestSpares(Rv, prog, s1, w, offsets, t, count, m, Get(s, Sp) - 80, Get(s, Sp));
  }

  lemma InFrameData(s: State, e: State)
    requires InFrame(s, e)
    ensures Get(e, A1) == Get(s, A1)
  {
    hide Get, Frame;
  }

  /** A call of a test that stores at constant offsets from the data argument, apart from the frame: it completes, and has
      written its frame and those places only. */
  lemma OffsetsRun(prog: Program, t: Throughput, count: nat, w: set<Reg>, offsets: set<int>, s: State, m: nat)
    requires Assigned(t, count) && Embedded(prog, s.pc, Fn(Rv, t, count)) && CalledWith(s, m)
    requires TestRespects(t, w, AtOffsets(A1, offsets)) && A1 !in w
    requires Apart(offsets, Get(s, A1), Get(s, Sp) - 80, Get(s, Sp))
    ensures Completed(prog, s, Steps(t, count, m), t, count, w, m)
    ensures WroteOnly(s.mem, Run(prog, s, Steps(t, count, m)).mem, Get(s, Sp) - 80, Get(s, Sp), Get(s, A1), offsets)
  {
    hide Run, Get, Embedded, Entry, CountedLoop, Fn, InFrame, Wrap, AgreeOutside, AlwaysSpares, TextRespects, BodyRespects, Apart,
      Completed, Straight, WroteOnly, ByteAt, FrameSpared;
    OffsetsSpareFrame(prog, t, count, w, offsets, s, m);
    FunctionRuns(prog, t, count, w, AtOffsets(A1, offsets), s, m);
    FnParts(Rv, prog, s.pc, t, count);
    EntryRuns(prog, s, t.prefix, count);
    var s1 := Run(prog, s, 20);
    InFrameOk(s, s1);
    InFrameData(s, s1);
    var m2 := Run(prog, s1, Middle(Rv, t, count, m)).mem;
    forall x: nat
      ensures SameOff(s1.mem, m2, Get(s, A1), offsets, x)
    {
      if Apart(offsets, Get(s, A1), x, x + 1) {
        TestSpares(Rv, prog, s1, w, offsets, t, count, m, x, x + 1);
        SparedThrough(prog, s1, Middle(Rv, t, count, m), x, x + 1);
      }
    }
    WroteOnlyThen(s.mem, s1.mem, m2, Get(s, Sp) - 80, Get(s, Sp), Get(s, A1), offsets);
  }

  lemma RespectsUnlabelled(t: Throughput, w: set<Reg>, x: Places)
    requires TestRespects(t, w, x)
    ensures TextsUnlabelled(t)
  {
    hide Respects;
  }

  /** Called by its label in the listing of any distinct counts. */
  lemma ListedRuns(t: Throughput, counts: seq<nat>, count: nat, w: set<Reg>, x: Places, s: State, m: nat)
    requires Distinct(counts) && count in counts && (forall i :: 0 <= i < |counts| ==> Assigned(t, counts[i])) && Assigned(t, count)
    requires TestRespects(t, w, x) && CalledWith(s, m)
    requires Resolve(Concat(Functions(Rv, t, counts)), TestTop(t.prefix, count)) == Some(s.pc)
    requires FrameSpared(Concat(Functions(Rv, t, counts)), s, Middle(Rv, t, count, m))
    ensures Completed(Concat(Functions(Rv, t, counts)), s, Steps(t, count, m), t, count, w, m)
  {
    hide Run, Get, Embedded, Concat, Fn, Functions, CountedLoop, Resolve, TestRespects, FrameSpared, Completed, TextsUnlabelled, Steps,
      CalledWith;
    RespectsUnlabelled(t, w, x);
    var at := Found(Rv, t, counts, count);
    FunctionRuns(Concat(Functions(Rv, t, counts)), t, count, w, x, s, m);
  }
}
