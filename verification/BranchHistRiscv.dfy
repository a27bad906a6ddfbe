/** The branch-history test as RISC-V functions. */
module BranchHistRiscv {
  import opened Words
  import opened Listing
  import opened Machine
  import opened Symbols
  import opened RiscvFrame
  import opened BranchHistText
  import opened BranchHistLoop
  import opened Trace

  lemma FnParts(prog: Program, p: nat, count: nat)
    requires Embedded(prog, p, Fn(RiscV, count))
    ensures var size := |Loop(RiscV, count)|;
      && Embedded(prog, p, [Label(BranchTop(count))]) && Embedded(prog, p + 1, Prologue())
      && p + 20 < |prog| && prog[p + 20] == Op(Alu(T1, Plus, R(A1), I(0), false)) && Embedded(prog, p + 21, Loop(RiscV, count))
      && p + 21 + size < |prog| && prog[p + 21 + size] == Op(Alu(A0, Plus, R(T0), I(0), false))
      && Embedded(prog, p + 22 + size, Epilogue())
  {
    hide Embedded, Prologue, Loop, Epilogue;
    var top: Program, mv: Program, result: Program :=
      [Label(BranchTop(count))], [Op(Alu(T1, Plus, R(A1), I(0), false))], [Op(Alu(A0, Plus, R(T0), I(0), false))];
    assert Fn(RiscV, count) == top + Prologue() + mv + Loop(RiscV, count) + result + Epilogue();
    EmbedSix(prog, p, top, Prologue(), mv, Loop(RiscV, count), result, Epilogue());
    EmbedLines(prog, p + 20, mv);
    EmbedLines(prog, p + 21 + |Loop(RiscV, count)|, result);
    assert mv[0].Op? && result[0].Op?;
  }

  /** Up to the loop: the frame is set up, the sum is zero and the pointer at the first row. */
  lemma Starts(prog: Program, s: State, count: nat, base: nat, rows: seq<seq<nat>>, n: nat)
    requires Embedded(prog, s.pc, Fn(RiscV, count)) && Callable(RiscV, s, base, count, rows, n)
    ensures var e := Run(prog, s, 21);
      && InFrame(s, e) && e.pc == s.pc + 21 && e.log == s.log && Get(e, A0) == Wrap(n) && Get(e, T0) == 0
      && Pointing(RiscV, e, base, count, rows, 0 % |rows|)
      && AgreeOutside(s.mem, e.mem, Get(s, Sp) - 80, Get(s, Sp))
  {
    hide Run, Step, Get, Embedded, Fn, Prologue, Loop, Epilogue, Scratch, Frame, AgreeOutside, Resolve, Wrap, Pattern, RowAt, Pointing;
    FnParts(prog, s.pc, count);
    TopLine(prog, s.pc, BranchTop(count));
    var s1 := StepMark(prog, s, s.pc);
    RunSingle(prog, s);
    EnterRuns(prog, s.pc + 1, s1);
    var s2 := Run(prog, s1, 19);
    RunAdd(prog, s, 1, 19);
    SpIsKept();
    Arguments();
    var s3 := StepAddI(prog, s2, s.pc + 20, T1, A1, 0, base);
    RunOneMore(prog, s, 20);
    SameCaller(s, s1, s2, s3);
    FirstRow(RiscV, s, s3, base, count, rows, n);
  }

  lemma Arguments()
    ensures !Scratch(A1) && !Scratch(A2) && Scratch(T0) && Scratch(T1)
  {
  }

  lemma SameCaller(s: State, s1: State, e: State, e': State)
    requires InFrame(s1, e) && s.ok && forall r :: Get(s, r) == Get(s1, r)
    requires e'.ok && e'.mem == e.mem && e'.low == e.low && forall r :: r != T1 ==> Get(e', r) == Get(e, r)
    ensures InFrame(s, e')
  {
    hide Get, Load64, Saved;
  }

  lemma LoopInFrame(s: State, s1: State, e: State)
    requires InFrame(s, s1) && Looped(RiscV, s1, e)
    ensures InFrame(s, e) && e.ok && e.log == s1.log && e.mem == s1.mem
  {
    hide Get, Frame;
    UsedIsScratch();
  }

  lemma UsedIsScratch()
    ensures forall r :: !Scratch(r) && r != A0 ==> !Used(RiscV, r)
    ensures !Used(RiscV, Sp)
  {
  }

  /** A call returns the number of zeros seen, with every other register as before. */
  lemma FunctionRuns(prog: Program, s: State, count: nat, base: nat, rows: seq<seq<nat>>, n: nat) returns (k: nat, steps: nat)
    requires Embedded(prog, s.pc, Fn(RiscV, count)) && Callable(RiscV, s, base, count, rows, n)
    ensures rows != [] && LoopDone(RiscV, prog, Run(prog, s, 21), steps, count, base, rows, 0, n) && k == 21 + (steps + 12)
    ensures var e := Run(prog, s, k);
      && e.ok && e.pc == Get(s, Ra) && (forall r :: r != A0 ==> Get(e, r) == Get(s, r)) && e.log == s.log + [Returned(Get(s, Ra))]
      && Get(e, A0) == Wrap(Sum(RiscV, rows, 0, n))
    ensures AgreeOutside(s.mem, Run(prog, s, k).mem, Get(s, Sp) - 80, Get(s, Sp))
  {
    hide AgreeOutside, Run, Step, Get, Embedded, Fn, Prologue, Loop, Epilogue, Wrap, Pattern, RowAt, Pointing, InFrame, Sum, LoopDone, Looped;
    FnParts(prog, s.pc, count);
    Starts(prog, s, count, base, rows, n);
    var s1 := Run(prog, s, 21);
    steps := IterationsRun(RiscV, prog, s1, count, base, rows, 0, n);
    var s2 := Run(prog, s1, steps);
    Leaves(prog, s, s1, steps, count, base, rows, n);
    RunAdd(prog, s1, steps, 12);
    RunAdd(prog, s, 21, steps + 12);
    k := 21 + (steps + 12);
  }

  lemma Leaves(prog: Program, s: State, s1: State, steps: nat, count: nat, base: nat, rows: seq<seq<nat>>, n: nat)
    requires rows != [] && InFrame(s, s1) && s1.log == s.log && Get(s1, T0) == 0
    requires LoopDone(RiscV, prog, s1, steps, count, base, rows, 0, n)
    requires var p := s1.pc + |Loop(RiscV, count)|;
      p < |prog| && prog[p] == Op(Alu(A0, Plus, R(T0), I(0), false)) && Embedded(prog, p + 1, Epilogue())
    ensures var e := Run(prog, Run(prog, s1, steps), 12);
      && e.ok && e.pc == Get(s, Ra) && (forall r :: r != A0 ==> Get(e, r) == Get(s, r)) && e.log == s.log + [Returned(Get(s, Ra))]
      && Get(e, A0) == Wrap(Sum(RiscV, rows, 0, n)) && e.mem == s1.mem
  {
    hide Run, Step, Get, Embedded, Loop, Epilogue, Wrap, RowAt, InFrame, Sum, Looped, Begins, Outcomes, History;
    var s2 := Run(prog, s1, steps);
    LoopInFrame(s, s1, s2);
    var s3 := StepAddI(prog, s2, s2.pc, A0, T0, 0, Get(s2, T0));
    RunSingle(prog, s2);
    ResultInFrame(s, s2, s3);
    LeaveRuns(prog, s3.pc, s, s3);
    RunAdd(prog, s2, 1, 11);
  }

  lemma ResultInFrame(s: State, e: State, e': State)
    requires InFrame(s, e) && e'.ok && e'.mem == e.mem && e'.low == e.low && forall r :: r != A0 ==> Get(e', r) == Get(e, r)
    ensures InFrame(s, e')
  {
    hide Get, Frame;
    SpIsKept();
  }
}
