/** The branch-history test as x86 functions. */
module BranchHistX86 {
  import opened Words
  import opened Listing
  import opened Machine
  import opened Symbols
  import opened X86Stack
  import opened BranchHistText
  import opened BranchHistLoop
  import opened Trace

  /** Registers a call leaves changed: its result and two that callers do not expect to keep. */
  function Changes(): seq<Reg> {
    [Rax, R11, Rdi]
  }

  predicate Changed(r: Reg) {
    r == Rax || r == R11 || r == Rdi
  }

  ghost predicate Entered(s: State, e: State) {
    InFrame(s, e, X64Saves(), Changes())
  }

  lemma Lists()
    ensures Plain(X64Saves()) && !Changed(Sp)
    ensures forall r :: r in X64Saves() <==> r == Rbx || r == R8 || r == R9
    ensures forall r :: r in Changes() <==> Changed(r)
  {
    assert X64Saves()[0] == Rbx && X64Saves()[1] == R8 && X64Saves()[2] == R9;
    assert Changes()[0] == Rax && Changes()[1] == R11 && Changes()[2] == Rdi;
  }

  lemma ClearsAt(prog: Program, p: nat)
    requires Embedded(prog, p, X64Clears())
    ensures p + 4 <= |prog| && prog[p] == Op(Alu(Rbx, ExOr, R(Rbx), R(Rbx), true)) && prog[p + 1] == Op(Alu(R8, ExOr, R(R8), R(R8), true))
    ensures prog[p + 2] == Op(Alu(R9, ExOr, R(R9), R(R9), true)) && prog[p + 3] == Op(Alu(R11, Plus, R(Rsi), I(0), false))
  {
    hide Embedded;
    var f := X64Clears();
    EmbedLines(prog, p, f);
    assert f[0].Op? && f[1].Op? && f[2].Op? && f[3].Op?;
  }

  lemma XorSelfIsZero(x: Word)
    ensures Eval(ExOr, x, x) == 0
  {
    XorWordSelf(x);
  }

  lemma ClearsRun(prog: Program, p: nat, s: State)
    requires Embedded(prog, p, X64Clears()) && s.ok && s.pc == p
    ensures var e := Run(prog, s, 4);
      && e.ok && e.pc == p + 4 && e.log == s.log && e.mem == s.mem && Get(e, R8) == 0 && Get(e, R11) == Get(s, Rsi)
      && forall r :: r != Rbx && r != R8 && r != R9 && r != R11 ==> Get(e, r) == Get(s, r)
  {
    hide X64Clears, Step, Get, Embedded, Eval;
    ClearsAt(prog, p);
    XorSelfIsZero(Get(s, Rbx));
    XorSelfIsZero(Get(s, R8));
    XorSelfIsZero(Get(s, R9));
    var s1 := StepFlags(prog, s, p, Rbx, ExOr, R(Rbx), R(Rbx), 0);
    var s2 := StepFlags(prog, s1, p + 1, R8, ExOr, R(R8), R(R8), 0);
    var s3 := StepFlags(prog, s2, p + 2, R9, ExOr, R(R9), R(R9), 0);
    var s4 := StepAddI(prog, s3, p + 3, R11, Rsi, 0, Get(s, Rsi));
  }

  lemma OpeningParts(prog: Program, p: nat, count: nat)
    requires Embedded(prog, p, Opening(X64, count))
    ensures Embedded(prog, p, [Label(BranchTop(count))]) && Embedded(prog, p + 1, Pushes(X64Saves())) && Embedded(prog, p + 4, X64Clears())
  {
    hide Embedded, X64Clears, X64Saves, Pushes;
    EmbedThree(prog, p, [Label(BranchTop(count))], Pushes(X64Saves()), X64Clears());
  }

  /** Up to the loop: three registers are pushed, the sum is zero and the pointer at the first row. */
  lemma Starts(prog: Program, s: State, count: nat, base: nat, rows: seq<seq<nat>>, n: nat)
    requires Embedded(prog, s.pc, Opening(X64, count)) && Callable(X64, s, base, count, rows, n)
    ensures var e := Run(prog, s, 8);
      && Entered(s, e) && e.pc == s.pc + 8 && e.log == s.log && Get(e, Rdi) == Wrap(n) && Get(e, R8) == 0
      && Pointing(X64, e, base, count, rows, 0 % |rows|)
      && AgreeOutside(s.mem, e.mem, Get(s, Sp) - 24, Get(s, Sp))
  {
    hide Run, Step, Get, Embedded, Opening, X64Clears, X64Saves, Pushes, AgreeOutside, Wrap, Pattern, RowAt, Pointing, Changes, Load64, Resolve,
      InFrame, Plain, Entered;
    OpeningParts(prog, s.pc, count);
    Lists();
    TopLine(prog, s.pc, BranchTop(count));
    var s1 := StepMark(prog, s, s.pc);
    RunSingle(prog, s);
    EnterRuns(prog, s.pc + 1, s1, X64Saves(), Changes());
    var s2 := Run(prog, s1, 3);
    RunAdd(prog, s, 1, 3);
    ClearsRun(prog, s.pc + 4, s2);
    var e := Run(prog, s2, 4);
    RunAdd(prog, s, 4, 4);
    FirstRow(X64, s, e, base, count, rows, n);
    Framed(s, s1, s2, e);
  }

  lemma Framed(s: State, s1: State, s2: State, e: State)
    requires InFrame(s1, s2, X64Saves(), Changes()) && (forall r :: Get(s1, r) == Get(s, r)) && s1.mem == s.mem
    requires e.ok && e.mem == s2.mem && forall r :: r != Rbx && r != R8 && r != R9 && r != R11 ==> Get(e, r) == Get(s2, r)
    ensures Entered(s, e)
  {
    hide Get, Changes, X64Saves, Load64;
    Lists();
  }

  lemma LoopInFrame(s: State, s1: State, e: State)
    requires Entered(s, s1) && Looped(X64, s1, e)
    ensures Entered(s, e) && e.ok && e.log == s1.log && e.mem == s1.mem
  {
    hide Get, Stacked, Changes, X64Saves;
    Lists();
  }

  lemma EndingParts(prog: Program, p: nat)
    requires Embedded(prog, p, Ending(X64))
    ensures p < |prog| && prog[p] == Op(Alu(Rax, Plus, R(R8), I(0), false))
    ensures Embedded(prog, p + 1, Pops(X64Saves()) + [Op(ReturnPop)])
  {
    hide Embedded, X64Saves, Pops;
    var mv: Program, last: Program := [Op(Alu(Rax, Plus, R(R8), I(0), false))], Pops(X64Saves()) + [Op(ReturnPop)];
    assert Ending(X64) == [] + mv + last;
    EmbedThree(prog, p, [], mv, last);
    EmbedLines(prog, p, mv);
    assert mv[0].Op?;
  }

  /** The result register, the pops and the return. */
  lemma EndingRuns(prog: Program, s: State, e: State)
    requires Embedded(prog, e.pc, Ending(X64)) && Entered(s, e) && e.ok && Get(s, Sp) + 8 < TWO64
    ensures var e' := Run(prog, e, 5); var to := Load64(s.mem, Get(s, Sp));
      && e'.ok && e'.pc == to && Get(e', Sp) == Get(s, Sp) + 8 && e'.log == e.log + [Returned(to)] && Get(e', Rax) == Get(e, R8)
      && e'.mem == e.mem && forall r :: !Changed(r) && r != Sp ==> Get(e', r) == Get(s, r)
  {
    hide Ending, Step, Get, Embedded, Load64, Run, Changes, X64Saves, Pops, Plain, InFrame, Entered;
    EndingParts(prog, e.pc);
    Lists();
    var e1 := StepAddI(prog, e, e.pc, Rax, R8, 0, Get(e, R8));
    RunSingle(prog, e);
    ResultInFrame(s, e, e1);
    LeaveRuns(prog, e.pc + 1, s, e1, X64Saves(), Changes());
    RunAdd(prog, e, 1, 4);
  }

  lemma ResultInFrame(s: State, e: State, e': State)
    requires Entered(s, e) && e'.ok && e'.mem == e.mem && forall r :: r != Rax ==> Get(e', r) == Get(e, r)
    ensures InFrame(s, e', X64Saves(), Changes())
  {
    hide Get, Stacked, Changes, X64Saves, Load64;
    Lists();
  }

  lemma FnParts(prog: Program, p: nat, count: nat)
    requires Embedded(prog, p, Fn(X64, count))
    ensures Embedded(prog, p, Opening(X64, count)) && Embedded(prog, p + 8, Loop(X64, count))
    ensures Embedded(prog, p + 8 + |Loop(X64, count)|, Ending(X64))
  {
    hide Embedded, Opening, Loop, Ending;
    EmbedThree(prog, p, Opening(X64, count), Loop(X64, count), Ending(X64));
  }

  /** A call returns the number of nonzero elements seen, with the registers callers keep as before. */
  lemma FunctionRuns(prog: Program, s: State, count: nat, base: nat, rows: seq<seq<nat>>, n: nat) returns (k: nat, steps: nat)
    requires Embedded(prog, s.pc, Fn(X64, count)) && Callable(X64, s, base, count, rows, n)
    ensures rows != [] && LoopDone(X64, prog, Run(prog, s, 8), steps, count, base, rows, 0, n) && k == 8 + (steps + 5)
    ensures var e := Run(prog, s, k); var to := Load64(s.mem, Get(s, Sp));
      && e.ok && e.pc == to && Get(e, Sp) == Get(s, Sp) + 8 && e.log == s.log + [Returned(to)]
      && (forall r :: !Changed(r) && r != Sp ==> Get(e, r) == Get(s, r)) && Get(e, Rax) == Wrap(Sum(X64, rows, 0, n))
    ensures AgreeOutside(s.mem, Run(prog, s, k).mem, Get(s, Sp) - 24, Get(s, Sp))
  {
    hide AgreeOutside, Run, Get, Embedded, Fn, Opening, Loop, Ending, Wrap, Pattern, RowAt, Pointing, Entered, Sum, LoopDone, Looped, Load64, Changed;
    FnParts(prog, s.pc, count);
    Starts(prog, s, count, base, rows, n);
    var s1 := Run(prog, s, 8);
    steps := IterationsRun(X64, prog, s1, count, base, rows, 0, n);
    LoopTally(prog, s1, steps, count, base, rows, n);
    var s2 := Run(prog, s1, steps);
    LoopInFrame(s, s1, s2);
    EndingRuns(prog, s, s2);
    RunAdd(prog, s1, steps, 5);
    RunAdd(prog, s, 8, steps + 5);
    k := 8 + (steps + 5);
  }

  lemma LoopTally(prog: Program, s: State, steps: nat, count: nat, base: nat, rows: seq<seq<nat>>, n: nat)
    requires rows != [] && LoopDone(X64, prog, s, steps, count, base, rows, 0, n) && Get(s, R8) == 0
    ensures var e := Run(prog, s, steps);
      Looped(X64, s, e) && e.pc == s.pc + |Loop(X64, count)| && Get(e, R8) == Wrap(Sum(X64, rows, 0, n))
  {
    hide Run, Get, Loop, RowAt, Sum, Looped, Begins, Outcomes, History;
  }
}
