/** The prologue and epilogue of the x86 structure tests: eleven registers pushed, the arguments moved to where
    the loop expects them, the rest cleared; at the end everything popped. */
module X86Frame {
  import opened Words
  import opened Listing
  import opened Machine
  import opened X86Stack
  import X86

  /** The registers pushed, in order. */
  function Saves(): (r: seq<Reg>)
    ensures |r| == 11
  {
    [Rsi, Rdi, R15, R14, R13, R12, R11, R10, R8, Rcx, Rdx]
  }

  predicate IsPushed(r: Reg) {
    r == Rsi || r == Rdi || r == R15 || r == R14 || r == R13 || r == R12 || r == R11 || r == R10 || r == R8 || r == Rcx || r == Rdx
  }

  lemma InSaves(r: Reg)
    requires IsPushed(r)
    ensures r in Saves()
  {
    var j := if r == Rsi then 0 else if r == Rdi then 1 else if r == R15 then 2 else if r == R14 then 3
             else if r == R13 then 4 else if r == R12 then 5 else if r == R11 then 6 else if r == R10 then 7
             else if r == R8 then 8 else if r == Rcx then 9 else 10;
    assert Saves()[j] == r;
  }

  lemma SavesPlain()
    ensures Plain(Saves()) && !IsPushed(Sp)
  {
  }

  /** The System V arguments in the registers of the Windows convention. */
  function Moves(): (p: Program)
    ensures |p| == 3
  {
    [Op(X86.MovRR(Rdx, R8)), Op(X86.MovRR(Rsi, Rdx)), Op(X86.MovRR(Rdi, Rcx))]
  }

  function Clears(): (p: Program)
    ensures |p| == 8
  {
    [ Op(X86.XorRR(R15, R15)), Op(X86.XorRR(R14, R14)), Op(X86.XorRR(R13, R13)), Op(X86.XorRR(R12, R12)),
      Op(X86.XorRR(R11, R11)), Op(X86.XorRR(R10, R10)), Op(X86.XorRR(Rdi, Rdi)), Op(X86.XorRR(Rsi, Rsi))]
  }

  function Prologue(): (p: Program)
    ensures |p| == 22
  {
    Pushes(Saves()) + Moves() + Clears()
  }

  function Epilogue(): (p: Program)
    ensures |p| == 12
  {
    Pops(Saves()) + [Op(ReturnPop)]
  }

  // ----- the prologue

  lemma MovesAt(prog: Program, p: nat)
    requires Embedded(prog, p, Moves())
    ensures p + 3 <= |prog| && prog[p] == Op(Alu(R8, Plus, R(Rdx), I(0), false))
    ensures prog[p + 1] == Op(Alu(Rdx, Plus, R(Rsi), I(0), false)) && prog[p + 2] == Op(Alu(Rcx, Plus, R(Rdi), I(0), false))
  {
    hide Embedded;
    var f := Moves();
    EmbedLines(prog, p, f);
    assert f[0].Op? && f[1].Op? && f[2].Op?;
  }

  lemma MovesRun(prog: Program, s: State)
    requires Embedded(prog, s.pc, Moves()) && s.ok
    ensures var e := Run(prog, s, 3);
      && e.ok && e.pc == s.pc + 3 && e.mem == s.mem && e.log == s.log && Get(e, Rdx) == Get(s, Rsi) && Get(e, Rcx) == Get(s, Rdi)
      && Get(e, R8) == Get(s, Rdx) && forall r :: !IsPushed(r) ==> Get(e, r) == Get(s, r)
  {
    hide Moves, Step, Get, Embedded;
    MovesAt(prog, s.pc);
    var s1 := StepAddI(prog, s, s.pc, R8, Rdx, 0, Get(s, Rdx));
    var s2 := StepAddI(prog, s1, s.pc + 1, Rdx, Rsi, 0, Get(s, Rsi));
    var s3 := StepAddI(prog, s2, s.pc + 2, Rcx, Rdi, 0, Get(s, Rdi));
  }

  function Cleared(i: nat): Reg
    requires i < 8
  {
    [R15, R14, R13, R12, R11, R10, Rdi, Rsi][i]
  }

  lemma ClearsUniform(i: nat)
    requires i < 8
    ensures Clears()[i] == Op(X86.XorRR(Cleared(i), Cleared(i)))
    ensures IsPushed(Cleared(i)) && Cleared(i) != Rdx && Cleared(i) != Rcx && Cleared(i) != R8 && Cleared(i) != Zero && !IsPushed(Sp)
  {
  }

  /** Exclusive or of a register with itself, setting the flags. */
  lemma ClearOne(prog: Program, e: State, p: nat, i: nat)
    requires Embedded(prog, p, Clears()) && i < 8 && e.ok && e.pc == p + i
    ensures var e' := Step(prog, e); Wrote(e, e', Cleared(i), 0, p + i + 1) && e'.mem == e.mem && e'.log == e.log
  {
    hide Step, Get, Embedded, Clears, Cleared, XorWord;
    EmbedLines(prog, p, Clears());
    ClearsUniform(i);
    var r := Cleared(i);
    assert Clears()[i] == Op(X86.XorRR(r, r));
    XorWordSelf(Get(e, r));
    var e' := StepFlags(prog, e, p + i, r, ExOr, R(r), R(r), 0);
  }

  lemma {:induction false} ClearsRun(prog: Program, s: State, n: nat)
    requires Embedded(prog, s.pc, Clears()) && n <= 8 && s.ok
    ensures var e := Run(prog, s, n);
      && e.ok && e.pc == s.pc + n && e.mem == s.mem && e.log == s.log && Get(e, Rdx) == Get(s, Rdx) && Get(e, Rcx) == Get(s, Rcx)
      && Get(e, R8) == Get(s, R8) && (forall r :: !IsPushed(r) ==> Get(e, r) == Get(s, r))
      && forall j {:trigger Cleared(j)} :: 0 <= j < n ==> Get(e, Cleared(j)) == 0
    decreases n
  {
    hide Run, Step, Get, Embedded, Clears, IsPushed, Cleared;
    if n == 0 {
      RunNone(prog, s);
    } else {
      ClearsRun(prog, s, n - 1);
      ClearOne(prog, Run(prog, s, n - 1), s.pc, n - 1);
      ClearsUniform(n - 1);
      RunOneMore(prog, s, n - 1);
    }
  }

  /** A call made in s has pushed its registers in e; the other registers are as they were. */
  ghost predicate Entered(s: State, e: State) {
    InFrame(s, e, Saves(), [])
  }

  /** Entering: eleven registers are pushed, rcx and rdx hold the two arguments, and the fillers' registers are zero. */
  lemma EntryRuns(prog: Program, p: nat, s: State)
    requires Embedded(prog, p, Prologue()) && s.ok && s.pc == p && Get(s, Sp) >= 88
    ensures var e := Run(prog, s, 22); var sp := Get(s, Sp);
      && Entered(s, e) && e.ok && e.pc == p + 22 && e.log == s.log && Get(e, Rcx) == Get(s, Rdi) && Get(e, Rdx) == Get(s, Rsi)
      && Get(e, R8) == Get(s, Rdx)
      && (forall j {:trigger Cleared(j)} :: 0 <= j < 8 ==> Get(e, Cleared(j)) == 0) && AgreeOutside(s.mem, e.mem, sp - 88, sp)
  {
    hide Run, Get, Embedded, Pushes, Moves, Clears, AgreeOutside, IsPushed, Cleared, Saves, InFrame, Stacked, Load64;
    EmbedThree(prog, p, Pushes(Saves()), Moves(), Clears());
    SavesPlain();
    EnterRuns(prog, p, s, Saves(), []);
    var s1 := Run(prog, s, 11);
    EnteredStack(s, s1);
    MovesRun(prog, s1);
    var s2 := Run(prog, s1, 3);
    ClearsRun(prog, s2, 8);
    RunAdd(prog, s1, 3, 8);
    RunAdd(prog, s, 11, 11);
    StillEntered(s, s1, Run(prog, s2, 8));
  }

  /** Pushed registers may change, and memory off the stack. */
  lemma StillEntered(s: State, e: State, e': State)
    requires Entered(s, e) && e'.ok && (forall r :: !IsPushed(r) ==> Get(e', r) == Get(e, r))
    requires Get(s, Sp) >= 88 && Stacked(e'.mem, Get(s, Sp), s, Saves(), 11) && Load64(e'.mem, Get(s, Sp)) == Load64(s.mem, Get(s, Sp))
    ensures Entered(s, e')
  {
    hide Get, Stacked, IsPushed, Saves, Load64;
    SavesPlain();
    forall r | r !in Saves()
      ensures !IsPushed(r)
    {
      if IsPushed(r) { InSaves(r); }
    }
  }

  lemma EnteredStack(s: State, e: State)
    requires Entered(s, e)
    ensures e.ok && Get(s, Sp) >= 88 && Stacked(e.mem, Get(s, Sp), s, Saves(), 11) && Load64(e.mem, Get(s, Sp)) == Load64(s.mem, Get(s, Sp))
  {
    hide Get, Stacked, Saves, Load64;
  }

  /** Leaving restores every register and returns to the address on the stack. */
  lemma ExitRuns(prog: Program, p: nat, s: State, e: State)
    requires Embedded(prog, p, Epilogue()) && Entered(s, e) && e.pc == p && Get(s, Sp) + 8 < TWO64
    ensures var e' := Run(prog, e, 12); var to := Load64(s.mem, Get(s, Sp));
      && e'.ok && e'.pc == to && Get(e', Sp) == Get(s, Sp) + 8 && (forall r :: r != Sp ==> Get(e', r) == Get(s, r))
      && e'.mem == e.mem && e'.log == e.log + [Returned(to)]
  {
    hide Run, Get, Embedded, Load64, Pops, Saves, InFrame;
    SavesPlain();
    LeaveRuns(prog, p, s, e, Saves(), []);
  }
}
