/** The RISC-V return-stack test: a loop around a chain of calls as deep as the count under test. */
module ReturnStackRiscv {
  import opened Words
  import opened Listing
  import opened Machine
  import opened Riscv
  import opened CallNest
  import opened ReturnStackText
  import opened Sums
  import opened Symbols

  /** What stands at each line of function i. */
  lemma FnLines(prog: Program, base: nat, d: nat, i: nat)
    requires Placed(Rv, prog, base, d) && i < d
    ensures var p := Place(Rv, base, i);
      && p + 4 <= |prog| < TWO64
      && prog[p + 1] == Label(StackFn(d, i)) && Resolve(prog, StackFn(d, i)) == Some(Entry(Rv, base, i))
      && prog[p + 2] == Op(Add(T0, T0, A0))
      && (i + 1 == d ==> prog[p + 3] == Op(Ret()))
  {
    hide Embedded, At, Resolve, Block;
    FnPlaced(Rv, prog, base, d, i);
    EmbedLines(prog, Place(Rv, base, i), Fn(Rv, d, i));
    var f := Fn(Rv, d, i);
    assert f[1] == Label(StackFn(d, i));
    assert f[2].Op? && f[3].Op?;
  }

  lemma InnerLines(prog: Program, base: nat, d: nat, i: nat)
    requires Placed(Rv, prog, base, d) && i + 1 < d
    ensures var p := Place(Rv, base, i);
      && p + 12 <= |prog|
      && prog[p + 3] == Op(Addi(Sp, Sp, -32))
      && prog[p + 4] == Op(Sd(Ra, 24, Sp))
      && prog[p + 5] == Op(Sd(S0, 16, Sp))
      && prog[p + 6] == Op(Mv(S0, Sp))
      && prog[p + 7] == Op(Riscv.Call(StackFn(d, i + 1)))
      && prog[p + 8] == Op(Ld(Ra, 24, Sp))
      && prog[p + 9] == Op(Ld(S0, 16, Sp))
      && prog[p + 10] == Op(Addi(Sp, Sp, 32))
      && prog[p + 11] == Op(Ret())
  {
    hide Embedded, At, Block;
    FnPlaced(Rv, prog, base, d, i);
    var f := Inner(Rv, d, i);
    EmbedLines(prog, Place(Rv, base, i), f);
    assert f[3].Op? && f[4].Op? && f[5].Op? && f[6].Op? && f[7].Op? && f[8].Op? && f[9].Op? && f[10].Op? && f[11].Op?;
  }

  /** The registers that neither the chain nor its loop uses are as they were. */
  ghost predicate Others(s: State, e: State) {
    forall r :: r != T0 && r != A0 && r != Ra && r != S0 && r != Sp ==> Get(e, r) == Get(s, r)
  }

  lemma OthersTrans(s: State, s': State, e: State)
    requires Others(s, s') && Others(s', e)
    ensures Others(s, e)
  {
    hide Get;
  }

  /** From the label of a non-leaf function to the label of its callee. */
  lemma Enter(prog: Program, base: nat, d: nat, i: nat, s: State)
    requires Placed(Rv, prog, base, d) && i + 1 < d
    requires s.ok && s.pc == Entry(Rv, base, i) && 32 <= Get(s, Sp) && s.low <= Get(s, Sp)
    ensures var e := Run(prog, s, 7); var sp := Get(s, Sp) - 32;
      && e.ok && e.pc == Entry(Rv, base, i + 1)
      && Get(e, Ra) == ReturnTo(Rv, base, i + 1) && Get(e, Sp) == sp && Get(e, S0) == sp && Get(e, A0) == Get(s, A0)
      && Get(e, T0) == Wrap(Get(s, T0) + Get(s, A0))
      && e.mem == Store64(Store64(s.mem, sp + 24, Get(s, Ra)), sp + 16, Get(s, S0))
      && e.low == (if sp < s.low then sp else s.low)
      && e.log == s.log + [Called(Entry(Rv, base, i + 1), ReturnTo(Rv, base, i + 1))] && Others(s, e)
  {
    hide Step, Exec, Get, Placed, Store64, Resolve, XorWord, BitAnd, Pow2, Load32;
    FnLines(prog, base, d, i);
    InnerLines(prog, base, d, i);
    FnLines(prog, base, d, i + 1);
    var p, sp := Place(Rv, base, i), Get(s, Sp) - 32;
    var s1 := StepMark(prog, s, p + 1);
    var s2 := StepAlu(prog, s1, p + 2, T0, Plus, R(T0), R(A0), Wrap(Get(s, T0) + Get(s, A0)));
    var s3 := StepAddI(prog, s2, p + 3, Sp, Sp, -32, sp);
    var s4 := StepSd(prog, s3, p + 4, Ra, Sp, 24, sp + 24);
    var s5 := StepSd(prog, s4, p + 5, S0, Sp, 16, sp + 16);
    var s6 := StepAddI(prog, s5, p + 6, S0, Sp, 0, sp);
    var s7 := StepCallLink(prog, s6, p + 7, Ra, StackFn(d, i + 1), Entry(Rv, base, i + 1));
  }

  /** From the line after the call of a non-leaf function to its caller. */
  lemma Leave(prog: Program, base: nat, d: nat, i: nat, s: State)
    requires Placed(Rv, prog, base, d) && i + 1 < d
    requires s.ok && s.pc == Place(Rv, base, i) + 8 && Get(s, Sp) + 32 < TWO64 && s.low <= Get(s, Sp)
    ensures var e := Run(prog, s, 4); var sp := Get(s, Sp);
      && e.ok && e.pc == Load64(s.mem, sp + 24) && Get(e, Ra) == e.pc && Get(e, S0) == Load64(s.mem, sp + 16)
      && Get(e, Sp) == sp + 32 && Get(e, A0) == Get(s, A0) && Get(e, T0) == Get(s, T0)
      && e.mem == s.mem && e.low == s.low && e.log == s.log + [Returned(e.pc)] && Others(s, e)
  {
    hide Step, Exec, Get, Placed, Load64, Resolve, Eval, Effective, Fetch;
    InnerLines(prog, base, d, i);
    var p, sp := Place(Rv, base, i), Get(s, Sp);
    var s1 := StepLd(prog, s, p + 8, Ra, Sp, 24, sp + 24, Load64(s.mem, sp + 24));
    var s2 := StepLd(prog, s1, p + 9, S0, Sp, 16, sp + 16, Load64(s.mem, sp + 16));
    var s3 := StepAddI(prog, s2, p + 10, Sp, Sp, 32, sp + 32);
    var s4 := StepReturnLink(prog, s3, p + 11, Ra);
  }

  /** What a call that returns leaves behind: the caller's registers and frames, with
      depth bytes of stack used below sp at the deepest point. */
  ghost predicate Balanced(s: State, e: State, depth: nat) {
    && e.ok && depth <= Get(s, Sp)
    && Get(e, Sp) == Get(s, Sp) && Get(e, S0) == Get(s, S0)
    && AgreeOutside(s.mem, e.mem, Get(s, Sp) - depth, Get(s, Sp))
    && e.low == Min(s.low, Get(s, Sp) - depth)
  }

  /** The frame of a non-leaf function survives its callee. */
  lemma FrameKept(m: Memory, m': Memory, sp: nat, lo: nat, ra: Word, fp: Word)
    requires lo <= sp
    requires AgreeOutside(Store64(Store64(m, sp + 24, ra), sp + 16, fp), m', lo, sp)
    ensures Load64(m', sp + 24) == ra && Load64(m', sp + 16) == fp
    ensures AgreeOutside(m, m', lo, sp + 32)
  {
    hide Load64, Store64;
    var m1 := Store64(m, sp + 24, ra);
    var m2 := Store64(m1, sp + 16, fp);
    Store64Laws(m, sp + 24, ra);
    Store64Laws(m1, sp + 16, fp);
    Load64Store64Other(m1, sp + 16, fp, sp + 24);
    Load64Agree(m2, m', sp + 24);
    Load64Agree(m2, m', sp + 16);
  }

  lemma LeafRuns(prog: Program, base: nat, d: nat, s: State)
    requires Placed(Rv, prog, base, d) && d >= 1
    requires s.ok && s.pc == Entry(Rv, base, d - 1) && s.low <= Get(s, Sp)
    ensures var e := Run(prog, s, 3);
      && Balanced(s, e, 0) && e.pc == Get(s, Ra) && Get(e, A0) == Get(s, A0)
      && Get(e, T0) == Wrap(Get(s, T0) + Get(s, A0))
      && e.log == s.log + [Returned(Get(s, Ra))] && Others(s, e)
  {
    hide Step, Exec, Get, Placed, Resolve, XorWord, BitAnd, Pow2, Load32;
    FnLines(prog, base, d, d - 1);
    var p := Place(Rv, base, d - 1);
    var s1 := StepMark(prog, s, p + 1);
    var s2 := StepAlu(prog, s1, p + 2, T0, Plus, R(T0), R(A0), Wrap(Get(s, T0) + Get(s, A0)));
    var s3 := StepReturnLink(prog, s2, p + 3, Ra);
  }

  /** Function i and everything it calls: each of the d - i functions adds a0 to t0, every call is
      matched by its return, and the stack is used 32 bytes deep per caller. */
  lemma {:induction false} FnRuns(prog: Program, base: nat, d: nat, i: nat, s: State) returns (k: nat)
    requires Placed(Rv, prog, base, d) && i < d
    requires s.ok && s.pc == Entry(Rv, base, i) && Get(s, Ra) == ReturnTo(Rv, base, i)
    requires 32 * (d - 1 - i) <= Get(s, Sp) && s.low <= Get(s, Sp)
    ensures var e := Run(prog, s, k);
      && Balanced(s, e, 32 * (d - 1 - i)) && e.pc == ReturnTo(Rv, base, i) && Get(e, A0) == Get(s, A0)
      && Get(e, T0) == Scaled(Get(s, T0), d - i, Get(s, A0))
      && e.log == s.log + Nested(Calls(Rv, base, d, i + 1)) + [Returned(ReturnTo(Rv, base, i))] && Others(s, e)
    ensures k == 11 * (d - 1 - i) + 3
    decreases d - i
  {
    hide Others, Run, Step, Exec, Get, Placed, Store64, Load64, Resolve, AgreeOutside, Nested, Scaled, Wrap, XorWord, BitAnd, Pow2, Load32;
    if i + 1 == d {
      NestedEmpty();
      OneStep(Get(s, T0), Get(s, A0));
      LeafRuns(prog, base, d, s);
      k := 3;
    } else {
      Enter(prog, base, d, i, s);
      var s1 := Run(prog, s, 7);
      var k1 := FnRuns(prog, base, d, i + 1, s1);
      var s2 := Run(prog, s1, k1);
      var sp := Get(s, Sp) - 32;
      FrameKept(s.mem, s2.mem, sp, sp - 32 * (d - 2 - i), Get(s, Ra), Get(s, S0));
      Leave(prog, base, d, i, s2);
      RunAdd(prog, s1, k1, 4);
      RunAdd(prog, s, 7, k1 + 4);
      k := 7 + (k1 + 4);
      OthersTrans(s, s1, s2);
      OthersTrans(s, s2, Run(prog, s2, 4));
      SumStep(Get(s, T0), d - i, Get(s, A0));
      NestedCalls(Rv, base, d, i + 1);
    }
  }

  /** The return address saved by function i, for a chain entered with stack pointer sp. */
  function SavedAt(sp: nat, i: nat): int { sp - 32 * (i + 1) + 24 }

  /** The frame pointer saved by function i. */
  function LinkAt(sp: nat, i: nat): int { sp - 32 * (i + 1) + 16 }

  /** The return addresses of the functions 0 .. j-1 are saved one frame apart, and below each of them the place of the frame
      before. */
  ghost predicate Framed(m: Memory, base: nat, sp: nat, j: nat)
    requires 32 * j <= sp
  {
    forall i {:trigger SavedAt(sp, i)} {:trigger LinkAt(sp, i)} :: 0 <= i < j ==>
      Load64(m, SavedAt(sp, i)) == ReturnTo(Rv, base, i) && Load64(m, LinkAt(sp, i)) == sp - 32 * i
  }

  /** Control reaches function j with the frames of functions 0 .. j-1 linked, the last of them at the frame pointer, and the
      return address of function j in ra; all j + 1 return addresses are different. */
  lemma {:induction false} Descend(prog: Program, base: nat, d: nat, j: nat, s: State) returns (k: nat)
    requires Placed(Rv, prog, base, d) && j < d
    requires s.ok && s.pc == Entry(Rv, base, 0) && Get(s, Ra) == ReturnTo(Rv, base, 0)
    requires 32 * j <= Get(s, Sp) == Get(s, S0) && s.low <= Get(s, Sp)
    ensures var e := Run(prog, s, k); var sp := Get(s, Sp);
      && e.ok && e.pc == Entry(Rv, base, j) && Get(e, Ra) == ReturnTo(Rv, base, j) && Get(e, Sp) == Get(e, S0) == sp - 32 * j
      && e.low <= sp - 32 * j && Get(e, A0) == Get(s, A0) && Framed(e.mem, base, sp, j)
    ensures forall i, i' :: 0 <= i < i' <= j ==> ReturnTo(Rv, base, i) != ReturnTo(Rv, base, i')
    decreases j
  {
    hide Run, Step, Get, Placed, Load64, Store64, Framed;
    if j == 0 {
      FramedNone(s.mem, base, Get(s, Sp));
      k := 0;
      RunZero(prog, s);
    } else {
      var k1 := Descend(prog, base, d, j - 1, s);
      var s1 := Run(prog, s, k1);
      Enter(prog, base, d, j - 1, s1);
      RunAdd(prog, s, k1, 7);
      k := k1 + 7;
      FramedMore(s1.mem, base, Get(s, Sp), j - 1);
    }
  }

  lemma FramedNone(m: Memory, base: nat, sp: nat)
    ensures Framed(m, base, sp, 0)
  {
  }

  lemma FramedMore(m: Memory, base: nat, sp: Word, j: nat)
    requires 32 * (j + 1) <= sp && Framed(m, base, sp, j) && ReturnTo(Rv, base, j) < TWO64
    ensures Framed(Store64(Store64(m, sp - 32 * (j + 1) + 24, ReturnTo(Rv, base, j)), sp - 32 * (j + 1) + 16, sp - 32 * j), base, sp, j + 1)
  {
    hide Load64, Store64, ReturnTo;
    var at, ra := sp - 32 * (j + 1), ReturnTo(Rv, base, j);
    var m1 := Store64(m, at + 24, ra);
    Store64Laws(m, at + 24, ra);
    Store64Laws(m1, at + 16, sp - 32 * j);
    Load64Store64Other(m1, at + 16, sp - 32 * j, at + 24);
    forall i | 0 <= i < j
      ensures Load64(Store64(m1, at + 16, sp - 32 * j), SavedAt(sp, i)) == ReturnTo(Rv, base, i)
      ensures Load64(Store64(m1, at + 16, sp - 32 * j), LinkAt(sp, i)) == sp - 32 * i
    {
      FrameAbove(m, at, ra, sp - 32 * j, SavedAt(sp, i));
      FrameAbove(m, at, ra, sp - 32 * j, LinkAt(sp, i));
      assert Load64(m, SavedAt(sp, i)) == ReturnTo(Rv, base, i);
    }
  }

  lemma FrameAbove(m: Memory, at: nat, ra: Word, link: Word, a: nat)
    requires at + 32 <= a
    ensures Load64(Store64(Store64(m, at + 24, ra), at + 16, link), a) == Load64(m, a)
  {
    hide Load64, Store64;
    Load64Store64Other(m, at + 24, ra, a);
    Load64Store64Other(Store64(m, at + 24, ra), at + 16, link, a);
  }

  lemma RunZero(prog: Program, s: State)
    ensures Run(prog, s, 0) == s
  {
  }

  // ----- the loop around the chain

  lemma HeadLines(prog: Program, base: nat, d: nat)
    requires Placed(Rv, prog, base, d)
    ensures base + 14 <= |prog| < TWO64
      && prog[base] == Label(StackTop(d))
      && prog[base + 1] == Op(Addi(Sp, Sp, -32))
      && prog[base + 2] == Op(Sd(Ra, 24, Sp))
      && prog[base + 3] == Op(Sd(S0, 16, Sp))
      && prog[base + 4] == Op(Mv(S0, Sp))
      && prog[base + 5] == Op(Mv(T0, Zero))
      && prog[base + 6] == Label(StackLoop(d)) && Resolve(prog, StackLoop(d)) == Some(base + 6)
      && prog[base + 7] == Op(Riscv.Call(StackFn(d, 0)))
      && prog[base + 8] == Op(Addi(A0, A0, -1))
      && prog[base + 9] == Op(Bnez(A0, StackLoop(d)))
      && prog[base + 10] == Op(Ld(Ra, 24, Sp))
      && prog[base + 11] == Op(Ld(S0, 16, Sp))
      && prog[base + 12] == Op(Addi(Sp, Sp, 32))
      && prog[base + 13] == Op(Ret())
  {
    hide Embedded, At, Block, Resolve;
    HeadPlaced(Rv, prog, base, d);
    var f := Head(Rv, d);
    EmbedLines(prog, base, f);
    assert f[0].Label? && f[6].Label?;
    assert f[1].Op? && f[2].Op? && f[3].Op? && f[4].Op? && f[5].Op? && f[7].Op?;
    assert f[8].Op? && f[9].Op? && f[10].Op? && f[11].Op? && f[12].Op? && f[13].Op?;
  }

  lemma Saves(prog: Program, base: nat, d: nat, s: State)
    requires Placed(Rv, prog, base, d)
    requires s.ok && s.pc == base && 32 <= Get(s, Sp) && s.low <= Get(s, Sp)
    ensures var e := Run(prog, s, 4); var sp := Get(s, Sp) - 32;
      && e.ok && e.pc == base + 4 && Get(e, Sp) == sp && Get(e, A0) == Get(s, A0)
      && e.mem == Store64(Store64(s.mem, sp + 24, Get(s, Ra)), sp + 16, Get(s, S0))
      && e.low == Min(s.low, sp) && e.log == s.log && Others(s, e)
  {
    hide Step, Exec, Get, Placed, Store64, Resolve, XorWord, BitAnd, Pow2, Load32;
    HeadLines(prog, base, d);
    var sp := Get(s, Sp) - 32;
    var s1 := StepMark(prog, s, base);
    var s2 := StepAddI(prog, s1, base + 1, Sp, Sp, -32, sp);
    var s3 := StepSd(prog, s2, base + 2, Ra, Sp, 24, sp + 24);
    var s4 := StepSd(prog, s3, base + 3, S0, Sp, 16, sp + 16);
  }

  lemma Prologue(prog: Program, base: nat, d: nat, s: State)
    requires Placed(Rv, prog, base, d)
    requires s.ok && s.pc == base && 32 <= Get(s, Sp) && s.low <= Get(s, Sp)
    ensures var e := Run(prog, s, 6); var sp := Get(s, Sp) - 32;
      && e.ok && e.pc == base + 6 && Get(e, Sp) == Get(e, S0) == sp && Get(e, A0) == Get(s, A0) && Get(e, T0) == 0
      && e.mem == Store64(Store64(s.mem, sp + 24, Get(s, Ra)), sp + 16, Get(s, S0))
      && e.low == Min(s.low, sp) && e.log == s.log && Others(s, e)
  {
    hide Run, Step, Exec, Get, Placed, Store64, Resolve, XorWord, BitAnd, Pow2, Load32;
    HeadLines(prog, base, d);
    Saves(prog, base, d, s);
    var s4 := Run(prog, s, 4);
    var s5 := StepAddI(prog, s4, base + 4, S0, Sp, 0, Get(s4, Sp));
    ZeroReg(s5);
    var s6 := StepLi(prog, s5, base + 5, T0, 0);
    RunOneMore(prog, s, 4);
    RunOneMore(prog, s, 5);
  }

  lemma ZeroReg(s: State)
    ensures Get(s, Zero) == 0
  {
  }

  /** One round: the loop label, the chain, the decrement and the branch. */
  lemma Round(prog: Program, base: nat, d: nat, s: State) returns (k: nat)
    requires Placed(Rv, prog, base, d) && d >= 1
    requires s.ok && s.pc == base + 6 && 32 * (d - 1) <= Get(s, Sp) && s.low <= Get(s, Sp)
    ensures var e := Run(prog, s, k); var a := Wrap(Get(s, A0) - 1);
      && e.ok && e.pc == (if a != 0 then base + 6 else base + 10) && Get(e, A0) == a && Get(e, Sp) == Get(s, Sp)
      && Get(e, S0) == Get(s, S0)
      && Get(e, T0) == Scaled(Get(s, T0), d, Get(s, A0))
      && AgreeOutside(s.mem, e.mem, Get(s, Sp) - 32 * (d - 1), Get(s, Sp))
      && e.low == Min(s.low, Get(s, Sp) - 32 * (d - 1))
      && e.log == s.log + Nested(Calls(Rv, base, d, 0)) && Others(s, e)
    ensures k == 11 * d - 4
  {
    hide Others, Run, Step, Exec, Get, Placed, Resolve, AgreeOutside, Nested, Calls, XorWord, BitAnd, Pow2, Load32;
    var s2 := RoundCall(prog, base, d, s);
    var k1 := FnRuns(prog, base, d, 0, s2);
    var s3 := Run(prog, s2, k1);
    var s5 := RoundEnd(prog, base, d, s3);
    RunAdd(prog, s2, k1, 2);
    RunAdd(prog, s, 2, k1 + 2);
    k := 2 + (k1 + 2);
    OthersTrans(s, s2, s3);
    OthersTrans(s, s3, s5);
    NestedCalls(Rv, base, d, 0);
  }

  lemma RoundCall(prog: Program, base: nat, d: nat, s: State) returns (e: State)
    requires Placed(Rv, prog, base, d) && d >= 1 && s.ok && s.pc == base + 6
    ensures e == Run(prog, s, 2) && Wrote(s, e, Ra, base + 8, Entry(Rv, base, 0)) && e.mem == s.mem
    ensures e.log == s.log + [Called(Entry(Rv, base, 0), base + 8)] && Others(s, e)
  {
    hide Step, Exec, Get, Placed, Resolve, XorWord, BitAnd, Pow2, Load32;
    HeadLines(prog, base, d);
    FnLines(prog, base, d, 0);
    var s1 := StepMark(prog, s, base + 6);
    e := StepCallLink(prog, s1, base + 7, Ra, StackFn(d, 0), Entry(Rv, base, 0));
  }

  lemma RoundEnd(prog: Program, base: nat, d: nat, s: State) returns (e: State)
    requires Placed(Rv, prog, base, d) && s.ok && s.pc == base + 8
    ensures e == Run(prog, s, 2) && e.mem == s.mem && e.log == s.log && Others(s, e)
    ensures var a := Wrap(Get(s, A0) - 1); Wrote(s, e, A0, a, if a != 0 then base + 6 else base + 10)
  {
    hide Step, Exec, Get, Placed, Resolve, XorWord, BitAnd, Pow2, Load32;
    HeadLines(prog, base, d);
    var s1 := StepAlu(prog, s, base + 8, A0, Plus, R(A0), I(-1), Wrap(Get(s, A0) - 1));
    e := StepBranch(prog, s1, base + 9, IfNonzero(A0), StackLoop(d), base + 6);
  }

  // ----- the whole function

  lemma {:induction false} Rounds(prog: Program, base: nat, d: nat, m: nat, s: State) returns (k: nat)
    requires Placed(Rv, prog, base, d) && d >= 1 && 1 <= m <= TWO64
    requires s.ok && s.pc == base + 6 && Get(s, A0) == Wrap(m)
    requires 32 * (d - 1) <= Get(s, Sp) && s.low <= Get(s, Sp)
    ensures var e := Run(prog, s, k);
      && e.ok && e.pc == base + 10 && Get(e, A0) == 0 && Get(e, Sp) == Get(s, Sp)
      && Get(e, T0) == Scaled(Get(s, T0), d, Sum(m))
      && AgreeOutside(s.mem, e.mem, Get(s, Sp) - 32 * (d - 1), Get(s, Sp))
      && e.low == Min(s.low, Get(s, Sp) - 32 * (d - 1))
      && e.log == s.log + Repeat(Nested(Calls(Rv, base, d, 0)), m) && Others(s, e)
    ensures k == Product(m, 11 * d - 4)
    decreases m
  {
    hide Others, Product, Run, Step, Exec, Get, Placed, Nested, Calls, Scaled, AgreeOutside, XorWord, BitAnd, Pow2, Load32;
    var k1 := Round(prog, base, d, s);
    var s1 := Run(prog, s, k1);
    var t, round := Get(s, T0), Nested(Calls(Rv, base, d, 0));
    WrapProduct(t, d, m, Sum(m - 1));
    assert Repeat(round, m) == round + Repeat(round, m - 1);
    ProductMore(m, 11 * d - 4);
    if m == 1 {
      k := k1;
      assert Repeat(round, 0) == [];
    } else {
      var k2 := Rounds(prog, base, d, m - 1, s1);
      RunAdd(prog, s, k1, k2);
      k := k1 + k2;
      OthersTrans(s, s1, Run(prog, s1, k2));
      AgreeTrans(s.mem, s1.mem, Run(prog, s1, k2).mem, Get(s, Sp) - 32 * (d - 1), Get(s, Sp));
    }
  }

  /** At the last function of a chain entered with stack pointer sp and counter a: the return addresses of the functions
      before it are saved one frame apart, the frames are linked from the frame pointer on, and its own return address is in ra. */
  ghost predicate Deepest(e: State, base: nat, d: nat, sp: nat, a: Word)
    requires d >= 1 && 32 * (d - 1) <= sp
  {
    && e.ok && e.pc == Entry(Rv, base, d - 1) && Get(e, A0) == a
    && Get(e, Ra) == ReturnTo(Rv, base, d - 1) && Get(e, Sp) == Get(e, S0) == sp - 32 * (d - 1) && Framed(e.mem, base, sp, d - 1)
  }

  /** Round r of m from s reaches its deepest point. */
  ghost predicate Reaches(prog: Program, s: State, base: nat, d: nat, sp: nat, m: nat, r: nat)
    requires d >= 1 && 32 * (d - 1) <= sp
  {
    exists k: nat :: Deepest(Run(prog, s, k), base, d, sp, Wrap(m - r))
  }

  lemma ReachesFirst(prog: Program, base: nat, d: nat, m: nat, s: State)
    requires Placed(Rv, prog, base, d) && d >= 1 && s.ok && s.pc == base + 6 && Get(s, A0) == Wrap(m)
    requires 32 * (d - 1) <= Get(s, Sp) == Get(s, S0) && s.low <= Get(s, Sp)
    ensures Reaches(prog, s, base, d, Get(s, Sp), m, 0)
  {
    hide Run, Step, Exec, Get, Placed, Resolve, Framed, Wrap;
    var s2 := RoundCall(prog, base, d, s);
    var k1 := Descend(prog, base, d, d - 1, s2);
    RunAdd(prog, s, 2, k1);
    assert Deepest(Run(prog, s, 2 + k1), base, d, Get(s, Sp), Wrap(m - 0));
  }

  lemma ReachesLater(prog: Program, base: nat, d: nat, m: nat, r: nat, s: State, k: nat, sp: nat)
    requires d >= 1 && 32 * (d - 1) <= sp && m >= 1 && Reaches(prog, Run(prog, s, k), base, d, sp, m - 1, r)
    ensures Reaches(prog, s, base, d, sp, m, r + 1)
  {
    hide Run, Wrap, Deepest;
    var j: nat :| Deepest(Run(prog, Run(prog, s, k), j), base, d, sp, Wrap(m - 1 - r));
    RunAdd(prog, s, k, j);
    assert Deepest(Run(prog, s, k + j), base, d, sp, Wrap(m - (r + 1)));
  }

  /** Every round reaches the bottom of the chain. */
  lemma {:induction false} AllReach(prog: Program, base: nat, d: nat, m: nat, s: State)
    requires Placed(Rv, prog, base, d) && d >= 1 && 1 <= m <= TWO64
    requires s.ok && s.pc == base + 6 && Get(s, A0) == Wrap(m)
    requires 32 * (d - 1) <= Get(s, Sp) == Get(s, S0) && s.low <= Get(s, Sp)
    ensures forall r: nat {:trigger Reaches(prog, s, base, d, Get(s, Sp), m, r)} :: r < m ==> Reaches(prog, s, base, d, Get(s, Sp), m, r)
    decreases m
  {
    hide Run, Step, Exec, Get, Placed, Reaches, Scaled, Nested, AgreeOutside;
    ReachesFirst(prog, base, d, m, s);
    if m > 1 {
      var k1 := Round(prog, base, d, s);
      var s1 := Run(prog, s, k1);
      AllReach(prog, base, d, m - 1, s1);
      forall r: nat {:trigger Reaches(prog, s, base, d, Get(s, Sp), m, r)} | r < m
        ensures Reaches(prog, s, base, d, Get(s, Sp), m, r)
      {
        if r > 0 {
          assert Reaches(prog, s1, base, d, Get(s1, Sp), m - 1, r - 1);
          ReachesLater(prog, base, d, m, r - 1, s, k1, Get(s, Sp));
        }
      }
    }
  }

  /** The same from the top of the function. */
  lemma ChainReached(prog: Program, base: nat, d: nat, n: nat, s: State)
    requires Placed(Rv, prog, base, d) && d >= 1 && 1 <= n <= TWO64
    requires s.ok && s.pc == base && Get(s, A0) == Wrap(n) && 32 * d <= Get(s, Sp) && s.low <= Get(s, Sp)
    ensures forall r: nat {:trigger Reaches(prog, s, base, d, Get(s, Sp) - 32, n, r)} ::
      r < n ==> Reaches(prog, s, base, d, Get(s, Sp) - 32, n, r)
  {
    hide Run, Step, Exec, Get, Placed, Reaches, Wrap, Store64;
    Prologue(prog, base, d, s);
    var s1, sp := Run(prog, s, 6), Get(s, Sp) - 32;
    AllReach(prog, base, d, n, s1);
    forall r: nat {:trigger Reaches(prog, s, base, d, sp, n, r)} | r < n
      ensures Reaches(prog, s, base, d, sp, n, r)
    {
      assert Reaches(prog, s1, base, d, Get(s1, Sp), n, r);
      ReachesSame(prog, base, d, n, r, s, 6, sp);
    }
  }

  lemma ReachesSame(prog: Program, base: nat, d: nat, n: nat, r: nat, s: State, k: nat, sp: nat)
    requires d >= 1 && 32 * (d - 1) <= sp && Reaches(prog, Run(prog, s, k), base, d, sp, n, r)
    ensures Reaches(prog, s, base, d, sp, n, r)
  {
    hide Run, Wrap, Deepest;
    var j: nat :| Deepest(Run(prog, Run(prog, s, k), j), base, d, sp, Wrap(n - r));
    RunAdd(prog, s, k, j);
    assert Deepest(Run(prog, s, k + j), base, d, sp, Wrap(n - r));
  }

  lemma ReturnsApart(base: nat, i: nat, i': nat)
    requires i < i'
    ensures ReturnTo(Rv, base, i) != ReturnTo(Rv, base, i')
  {
  }

  lemma Epilogue(prog: Program, base: nat, d: nat, s: State)
    requires Placed(Rv, prog, base, d)
    requires s.ok && s.pc == base + 10 && Get(s, Sp) + 32 < TWO64 && s.low <= Get(s, Sp)
    ensures var e := Run(prog, s, 4); var sp := Get(s, Sp);
      && e.ok && e.pc == Load64(s.mem, sp + 24) && Get(e, Ra) == e.pc && Get(e, S0) == Load64(s.mem, sp + 16)
      && Get(e, Sp) == sp + 32 && Get(e, A0) == Get(s, A0) && Get(e, T0) == Get(s, T0)
      && e.mem == s.mem && e.low == s.low && e.log == s.log + [Returned(e.pc)] && Others(s, e)
  {
    hide Step, Exec, Get, Placed, Load64, Resolve, XorWord, BitAnd, Pow2, Load32;
    HeadLines(prog, base, d);
    var sp := Get(s, Sp);
    var s1 := StepLd(prog, s, base + 10, Ra, Sp, 24, sp + 24, Load64(s.mem, sp + 24));
    var s2 := StepLd(prog, s1, base + 11, S0, Sp, 16, sp + 16, Load64(s.mem, sp + 16));
    var s3 := StepAddI(prog, s2, base + 12, Sp, Sp, 32, sp + 32);
    var s4 := StepReturnLink(prog, s3, base + 13, Ra);
  }

  /** The function for depth d, called with iteration count n (zero standing for 2^64). */
  lemma FunctionRuns(prog: Program, base: nat, d: nat, n: nat, s: State) returns (k: nat)
    requires Placed(Rv, prog, base, d) && d >= 1 && 1 <= n <= TWO64
    requires s.ok && s.pc == base && Get(s, A0) == Wrap(n) && 32 * d <= Get(s, Sp) && s.low <= Get(s, Sp)
    ensures var e := Run(prog, s, k);
      && Balanced(s, e, 32 * d) && e.pc == Get(s, Ra) && Get(e, Ra) == Get(s, Ra) && Get(e, A0) == 0
      && Get(e, T0) == Scaled(0, d, Sum(n))
      && e.log == s.log + Repeat(Nested(Calls(Rv, base, d, 0)), n) + [Returned(Get(s, Ra))] && Others(s, e)
    ensures k == 10 + n * (11 * d - 4)
  {
    hide Others, Run, Step, Exec, Get, Placed, Load64, Store64, AgreeOutside, Nested, Calls, Repeat, XorWord, BitAnd, Pow2, Load32;
    Prologue(prog, base, d, s);
    var s1 := Run(prog, s, 6);
    var k1 := Rounds(prog, base, d, n, s1);
    var s2 := Run(prog, s1, k1);
    var sp := Get(s, Sp) - 32;
    FrameKept(s.mem, s2.mem, sp, sp - 32 * (d - 1), Get(s, Ra), Get(s, S0));
    Epilogue(prog, base, d, s2);
    RunAdd(prog, s1, k1, 4);
    RunAdd(prog, s, 6, k1 + 4);
    k := 6 + (k1 + 4);
    OthersTrans(s, s1, s2);
    OthersTrans(s, s2, Run(prog, s2, 4));
  }

  /** The listing for any list of distinct depths: calling the function for depth d with iteration count n
      (zero standing for 2^64) returns to the caller with every register but t0 and a0 as before and the caller's memory
      intact, having used exactly 32*d bytes of stack, left d*n*(n+1)/2 in t0, and made n*d chain calls,
      every one matched by its return; a return-address stack of capacity c mispredicts exactly
      n*max(0, d-c) of the chain's returns. It passes 10 + n*(11*d - 4) lines. In every round the last function is reached with d live return
      addresses, one in each frame and one in ra, all of them different, and with the frames linked from s0 on. */
  lemma ReturnStackTest(counts: seq<nat>, d: nat, n: nat, s: State) returns (k: nat)
    requires Distinct(counts) && d in counts && d >= 1 && 1 <= n <= TWO64 && |Text(Rv, counts)| < TWO64
    requires s.ok && Resolve(Text(Rv, counts), StackTop(d)) == Some(s.pc) && Get(s, A0) == Wrap(n)
    requires 32 * d <= Get(s, Sp) && s.low == Get(s, Sp)
    ensures var e := Run(Text(Rv, counts), s, k);
      && e.ok && e.pc == Get(s, Ra)
      && (forall r :: r != T0 && r != A0 ==> Get(e, r) == Get(s, r)) && Get(e, A0) == 0
      && Get(e, T0) == Wrap(d * (n * (n + 1) / 2))
      && e.low == Get(s, Sp) - 32 * d && AgreeOutside(s.mem, e.mem, e.low, Get(s, Sp))
      && e.log == s.log + Repeat(Nested(Calls(Rv, s.pc, d, 0)), n) + [Returned(Get(s, Ra))]
    ensures var chain := Repeat(Nested(Calls(Rv, s.pc, d, 0)), n);
      && CallCount(chain) == n * d
      && forall c :: Misses(c, chain, []) == n * (if d > c then d - c else 0)
    ensures k == 10 + n * (11 * d - 4)
    ensures forall r: nat {:trigger Reaches(Text(Rv, counts), s, s.pc, d, Get(s, Sp) - 32, n, r)} ::
      r < n ==> Reaches(Text(Rv, counts), s, s.pc, d, Get(s, Sp) - 32, n, r)
    ensures forall i, i' :: 0 <= i < i' < d ==> ReturnTo(Rv, s.pc, i) != ReturnTo(Rv, s.pc, i')
  {
    hide Run, Step, Get, Block, UniqueLabels, Embedded, At, AgreeOutside, Nested, Calls, Repeat, Misses, CallCount, Scaled, Wrap, Resolve,
      Reaches;
    var prog := Text(Rv, counts);
    var ci :| 0 <= ci < |counts| && counts[ci] == d;
    var base := |Text(Rv, counts[..ci])|;
    TextUnique(Rv, counts);
    BlockAt(Rv, counts, ci);
    EmbedUnique(prog, base, Block(Rv, d));
    TopResolves(Rv, prog, base, d);
    k := FunctionRuns(prog, base, d, n, s);
    Total(d, n);
    Predictions(Rv, base, d, n);
    ChainReached(prog, base, d, n, s);
    forall i, i' | 0 <= i < i' < d
      ensures ReturnTo(Rv, base, i) != ReturnTo(Rv, base, i')
    {
      ReturnsApart(base, i, i');
    }
  }
}
