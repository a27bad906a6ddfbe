/** The branch-history test as ARM functions. */
module BranchHistArm {
  import opened Words
  import opened Listing
  import opened Machine
  import opened Symbols
  import opened BranchHistText
  import opened BranchHistLoop
  import opened Trace

  /** The i-th register saved, and its place above the stack pointer. */
  function Saved(i: nat): Reg
    requires i < 6
  {
    [X11, X12, X15, X16, X13, X14][i]
  }

  function Place(i: nat): nat
    requires i < 6
  {
    [0x30, 0x38, 0x20, 0x28, 0x10, 0x18][i]
  }

  predicate IsSaved(r: Reg) {
    r == X11 || r == X12 || r == X13 || r == X14 || r == X15 || r == X16
  }

  lemma TextIsUniform(count: nat, i: nat)
    requires i < 6
    ensures Opening(Aarch64, count)[2 + i] == Op(Store(Saved(i), Address(Sp, I(0), By1, Place(i))))
    ensures Ending(Aarch64)[1 + i] == Op(Load(Saved(i), Full, Address(Sp, I(0), By1, Place(i))))
    ensures IsSaved(Saved(i)) && Saved(i) != Sp && Saved(i) != Zero && 0x10 <= Place(i) <= 0x38
    ensures |Ending(Aarch64)| == 9
  {
  }

  lemma PlacesApart(i: nat, j: nat)
    requires i < 6 && j < 6 && i != j
    ensures (Place(i) + 8 <= Place(j) || Place(j) + 8 <= Place(i)) && Saved(i) != Saved(j)
  {
  }

  /** The frame at sp holds the first n saved registers as they are in s. */
  ghost predicate Frame(m: Memory, sp: nat, s: State, n: nat) {
    forall j {:trigger Saved(j)} :: 0 <= j < n <= 6 ==> Load64(m, sp + Place(j)) == Get(s, Saved(j))
  }

  ghost predicate InFrame(s: State, e: State) {
    && Get(s, Sp) >= 64 && Get(e, Sp) == Get(s, Sp) - 64 && e.ok && Frame(e.mem, Get(s, Sp) - 64, s, 6)
    && forall r :: !IsSaved(r) && r != X0 && r != Sp ==> Get(e, r) == Get(s, r)
  }

  // ----- saving

  lemma FrameGrows(m0: Memory, m: Memory, sp: nat, s: State, n: nat)
    requires 1 <= n <= 6 && Frame(m, sp, s, n - 1) && AgreeOutside(m0, m, sp, sp + 64)
    ensures var m' := Store64(m, sp + Place(n - 1), Get(s, Saved(n - 1)));
      Frame(m', sp, s, n) && AgreeOutside(m0, m', sp, sp + 64)
  {
    hide Get, Load64, Store64, Saved, Place;
    TextIsUniform(0, n - 1);
    var at, v := sp + Place(n - 1), Get(s, Saved(n - 1));
    Store64Laws(m, at, v);
    forall j {:trigger Saved(j)} | 0 <= j < n - 1
      ensures Load64(Store64(m, at, v), sp + Place(j)) == Get(s, Saved(j))
    {
      PlacesApart(j, n - 1);
      Load64Store64Other(m, at, v, sp + Place(j));
    }
  }

  lemma SaveOne(prog: Program, p: nat, count: nat, n: nat, s: State, e: State)
    requires Embedded(prog, p, Opening(Aarch64, count)) && 1 <= n <= 6 && Get(s, Sp) + 64 < TWO64
    requires Moved(s, e, p + 1 + n) && e.log == s.log
    requires Frame(e.mem, Get(s, Sp), s, n - 1) && AgreeOutside(s.mem, e.mem, Get(s, Sp), Get(s, Sp) + 64)
    ensures var e' := Step(prog, e);
      && Moved(s, e', p + 2 + n) && e'.log == s.log
      && Frame(e'.mem, Get(s, Sp), s, n) && AgreeOutside(s.mem, e'.mem, Get(s, Sp), Get(s, Sp) + 64)
  {
    hide Step, Get, Embedded, Load64, Store64, Opening, Saved, Place, Frame, AgreeOutside;
    EmbedLines(prog, p, Opening(Aarch64, count));
    TextIsUniform(count, n - 1);
    assert Opening(Aarch64, count)[1 + n] == Op(Store(Saved(n - 1), Address(Sp, I(0), By1, Place(n - 1))));
    var e' := StepSd(prog, e, p + 1 + n, Saved(n - 1), Sp, Place(n - 1), Get(s, Sp) + Place(n - 1));
    FrameGrows(s.mem, e.mem, Get(s, Sp), s, n);
  }

  lemma {:induction false} SavesRun(prog: Program, p: nat, count: nat, n: nat, s: State)
    requires Embedded(prog, p, Opening(Aarch64, count)) && n <= 6 && s.ok && s.pc == p + 2 && Get(s, Sp) + 64 < TWO64
    ensures var e := Run(prog, s, n);
      && Moved(s, e, p + 2 + n) && e.log == s.log
      && Frame(e.mem, Get(s, Sp), s, n) && AgreeOutside(s.mem, e.mem, Get(s, Sp), Get(s, Sp) + 64)
    decreases n
  {
    hide Run, Step, Get, Embedded, Opening;
    if n == 0 {
      RunNone(prog, s);
    } else {
      SavesRun(prog, p, count, n - 1, s);
      SaveOne(prog, p, count, n, s, Run(prog, s, n - 1));
      RunOneMore(prog, s, n - 1);
    }
  }

  lemma OpeningLines(prog: Program, p: nat, count: nat)
    requires Embedded(prog, p, Opening(Aarch64, count))
    ensures p + 14 <= |prog| && prog[p] == Label(BranchTop(count)) && prog[p + 1] == Op(Alu(Sp, Minus, R(Sp), I(0x40), false))
    ensures prog[p + 8] == Op(Alu(X16, ExOr, R(X16), R(X16), false)) && prog[p + 9] == Op(Alu(X15, ExOr, R(X15), R(X15), false))
    ensures prog[p + 10] == Op(Alu(X12, ExOr, R(X12), R(X12), false)) && prog[p + 11] == Op(Alu(X11, ExOr, R(X11), R(X11), false))
    ensures prog[p + 12] == Op(Alu(X14, ExOr, R(X14), R(X14), false)) && prog[p + 13] == Op(Alu(X16, Plus, R(X1), I(0), false))
  {
    hide Embedded;
    var f := Opening(Aarch64, count);
    EmbedLines(prog, p, f);
    assert f[0].Label? && f[1].Op? && f[8].Op? && f[9].Op? && f[10].Op? && f[11].Op? && f[12].Op? && f[13].Op?;
  }

  lemma ClearsRun(prog: Program, p: nat, s: State, count: nat)
    requires Embedded(prog, p, Opening(Aarch64, count)) && s.ok && s.pc == p + 8
    ensures var e := Run(prog, s, 6);
      && e.ok && e.pc == p + 14 && e.log == s.log && e.mem == s.mem && Get(e, X12) == 0 && Get(e, X16) == Get(s, X1)
      && forall r :: !IsSaved(r) ==> Get(e, r) == Get(s, r)
  {
    hide Opening, Step, Get, Embedded, Resolve;
    OpeningLines(prog, p, count);
    var s1 := StepXorSelf(prog, s, p + 8, X16, X16);
    var s2 := StepXorSelf(prog, s1, p + 9, X15, X15);
    var s3 := StepXorSelf(prog, s2, p + 10, X12, X12);
    var s4 := StepXorSelf(prog, s3, p + 11, X11, X11);
    var s5 := StepXorSelf(prog, s4, p + 12, X14, X14);
    var s6 := StepAddI(prog, s5, p + 13, X16, X1, 0, Get(s, X1));
  }

  lemma Below64(x: Word)
    requires x >= 64
    ensures Eval(Minus, x, Wrap(0x40)) == x - 64
  {
  }

  /** Up to the loop: six registers are saved, the sum is zero and the pointer at the first row. */
  lemma Starts(prog: Program, s: State, count: nat, base: nat, rows: seq<seq<nat>>, n: nat)
    requires Embedded(prog, s.pc, Opening(Aarch64, count)) && Callable(Aarch64, s, base, count, rows, n)
    ensures var e := Run(prog, s, 14);
      && InFrame(s, e) && e.pc == s.pc + 14 && e.log == s.log && Get(e, X0) == Wrap(n) && Get(e, X12) == 0
      && Pointing(Aarch64, e, base, count, rows, 0 % |rows|)
      && AgreeOutside(s.mem, e.mem, Get(s, Sp) - 64, Get(s, Sp))
  {
    hide Run, Step, Get, Embedded, Opening, AgreeOutside, Wrap, Pattern, RowAt, Pointing, Frame, IsSaved, Eval;
    OpeningLines(prog, s.pc, count);
    Below64(Get(s, Sp));
    var s1 := StepMark(prog, s, s.pc);
    var s2 := StepAlu(prog, s1, s.pc + 1, Sp, Minus, R(Sp), I(0x40), Get(s, Sp) - 64);
    RunSingle(prog, s);
    RunOneMore(prog, s, 1);
    SavesRun(prog, s.pc, count, 6, s2);
    var s3 := Run(prog, s2, 6);
    ClearsRun(prog, s.pc, s3, count);
    RunAdd(prog, s2, 6, 6);
    RunAdd(prog, s, 2, 12);
    var e := Run(prog, s3, 6);
    Arguments();
    FirstRow(Aarch64, s, e, base, count, rows, n);
    Framed(s, s2, e);
  }

  lemma Arguments()
    ensures !IsSaved(Sp) && !IsSaved(X0) && !IsSaved(X1) && !IsSaved(X2) && !IsSaved(X30)
  {
  }

  lemma Framed(s: State, s2: State, e: State)
    requires e.ok && Get(s, Sp) >= 64 && Get(e, Sp) == Get(s, Sp) - 64 && Frame(e.mem, Get(s, Sp) - 64, s2, 6)
    requires (forall r :: r != Sp ==> Get(s2, r) == Get(s, r)) && forall r :: !IsSaved(r) && r != Sp ==> Get(e, r) == Get(s, r)
    ensures InFrame(s, e)
  {
    hide Get, Load64, IsSaved, Place;
    forall j {:trigger Saved(j)} | 0 <= j < 6
      ensures Load64(e.mem, Get(s, Sp) - 64 + Place(j)) == Get(s, Saved(j))
    {
      TextIsUniform(0, j);
    }
  }

  lemma LoopInFrame(s: State, s1: State, e: State)
    requires InFrame(s, s1) && Looped(Aarch64, s1, e)
    ensures InFrame(s, e) && e.ok && e.log == s1.log && e.mem == s1.mem
  {
    hide Get, Frame;
  }

  // ----- restoring

  lemma FrameHas(m: Memory, sp: nat, s: State, j: nat)
    requires Frame(m, sp, s, 6) && j < 6
    ensures Load64(m, sp + Place(j)) == Get(s, Saved(j))
  {
    hide Load64, Get, Saved, Place;
  }

  lemma RestoreOne(prog: Program, p: nat, n: nat, sp: Word, s: State, e: State)
    requires Embedded(prog, p, Ending(Aarch64)) && 1 <= n <= 6 && e.ok && e.pc == p + n && Get(e, Sp) == sp && sp + 64 < TWO64
    requires Frame(e.mem, sp, s, 6)
    ensures var e' := Step(prog, e);
      Wrote(e, e', Saved(n - 1), Get(s, Saved(n - 1)), p + 1 + n) && e'.mem == e.mem && e'.log == e.log
  {
    hide Step, Get, Embedded, Ending, Load64, Frame, Saved, Place;
    EmbedLines(prog, p, Ending(Aarch64));
    TextIsUniform(0, n - 1);
    FrameHas(e.mem, sp, s, n - 1);
    assert Ending(Aarch64)[n] == Op(Load(Saved(n - 1), Full, Address(Sp, I(0), By1, Place(n - 1))));
    var e' := StepLd(prog, e, p + n, Saved(n - 1), Sp, Place(n - 1), sp + Place(n - 1), Get(s, Saved(n - 1)));
  }

  /** From e to e' only saved registers changed, and the first n of them hold what they held in s. */
  ghost predicate Restoring(e: State, e': State, s: State, n: nat) {
    && e'.ok && e'.mem == e.mem && e'.log == e.log && (forall r :: !IsSaved(r) ==> Get(e', r) == Get(e, r))
    && forall j {:trigger Saved(j)} :: 0 <= j < n <= 6 ==> Get(e', Saved(j)) == Get(s, Saved(j))
  }

  lemma RestoringNone(e: State, s: State)
    requires e.ok
    ensures Restoring(e, e, s, 0)
  {
    hide Get, IsSaved;
  }

  lemma RestoringSp(e: State, e': State, s: State, n: nat)
    requires Restoring(e, e', s, n)
    ensures e'.ok && e'.mem == e.mem && Get(e', Sp) == Get(e, Sp)
  {
    hide Get, Saved;
  }

  lemma RestoringMore(e: State, e1: State, e2: State, s: State, n: nat, p: nat)
    requires 1 <= n <= 6 && Restoring(e, e1, s, n - 1) && Wrote(e1, e2, Saved(n - 1), Get(s, Saved(n - 1)), p)
    requires e2.mem == e1.mem && e2.log == e1.log
    ensures Restoring(e, e2, s, n) && e1.ok
  {
    hide Get, IsSaved, Saved;
    TextIsUniform(0, n - 1);
  }

  lemma {:induction false} RestoresRun(prog: Program, p: nat, n: nat, sp: Word, s: State, e: State)
    requires Embedded(prog, p, Ending(Aarch64)) && n <= 6 && e.ok && e.pc == p + 1 && Get(e, Sp) == sp && sp + 64 < TWO64
    requires Frame(e.mem, sp, s, 6)
    ensures var e' := Run(prog, e, n); Restoring(e, e', s, n) && e'.pc == p + 1 + n
    decreases n
  {
    hide Run, Step, Get, Embedded, Ending, Frame, Saved, Restoring;
    if n == 0 {
      RunNone(prog, e);
      RestoringNone(e, s);
    } else {
      RestoresRun(prog, p, n - 1, sp, s, e);
      var e1 := Run(prog, e, n - 1);
      RestoringSp(e, e1, s, n - 1);
      RestoreOne(prog, p, n, sp, s, e1);
      RestoringMore(e, e1, Step(prog, e1), s, n, p + 1 + n);
      RunOneMore(prog, e, n - 1);
    }
  }

  lemma SavedIndex(r: Reg) returns (j: nat)
    requires IsSaved(r)
    ensures j < 6 && Saved(j) == r
  {
    j := if r == X11 then 0 else if r == X12 then 1 else if r == X15 then 2 else if r == X16 then 3 else if r == X13 then 4 else 5;
  }

  lemma AllRestored(e: State, s: State)
    requires forall j {:trigger Saved(j)} :: 0 <= j < 6 ==> Get(e, Saved(j)) == Get(s, Saved(j))
    ensures forall r :: IsSaved(r) ==> Get(e, r) == Get(s, r)
  {
    hide Get, IsSaved, Saved;
    forall r | IsSaved(r)
      ensures Get(e, r) == Get(s, r)
    {
      var j := SavedIndex(r);
    }
  }

  lemma EndingLines(prog: Program, p: nat)
    requires Embedded(prog, p, Ending(Aarch64))
    ensures p + 9 <= |prog| && prog[p] == Op(Alu(X0, Plus, R(X12), I(0), false))
    ensures prog[p + 7] == Op(Alu(Sp, Plus, R(Sp), I(0x40), false)) && prog[p + 8] == Op(ReturnLink(X30))
  {
    hide Embedded;
    var f := Ending(Aarch64);
    EmbedLines(prog, p, f);
    assert f[0].Op? && f[7].Op? && f[8].Op?;
  }

  /** The result register, the restores and the return. */
  lemma EndingRuns(prog: Program, s: State, e: State)
    requires Embedded(prog, e.pc, Ending(Aarch64)) && InFrame(s, e)
    ensures var e' := Run(prog, e, 9);
      && e'.ok && e'.pc == Get(s, X30) && e'.log == e.log + [Returned(Get(s, X30))] && Get(e', X0) == Get(e, X12) && e'.mem == e.mem
      && forall r :: r != X0 ==> Get(e', r) == Get(s, r)
  {
    hide Ending, Step, Get, Embedded, Run, IsSaved, Frame;
    EndingLines(prog, e.pc);
    Arguments();
    var p := e.pc;
    var e1 := StepAddI(prog, e, p, X0, X12, 0, Get(e, X12));
    RunSingle(prog, e);
    RestoresRun(prog, p, 6, Get(s, Sp) - 64, s, e1);
    var e2 := Run(prog, e1, 6);
    AllRestored(e2, s);
    var e3 := StepAddI(prog, e2, p + 7, Sp, Sp, 0x40, Get(s, Sp));
    var e4 := StepReturnLink(prog, e3, p + 8, X30);
    RunAdd(prog, e, 1, 6);
    RunOneMore(prog, e, 7);
    RunOneMore(prog, e, 8);
  }

  lemma FnParts(prog: Program, p: nat, count: nat)
    requires Embedded(prog, p, Fn(Aarch64, count))
    ensures Embedded(prog, p, Opening(Aarch64, count)) && Embedded(prog, p + 14, Loop(Aarch64, count))
    ensures Embedded(prog, p + 14 + |Loop(Aarch64, count)|, Ending(Aarch64))
  {
    hide Embedded, Opening, Loop, Ending;
    EmbedThree(prog, p, Opening(Aarch64, count), Loop(Aarch64, count), Ending(Aarch64));
  }

  /** A call returns the number of zeros seen, with every other register as before. */
  lemma FunctionRuns(prog: Program, s: State, count: nat, base: nat, rows: seq<seq<nat>>, n: nat) returns (k: nat, steps: nat)
    requires Embedded(prog, s.pc, Fn(Aarch64, count)) && Callable(Aarch64, s, base, count, rows, n)
    ensures rows != [] && LoopDone(Aarch64, prog, Run(prog, s, 14), steps, count, base, rows, 0, n) && k == 14 + (steps + 9)
    ensures var e := Run(prog, s, k);
      && e.ok && e.pc == Get(s, X30) && (forall r :: r != X0 ==> Get(e, r) == Get(s, r)) && e.log == s.log + [Returned(Get(s, X30))]
      && Get(e, X0) == Wrap(Sum(Aarch64, rows, 0, n))
    ensures AgreeOutside(s.mem, Run(prog, s, k).mem, Get(s, Sp) - 64, Get(s, Sp))
  {
    hide AgreeOutside, Run, Get, Embedded, Fn, Opening, Loop, Ending, Wrap, Pattern, RowAt, Pointing, InFrame, Sum, LoopDone, Looped;
    FnParts(prog, s.pc, count);
    Starts(prog, s, count, base, rows, n);
    var s1 := Run(prog, s, 14);
    steps := IterationsRun(Aarch64, prog, s1, count, base, rows, 0, n);
    LoopTally(prog, s1, steps, count, base, rows, n);
    var s2 := Run(prog, s1, steps);
    LoopInFrame(s, s1, s2);
    EndingRuns(prog, s, s2);
    RunAdd(prog, s1, steps, 9);
    RunAdd(prog, s, 14, steps + 9);
    k := 14 + (steps + 9);
  }

  lemma LoopTally(prog: Program, s: State, steps: nat, count: nat, base: nat, rows: seq<seq<nat>>, n: nat)
    requires rows != [] && LoopDone(Aarch64, prog, s, steps, count, base, rows, 0, n) && Get(s, X12) == 0
    ensures var e := Run(prog, s, steps);
      Looped(Aarch64, s, e) && e.pc == s.pc + |Loop(Aarch64, count)| && Get(e, X12) == Wrap(Sum(Aarch64, rows, 0, n))
  {
    hide Run, Get, Loop, RowAt, Sum, Looped, Begins, Outcomes, History;
  }
}
