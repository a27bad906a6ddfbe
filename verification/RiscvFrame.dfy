/** The prologue and epilogue that the RISC-V generators share: nine registers saved in an 80-byte frame
    and cleared, later restored. */
module RiscvFrame {
  import opened Words
  import opened Listing
  import opened Machine
  import opened Riscv

  /** The i-th register saved, and the i-th register cleared. */
  function Saved(i: nat): Reg
    requires i < 9
  {
    [S2, S1, T6, T5, T4, T3, T2, T1, T0][i]
  }

  function Cleared(i: nat): Reg
    requires i < 9
  {
    [T6, T5, T4, T3, T2, T1, T0, S2, S1][i]
  }

  predicate Scratch(r: Reg) {
    r == S2 || r == S1 || r == T6 || r == T5 || r == T4 || r == T3 || r == T2 || r == T1 || r == T0
  }

  /** Only scratch registers may have changed. */
  ghost predicate KeepsOthers(s: State, e: State) {
    e.ok && e.low == s.low && forall r :: !Scratch(r) ==> Get(e, r) == Get(s, r)
  }

  function Saves(): (p: Program)
    ensures |p| == 9
  {
    [ Op(Sd(S2, 8, Sp)), Op(Sd(S1, 16, Sp)), Op(Sd(T6, 24, Sp)), Op(Sd(T5, 32, Sp)), Op(Sd(T4, 40, Sp)),
      Op(Sd(T3, 48, Sp)), Op(Sd(T2, 56, Sp)), Op(Sd(T1, 64, Sp)), Op(Sd(T0, 72, Sp))]
  }

  function Clears(): (p: Program)
    ensures |p| == 9
  {
    [ Op(Li(T6, 0)), Op(Li(T5, 0)), Op(Li(T4, 0)), Op(Li(T3, 0)), Op(Li(T2, 0)),
      Op(Li(T1, 0)), Op(Li(T0, 0)), Op(Li(S2, 0)), Op(Li(S1, 0))]
  }

  function Restores(): (p: Program)
    ensures |p| == 9
  {
    [ Op(Ld(S2, 8, Sp)), Op(Ld(S1, 16, Sp)), Op(Ld(T6, 24, Sp)), Op(Ld(T5, 32, Sp)), Op(Ld(T4, 40, Sp)),
      Op(Ld(T3, 48, Sp)), Op(Ld(T2, 56, Sp)), Op(Ld(T1, 64, Sp)), Op(Ld(T0, 72, Sp))]
  }

  function Prologue(): (p: Program)
    ensures |p| == 19
  {
    [Op(Addi(Sp, Sp, -80))] + Saves() + Clears()
  }

  function Epilogue(): (p: Program)
    ensures |p| == 11
  {
    Restores() + [Op(Addi(Sp, Sp, 80)), Op(Ret())]
  }

  lemma TextIsUniform(i: nat)
    requires i < 9
    ensures Saves()[i] == Op(Sd(Saved(i), 8 * (i + 1), Sp))
    ensures Clears()[i] == Op(Li(Cleared(i), 0))
    ensures Restores()[i] == Op(Ld(Saved(i), 8 * (i + 1), Sp))
    ensures Scratch(Saved(i)) && Scratch(Cleared(i)) && !Scratch(Sp) && !Scratch(Zero)
  {
  }

  /** The frame at sp holds the first n saved registers as they are in s. */
  ghost predicate Frame(m: Memory, sp: nat, s: State, n: nat) {
    forall j {:trigger Saved(j)} :: 0 <= j < n <= 9 ==> Load64(m, sp + 8 * (j + 1)) == Get(s, Saved(j))
  }

  lemma {:induction false} SavesRun(prog: Program, p: nat, n: nat, s: State)
    requires Embedded(prog, p, Saves()) && n <= 9 && s.ok && s.pc == p && Get(s, Sp) + 80 < TWO64
    ensures var e := Run(prog, s, n);
      && Moved(s, e, p + n) && e.log == s.log
      && Frame(e.mem, Get(s, Sp), s, n) && AgreeOutside(s.mem, e.mem, Get(s, Sp), Get(s, Sp) + 80)
    decreases n
  {
    hide Run, Step, Exec, Get, Embedded, Load64, Store64, Saves, XorWord, BitAnd, Pow2, Load32, Saved, Cleared;
    if n == 0 {
      RunNone(prog, s);
    } else {
      SavesRun(prog, p, n - 1, s);
      SaveOne(prog, p, n, s, Run(prog, s, n - 1));
      RunOneMore(prog, s, n - 1);
    }
  }

  lemma SaveOne(prog: Program, p: nat, n: nat, s: State, e: State)
    requires Embedded(prog, p, Saves()) && 1 <= n <= 9 && Get(s, Sp) + 80 < TWO64
    requires Moved(s, e, p + n - 1) && e.log == s.log
    requires Frame(e.mem, Get(s, Sp), s, n - 1) && AgreeOutside(s.mem, e.mem, Get(s, Sp), Get(s, Sp) + 80)
    ensures var e' := Step(prog, e);
      && Moved(s, e', p + n) && e'.log == s.log
      && Frame(e'.mem, Get(s, Sp), s, n) && AgreeOutside(s.mem, e'.mem, Get(s, Sp), Get(s, Sp) + 80)
  {
    hide Step, Get, Embedded, Load64, Store64, Saves, Saved, Frame, AgreeOutside;
    EmbedLines(prog, p, Saves());
    TextIsUniform(n - 1);
    var at := Get(s, Sp) + 8 * n;
    assert Saves()[n - 1] == Op(Sd(Saved(n - 1), 8 * n, Sp));
    var e' := StepSd(prog, e, p + n - 1, Saved(n - 1), Sp, 8 * n, at);
    FrameGrows(s.mem, e.mem, Get(s, Sp), s, n);
  }

  lemma FrameGrows(m0: Memory, m: Memory, sp: nat, s: State, n: nat)
    requires 1 <= n <= 9 && Frame(m, sp, s, n - 1) && AgreeOutside(m0, m, sp, sp + 80)
    ensures var m' := Store64(m, sp + 8 * n, Get(s, Saved(n - 1)));
      Frame(m', sp, s, n) && AgreeOutside(m0, m', sp, sp + 80)
  {
    hide Get, Load64, Store64, Saved;
    var at, v := sp + 8 * n, Get(s, Saved(n - 1));
    Store64Laws(m, at, v);
    forall j {:trigger Saved(j)} | 0 <= j < n - 1
      ensures Load64(Store64(m, at, v), sp + 8 * (j + 1)) == Get(s, Saved(j))
    {
      Load64Store64Other(m, at, v, sp + 8 * (j + 1));
    }
  }

  lemma {:induction false} ClearsRun(prog: Program, p: nat, n: nat, s: State)
    requires Embedded(prog, p, Clears()) && n <= 9 && s.ok && s.pc == p
    ensures var e := Run(prog, s, n);
      && KeepsOthers(s, e) && e.pc == p + n && e.mem == s.mem && e.log == s.log
      && forall j {:trigger Cleared(j)} :: 0 <= j < n ==> Get(e, Cleared(j)) == 0
    decreases n
  {
    hide Run, Step, Get, Embedded, Clears, Scratch, Cleared;
    SpIsKept();
    if n == 0 {
      RunNone(prog, s);
    } else {
      ClearsRun(prog, p, n - 1, s);
      ClearOne(prog, p, n, Run(prog, s, n - 1));
      TextIsUniform(n - 1);
      RunOneMore(prog, s, n - 1);
    }
  }

  lemma ClearOne(prog: Program, p: nat, n: nat, e: State)
    requires Embedded(prog, p, Clears()) && 1 <= n <= 9 && e.ok && e.pc == p + n - 1
    ensures var e' := Step(prog, e); Wrote(e, e', Cleared(n - 1), 0, p + n) && e'.mem == e.mem && e'.log == e.log
    ensures Cleared(n - 1) != Zero
  {
    hide Step, Get, Embedded, Clears, Scratch, Cleared;
    EmbedLines(prog, p, Clears());
    TextIsUniform(n - 1);
    assert Clears()[n - 1] == Op(Li(Cleared(n - 1), 0));
    var e' := StepLi(prog, e, p + n - 1, Cleared(n - 1), 0);
  }

  lemma FrameHas(m: Memory, sp: nat, s: State, j: nat)
    requires Frame(m, sp, s, 9) && j < 9
    ensures Load64(m, sp + 8 * (j + 1)) == Get(s, Saved(j))
  {
    hide Load64, Get, Saved;
  }

  lemma {:induction false} RestoresRun(prog: Program, p: nat, n: nat, s: State, old_: State)
    requires Embedded(prog, p, Restores()) && n <= 9 && s.ok && s.pc == p && Get(s, Sp) + 80 < TWO64
    requires Frame(s.mem, Get(s, Sp), old_, 9)
    ensures var e := Run(prog, s, n);
      && KeepsOthers(s, e) && e.pc == p + n && e.mem == s.mem && e.log == s.log
      && forall j {:trigger Saved(j)} :: 0 <= j < n ==> Get(e, Saved(j)) == Get(old_, Saved(j))
    decreases n
  {
    hide Run, Step, Get, Embedded, Restores, Load64, Scratch, Saved, Frame;
    SpIsKept();
    if n == 0 {
      RunNone(prog, s);
    } else {
      RestoresRun(prog, p, n - 1, s, old_);
      var e := Run(prog, s, n - 1);
      FrameHas(s.mem, Get(s, Sp), old_, n - 1);
      RestoreOne(prog, p, n, e, Get(s, Sp), old_);
      TextIsUniform(n - 1);
      RunOneMore(prog, s, n - 1);
    }
  }

  lemma RestoreOne(prog: Program, p: nat, n: nat, e: State, sp: Word, old_: State)
    requires Embedded(prog, p, Restores()) && 1 <= n <= 9 && e.ok && e.pc == p + n - 1 && Get(e, Sp) == sp && sp + 80 < TWO64
    requires Load64(e.mem, sp + 8 * n) == Get(old_, Saved(n - 1))
    ensures var e' := Step(prog, e);
      Wrote(e, e', Saved(n - 1), Get(old_, Saved(n - 1)), p + n) && e'.mem == e.mem && e'.log == e.log
    ensures Saved(n - 1) != Zero
  {
    hide Step, Get, Embedded, Restores, Load64, Scratch, Saved, Cleared;
    EmbedLines(prog, p, Restores());
    TextIsUniform(n - 1);
    var r := Saved(n - 1);
    assert Restores()[n - 1] == Op(Ld(r, 8 * n, Sp));
    var e' := StepLd(prog, e, p + n - 1, r, Sp, 8 * n, sp + 8 * n, Get(old_, r));
  }

  lemma PrologueParts(prog: Program, p: nat)
    requires Embedded(prog, p, Prologue())
    ensures p < |prog| && prog[p] == Op(Addi(Sp, Sp, -80))
    ensures Embedded(prog, p + 1, Saves()) && Embedded(prog, p + 10, Clears())
  {
    hide Embedded, Saves, Clears;
    var first: Program := [Op(Addi(Sp, Sp, -80))];
    assert Prologue() == [] + first + (Saves() + Clears()) == first + Saves() + Clears();
    assert Prologue() == (first + Saves()) + Clears() + [];
    EmbedPart(prog, p, [], first, Saves() + Clears());
    EmbedPart(prog, p, first, Saves(), Clears());
    EmbedPart(prog, p, first + Saves(), Clears(), []);
    EmbedLines(prog, p, first);
    assert first[0].Op?;
  }

  lemma SpIsKept()
    ensures !Scratch(Sp) && !Scratch(Zero) && !Scratch(A0) && !Scratch(Ra)
  {
  }

  lemma PrologueRuns(prog: Program, p: nat, s: State)
    requires Embedded(prog, p, Prologue()) && s.ok && s.pc == p && Get(s, Sp) >= 80
    ensures var e := Run(prog, s, 19); var sp := Get(s, Sp) - 80;
      && e.ok && e.pc == p + 19 && e.log == s.log && Get(e, Sp) == sp
      && (forall r :: !Scratch(r) && r != Sp ==> Get(e, r) == Get(s, r))
      && (forall r :: Scratch(r) ==> Get(e, r) == 0)
      && Frame(e.mem, sp, s, 9) && AgreeOutside(s.mem, e.mem, sp, sp + 80)
      && e.low == (if sp < s.low then sp else s.low)
  {
    hide Prologue, Run, Step, Get, Embedded, Load64, Saves, Clears, AgreeOutside, Saved, Cleared, Scratch, Frame;
    SpIsKept();
    PrologueParts(prog, p);
    var sp := Get(s, Sp) - 80;
    var s1 := StepAddI(prog, s, p, Sp, Sp, -80, sp);
    SavesRun(prog, p + 1, 9, s1);
    var s2 := Run(prog, s1, 9);
    ClearsRun(prog, p + 10, 9, s2);
    RunSingle(prog, s);
    RunAdd(prog, s1, 9, 9);
    RunAdd(prog, s, 1, 18);
    SameFrame(s2.mem, sp, s1, s);
    AllCleared(Run(prog, s2, 9));
  }

  lemma SameFrame(m: Memory, sp: nat, s: State, s': State)
    requires Frame(m, sp, s, 9) && forall r :: r != Sp ==> Get(s, r) == Get(s', r)
    ensures Frame(m, sp, s', 9)
  {
    hide Get, Load64;
    assert forall j {:trigger Saved(j)} :: 0 <= j < 9 ==> Saved(j) != Sp;
  }

  lemma ClearedIndex(r: Reg) returns (j: nat)
    requires Scratch(r)
    ensures j < 9 && Cleared(j) == r
  {
    j := if r == T6 then 0 else if r == T5 then 1 else if r == T4 then 2 else if r == T3 then 3 else if r == T2 then 4
         else if r == T1 then 5 else if r == T0 then 6 else if r == S2 then 7 else 8;
  }

  lemma SavedIndex(r: Reg) returns (j: nat)
    requires Scratch(r)
    ensures j < 9 && Saved(j) == r
  {
    j := if r == S2 then 0 else if r == S1 then 1 else if r == T6 then 2 else if r == T5 then 3 else if r == T4 then 4
         else if r == T3 then 5 else if r == T2 then 6 else if r == T1 then 7 else 8;
  }

  lemma AllCleared(e: State)
    requires forall j {:trigger Cleared(j)} :: 0 <= j < 9 ==> Get(e, Cleared(j)) == 0
    ensures forall r :: Scratch(r) ==> Get(e, r) == 0
  {
    hide Get, Scratch, Cleared;
    forall r | Scratch(r)
      ensures Get(e, r) == 0
    {
      var j := ClearedIndex(r);
    }
  }

  lemma AllRestored(e: State, s: State)
    requires forall j {:trigger Saved(j)} :: 0 <= j < 9 ==> Get(e, Saved(j)) == Get(s, Saved(j))
    ensures forall r :: Scratch(r) ==> Get(e, r) == Get(s, r)
  {
    hide Get, Scratch, Saved;
    forall r | Scratch(r)
      ensures Get(e, r) == Get(s, r)
    {
      var j := SavedIndex(r);
    }
  }

  lemma EpilogueRuns(prog: Program, p: nat, s: State, s0: State)
    requires Embedded(prog, p, Epilogue()) && s.ok && s.pc == p && Get(s, Sp) + 80 < TWO64 && s.low <= Get(s, Sp)
    requires Frame(s.mem, Get(s, Sp), s0, 9)
    ensures var e := Run(prog, s, 11);
      && e.ok && e.pc == Get(s, Ra) && e.log == s.log + [Returned(Get(s, Ra))] && Get(e, Sp) == Get(s, Sp) + 80
      && (forall r :: !Scratch(r) && r != Sp ==> Get(e, r) == Get(s, r))
      && (forall r :: Scratch(r) ==> Get(e, r) == Get(s0, r))
      && e.mem == s.mem && e.low == s.low
  {
    hide Run, Step, Exec, Get, Embedded, Load64, Restores, XorWord, BitAnd, Pow2, Load32, Saved, Cleared;
    var last: Program := [Op(Addi(Sp, Sp, 80)), Op(Ret())];
    assert Epilogue() == [] + Restores() + last;
    EmbedPart(prog, p, [], Restores(), last);
    assert Epilogue() == Restores() + last + [];
    EmbedPart(prog, p, Restores(), last, []);
    RestoresRun(prog, p, 9, s, s0);
    var s1 := Run(prog, s, 9);
    AllRestored(s1, s0);
    LeaveFrame(prog, p + 9, s1);
    RunAdd(prog, s, 9, 2);
  }

  lemma LeaveFrame(prog: Program, p: nat, s: State)
    requires Embedded(prog, p, [Op(Addi(Sp, Sp, 80)), Op(Ret())])
    requires s.ok && s.pc == p && Get(s, Sp) + 80 < TWO64 && s.low <= Get(s, Sp)
    ensures var e := Run(prog, s, 2);
      && Wrote(s, e, Sp, Get(s, Sp) + 80, Get(s, Ra)) && e.mem == s.mem && e.log == s.log + [Returned(Get(s, Ra))]
  {
    hide Step, Exec, Get, Embedded, XorWord, BitAnd, Pow2, Load32;
    var last: Program := [Op(Addi(Sp, Sp, 80)), Op(Ret())];
    EmbedLines(prog, p, last);
    assert last[0].Op? && last[1].Op?;
    var s1 := StepAddI(prog, s, p, Sp, Sp, 80, Get(s, Sp) + 80);
    var s2 := StepReturnLink(prog, s1, p + 1, Ra);
  }

  /** Only scratch registers and the counter may have changed. */
  ghost predicate KeepsCaller(s: State, e: State) {
    e.ok && e.low == s.low && forall r :: !Scratch(r) && r != A0 ==> Get(e, r) == Get(s, r)
  }

  /** The frame of a call made in s is set up in e, and the caller's registers are as they were. */
  ghost predicate InFrame(s: State, e: State) {
    && Get(s, Sp) >= 80 && Get(e, Sp) == Get(s, Sp) - 80 && e.low <= Get(e, Sp) && e.ok
    && (forall r :: !Scratch(r) && r != Sp && r != A0 ==> Get(e, r) == Get(s, r))
    && Frame(e.mem, Get(s, Sp) - 80, s, 9)
  }

  lemma StillInFrame(s: State, e: State, e': State)
    requires InFrame(s, e) && KeepsCaller(e, e') && e'.mem == e.mem
    ensures InFrame(s, e')
  {
    hide Get, Scratch, Frame;
    SpIsKept();
  }

  /** Entering: the frame is set up and the scratch registers are cleared. */
  lemma EnterRuns(prog: Program, p: nat, s: State)
    requires Embedded(prog, p, Prologue()) && s.ok && s.pc == p && Get(s, Sp) >= 80 && s.low <= Get(s, Sp)
    ensures var e := Run(prog, s, 19); var sp := Get(s, Sp) - 80;
      && InFrame(s, e) && e.pc == p + 19 && e.log == s.log && Get(e, A0) == Get(s, A0)
      && (forall r :: Scratch(r) ==> Get(e, r) == 0) && AgreeOutside(s.mem, e.mem, sp, sp + 80)
  {
    hide Run, Get, Embedded, Prologue, Scratch, Frame, AgreeOutside;
    SpIsKept();
    PrologueRuns(prog, p, s);
  }

  /** Leaving restores everything but the result register, and returns. */
  lemma LeaveRuns(prog: Program, p: nat, s: State, e: State)
    requires Embedded(prog, p, Epilogue()) && InFrame(s, e) && e.pc == p
    ensures var e' := Run(prog, e, 11);
      && e'.ok && e'.pc == Get(s, Ra) && (forall r :: r != A0 ==> Get(e', r) == Get(s, r)) && Get(e', A0) == Get(e, A0)
      && e'.mem == e.mem && e'.log == e.log + [Returned(Get(s, Ra))]
  {
    hide Run, Get, Embedded, Epilogue, Scratch, Frame;
    SpIsKept();
    EpilogueRuns(prog, p, e, s);
  }
}
