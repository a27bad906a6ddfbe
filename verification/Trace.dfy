/** Which lines a run passes through, and how often. */
module Trace {
  import opened Listing
  import opened Machine
  import opened Symbols

  /** How many of the next k steps start at the line. */
  function Visits(prog: Program, s: State, k: nat, line: nat): nat
    decreases k
  {
    if k == 0 then 0 else (if s.pc == line then 1 else 0) + Visits(prog, Step(prog, s), k - 1, line)
  }

  lemma {:induction false} VisitsAdd(prog: Program, s: State, a: nat, b: nat, line: nat)
    ensures Visits(prog, s, a + b, line) == Visits(prog, s, a, line) + Visits(prog, Run(prog, s, a), b, line)
    decreases a
  {
    hide Step;
    if a != 0 {
      VisitsAdd(prog, Step(prog, s), a - 1, b, line);
    }
  }

  /** The next m steps go through m consecutive lines. */
  ghost predicate Straight(prog: Program, s: State, m: nat) {
    forall j {:trigger Run(prog, s, j)} :: 0 <= j <= m ==> Run(prog, s, j).pc == s.pc + j
  }

  lemma StraightNone(prog: Program, s: State)
    ensures Straight(prog, s, 0)
  {
  }

  lemma StraightAdd(prog: Program, s: State, a: nat, b: nat)
    requires Straight(prog, s, a) && Straight(prog, Run(prog, s, a), b)
    ensures Straight(prog, s, a + b)
  {
    hide Run;
    forall j {:trigger Run(prog, s, j)} | 0 <= j <= a + b
      ensures Run(prog, s, j).pc == s.pc + j
    {
      if j > a {
        RunAdd(prog, s, a, j - a);
      }
    }
  }

  /** A straight run passes each of its lines once and no other line. */
  lemma {:induction false} VisitsStraight(prog: Program, s: State, m: nat, line: nat)
    requires Straight(prog, s, m)
    ensures Visits(prog, s, m, line) == if s.pc <= line < s.pc + m then 1 else 0
    decreases m
  {
    hide Step;
    if m != 0 {
      var t := Step(prog, s);
      assert Run(prog, s, 1) == t;
      forall j {:trigger Run(prog, t, j)} | 0 <= j <= m - 1
        ensures Run(prog, t, j).pc == t.pc + j
      {
        assert Run(prog, s, j + 1) == Run(prog, t, j);
      }
      VisitsStraight(prog, t, m - 1, line);
    }
  }

  /** Instructions after which control is always at the next line. */
  predicate FallsThrough(i: Instr) {
    i.Nop? || i.Barrier? || i.Alu? || i.Compare? || i.Select? || i.Load? || i.Store? || i.Push? || i.Pop?
  }

  /** Loading the address of a label that is defined. */
  ghost predicate Known(prog: Program, i: Instr) {
    i.LoadLabel? && Resolve(prog, i.target).Some?
  }

  ghost predicate NoTransfers(prog: Program, p: nat, m: nat) {
    && p + m <= |prog|
    && forall l :: p <= l < p + m && prog[l].Op? ==> FallsThrough(prog[l].instr) || Known(prog, prog[l].instr)
  }

  lemma StepFallsThrough(prog: Program, s: State)
    requires s.ok && s.pc < |prog| && (prog[s.pc].Op? ==> FallsThrough(prog[s.pc].instr) || Known(prog, prog[s.pc].instr))
    ensures var e := Step(prog, s); e.ok && e.pc == s.pc + 1
  {
    hide Eval, Effective, Fetch, Resolve;
  }

  /** A block without control transfers is run straight through, whatever the data. */
  lemma {:induction false} BlockStraight(prog: Program, s: State, m: nat)
    requires s.ok && NoTransfers(prog, s.pc, m)
    ensures Straight(prog, s, m) && Run(prog, s, m).ok
    decreases m
  {
    hide Step, FallsThrough, Known;
    if m != 0 {
      var n := m - 1;
      BlockStraight(prog, s, n);
      StraightOne(prog, Run(prog, s, n));
      RunAdd(prog, s, n, 1);
      StraightAdd(prog, s, n, 1);
    }
  }

  lemma StraightOne(prog: Program, s: State)
    requires s.ok && s.pc < |prog| && (prog[s.pc].Op? ==> FallsThrough(prog[s.pc].instr) || Known(prog, prog[s.pc].instr))
    ensures Straight(prog, s, 1) && Run(prog, s, 1).ok
  {
    hide Step, FallsThrough, Known;
    StepFallsThrough(prog, s);
    assert Run(prog, s, 1) == Step(prog, s) && Run(prog, s, 0) == s;
  }

  // ----- the history of conditional branches

  predicate AtConditional(prog: Program, s: State) {
    s.ok && s.pc < |prog| && prog[s.pc].Op? && prog[s.pc].instr.Branch? && prog[s.pc].instr.cond != Always
  }

  /** The outcomes of the conditional branches among the next k steps, oldest first: true for taken. */
  function Outcomes(prog: Program, s: State, k: nat): seq<bool>
    decreases k
  {
    if k == 0 then []
    else (if AtConditional(prog, s) then [Holds(s, prog[s.pc].instr.cond)] else []) + Outcomes(prog, Step(prog, s), k - 1)
  }

  lemma {:induction false} OutcomesAdd(prog: Program, s: State, a: nat, b: nat)
    ensures Outcomes(prog, s, a + b) == Outcomes(prog, s, a) + Outcomes(prog, Run(prog, s, a), b)
    decreases a
  {
    hide Step, AtConditional, Holds;
    if a != 0 {
      OutcomesAdd(prog, Step(prog, s), a - 1, b);
    }
  }

  lemma OutcomesNone(prog: Program, s: State)
    ensures Outcomes(prog, s, 0) == []
  {
  }

  lemma OutcomesOne(prog: Program, s: State)
    ensures Outcomes(prog, s, 1) == if AtConditional(prog, s) then [Holds(s, prog[s.pc].instr.cond)] else []
  {
    hide Step, AtConditional, Holds;
    assert Outcomes(prog, Step(prog, s), 0) == [];
  }

  lemma OutcomesBranch(prog: Program, s: State, c: Cond, target: Symbol)
    requires Ready(prog, s, s.pc, Branch(c, target)) && c != Always
    ensures Outcomes(prog, s, 1) == [Holds(s, c)]
  {
    hide Step, Holds;
    OutcomesOne(prog, s);
  }

  /** No line of the block is a conditional branch. */
  ghost predicate NoBranches(prog: Program, p: nat, n: nat) {
    p + n <= |prog| && forall l :: p <= l < p + n && prog[l].Op? ==> !prog[l].instr.Branch?
  }

  /** A straight run through lines without branches has no outcomes. */
  lemma {:induction false} StraightOutcomes(prog: Program, s: State, n: nat)
    requires Straight(prog, s, n) && NoBranches(prog, s.pc, n)
    ensures Outcomes(prog, s, n) == []
    decreases n
  {
    hide Step, Run, Holds;
    if n == 0 {
      OutcomesNone(prog, s);
    } else {
      StraightFewer(prog, s, n - 1, n);
      StraightOutcomes(prog, s, n - 1);
      OutcomesAdd(prog, s, n - 1, 1);
      OutcomesOne(prog, Run(prog, s, n - 1));
    }
  }

  lemma StraightFewer(prog: Program, s: State, m: nat, n: nat)
    requires Straight(prog, s, n) && m <= n
    ensures Straight(prog, s, m)
  {
    hide Run;
  }

  lemma FallsNoBranches(prog: Program, p: nat, n: nat)
    requires NoTransfers(prog, p, n)
    ensures NoBranches(prog, p, n)
  {
  }

  /** A block without control transfers adds nothing to the history. */
  lemma BlockOutcomes(prog: Program, s: State, n: nat)
    requires s.ok && NoTransfers(prog, s.pc, n)
    ensures Outcomes(prog, s, n) == []
  {
    hide Run, NoTransfers, Straight, NoBranches;
    BlockStraight(prog, s, n);
    FallsNoBranches(prog, s.pc, n);
    StraightOutcomes(prog, s, n);
  }

  /** Nor do such a block and a jump that is no branch behind it. */
  lemma EndingOutcomes(prog: Program, s: State, n: nat)
    requires s.ok && NoTransfers(prog, s.pc, n) && s.pc + n < |prog| && prog[s.pc + n].Op? && !prog[s.pc + n].instr.Branch?
    ensures Outcomes(prog, s, n + 1) == []
  {
    hide Run, NoTransfers, Outcomes, Straight, NoBranches;
    BlockStraight(prog, s, n);
    BlockOutcomes(prog, s, n);
    StraightEnds(prog, s, n);
    OutcomesOne(prog, Run(prog, s, n));
    OutcomesAdd(prog, s, n, 1);
  }

  lemma StraightEnds(prog: Program, s: State, n: nat)
    requires Straight(prog, s, n)
    ensures Run(prog, s, n).pc == s.pc + n
  {
    hide Run;
  }

  // ----- blocks of fall-through text

  ghost predicate Falling(prog: Program, text: Program) {
    forall i :: 0 <= i < |text| && text[i].Op? ==> FallsThrough(text[i].instr) || Known(prog, text[i].instr)
  }

  lemma TextFalls(prog: Program, p: nat, text: Program)
    requires Embedded(prog, p, text) && Falling(prog, text)
    ensures NoTransfers(prog, p, |text|)
  {
    hide Embedded, FallsThrough, Known;
    EmbedLines(prog, p, text);
    forall l | p <= l < p + |text| && prog[l].Op?
      ensures FallsThrough(prog[l].instr) || Known(prog, prog[l].instr)
    {
      assert prog[l] == text[l - p];
    }
  }

  lemma FallingAppend(prog: Program, a: Program, b: Program)
    requires Falling(prog, a) && Falling(prog, b)
    ensures Falling(prog, a + b)
  {
    hide FallsThrough, Known;
  }

  lemma {:induction false} ConcatFalls(prog: Program, pieces: seq<Program>)
    requires forall i :: 0 <= i < |pieces| ==> Falling(prog, pieces[i])
    ensures Falling(prog, Concat(pieces))
    decreases |pieces|
  {
    hide FallsThrough, Known;
    if pieces != [] {
      ConcatFalls(prog, pieces[..|pieces| - 1]);
    }
  }
}
