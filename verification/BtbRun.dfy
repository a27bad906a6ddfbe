/** Running the branch-target-buffer test. */
module BtbRun {
  import opened Words
  import opened Listing
  import opened Layout
  import opened Machine
  import opened Symbols
  import opened BtbText

  /** How many of the next k steps are branches that are taken. */
  function Taken(prog: Program, s: State, k: nat): nat
    decreases k
  {
    if k == 0 then 0 else (if TakesBranch(prog, s) then 1 else 0) + Taken(prog, Step(prog, s), k - 1)
  }

  predicate TakesBranch(prog: Program, s: State) {
    s.ok && s.pc < |prog| && prog[s.pc].Op? && prog[s.pc].instr.Branch? && Holds(s, prog[s.pc].instr.cond)
  }

  lemma {:induction false} TakenAdd(prog: Program, s: State, a: nat, b: nat)
    ensures Taken(prog, s, a + b) == Taken(prog, s, a) + Taken(prog, Run(prog, s, a), b)
    decreases a
  {
    hide Step, TakesBranch;
    if a != 0 {
      TakenAdd(prog, Step(prog, s), a - 1, b);
    }
  }

  lemma TakenOne(prog: Program, s: State)
    ensures Taken(prog, s, 1) == if TakesBranch(prog, s) then 1 else 0
  {
    hide Step, TakesBranch;
    assert Taken(prog, Step(prog, s), 0) == 0;
  }

  lemma NotABranch(prog: Program, s: State)
    requires s.pc < |prog| && (prog[s.pc].Op? ==> !prog[s.pc].instr.Branch?)
    ensures !TakesBranch(prog, s)
  {
  }

  // ----- the lines

  function HeadLines(t: Btb, count: nat): (p: Program)
    ensures |p| == 5
  {
    [ Label(BtbTop(t.prefix, count)), Op(LoadLabel(X2, BtbTop(t.prefix, count))), Op(Alu(X2, Plus, R(X2), I(0), false)),
      Op(Alu(X1, Plus, R(Zero), I(1), false)), Label(BtbHead(t.prefix, count))]
  }

  function LinkLines(t: Btb, count: nat, k: nat): (p: Program)
    ensures |p| == 2
  {
    [Op(Branching(t, count, k)), Label(BtbPart(t.prefix, count, k))]
  }

  function ChainLines(t: Btb, count: nat, n: nat): (p: Program)
    ensures |p| == 2 * n
  {
    if n == 0 then [] else ChainLines(t, count, n - 1) + LinkLines(t, count, n)
  }

  function TailLines(t: Btb, count: nat): (p: Program)
    ensures |p| == if Direct(t, count) then 3 else 5
  {
    if Direct(t, count) then
      [Op(Alu(X0, Minus, R(X0), I(1), false)), Op(Branch(IfNonzero(X0), BtbHead(t.prefix, count))), Op(ReturnLink(X30))]
    else
      [ Op(Alu(X0, Minus, R(X0), I(1), false)), Op(Branch(IfZero(X0), BtbExit(t.prefix, count))), Op(JumpReg(X2)),
        Label(BtbExit(t.prefix, count)), Op(ReturnLink(X30))]
  }

  function FnLines(t: Btb, count: nat): Program
    requires count >= 1
  {
    HeadLines(t, count) + ChainLines(t, count, count - 1) + TailLines(t, count)
  }

  /** The listing without its alignment directives. */
  function Listed(t: Btb, counts: seq<nat>): Program
    requires forall i :: 0 <= i < |counts| ==> counts[i] >= 1
  {
    Lines(All(t, counts))
  }

  lemma {:induction false} ListOf<J>(items: seq<Item<J>>, lines: seq<Line<J>>)
    requires |items| == |lines| && forall i :: 0 <= i < |items| ==> items[i] == Text(lines[i])
    ensures Lines(items) == lines
    decreases |items|
  {
    if items != [] {
      ListOf(items[..|items| - 1], lines[..|lines| - 1]);
      assert lines == lines[..|lines| - 1] + [lines[|lines| - 1]];
    }
  }

  lemma AlignIsEmpty<J>(n: nat)
    ensures Lines<J>([Align(n)]) == []
  {
    NoLines<J>();
    var one: seq<Item<J>> := [Align(n)];
    assert one[..0] == [];
  }

  lemma HeadListed(t: Btb, count: nat)
    ensures Lines(Head(t, count)) == HeadLines(t, count)
  {
    var h, l := Head(t, count), HeadLines(t, count);
    ListOf(h[..4], l[..4]);
    ListOf(h[5..], l[4..]);
    AlignIsEmpty<Instr>(64);
    assert h == h[..4] + [Align(64)] + h[5..];
    LinesAppend(h[..4], [Align(64)]);
    LinesAppend(h[..4] + [Align(64)], h[5..]);
    assert l == l[..4] + l[4..];
  }

  lemma {:induction false} ChainListed(t: Btb, count: nat, n: nat)
    ensures Lines(Chain(t, count, n)) == ChainLines(t, count, n)
    decreases n
  {
    hide Lines, Link, LinkLines;
    if n == 0 {
      NoLines<Instr>();
    } else {
      ChainListed(t, count, n - 1);
      LinkListed(t, count, n);
      LinesAppend(Chain(t, count, n - 1), Link(t, count, n));
    }
  }

  lemma NoLines<J>()
    ensures Lines<J>([]) == []
  {
  }

  lemma LinkListed(t: Btb, count: nat, k: nat)
    ensures Lines(Link(t, count, k)) == LinkLines(t, count, k)
  {
    hide Branching;
    var h, l := Link(t, count, k), LinkLines(t, count, k);
    ListOf(h[..1], l[..1]);
    ListOf(h[2..], l[1..]);
    AlignIsEmpty<Instr>(t.spacing);
    assert h == h[..1] + [Align(t.spacing)] + h[2..];
    LinesAppend(h[..1], [Align(t.spacing)]);
    LinesAppend(h[..1] + [Align(t.spacing)], h[2..]);
    assert l == l[..1] + l[1..];
  }

  lemma TailListed(t: Btb, count: nat)
    ensures Lines(Tail(t, count)) == TailLines(t, count)
  {
    hide Direct;
    var h, l := Tail(t, count), TailLines(t, count);
    var n := |h| - 1;
    ListOf(h[..n], l);
    AlignIsEmpty<Instr>(t.spacing);
    assert h == h[..n] + [Align(t.spacing)];
    LinesAppend(h[..n], [Align(t.spacing)]);
  }

  lemma FnListed(t: Btb, count: nat)
    requires count >= 1
    ensures Lines(Fn(t, count)) == FnLines(t, count)
  {
    hide Lines, Head, Chain, Tail, HeadLines, ChainLines, TailLines;
    HeadListed(t, count);
    ChainListed(t, count, count - 1);
    TailListed(t, count);
    LinesAppend(Head(t, count), Chain(t, count, count - 1));
    LinesAppend(Head(t, count) + Chain(t, count, count - 1), Tail(t, count));
  }

  // ----- the chain

  lemma LinkAt(t: Btb, prog: Program, p: nat, count: nat, k: nat)
    requires Embedded(prog, p, LinkLines(t, count, k))
    ensures p + 2 <= |prog| && prog[p] == Op(Branching(t, count, k)) && prog[p + 1] == Label(BtbPart(t.prefix, count, k))
    ensures Resolve(prog, BtbPart(t.prefix, count, k)) == Some(p + 1)
  {
    hide Embedded, Resolve, Branching;
    var f := LinkLines(t, count, k);
    EmbedLines(prog, p, f);
    assert f[0].Op? && f[1].Label?;
  }

  /** Each branch of the chain is taken. */
  lemma LinkRuns(t: Btb, prog: Program, s: State, count: nat, k: nat)
    requires Embedded(prog, s.pc, LinkLines(t, count, k)) && s.ok && Get(s, X1) == 1
    ensures var e := Run(prog, s, 2);
      Moved(s, e, s.pc + 2) && e.mem == s.mem && e.log == s.log && Taken(prog, s, 2) == 1
  {
    hide LinkLines, Get, Step, Embedded, Resolve, Taken;
    LinkAt(t, prog, s.pc, count, k);
    var i := Branching(t, count, k);
    var s1 := StepBranch(prog, s, s.pc, i.cond, BtbPart(t.prefix, count, k), s.pc + 1);
    var s2 := StepMark(prog, s1, s.pc + 1);
    RunSingle(prog, s);
    RunOneMore(prog, s, 1);
    TakenAdd(prog, s, 1, 1);
    TakenOne(prog, s);
    TakenOne(prog, s1);
  }

  /** All n branches, one after the other. */
  lemma {:induction false} ChainRuns(t: Btb, prog: Program, s: State, count: nat, n: nat)
    requires Embedded(prog, s.pc, ChainLines(t, count, n)) && s.ok && Get(s, X1) == 1
    ensures var e := Run(prog, s, 2 * n);
      Moved(s, e, s.pc + 2 * n) && e.mem == s.mem && e.log == s.log && Taken(prog, s, 2 * n) == n
    decreases n
  {
    hide Run, Get, Embedded, LinkLines, Taken;
    if n == 0 {
      RunNone(prog, s);
      TakenNone(prog, s);
    } else {
      var front, last := ChainLines(t, count, n - 1), LinkLines(t, count, n);
      assert ChainLines(t, count, n) == front + last + [];
      EmbedThree(prog, s.pc, front, last, []);
      ChainRuns(t, prog, s, count, n - 1);
      var s1 := Run(prog, s, 2 * (n - 1));
      LinkRuns(t, prog, s1, count, n);
      RunAdd(prog, s, 2 * (n - 1), 2);
      TakenAdd(prog, s, 2 * (n - 1), 2);
    }
  }

  lemma TakenNone(prog: Program, s: State)
    ensures Taken(prog, s, 0) == 0
  {
  }

  /** The parts of a function. */
  lemma FnParts(t: Btb, prog: Program, p: nat, count: nat)
    requires count >= 1 && Embedded(prog, p, FnLines(t, count))
    ensures Embedded(prog, p, HeadLines(t, count)) && Embedded(prog, p + 5, ChainLines(t, count, count - 1))
    ensures Embedded(prog, p + 3 + 2 * count, TailLines(t, count))
  {
    hide Embedded, HeadLines, ChainLines, TailLines;
    EmbedThree(prog, p, HeadLines(t, count), ChainLines(t, count, count - 1), TailLines(t, count));
  }

  lemma HeadAt(t: Btb, prog: Program, p: nat, count: nat)
    requires Embedded(prog, p, HeadLines(t, count))
    ensures p + 5 <= |prog| && prog[p] == Label(BtbTop(t.prefix, count)) && Resolve(prog, BtbTop(t.prefix, count)) == Some(p)
    ensures prog[p + 1] == Op(LoadLabel(X2, BtbTop(t.prefix, count))) && prog[p + 2] == Op(Alu(X2, Plus, R(X2), I(0), false))
    ensures prog[p + 3] == Op(Alu(X1, Plus, R(Zero), I(1), false))
    ensures prog[p + 4] == Label(BtbHead(t.prefix, count)) && Resolve(prog, BtbHead(t.prefix, count)) == Some(p + 4)
  {
    hide Embedded, Resolve;
    var f := HeadLines(t, count);
    EmbedLines(prog, p, f);
    assert f[0].Label? && f[1].Op? && f[2].Op? && f[3].Op? && f[4].Label?;
  }

  lemma TailAt(t: Btb, prog: Program, p: nat, count: nat)
    requires Embedded(prog, p, TailLines(t, count))
    ensures p + |TailLines(t, count)| <= |prog| && prog[p] == Op(Alu(X0, Minus, R(X0), I(1), false))
    ensures Direct(t, count) ==>
      prog[p + 1] == Op(Branch(IfNonzero(X0), BtbHead(t.prefix, count))) && prog[p + 2] == Op(ReturnLink(X30))
    ensures !Direct(t, count) ==>
      && prog[p + 1] == Op(Branch(IfZero(X0), BtbExit(t.prefix, count))) && prog[p + 2] == Op(JumpReg(X2))
      && prog[p + 3] == Label(BtbExit(t.prefix, count)) && prog[p + 4] == Op(ReturnLink(X30))
      && Resolve(prog, BtbExit(t.prefix, count)) == Some(p + 3)
  {
    hide Embedded, Resolve, Direct;
    var f := TailLines(t, count);
    EmbedLines(prog, p, f);
    assert f[0].Op? && f[1].Op? && f[2].Op?;
    assert !Direct(t, count) ==> f[3].Label? && f[4].Op?;
  }

  /** Only x0 has changed. */
  ghost predicate OnlyX0(s: State, e: State) {
    e.ok && e.low == s.low && e.mem == s.mem && forall r :: r != X0 ==> Get(e, r) == Get(s, r)
  }

  lemma OnlyX0Trans(s: State, s': State, e: State)
    requires OnlyX0(s, s') && OnlyX0(s', e)
    ensures OnlyX0(s, e)
  {
    hide Get;
  }

  // ----- the direct loop

  /** The subtraction and the closing branch. */
  lemma CloseDirect(t: Btb, prog: Program, s: State, count: nat, head: nat)
    requires Direct(t, count) && Embedded(prog, s.pc, TailLines(t, count)) && s.ok && Resolve(prog, BtbHead(t.prefix, count)) == Some(head)
    ensures var e := Run(prog, s, 2); var a := Wrap(Get(s, X0) - 1);
      && OnlyX0(s, e) && Get(e, X0) == a && e.pc == (if a != 0 then head else s.pc + 2) && e.log == s.log
      && Taken(prog, s, 2) == if a != 0 then 1 else 0
  {
    hide TailLines, Get, Step, Embedded, Resolve, Taken, Direct;
    TailAt(t, prog, s.pc, count);
    var a := Wrap(Get(s, X0) - 1);
    var s1 := StepAlu(prog, s, s.pc, X0, Minus, R(X0), I(1), a);
    var s2 := StepBranch(prog, s1, s.pc + 1, IfNonzero(X0), BtbHead(t.prefix, count), head);
    RunSingle(prog, s);
    RunOneMore(prog, s, 1);
    TakenAdd(prog, s, 1, 1);
    TakenOne(prog, s);
    TakenOne(prog, s1);
  }

  /** One iteration from the loop head at line p + 4. */
  lemma DirectIteration(t: Btb, prog: Program, p: nat, s: State, count: nat)
    requires count >= 1 && Direct(t, count) && Embedded(prog, p, FnLines(t, count)) && s.ok && s.pc == p + 4 && Get(s, X1) == 1
    ensures var k := 1 + 2 * (count - 1) + 2; var e := Run(prog, s, k); var a := Wrap(Get(s, X0) - 1);
      && OnlyX0(s, e) && Get(e, X0) == a && e.pc == (if a != 0 then s.pc else p + 5 + 2 * count) && e.log == s.log
      && Taken(prog, s, k) == count - 1 + if a != 0 then 1 else 0
  {
    hide HeadLines, ChainLines, TailLines, FnLines, Get, Step, Run, Embedded, Resolve, Taken, Direct, Wrap;
    FnParts(t, prog, p, count);
    HeadAt(t, prog, p, count);
    var s1 := StepMark(prog, s, s.pc);
    RunSingle(prog, s);
    TakenOne(prog, s);
    ChainRuns(t, prog, s1, count, count - 1);
    var s2 := Run(prog, s1, 2 * (count - 1));
    CloseDirect(t, prog, s2, count, s.pc);
    RunAdd(prog, s, 1, 2 * (count - 1));
    RunAdd(prog, s, 1 + 2 * (count - 1), 2);
    TakenAdd(prog, s, 1, 2 * (count - 1));
    TakenAdd(prog, s, 1 + 2 * (count - 1), 2);
  }

  lemma CountDown(m: nat)
    requires 1 <= m <= TWO64
    ensures Wrap(Wrap(m) - 1) == m - 1 && Wrap(m - 1) == m - 1
  {
  }

  /** m iterations take m * count - 1 branches. */
  lemma {:induction false} DirectLoop(t: Btb, prog: Program, p: nat, s: State, count: nat, m: nat) returns (k: nat)
    requires count >= 1 && Direct(t, count) && Embedded(prog, p, FnLines(t, count)) && s.ok && s.pc == p + 4 && Get(s, X1) == 1
    requires 1 <= m <= TWO64 && Get(s, X0) == Wrap(m)
    ensures var e := Run(prog, s, k);
      && OnlyX0(s, e) && Get(e, X0) == 0 && e.pc == p + 5 + 2 * count && e.log == s.log && Taken(prog, s, k) == m * count - 1
    decreases m
  {
    hide FnLines, Get, Run, Embedded, Taken, Direct, Wrap;
    DirectIteration(t, prog, p, s, count);
    CountDown(m);
    var k1 := 1 + 2 * (count - 1) + 2;
    var s1 := Run(prog, s, k1);
    if m == 1 {
      k := k1;
    } else {
      var k2 := DirectLoop(t, prog, p, s1, count, m - 1);
      RunAdd(prog, s, k1, k2);
      TakenAdd(prog, s, k1, k2);
      OnlyX0Trans(s, s1, Run(prog, s1, k2));
      k := k1 + k2;
      assert m * count == (m - 1) * count + count;
    }
  }

  // ----- entering, and the indirect loop

  /** x0, x1 and x2 may have changed: x1 is one and x2 the address of the function. */
  ghost predicate Prepared(s: State, e: State, top: nat) {
    && e.ok && e.low == s.low && e.mem == s.mem && Get(e, X1) == 1 && Get(e, X2) == top
    && forall r :: r != X0 && r != X1 && r != X2 ==> Get(e, r) == Get(s, r)
  }

  /** The three instructions before the loop, up to its head. */
  lemma HeadRuns(t: Btb, prog: Program, s: State, count: nat)
    requires Embedded(prog, s.pc, HeadLines(t, count)) && s.ok && |prog| < TWO64
    ensures var e := Run(prog, s, 4);
      && Prepared(s, e, s.pc) && Get(e, X0) == Get(s, X0) && e.pc == s.pc + 4 && e.log == s.log && Taken(prog, s, 4) == 0
  {
    hide HeadLines, Get, Step, Embedded, Resolve, Taken, TakesBranch;
    HeadAt(t, prog, s.pc, count);
    var p := s.pc;
    var s1 := StepMark(prog, s, p);
    var s2 := StepLoadLabel(prog, s1, p + 1, X2, BtbTop(t.prefix, count), p);
    var s3 := StepAddI(prog, s2, p + 2, X2, X2, 0, p);
    var s4 := StepLi(prog, s3, p + 3, X1, 1);
    NotABranch(prog, s);
    NotABranch(prog, s1);
    NotABranch(prog, s2);
    NotABranch(prog, s3);
    FourSteps(prog, s, s1, s2, s3, s4);
  }

  lemma FourSteps(prog: Program, s: State, s1: State, s2: State, s3: State, s4: State)
    requires s1 == Step(prog, s) && s2 == Step(prog, s1) && s3 == Step(prog, s2) && s4 == Step(prog, s3)
    requires !TakesBranch(prog, s) && !TakesBranch(prog, s1) && !TakesBranch(prog, s2) && !TakesBranch(prog, s3)
    ensures Run(prog, s, 4) == s4 && Taken(prog, s, 4) == 0
  {
    hide Step, TakesBranch;
    assert Taken(prog, s4, 0) == 0;
    assert Taken(prog, s3, 1) == 0;
    assert Taken(prog, s2, 2) == 0;
    assert Taken(prog, s1, 3) == 0;
  }

  /** The subtraction, the test for the end, and the indirect jump back or the exit. */
  lemma CloseIndirect(t: Btb, prog: Program, s: State, count: nat, top: nat)
    requires !Direct(t, count) && Embedded(prog, s.pc, TailLines(t, count)) && s.ok && Get(s, X2) == top
    ensures var e := Run(prog, s, 3); var a := Wrap(Get(s, X0) - 1);
      && OnlyX0(s, e) && Get(e, X0) == a && e.pc == (if a != 0 then top else s.pc + 4)
      && e.log == (if a != 0 then s.log + [Jumped(top)] else s.log)
      && Taken(prog, s, 3) == if a != 0 then 0 else 1
  {
    hide TailLines, Get, Step, Embedded, Resolve, Taken, Direct;
    TailAt(t, prog, s.pc, count);
    var a := Wrap(Get(s, X0) - 1);
    var p := s.pc;
    var s1 := StepAlu(prog, s, p, X0, Minus, R(X0), I(1), a);
    var s2 := StepBranch(prog, s1, p + 1, IfZero(X0), BtbExit(t.prefix, count), p + 3);
    RunSingle(prog, s);
    RunOneMore(prog, s, 1);
    RunOneMore(prog, s, 2);
    TakenAdd(prog, s, 1, 1);
    TakenAdd(prog, s, 2, 1);
    TakenOne(prog, s);
    TakenOne(prog, s1);
    TakenOne(prog, s2);
    if a != 0 {
      var s3 := StepJumpReg(prog, s2, p + 2, X2);
    } else {
      var s3 := StepMark(prog, s2, p + 3);
    }
  }

  /** One iteration of the indirect loop, which starts over at the top of the function. */
  lemma IndirectIteration(t: Btb, prog: Program, s: State, count: nat)
    requires count >= 1 && !Direct(t, count) && Embedded(prog, s.pc, FnLines(t, count)) && s.ok && |prog| < TWO64
    ensures var k := 5 + 2 * (count - 1) + 3; var e := Run(prog, s, k); var a := Wrap(Get(s, X0) - 1);
      && Prepared(s, e, s.pc) && Get(e, X0) == a && e.pc == (if a != 0 then s.pc else s.pc + 7 + 2 * count)
      && e.log == (if a != 0 then s.log + [Jumped(s.pc)] else s.log)
      && Taken(prog, s, k) == count - 1 + if a != 0 then 0 else 1
  {
    hide HeadLines, ChainLines, TailLines, FnLines, Get, Step, Run, Embedded, Resolve, Taken, Direct, Wrap;
    FnParts(t, prog, s.pc, count);
    HeadAt(t, prog, s.pc, count);
    HeadRuns(t, prog, s, count);
    var s1 := Run(prog, s, 4);
    var s2 := StepMark(prog, s1, s.pc + 4);
    RunOneMore(prog, s, 4);
    TakenAdd(prog, s, 4, 1);
    TakenOne(prog, s1);
    NotABranch(prog, s1);
    ChainRuns(t, prog, s2, count, count - 1);
    var s3 := Run(prog, s2, 2 * (count - 1));
    CloseIndirect(t, prog, s3, count, s.pc);
    RunAdd(prog, s, 5, 2 * (count - 1));
    RunAdd(prog, s, 5 + 2 * (count - 1), 3);
    TakenAdd(prog, s, 5, 2 * (count - 1));
    TakenAdd(prog, s, 5 + 2 * (count - 1), 3);
  }

  function Jumps(top: nat, n: nat): seq<Event> {
    if n == 0 then [] else [Jumped(top)] + Jumps(top, n - 1)
  }

  lemma PreparedTrans(s: State, s': State, e: State, top: nat)
    requires Prepared(s, s', top) && Prepared(s', e, top)
    ensures Prepared(s, e, top)
  {
    hide Get;
  }

  /** m iterations: m * (count - 1) + 1 taken branches and m - 1 indirect jumps. */
  lemma {:induction false} IndirectLoop(t: Btb, prog: Program, s: State, count: nat, m: nat) returns (k: nat)
    requires count >= 1 && !Direct(t, count) && Embedded(prog, s.pc, FnLines(t, count)) && s.ok && |prog| < TWO64
    requires 1 <= m <= TWO64 && Get(s, X0) == Wrap(m)
    ensures var e := Run(prog, s, k);
      && Prepared(s, e, s.pc) && Get(e, X0) == 0 && e.pc == s.pc + 7 + 2 * count
      && e.log == s.log + Jumps(s.pc, m - 1) && Taken(prog, s, k) == m * (count - 1) + 1
    decreases m
  {
    hide FnLines, Get, Run, Embedded, Taken, Direct, Wrap;
    IndirectIteration(t, prog, s, count);
    CountDown(m);
    var k1 := 5 + 2 * (count - 1) + 3;
    var s1 := Run(prog, s, k1);
    if m == 1 {
      k := k1;
    } else {
      PreparedOk(s, s1, s.pc);
      var k2 := IndirectLoop(t, prog, s1, count, m - 1);
      RunAdd(prog, s, k1, k2);
      TakenAdd(prog, s, k1, k2);
      PreparedTrans(s, s1, Run(prog, s1, k2), s.pc);
      k := k1 + k2;
      assert m * (count - 1) == (m - 1) * (count - 1) + (count - 1);
    }
  }

  lemma PreparedOk(s: State, e: State, top: nat)
    requires Prepared(s, e, top)
    ensures e.ok && Get(e, X1) == 1 && Get(e, X30) == Get(s, X30)
  {
  }

  // ----- whole calls

  /** What a call with m iterations does: it returns in order, and of its count branches per iteration all but the last
      one back are taken. */
  ghost predicate Completed(t: Btb, prog: Program, s: State, k: nat, count: nat, m: nat)
    requires m >= 1
  {
    var e := Run(prog, s, k);
    && Prepared(s, e, s.pc) && Get(e, X0) == 0 && e.pc == Get(s, X30)
    && if Direct(t, count) then
         e.log == s.log + [Returned(Get(s, X30))] && Taken(prog, s, k) == m * count - 1
       else
         e.log == s.log + Jumps(s.pc, m - 1) + [Returned(Get(s, X30))] && Taken(prog, s, k) == m * (count - 1) + 1
  }

  lemma ReturnRuns(prog: Program, s: State, s2: State)
    requires s2.pc < |prog| && prog[s2.pc] == Op(ReturnLink(X30)) && Prepared(s, s2, s.pc)
    ensures var e := Run(prog, s2, 1);
      && Prepared(s, e, s.pc) && Get(e, X0) == Get(s2, X0) && e.pc == Get(s, X30) && e.log == s2.log + [Returned(Get(s, X30))]
      && Taken(prog, s2, 1) == 0
  {
    hide Get, Step, Taken, TakesBranch;
    var e := StepReturnLink(prog, s2, s2.pc, X30);
    RunSingle(prog, s2);
    TakenOne(prog, s2);
    NotABranch(prog, s2);
  }

  lemma FunctionRuns(t: Btb, prog: Program, s: State, count: nat, m: nat) returns (k: nat)
    requires count >= 1 && Embedded(prog, s.pc, FnLines(t, count)) && s.ok && |prog| < TWO64
    requires 1 <= m <= TWO64 && Get(s, X0) == Wrap(m)
    ensures Completed(t, prog, s, k, count, m)
  {
    hide FnLines, Get, Run, Embedded, Direct, Wrap, Completed;
    if Direct(t, count) {
      k := DirectCall(t, prog, s, count, m);
    } else {
      k := IndirectCall(t, prog, s, count, m);
    }
  }

  lemma DirectCall(t: Btb, prog: Program, s: State, count: nat, m: nat) returns (k: nat)
    requires count >= 1 && Direct(t, count) && Embedded(prog, s.pc, FnLines(t, count)) && s.ok && |prog| < TWO64
    requires 1 <= m <= TWO64 && Get(s, X0) == Wrap(m)
    ensures Completed(t, prog, s, k, count, m)
  {
    hide FnLines, HeadLines, ChainLines, TailLines, Get, Run, Embedded, Taken, Direct, Wrap, Resolve, Prepared, OnlyX0;
    FnParts(t, prog, s.pc, count);
    TailAt(t, prog, s.pc + 3 + 2 * count, count);
    TailSize(t, count);
    HeadRuns(t, prog, s, count);
    var s1 := Run(prog, s, 4);
    PreparedOk(s, s1, s.pc);
    var k1 := DirectLoop(t, prog, s.pc, s1, count, m);
    var s2 := Run(prog, s1, k1);
    PreparedThen(s, s1, s2);
    ReturnRuns(prog, s, s2);
    RunAdd(prog, s, 4, k1);
    RunAdd(prog, s, 4 + k1, 1);
    TakenAdd(prog, s, 4, k1);
    TakenAdd(prog, s, 4 + k1, 1);
    k := 4 + k1 + 1;
  }

  lemma IndirectCall(t: Btb, prog: Program, s: State, count: nat, m: nat) returns (k: nat)
    requires count >= 1 && !Direct(t, count) && Embedded(prog, s.pc, FnLines(t, count)) && s.ok && |prog| < TWO64
    requires 1 <= m <= TWO64 && Get(s, X0) == Wrap(m)
    ensures Completed(t, prog, s, k, count, m)
  {
    hide FnLines, HeadLines, ChainLines, TailLines, Get, Run, Embedded, Taken, Direct, Wrap, Resolve, Prepared;
    FnParts(t, prog, s.pc, count);
    TailAt(t, prog, s.pc + 3 + 2 * count, count);
    TailSize(t, count);
    var k1 := IndirectLoop(t, prog, s, count, m);
    var s2 := Run(prog, s, k1);
    PreparedOk(s, s2, s.pc);
    ReturnRuns(prog, s, s2);
    RunAdd(prog, s, k1, 1);
    TakenAdd(prog, s, k1, 1);
    k := k1 + 1;
  }

  lemma TailSize(t: Btb, count: nat)
    ensures |TailLines(t, count)| == if Direct(t, count) then 3 else 5
  {
  }

  lemma PreparedThen(s: State, s1: State, e: State)
    requires Prepared(s, s1, s.pc) && OnlyX0(s1, e)
    ensures Prepared(s, e, s.pc) && e.ok
  {
    hide Get;
  }
}
