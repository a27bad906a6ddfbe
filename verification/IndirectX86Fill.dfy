/** Running the table-fill part of the x86 indirect-branch test. */
module IndirectX86Fill {
  import opened Words
  import opened Listing
  import opened Machine
  import opened Symbols
  import opened JumpTables
  import opened IndirectX86Text
  import opened Trace
  import IndirectFill

  /** The address base + scale * index. */
  lemma Indexed(s: State, base: Reg, index: Reg, ea: Word)
    ensures Get(s, base) + 8 * Get(s, index) == ea ==> Effective(s, Address(base, R(index), By8, 0)) == ea
    ensures Get(s, base) + 4 * Get(s, index) == ea ==> Effective(s, Address(base, R(index), By4, 0)) == ea
  {
    hide Get;
  }

  lemma IncOne(x: Word, y: Word)
    requires x + 1 == y
    ensures Eval(Plus, x, Wrap(1)) == y
  {
  }

  lemma XorZero(x: Word)
    ensures Eval(ExOr, x, x) == 0
  {
    XorWordSelf(x);
  }

  /** inc r, without wrapping. */
  lemma StepInc(prog: Program, s: State, p: nat, r: Reg, v: Word) returns (e: State)
    requires Ready(prog, s, p, Alu(r, Plus, R(r), I(1), true)) && Get(s, r) + 1 == v
    ensures e == Step(prog, s) && Wrote(s, e, r, v, p + 1) && e.mem == s.mem && e.log == s.log
  {
    hide Step, Get, Eval;
    IncOne(Get(s, r), v);
    e := StepFlags(prog, s, p, r, Plus, R(r), I(1), v);
  }

  /** xor r, r. */
  lemma StepClear(prog: Program, s: State, p: nat, r: Reg) returns (e: State)
    requires Ready(prog, s, p, Alu(r, ExOr, R(r), R(r), true))
    ensures e == Step(prog, s) && Wrote(s, e, r, 0, p + 1) && e.mem == s.mem && e.log == s.log
  {
    hide Step, Get, Eval;
    XorZero(Get(s, r));
    e := StepFlags(prog, s, p, r, ExOr, R(r), R(r), 0);
  }

  lemma FillOneLines(prog: Program, p: nat, bc: nat, tc: nat, b: nat, t: nat)
    requires Embedded(prog, p, FillOne(bc, tc, b, t))
    ensures p + 3 <= |prog| && prog[p] == Op(LoadLabel(Rax, IndirectTarget(bc, tc, b, t)))
    ensures prog[p + 1] == Op(Store(Rax, Address(R15, R(Rbx), By8, 0))) && prog[p + 2] == Op(Alu(Rbx, Plus, R(Rbx), I(1), true))
  {
    hide Embedded;
    var f := FillOne(bc, tc, b, t);
    EmbedLines(prog, p, f);
    assert f[0].Op? && f[1].Op? && f[2].Op?;
  }

  /** Stores the address q of label (b, t) at entry t of the table. */
  lemma FillOneRuns(prog: Program, p: nat, bc: nat, tc: nat, b: nat, t: nat, s: State, table: nat, q: Word)
    requires Embedded(prog, p, FillOne(bc, tc, b, t)) && Resolve(prog, IndirectTarget(bc, tc, b, t)) == Some(q)
    requires s.ok && s.pc == p && Get(s, Rbx) == t && Get(s, R15) == table && table + 8 * t + 8 <= TWO64
    ensures var e := Run(prog, s, 3);
      && Keeps(s, e, Rax, Rbx, Rbx, Rbx, Rbx) && e.pc == p + 3 && e.log == s.log && Get(e, Rbx) == t + 1
      && e.mem == Store64(s.mem, table + 8 * t, q)
  {
    hide FillOne, Step, Get, Embedded, Store64, Resolve, Effective;
    FillOneLines(prog, p, bc, tc, b, t);
    var s1 := StepLoadLabel(prog, s, p, Rax, IndirectTarget(bc, tc, b, t), q);
    Indexed(s1, R15, Rbx, table + 8 * t);
    var s2 := StepStore(prog, s1, p + 1, Rax, Address(R15, R(Rbx), By8, 0), table + 8 * t);
    var s3 := StepInc(prog, s2, p + 2, Rbx, t + 1);
  }

  /** What the first n entries of a fill leave. */
  ghost predicate Entries(prog: Program, s: State, e: State, table: nat, bc: nat, tc: nat, b: nat, n: nat) {
    && Keeps(s, e, Rax, Rbx, Rbx, Rbx, Rbx) && e.log == s.log && Get(e, Rbx) == n
    && TableHas(prog, e.mem, table, bc, tc, b, n) && AgreeOutside(s.mem, e.mem, table, table + 8 * tc)
  }

  /** The fill loop of one table, unrolled: n entries written, nothing else in memory touched. */
  lemma {:induction false} FillsRun(prog: Program, p: nat, bc: nat, tc: nat, b: nat, n: nat, s: State, table: nat)
    requires Embedded(prog, p, Concat(FillPieces(bc, tc, b, tc))) && n <= tc && Defined(prog, bc, tc, b)
    requires s.ok && s.pc == p && Get(s, Rbx) == 0 && Get(s, R15) == table && table + 8 * tc <= TWO64
    ensures var e := Run(prog, s, 3 * n);
      Entries(prog, s, e, table, bc, tc, b, n) && e.pc == p + |Concat(FillPieces(bc, tc, b, tc)[..n])|
    ensures |Concat(FillPieces(bc, tc, b, tc)[..n])| == 3 * n
    decreases n
  {
    hide Run, Get, Embedded, FillOne, Defined, Entries;
    var pieces := FillPieces(bc, tc, b, tc);
    if n == 0 {
      RunNone(prog, s);
      assert pieces[..0] == [];
      NoEntriesYet(prog, s, table, bc, tc, b);
    } else {
      FillsRun(prog, p, bc, tc, b, n - 1, s, table);
      PieceAt(prog, p, pieces, n - 1);
      assert pieces[n - 1] == FillOne(bc, tc, b, n - 1);
      EntryRuns(prog, bc, tc, b, n, s, Run(prog, s, 3 * (n - 1)), table);
      RunAdd(prog, s, 3 * (n - 1), 3);
    }
  }

  lemma NoEntriesYet(prog: Program, s: State, table: nat, bc: nat, tc: nat, b: nat)
    requires s.ok && Get(s, Rbx) == 0
    ensures Entries(prog, s, s, table, bc, tc, b, 0)
  {
    hide Get, TableHas, AgreeOutside;
    IndirectFill.NoEntries(prog, s.mem, table, bc, tc, b);
  }

  /** One more entry. */
  lemma EntryRuns(prog: Program, bc: nat, tc: nat, b: nat, n: nat, s: State, e: State, table: nat)
    requires 1 <= n <= tc && Embedded(prog, e.pc, FillOne(bc, tc, b, n - 1)) && Defined(prog, bc, tc, b)
    requires Entries(prog, s, e, table, bc, tc, b, n - 1) && Get(s, R15) == table && table + 8 * tc <= TWO64
    ensures var e' := Run(prog, e, 3); Entries(prog, s, e', table, bc, tc, b, n) && e'.pc == e.pc + 3
  {
    hide Run, Get, Embedded, Store64, Resolve, FillOne, TableHas, AgreeOutside, Defined, LineOf;
    var q := IndirectFill.LabelDefined(prog, bc, tc, b, n - 1);
    FillOneRuns(prog, e.pc, bc, tc, b, n - 1, e, table, q);
    TableExtended(prog, e.mem, table, bc, tc, b, n - 1, q);
    IndirectFill.AgreeWider(s.mem, e.mem, Store64(e.mem, table + 8 * (n - 1), q), table, tc, n - 1);
  }

  lemma FillEnds(prog: Program, p: nat, bc: nat, tc: nat, b: nat)
    requires Embedded(prog, p, Fill(bc, tc, b))
    ensures var m := |Concat(FillPieces(bc, tc, b, tc))|;
      && p + 3 + m <= |prog| && prog[p] == Op(Load(R15, Full, Address(Rcx, R(R9), By8, 0)))
      && Embedded(prog, p + 1, Concat(FillPieces(bc, tc, b, tc)))
      && prog[p + 1 + m] == Op(Alu(Rbx, ExOr, R(Rbx), R(Rbx), true)) && prog[p + 2 + m] == Op(Alu(R9, Plus, R(R9), I(1), true))
      && |Fill(bc, tc, b)| == 3 + m
  {
    hide Embedded, FillPieces, Concat;
    var start, middle, end := FillStart(), Concat(FillPieces(bc, tc, b, tc)), FillEnd();
    EmbedThree(prog, p, start, middle, end);
    EmbedLines(prog, p, start);
    EmbedLines(prog, p + 1 + |middle|, end);
    assert start[0].Op? && end[0].Op? && end[1].Op?;
  }

  /** The fill of branch b's table. */
  lemma FillRuns(prog: Program, p: nat, bc: nat, tc: nat, b: nat, s: State, tableArr: nat, table: Word) returns (k: nat)
    requires Embedded(prog, p, Fill(bc, tc, b)) && Defined(prog, bc, tc, b) && b + 1 < TWO64
    requires s.ok && s.pc == p && Get(s, R9) == b && Get(s, Rbx) == 0 && Get(s, Rcx) == tableArr && tableArr + 8 * b + 8 <= TWO64
    requires Load64(s.mem, tableArr + 8 * b) == table && table + 8 * tc <= TWO64
    ensures var e := Run(prog, s, k);
      && Keeps(s, e, Rax, Rbx, R9, R15, R15) && e.pc == p + |Fill(bc, tc, b)| && e.log == s.log
      && Get(e, R9) == b + 1 && Get(e, Rbx) == 0
      && TableHas(prog, e.mem, table, bc, tc, b, tc) && AgreeOutside(s.mem, e.mem, table, table + 8 * tc)
    ensures k == |Fill(bc, tc, b)|
  {
    hide Fill, Run, Step, Get, Embedded, Load64, FillPieces, Concat, AgreeOutside, TableHas, Defined, Effective;
    var m := |Concat(FillPieces(bc, tc, b, tc))|;
    FillEnds(prog, p, bc, tc, b);
    Indexed(s, Rcx, R9, tableArr + 8 * b);
    var s1 := StepLoad(prog, s, p, R15, Full, Address(Rcx, R(R9), By8, 0), tableArr + 8 * b, table);
    RunSingle(prog, s);
    FillsRun(prog, p + 1, bc, tc, b, tc, s1, table);
    WholeFills(bc, tc, b);
    var s2 := Run(prog, s1, 3 * tc);
    var s3 := StepClear(prog, s2, p + 1 + m, Rbx);
    var s4 := StepInc(prog, s3, p + 2 + m, R9, b + 1);
    RunSingle(prog, s2);
    RunOneMore(prog, s2, 1);
    RunAdd(prog, s1, 3 * tc, 2);
    RunAdd(prog, s, 1, 3 * tc + 2);
    k := 1 + (3 * tc + 2);
  }

  lemma WholeFills(bc: nat, tc: nat, b: nat)
    ensures FillPieces(bc, tc, b, tc)[..tc] == FillPieces(bc, tc, b, tc)
  {
  }

  /** What the fills up to branch n leave. */
  ghost predicate FilledUpTo(prog: Program, s: State, e: State, x: Tables, bc: nat, tc: nat, len: nat, lo: nat, hi: nat, n: nat)
    requires n <= |x.tables|
  {
    && Keeps(s, e, Rax, Rbx, R9, R15, R15) && e.log == s.log && Get(e, R9) == n && Get(e, Rbx) == 0
    && TablesFilled(prog, e.mem, x, bc, tc, n) && Inputs(e.mem, x, bc, len)
    && Agree(s.mem, e.mem, lo, hi)
  }

  /** All tables filled: every entry (b, t) holds the address of label (b, t), the inputs and the frame are intact. */
  lemma {:induction false} FillAllRuns(prog: Program, p: nat, x: Tables, bc: nat, tc: nat, len: nat, lo: nat, hi: nat, n: nat, s: State)
    returns (k: nat)
    requires Embedded(prog, p, Concat(FillAll(bc, tc, bc))) && n <= bc && bc < TWO64 && forall b :: 0 <= b < bc ==> Defined(prog, bc, tc, b)
    requires WellPlaced(x, bc, tc, len, lo, hi) && Inputs(s.mem, x, bc, len)
    requires s.ok && s.pc == p && Get(s, R9) == 0 && Get(s, Rbx) == 0 && Get(s, Rcx) == x.tableArr
    ensures |x.tables| == bc
    ensures var e := Run(prog, s, k);
      FilledUpTo(prog, s, e, x, bc, tc, len, lo, hi, n) && e.pc == p + |Concat(FillAll(bc, tc, bc)[..n])|
    ensures k == |Concat(FillAll(bc, tc, bc)[..n])|
    decreases n
  {
    hide Run, Get, Embedded, Fill, WellPlaced, Inputs, Defined, FilledUpTo;
    IndirectFill.TableCount(x, bc, tc, len, lo, hi);
    var pieces := FillAll(bc, tc, bc);
    if n == 0 {
      k := 0;
      RunNone(prog, s);
      assert pieces[..0] == [];
      NoneFilled(prog, s, x, bc, tc, len, lo, hi);
    } else {
      var k1 := FillAllRuns(prog, p, x, bc, tc, len, lo, hi, n - 1, s);
      PieceAt(prog, p, pieces, n - 1);
      var k2 := FillNextRuns(prog, x, bc, tc, len, lo, hi, n, s, Run(prog, s, k1));
      RunAdd(prog, s, k1, k2);
      k := k1 + k2;
    }
  }

  /** Nothing branches while the tables are filled. */
  lemma FillAllOutcomes(prog: Program, s: State, bc: nat, tc: nat)
    requires Embedded(prog, s.pc, Concat(FillAll(bc, tc, bc))) && s.ok && forall b :: 0 <= b < bc ==> Defined(prog, bc, tc, b)
    ensures Outcomes(prog, s, |Concat(FillAll(bc, tc, bc))|) == []
  {
    hide Run, Embedded, Fill, NoTransfers, Falling, Concat, Defined;
    var pieces := FillAll(bc, tc, bc);
    forall b | 0 <= b < bc
      ensures Falling(prog, pieces[b])
    {
      FillFalls(prog, bc, tc, b);
    }
    ConcatFalls(prog, pieces);
    TextFalls(prog, s.pc, Concat(pieces));
    BlockOutcomes(prog, s, |Concat(pieces)|);
  }

  lemma FillFalls(prog: Program, bc: nat, tc: nat, b: nat)
    requires Defined(prog, bc, tc, b)
    ensures Falling(prog, Fill(bc, tc, b))
  {
    hide Resolve, Concat, FillOne, Falling, FillStart, FillEnd, Defined;
    var pieces := FillPieces(bc, tc, b, tc);
    forall t | 0 <= t < tc
      ensures Falling(prog, pieces[t])
    {
      FillOneFalls(prog, bc, tc, b, t);
    }
    ConcatFalls(prog, pieces);
    EndsFall(prog);
    FallingAppend(prog, FillStart(), Concat(pieces));
    FallingAppend(prog, FillStart() + Concat(pieces), FillEnd());
  }

  lemma FillOneFalls(prog: Program, bc: nat, tc: nat, b: nat, t: nat)
    requires Defined(prog, bc, tc, b) && t < tc
    ensures Falling(prog, FillOne(bc, tc, b, t))
  {
    hide Resolve;
    assert IndirectTarget(bc, tc, b, t).index == t;
  }

  lemma EndsFall(prog: Program)
    ensures Falling(prog, FillStart()) && Falling(prog, FillEnd())
  {
  }

  lemma NoneFilled(prog: Program, s: State, x: Tables, bc: nat, tc: nat, len: nat, lo: nat, hi: nat)
    requires s.ok && Get(s, R9) == 0 && Get(s, Rbx) == 0 && Inputs(s.mem, x, bc, len)
    ensures FilledUpTo(prog, s, s, x, bc, tc, len, lo, hi, 0)
  {
    hide Get, Inputs;
  }

  /** One more table. */
  lemma FillNextRuns(prog: Program, x: Tables, bc: nat, tc: nat, len: nat, lo: nat, hi: nat, n: nat, s: State, e: State)
    returns (k: nat)
    requires WellPlaced(x, bc, tc, len, lo, hi) && 1 <= n <= bc == |x.tables| && n < TWO64 && Get(s, Rcx) == x.tableArr
    requires FilledUpTo(prog, s, e, x, bc, tc, len, lo, hi, n - 1)
    requires Embedded(prog, e.pc, Fill(bc, tc, n - 1)) && Defined(prog, bc, tc, n - 1)
    ensures var e' := Run(prog, e, k);
      FilledUpTo(prog, s, e', x, bc, tc, len, lo, hi, n) && e'.pc == e.pc + |Fill(bc, tc, n - 1)|
    ensures k == |Fill(bc, tc, n - 1)|
  {
    hide Run, Get, Embedded, Load64, Fill, WellPlaced, Inputs, Defined, TableHas, TablesFilled, AgreeOutside, Agree;
    IndirectFill.TablePointer(e.mem, x, bc, tc, len, lo, hi, n - 1);
    k := FillRuns(prog, e.pc, bc, tc, n - 1, e, x.tableArr, x.tables[n - 1]);
    IndirectFill.FillKeepsRest(prog, e.mem, Run(prog, e, k).mem, s.mem, x, bc, tc, len, lo, hi, n);
  }
}
