/** Running the table-fill part of the RISC-V indirect-branch test. */
module IndirectFill {
  import opened Words
  import opened Listing
  import opened Machine
  import opened Symbols
  import opened Riscv
  import opened RiscvFrame
  import opened IndirectText
  import opened JumpTables
  import opened Trace

  lemma FillOneLines(prog: Program, p: nat, bc: nat, tc: nat, b: nat, t: nat)
    requires Embedded(prog, p, FillOne(bc, tc, b, t))
    ensures p + 5 <= |prog|
    ensures prog[p] == Op(La(T1, IndirectTarget(bc, tc, b, t))) && prog[p + 1] == Op(Slli(T4, T5, 3))
    ensures prog[p + 2] == Op(Add(T4, T6, T4)) && prog[p + 3] == Op(Sd(T1, 0, T4)) && prog[p + 4] == Op(Addi(T5, T5, 1))
  {
    hide Embedded;
    var f := FillOne(bc, tc, b, t);
    EmbedLines(prog, p, f);
    assert f[0].Op? && f[1].Op? && f[2].Op? && f[3].Op? && f[4].Op?;
  }

  /** Stores the address q of label (b, t) at entry t of the table. */
  lemma FillOneRuns(prog: Program, p: nat, bc: nat, tc: nat, b: nat, t: nat, s: State, table: nat, q: Word)
    requires Embedded(prog, p, FillOne(bc, tc, b, t)) && Resolve(prog, IndirectTarget(bc, tc, b, t)) == Some(q)
    requires s.ok && s.pc == p && Get(s, T5) == t && Get(s, T6) == table && table + 8 * t + 8 <= TWO64
    ensures var e := Run(prog, s, 5);
      && Keeps(s, e, T1, T4, T5, T5, T5) && e.pc == p + 5 && e.log == s.log && Get(e, T5) == t + 1
      && e.mem == Store64(s.mem, table + 8 * t, q)
  {
    hide FillOne, Step, Exec, Get, Embedded, Store64, Resolve, XorWord, BitAnd, Pow2, Load32;
    FillOneLines(prog, p, bc, tc, b, t);
    var s1 := StepLoadLabel(prog, s, p, T1, IndirectTarget(bc, tc, b, t), q);
    var s2 := StepSlli3(prog, s1, p + 1, T4, T5, 8 * t);
    var s3 := StepAdd(prog, s2, p + 2, T4, T6, T4, table + 8 * t);
    var s4 := StepSd(prog, s3, p + 3, T1, T4, 0, table + 8 * t);
    var s5 := StepAddI(prog, s4, p + 4, T5, T5, 1, t + 1);
  }

  /** What the first n entries of a fill leave. */
  ghost predicate Entries(prog: Program, s: State, e: State, table: nat, bc: nat, tc: nat, b: nat, n: nat) {
    && Keeps(s, e, T1, T4, T5, T5, T5) && e.log == s.log && Get(e, T5) == n
    && TableHas(prog, e.mem, table, bc, tc, b, n) && AgreeOutside(s.mem, e.mem, table, table + 8 * tc)
  }

  /** The fill loop of one table, unrolled: n entries written, nothing else in memory touched. */
  lemma {:induction false} FillsRun(prog: Program, p: nat, bc: nat, tc: nat, b: nat, n: nat, s: State, table: nat)
    requires Embedded(prog, p, Concat(FillPieces(bc, tc, b, tc))) && n <= tc && Defined(prog, bc, tc, b)
    requires s.ok && s.pc == p && Get(s, T5) == 0 && Get(s, T6) == table && table + 8 * tc <= TWO64
    ensures var e := Run(prog, s, 5 * n);
      Entries(prog, s, e, table, bc, tc, b, n) && e.pc == p + |Concat(FillPieces(bc, tc, b, tc)[..n])|
    ensures |Concat(FillPieces(bc, tc, b, tc)[..n])| == 5 * n
    decreases n
  {
    hide Run, Get, Embedded, FillOne, Defined, Entries;
    var pieces := FillPieces(bc, tc, b, tc);
    if n == 0 {
      RunNone(prog, s);
      assert pieces[..0] == [];
      NoEntriesYet(prog, s, table, bc, tc, b);
    } else {
      FillsRun(prog, p, bc, tc, b, n - 1, s, table);
      PieceAt(prog, p, pieces, n - 1);
      assert pieces[n - 1] == FillOne(bc, tc, b, n - 1);
      EntryRuns(prog, bc, tc, b, n, s, Run(prog, s, 5 * (n - 1)), table);
      RunAdd(prog, s, 5 * (n - 1), 5);
    }
  }

  lemma NoEntriesYet(prog: Program, s: State, table: nat, bc: nat, tc: nat, b: nat)
    requires s.ok && Get(s, T5) == 0
    ensures Entries(prog, s, s, table, bc, tc, b, 0)
  {
    hide Get, TableHas, AgreeOutside;
    NoEntries(prog, s.mem, table, bc, tc, b);
  }

  /** One more entry. */
  lemma EntryRuns(prog: Program, bc: nat, tc: nat, b: nat, n: nat, s: State, e: State, table: nat)
    requires 1 <= n <= tc && Embedded(prog, e.pc, FillOne(bc, tc, b, n - 1)) && Defined(prog, bc, tc, b)
    requires Entries(prog, s, e, table, bc, tc, b, n - 1) && Get(s, T6) == table && table + 8 * tc <= TWO64
    ensures var e' := Run(prog, e, 5); Entries(prog, s, e', table, bc, tc, b, n) && e'.pc == e.pc + 5
  {
    hide Run, Get, Embedded, Store64, Resolve, FillOne, TableHas, AgreeOutside, Defined, LineOf;
    var q := LabelDefined(prog, bc, tc, b, n - 1);
    FillOneRuns(prog, e.pc, bc, tc, b, n - 1, e, table, q);
    TableExtended(prog, e.mem, table, bc, tc, b, n - 1, q);
    AgreeWider(s.mem, e.mem, Store64(e.mem, table + 8 * (n - 1), q), table, tc, n - 1);
  }

  lemma NoEntries(prog: Program, m: Memory, table: nat, bc: nat, tc: nat, b: nat)
    ensures TableHas(prog, m, table, bc, tc, b, 0) && AgreeOutside(m, m, table, table + 8 * tc)
  {
  }

  lemma LabelDefined(prog: Program, bc: nat, tc: nat, b: nat, t: nat) returns (q: Word)
    requires Defined(prog, bc, tc, b) && t < tc
    ensures Resolve(prog, IndirectTarget(bc, tc, b, t)) == Some(q) && LineOf(prog, IndirectTarget(bc, tc, b, t)) == q
  {
    hide Resolve;
    q := LineOf(prog, IndirectTarget(bc, tc, b, t));
  }

  lemma AgreeWider(m0: Memory, m: Memory, m': Memory, table: nat, tc: nat, t: nat)
    requires AgreeOutside(m0, m, table, table + 8 * tc) && AgreeOutside(m, m', table + 8 * t, table + 8 * t + 8) && t < tc
    ensures AgreeOutside(m0, m', table, table + 8 * tc)
  {
    hide ByteAt;
  }

  lemma FillStartLines(prog: Program, p: nat)
    requires Embedded(prog, p, FillStart())
    ensures p + 4 <= |prog|
    ensures prog[p] == Op(Slli(T5, T3, 3)) && prog[p + 1] == Op(Add(T5, A3, T5))
    ensures prog[p + 2] == Op(Ld(T6, 0, T5)) && prog[p + 3] == Op(Li(T5, 0))
  {
    hide Embedded;
    var f := FillStart();
    EmbedLines(prog, p, f);
    assert f[0].Op? && f[1].Op? && f[2].Op? && f[3].Op?;
  }

  lemma FillStartRuns(prog: Program, p: nat, b: nat, s: State, tableArr: nat, table: Word)
    requires Embedded(prog, p, FillStart()) && s.ok && s.pc == p
    requires Get(s, T3) == b && Get(s, A3) == tableArr && tableArr + 8 * b + 8 <= TWO64
    requires Load64(s.mem, tableArr + 8 * b) == table
    ensures var e := Run(prog, s, 4);
      && Keeps(s, e, T5, T6, T6, T6, T6) && e.pc == p + 4 && e.log == s.log && e.mem == s.mem
      && Get(e, T5) == 0 && Get(e, T6) == table
  {
    hide FillStart, Step, Exec, Get, Embedded, Load64, Resolve, XorWord, BitAnd, Pow2, Load32;
    FillStartLines(prog, p);
    var s1 := StepSlli3(prog, s, p, T5, T3, 8 * b);
    var s2 := StepAdd(prog, s1, p + 1, T5, A3, T5, tableArr + 8 * b);
    var s3 := StepLd(prog, s2, p + 2, T6, T5, 0, tableArr + 8 * b, table);
    var s4 := StepLi(prog, s3, p + 3, T5, 0);
  }

  lemma FillEndRuns(prog: Program, p: nat, b: nat, s: State)
    requires Embedded(prog, p, FillEnd()) && s.ok && s.pc == p && Get(s, T3) == b && b + 1 < TWO64
    ensures var e := Run(prog, s, 2);
      && Keeps(s, e, T3, T5, T5, T5, T5) && e.pc == p + 2 && e.log == s.log && e.mem == s.mem
      && Get(e, T5) == 0 && Get(e, T3) == b + 1
  {
    hide Step, Exec, Get, Embedded, Resolve, XorWord, BitAnd, Pow2, Load32;
    var f := FillEnd();
    EmbedLines(prog, p, f);
    assert f[0].Op? && f[1].Op?;
    var s1 := StepXorSelf(prog, s, p, T5, T5);
    var s2 := StepAddI(prog, s1, p + 1, T3, T3, 1, b + 1);
  }

  lemma FillParts(prog: Program, p: nat, bc: nat, tc: nat, b: nat)
    requires Embedded(prog, p, Fill(bc, tc, b))
    ensures var middle := Concat(FillPieces(bc, tc, b, tc));
      && Embedded(prog, p, FillStart()) && Embedded(prog, p + 4, middle) && Embedded(prog, p + 4 + |middle|, FillEnd())
      && |Fill(bc, tc, b)| == 6 + |middle|
  {
    hide Embedded, FillStart, FillEnd, FillPieces, Concat;
    var start, middle, end := FillStart(), Concat(FillPieces(bc, tc, b, tc)), FillEnd();
    assert Fill(bc, tc, b) == [] + start + (middle + end) == start + middle + end == (start + middle) + end + [];
    EmbedPart(prog, p, [], start, middle + end);
    EmbedPart(prog, p, start, middle, end);
    EmbedPart(prog, p, start + middle, end, []);
  }

  /** The fill of branch b's table. */
  lemma FillRuns(prog: Program, p: nat, bc: nat, tc: nat, b: nat, s: State, tableArr: nat, table: Word) returns (k: nat)
    requires Embedded(prog, p, Fill(bc, tc, b)) && Defined(prog, bc, tc, b)
    requires s.ok && s.pc == p && Get(s, T3) == b && Get(s, A3) == tableArr && tableArr + 8 * b + 8 <= TWO64
    requires Load64(s.mem, tableArr + 8 * b) == table && table + 8 * tc <= TWO64
    ensures var e := Run(prog, s, k);
      && Keeps(s, e, T1, T3, T4, T5, T6) && e.pc == p + |Fill(bc, tc, b)| && e.log == s.log
      && Get(e, T3) == b + 1 && Get(e, T5) == 0
      && TableHas(prog, e.mem, table, bc, tc, b, tc) && AgreeOutside(s.mem, e.mem, table, table + 8 * tc)
    ensures k == |Fill(bc, tc, b)|
  {
    hide Fill, Run, Step, Exec, Get, Embedded, Load64, FillStart, FillEnd, FillPieces, Concat, AgreeOutside, TableHas, Defined, XorWord, BitAnd, Pow2, Load32;
    var middle := Concat(FillPieces(bc, tc, b, tc));
    FillParts(prog, p, bc, tc, b);
    FillStartRuns(prog, p, b, s, tableArr, table);
    var s1 := Run(prog, s, 4);
    FillsRun(prog, p + 4, bc, tc, b, tc, s1, table);
    var s2 := Run(prog, s1, 5 * tc);
    assert FillPieces(bc, tc, b, tc)[..tc] == FillPieces(bc, tc, b, tc);
    FillEndRuns(prog, p + 4 + |middle|, b, s2);
    RunAdd(prog, s1, 5 * tc, 2);
    RunAdd(prog, s, 4, 5 * tc + 2);
    k := 4 + (5 * tc + 2);
  }

  /** What the fills up to branch n leave. */
  ghost predicate FilledUpTo(prog: Program, s: State, e: State, x: Tables, bc: nat, tc: nat, len: nat, lo: nat, hi: nat, n: nat)
    requires n <= |x.tables|
  {
    && Keeps(s, e, T1, T3, T4, T5, T6) && e.log == s.log && Get(e, T3) == n && Get(e, T5) == 0
    && TablesFilled(prog, e.mem, x, bc, tc, n) && Inputs(e.mem, x, bc, len)
    && Agree(s.mem, e.mem, lo, hi)
  }

  /** All tables filled: every entry (b, t) holds the address of label (b, t), the inputs and the frame are intact. */
  lemma {:induction false} FillAllRuns(prog: Program, p: nat, x: Tables, bc: nat, tc: nat, len: nat, lo: nat, hi: nat, n: nat, s: State)
    returns (k: nat)
    requires Embedded(prog, p, Concat(FillAll(bc, tc, bc))) && n <= bc && forall b :: 0 <= b < bc ==> Defined(prog, bc, tc, b)
    requires WellPlaced(x, bc, tc, len, lo, hi) && Inputs(s.mem, x, bc, len)
    requires s.ok && s.pc == p && Get(s, T3) == 0 && Get(s, T5) == 0 && Get(s, A3) == x.tableArr
    ensures |x.tables| == bc
    ensures var e := Run(prog, s, k);
      FilledUpTo(prog, s, e, x, bc, tc, len, lo, hi, n) && e.pc == p + |Concat(FillAll(bc, tc, bc)[..n])|
    ensures k == |Concat(FillAll(bc, tc, bc)[..n])|
    decreases n
  {
    hide Run, Step, Exec, Get, Embedded, Fill, WellPlaced, Inputs, Defined, FilledUpTo;
    TableCount(x, bc, tc, len, lo, hi);
    var pieces := FillAll(bc, tc, bc);
    if n == 0 {
      k := 0;
      RunNone(prog, s);
      assert pieces[..0] == [];
      NoneFilled(prog, s, x, bc, tc, len, lo, hi);
    } else {
      var k1 := FillAllRuns(prog, p, x, bc, tc, len, lo, hi, n - 1, s);
      PieceAt(prog, p, pieces, n - 1);
      var k2 := FillNextRuns(prog, x, bc, tc, len, lo, hi, n, s, Run(prog, s, k1));
      RunAdd(prog, s, k1, k2);
      k := k1 + k2;
    }
  }

  /** Nothing branches while the tables are filled. */
  lemma FillAllOutcomes(prog: Program, s: State, bc: nat, tc: nat)
    requires Embedded(prog, s.pc, Concat(FillAll(bc, tc, bc))) && s.ok && forall b :: 0 <= b < bc ==> Defined(prog, bc, tc, b)
    ensures Outcomes(prog, s, |Concat(FillAll(bc, tc, bc))|) == []
  {
    hide Run, Embedded, Fill, NoTransfers, Falling, Concat, Defined;
    var pieces := FillAll(bc, tc, bc);
    forall b | 0 <= b < bc
      ensures Falling(prog, pieces[b])
    {
      FillFalls(prog, bc, tc, b);
    }
    ConcatFalls(prog, pieces);
    TextFalls(prog, s.pc, Concat(pieces));
    BlockOutcomes(prog, s, |Concat(pieces)|);
  }

  lemma FillFalls(prog: Program, bc: nat, tc: nat, b: nat)
    requires Defined(prog, bc, tc, b)
    ensures Falling(prog, Fill(bc, tc, b))
  {
    hide Resolve, Concat, FillOne, Falling, FillStart, FillEnd, Defined;
    var pieces := FillPieces(bc, tc, b, tc);
    forall t | 0 <= t < tc
      ensures Falling(prog, pieces[t])
    {
      FillOneFalls(prog, bc, tc, b, t);
    }
    ConcatFalls(prog, pieces);
    EndsFall(prog);
    FallingAppend(prog, FillStart(), Concat(pieces));
    FallingAppend(prog, FillStart() + Concat(pieces), FillEnd());
  }

  lemma FillOneFalls(prog: Program, bc: nat, tc: nat, b: nat, t: nat)
    requires Defined(prog, bc, tc, b) && t < tc
    ensures Falling(prog, FillOne(bc, tc, b, t))
  {
    hide Resolve;
    assert IndirectTarget(bc, tc, b, t).index == t;
  }

  lemma EndsFall(prog: Program)
    ensures Falling(prog, FillStart()) && Falling(prog, FillEnd())
  {
  }

  lemma TableCount(x: Tables, bc: nat, tc: nat, len: nat, lo: nat, hi: nat)
    requires WellPlaced(x, bc, tc, len, lo, hi)
    ensures |x.tables| == bc
  {
  }

  lemma NoneFilled(prog: Program, s: State, x: Tables, bc: nat, tc: nat, len: nat, lo: nat, hi: nat)
    requires s.ok && Get(s, T3) == 0 && Get(s, T5) == 0 && Inputs(s.mem, x, bc, len)
    ensures FilledUpTo(prog, s, s, x, bc, tc, len, lo, hi, 0)
  {
    hide Get, Inputs;
  }

  /** One more table. */
  lemma FillNextRuns(prog: Program, x: Tables, bc: nat, tc: nat, len: nat, lo: nat, hi: nat, n: nat, s: State, e: State)
    returns (k: nat)
    requires WellPlaced(x, bc, tc, len, lo, hi) && 1 <= n <= bc == |x.tables| && Get(s, A3) == x.tableArr
    requires FilledUpTo(prog, s, e, x, bc, tc, len, lo, hi, n - 1)
    requires Embedded(prog, e.pc, Fill(bc, tc, n - 1)) && Defined(prog, bc, tc, n - 1)
    ensures var e' := Run(prog, e, k);
      FilledUpTo(prog, s, e', x, bc, tc, len, lo, hi, n) && e'.pc == e.pc + |Fill(bc, tc, n - 1)|
    ensures k == |Fill(bc, tc, n - 1)|
  {
    hide Run, Get, Embedded, Load64, Fill, WellPlaced, Inputs, Defined, TableHas, TablesFilled, AgreeOutside, Agree;
    TablePointer(e.mem, x, bc, tc, len, lo, hi, n - 1);
    k := FillRuns(prog, e.pc, bc, tc, n - 1, e, x.tableArr, x.tables[n - 1]);
    FillKeepsRest(prog, e.mem, Run(prog, e, k).mem, s.mem, x, bc, tc, len, lo, hi, n);
  }

  lemma TablePointer(m: Memory, x: Tables, bc: nat, tc: nat, len: nat, lo: nat, hi: nat, b: nat)
    requires WellPlaced(x, bc, tc, len, lo, hi) && Inputs(m, x, bc, len) && b < bc
    ensures Load64(m, x.tableArr + 8 * b) == x.tables[b] && x.tableArr + 8 * b + 8 <= TWO64 && x.tables[b] + 8 * tc <= TWO64
  {
    hide Load64;
  }

  lemma FillKeepsRest(prog: Program, m: Memory, m': Memory, m0: Memory, x: Tables, bc: nat, tc: nat, len: nat, lo: nat, hi: nat, n: nat)
    requires WellPlaced(x, bc, tc, len, lo, hi) && Inputs(m, x, bc, len) && 1 <= n <= bc
    requires TablesFilled(prog, m, x, bc, tc, n - 1) && Agree(m0, m, lo, hi)
    requires TableHas(prog, m', x.tables[n - 1], bc, tc, n - 1, tc)
    requires AgreeOutside(m, m', x.tables[n - 1], x.tables[n - 1] + 8 * tc)
    ensures TablesFilled(prog, m', x, bc, tc, n) && Inputs(m', x, bc, len) && Agree(m0, m', lo, hi)
  {
    hide Inputs, TableHas;
    InputsKept(m, m', x, bc, len, x.tables[n - 1], 8 * tc);
    forall b | 0 <= b < n - 1
      ensures TableHas(prog, m', x.tables[b], bc, tc, b, tc)
    {
      TableKept(prog, m, m', x.tables[b], bc, tc, b, tc, x.tables[n - 1], 8 * tc);
    }
  }
}
