/** Running the loop of a throughput test whose texts compute, load and store without touching the counter. */
module ThroughputRun {
  import opened Words
  import opened Listing
  import opened Machine
  import opened Symbols
  import opened Trace
  import opened ThroughputText

  // ----- texts that write registers from a set only

  /** Where texts may store: anywhere, or at constant offsets from what a register holds. */
  datatype Places = Anywhere | AtOffsets(reg: Reg, offsets: set<int>)

  ghost predicate PlaceIn(x: Places, a: Address) {
    x.AtOffsets? ==> a == Address(x.reg, I(0), By1, a.offset) && a.offset in x.offsets
  }

  /** No control transfer and no push or pop; a register written is in w, a store's address in x. */
  ghost predicate Respects(w: set<Reg>, x: Places, i: Instr) {
    match i
    case Nop => true
    case Barrier => true
    case Compare(_, _, _) => true
    case Store(_, a) => PlaceIn(x, a)
    case Alu(rd, _, _, _, _) => rd in w
    case Select(rd, _, _) => rd in w
    case Load(rd, _, _) => rd in w
    case _ => false
  }

  ghost predicate TextRespects(w: set<Reg>, x: Places, text: Program) {
    forall i :: 0 <= i < |text| ==> text[i].Op? && Respects(w, x, text[i].instr)
  }

  ghost predicate BodyRespects(w: set<Reg>, x: Places, b: Body) {
    && TextRespects(w, x, b.preLoad1) && TextRespects(w, x, b.postLoad1) && TextRespects(w, x, b.preLoad2)
    && forall i :: 0 <= i < |b.fillers| ==> TextRespects(w, x, b.fillers[i])
  }

  /** Only registers in w changed. */
  ghost predicate Within(w: set<Reg>, s: State, e: State) {
    e.ok && e.low == s.low && e.log == s.log && forall r :: r !in w ==> Get(e, r) == Get(s, r)
  }

  lemma WithinTrans(w: set<Reg>, s: State, s': State, e: State)
    requires Within(w, s, s') && Within(w, s', e)
    ensures Within(w, s, e)
  {
    hide Get;
  }

  lemma WithinMore(w: set<Reg>, w': set<Reg>, s: State, e: State)
    requires Within(w, s, e) && w <= w'
    ensures Within(w', s, e)
  {
    hide Get;
  }

  lemma WithinSelf(w: set<Reg>, s: State)
    requires s.ok
    ensures Within(w, s, s)
  {
    hide Get;
  }

  /** Each of n lines is a mark or an instruction that respects w. */
  ghost predicate LinesRespect(prog: Program, p: nat, n: nat, w: set<Reg>, x: Places) {
    p + n <= |prog| && forall l :: p <= l < p + n && prog[l].Op? ==> Respects(w, x, prog[l].instr)
  }

  lemma LineStep(w: set<Reg>, x: Places, prog: Program, s: State)
    requires s.ok && s.pc < |prog| && (prog[s.pc].Op? ==> Respects(w, x, prog[s.pc].instr)) && Sp !in w
    ensures var e := Step(prog, s); Within(w, s, e) && e.pc == s.pc + 1
  {
    hide Eval, Effective, Fetch, Load64, Store64;
  }

  /** A block that respects w runs straight through, whatever the data, and changes registers in w only. */
  lemma {:induction false} BlockRuns(w: set<Reg>, x: Places, prog: Program, s: State, n: nat)
    requires s.ok && LinesRespect(prog, s.pc, n, w, x) && Sp !in w
    ensures Straight(prog, s, n) && Within(w, s, Run(prog, s, n)) && Run(prog, s, n).pc == s.pc + n
    decreases n
  {
    hide Step, Run, Respects, Straight, Within;
    RunNone(prog, s);
    if n == 0 {
      WithinSelf(w, s);
      StraightNone(prog, s);
    } else {
      BlockRuns(w, x, prog, s, n - 1);
      var e := Run(prog, s, n - 1);
      WithinOk(w, s, e);
      LineStep(w, x, prog, e);
      RunOneMore(prog, s, n - 1);
      WithinTrans(w, s, e, Step(prog, e));
      StraightOneMore(prog, s, n - 1);
    }
  }

  lemma WithinOk(w: set<Reg>, s: State, e: State)
    requires Within(w, s, e)
    ensures e.ok
  {
  }

  lemma StraightOneMore(prog: Program, s: State, n: nat)
    requires Straight(prog, s, n) && Run(prog, s, n + 1).pc == s.pc + n + 1
    ensures Straight(prog, s, n + 1)
  {
    hide Run;
  }

  /** At every step up to k only registers in w have changed since s. */
  ghost predicate AlwaysWithin(w: set<Reg>, prog: Program, s: State, k: nat) {
    forall j {:trigger Run(prog, s, j)} :: 0 <= j <= k ==> Within(w, s, Run(prog, s, j))
  }

  lemma BlockAlways(w: set<Reg>, x: Places, prog: Program, s: State, n: nat)
    requires s.ok && LinesRespect(prog, s.pc, n, w, x) && Sp !in w
    ensures AlwaysWithin(w, prog, s, n)
  {
    hide Run, Within, Respects;
    forall j {:trigger Run(prog, s, j)} | 0 <= j <= n
      ensures Within(w, s, Run(prog, s, j))
    {
      BlockRuns(w, x, prog, s, j);
    }
  }

  lemma AlwaysAdd(w: set<Reg>, prog: Program, s: State, a: nat, b: nat)
    requires AlwaysWithin(w, prog, s, a) && AlwaysWithin(w, prog, Run(prog, s, a), b)
    ensures AlwaysWithin(w, prog, s, a + b)
  {
    hide Run, Within;
    var t := Run(prog, s, a);
    forall j {:trigger Run(prog, s, j)} | 0 <= j <= a + b
      ensures Within(w, s, Run(prog, s, j))
    {
      if j > a {
        RunAdd(prog, s, a, j - a);
        WithinTrans(w, s, t, Run(prog, t, j - a));
      }
    }
  }

  // ----- steps that leave a part of memory alone

  /** The step from t leaves the bytes from lo to hi as they are. */
  ghost predicate Spares(prog: Program, t: State, lo: nat, hi: nat) {
    Agree(t.mem, Step(prog, t).mem, lo, hi)
  }

  ghost predicate AlwaysSpares(prog: Program, s: State, k: nat, lo: nat, hi: nat) {
    forall j {:trigger Run(prog, s, j)} :: 0 <= j < k ==> Spares(prog, Run(prog, s, j), lo, hi)
  }

  lemma {:induction false} SparedThrough(prog: Program, s: State, k: nat, lo: nat, hi: nat)
    requires AlwaysSpares(prog, s, k, lo, hi)
    ensures Agree(s.mem, Run(prog, s, k).mem, lo, hi)
    decreases k
  {
    hide Run, Step, ByteAt;
    RunNone(prog, s);
    if k != 0 {
      SparedThrough(prog, s, k - 1, lo, hi);
      RunOneMore(prog, s, k - 1);
    }
  }

  // ----- the lines of a loop

  lemma TextLines(w: set<Reg>, x: Places, prog: Program, p: nat, text: Program)
    requires Embedded(prog, p, text) && TextRespects(w, x, text)
    ensures LinesRespect(prog, p, |text|, w, x)
  {
    hide Embedded, Respects;
    EmbedLines(prog, p, text);
    forall l | p <= l < p + |text| && prog[l].Op?
      ensures Respects(w, x, prog[l].instr)
    {
      assert prog[l] == text[l - p];
    }
  }

  lemma LinesJoin(w: set<Reg>, x: Places, prog: Program, p: nat, a: nat, b: nat)
    requires LinesRespect(prog, p, a, w, x) && LinesRespect(prog, p + a, b, w, x)
    ensures LinesRespect(prog, p, a + b, w, x)
  {
    hide Respects;
  }

  lemma {:induction false} ConcatRespects(w: set<Reg>, x: Places, pieces: seq<Program>)
    requires forall i :: 0 <= i < |pieces| ==> TextRespects(w, x, pieces[i])
    ensures TextRespects(w, x, Concat(pieces))
    decreases |pieces|
  {
    hide Respects;
    if pieces != [] {
      ConcatRespects(w, x, pieces[..|pieces| - 1]);
    }
  }

  lemma FillersRespect(w: set<Reg>, x: Places, b: Body, n: nat)
    requires BodyRespects(w, x, b) && (n > 0 ==> b.fillers != [])
    ensures TextRespects(w, x, Concat(Pieces(b.fillers, n)))
  {
    hide TextRespects, Concat;
    var pieces := Pieces(b.fillers, n);
    forall i | 0 <= i < n
      ensures TextRespects(w, x, pieces[i])
    {
      assert pieces[i] == b.fillers[i % |b.fillers|];
    }
    ConcatRespects(w, x, pieces);
  }

  lemma FenceRespects(w: set<Reg>, x: Places, isa: Isa, fence: bool)
    ensures TextRespects(w, x, FenceLines(isa, fence))
  {
  }

  /** All lines of a loop but the last two respect w. */
  lemma LoopRespects(isa: Isa, w: set<Reg>, x: Places, prog: Program, p: nat, start: Symbol, b: Body, n: nat)
    requires (n > 0 ==> b.fillers != []) && Embedded(prog, p, CountedLoop(isa, start, b, n)) && BodyRespects(w, x, b)
    ensures |CountedLoop(isa, start, b, n)| >= 3 && LinesRespect(prog, p, |CountedLoop(isa, start, b, n)| - 2, w, x)
  {
    hide Embedded, CountedLoop, FenceLines, CountLines, Pieces, Concat, Resolve, TextRespects, LinesRespect;
    LoopParts(isa, prog, p, start, b, n);
    var c, f := Concat(Pieces(b.fillers, n)), FenceLines(isa, b.fence);
    FillersRespect(w, x, b, n);
    FenceRespects(w, x, isa, b.fence);
    LabelRespects(w, x, prog, p);
    WholePieces(b, n);
    TextLines(w, x, prog, p + 1, b.preLoad1);
    TextLines(w, x, prog, p + 1 + |b.preLoad1|, b.postLoad1);
    TextLines(w, x, prog, p + FillerOffset(b, n, 0), c);
    TextLines(w, x, prog, p + FillerOffset(b, n, n), b.preLoad2);
    TextLines(w, x, prog, p + FillerOffset(b, n, n) + |b.preLoad2|, f);
    LinesJoin(w, x, prog, p, 1, |b.preLoad1|);
    LinesJoin(w, x, prog, p, 1 + |b.preLoad1|, |b.postLoad1|);
    LinesJoin(w, x, prog, p, FillerOffset(b, n, 0), |c|);
    LinesJoin(w, x, prog, p, FillerOffset(b, n, n), |b.preLoad2|);
    LinesJoin(w, x, prog, p, FillerOffset(b, n, n) + |b.preLoad2|, |f|);
  }

  lemma WholePieces(b: Body, n: nat)
    requires n > 0 ==> b.fillers != []
    ensures FillerOffset(b, n, 0) == 1 + |b.preLoad1| + |b.postLoad1|
    ensures FillerOffset(b, n, n) == FillerOffset(b, n, 0) + |Concat(Pieces(b.fillers, n))|
  {
    hide Concat;
    var pieces := Pieces(b.fillers, n);
    assert pieces[..n] == pieces && pieces[..0] == [];
    NoPieces<Instr>();
  }

  lemma LabelRespects(w: set<Reg>, x: Places, prog: Program, p: nat)
    requires p < |prog| && prog[p].Label?
    ensures LinesRespect(prog, p, 1, w, x)
  {
  }

  // ----- the counter

  lemma CountLinesAt(isa: Isa, prog: Program, p: nat, start: Symbol)
    requires Embedded(prog, p, CountLines(isa, start))
    ensures p + 2 <= |prog|
    ensures isa == Rv ==> prog[p] == Op(Alu(A0, Plus, R(A0), I(-1), false)) && prog[p + 1] == Op(Branch(IfNonzero(A0), start))
    ensures isa == Amd ==> prog[p] == Op(Alu(Rcx, Minus, R(Rcx), I(1), true)) && prog[p + 1] == Op(Branch(IfFlag(false), start))
  {
    hide Embedded;
    var f := CountLines(isa, start);
    EmbedLines(prog, p, f);
    assert f[0].Op? && f[1].Op?;
  }

  /** The counter goes down by one, and control back to the start unless it is zero. */
  lemma CountRuns(isa: Isa, prog: Program, s: State, start: Symbol, loop: nat)
    requires Embedded(prog, s.pc, CountLines(isa, start)) && s.ok && Resolve(prog, start) == Some(loop)
    ensures var e := Run(prog, s, 2); var a := Wrap(Get(s, Counter(isa)) - 1);
      Wrote(s, e, Counter(isa), a, if a != 0 then loop else s.pc + 2) && e.mem == s.mem && e.log == s.log
    ensures Straight(prog, s, 1)
  {
    hide Get, Run, Embedded, Resolve, Wrap;
    RunNone(prog, s);
    if isa == Rv {
      CountRunsRv(prog, s, start, loop);
    } else {
      CountRunsAmd(prog, s, start, loop);
    }
  }

  lemma CountRunsRv(prog: Program, s: State, start: Symbol, loop: nat)
    requires Embedded(prog, s.pc, CountLines(Rv, start)) && s.ok && Resolve(prog, start) == Some(loop)
    ensures var e := Run(prog, s, 2); var a := Wrap(Get(s, A0) - 1);
      Wrote(s, e, A0, a, if a != 0 then loop else s.pc + 2) && e.mem == s.mem && e.log == s.log
    ensures Run(prog, s, 1).pc == s.pc + 1
  {
    hide CountLines, Get, Step, Embedded, Resolve;
    CountLinesAt(Rv, prog, s.pc, start);
    RunSingle(prog, s);
    RunOneMore(prog, s, 1);
    var s1 := StepAlu(prog, s, s.pc, A0, Plus, R(A0), I(-1), Wrap(Get(s, A0) - 1));
    var e := StepBranch(prog, s1, s.pc + 1, IfNonzero(A0), start, loop);
  }

  lemma CountRunsAmd(prog: Program, s: State, start: Symbol, loop: nat)
    requires Embedded(prog, s.pc, CountLines(Amd, start)) && s.ok && Resolve(prog, start) == Some(loop)
    ensures var e := Run(prog, s, 2); var a := Wrap(Get(s, Rcx) - 1);
      Wrote(s, e, Rcx, a, if a != 0 then loop else s.pc + 2) && e.mem == s.mem && e.log == s.log
    ensures Run(prog, s, 1).pc == s.pc + 1
  {
    hide CountLines, Get, Step, Embedded, Resolve;
    CountLinesAt(Amd, prog, s.pc, start);
    RunSingle(prog, s);
    RunOneMore(prog, s, 1);
    var s1 := StepFlags(prog, s, s.pc, Rcx, Minus, R(Rcx), I(1), Wrap(Get(s, Rcx) - 1));
    var e := StepBranch(prog, s1, s.pc + 1, IfFlag(false), start, loop);
  }

  lemma CountFirst(isa: Isa, prog: Program, s: State, start: Symbol)
    requires Embedded(prog, s.pc, CountLines(isa, start)) && s.ok
    ensures var e := Run(prog, s, 1); e.ok && e.low == s.low && e.log == s.log && forall r :: r != Counter(isa) ==> Get(e, r) == Get(s, r)
  {
    hide CountLines, Get, Step, Embedded;
    CountLinesAt(isa, prog, s.pc, start);
    RunSingle(prog, s);
    var a := Wrap(Get(s, Counter(isa)) - 1);
    if isa == Rv {
      var e := StepAlu(prog, s, s.pc, A0, Plus, R(A0), I(-1), a);
    } else {
      var e := StepFlags(prog, s, s.pc, Rcx, Minus, R(Rcx), I(1), a);
    }
  }

  lemma CountAlways(isa: Isa, w: set<Reg>, prog: Program, s: State, start: Symbol, loop: nat)
    requires Embedded(prog, s.pc, CountLines(isa, start)) && s.ok && Resolve(prog, start) == Some(loop) && Counter(isa) in w
    ensures AlwaysWithin(w, prog, s, 2)
  {
    hide CountLines, Get, Embedded, Resolve, Run;
    CountRuns(isa, prog, s, start, loop);
    CountFirst(isa, prog, s, start);
    RunNone(prog, s);
    CounterPlain(isa);
    forall j {:trigger Run(prog, s, j)} | 0 <= j <= 2
      ensures Within(w, s, Run(prog, s, j))
    {
      assert j == 0 || j == 1 || j == 2;
    }
  }

  lemma CounterPlain(isa: Isa)
    ensures Counter(isa) != Sp && Counter(isa) != Zero && Counter(isa) != Ra
  {
  }

  // ----- iterations

  /** What a loop is, where it stands, and which registers its texts may write. */
  ghost predicate LoopAt(isa: Isa, w: set<Reg>, x: Places, prog: Program, p: nat, start: Symbol, b: Body, n: nat) {
    && (n > 0 ==> b.fillers != []) && Embedded(prog, p, CountedLoop(isa, start, b, n))
    && BodyRespects(w, x, b) && Sp !in w && Counter(isa) !in w
  }

  /** One iteration: straight through the lines of the loop, whatever its texts compute. */
  lemma IterationRuns(isa: Isa, w: set<Reg>, x: Places, prog: Program, s: State, start: Symbol, b: Body, n: nat)
    requires LoopAt(isa, w, x, prog, s.pc, start, b, n) && s.ok
    ensures var size := |CountedLoop(isa, start, b, n)|; var e := Run(prog, s, size); var a := Wrap(Get(s, Counter(isa)) - 1);
      && size >= 1 && Straight(prog, s, size - 1) && AlwaysWithin(w + {Counter(isa)}, prog, s, size)
      && Get(e, Counter(isa)) == a && e.pc == if a != 0 then s.pc else s.pc + size
  {
    hide Get, Run, Embedded, CountedLoop, FenceLines, CountLines, Concat, Pieces, Resolve, Straight, LinesRespect, BodyRespects,
      AlwaysWithin;
    var size := |CountedLoop(isa, start, b, n)|;
    LoopParts(isa, prog, s.pc, start, b, n);
    LoopRespects(isa, w, x, prog, s.pc, start, b, n);
    BlockRuns(w, x, prog, s, size - 2);
    BlockAlways(w, x, prog, s, size - 2);
    var s1 := Run(prog, s, size - 2);
    CountRuns(isa, prog, s1, start, s.pc);
    var w' := w + {Counter(isa)};
    CountAlways(isa, w', prog, s1, start, s.pc);
    AlwaysMore(w, w', prog, s, size - 2);
    AlwaysAdd(w', prog, s, size - 2, 2);
    RunAdd(prog, s, size - 2, 2);
    StraightAdd(prog, s, size - 2, 1);
  }

  lemma AlwaysMore(w: set<Reg>, w': set<Reg>, prog: Program, s: State, k: nat)
    requires AlwaysWithin(w, prog, s, k) && w <= w'
    ensures AlwaysWithin(w', prog, s, k)
  {
    hide Run, Within;
    forall j {:trigger Run(prog, s, j)} | 0 <= j <= k
      ensures Within(w', s, Run(prog, s, j))
    {
      WithinMore(w, w', s, Run(prog, s, j));
    }
  }

  /** Iteration k of m begins k * size steps from s, and goes straight through the size lines of the loop. */
  ghost predicate Turns(isa: Isa, prog: Program, s: State, size: nat, m: nat, k: nat) {
    var e := Run(prog, s, k * size);
    e.pc == s.pc && Get(e, Counter(isa)) == Wrap(m - k) && size >= 1 && Straight(prog, e, size - 1)
  }

  /** m iterations of the loop take m * size steps: each goes straight through, the counter ends at zero behind the
      loop, every line is passed m times, and only the counter and registers in w change on the way. */
  ghost predicate LoopDone(isa: Isa, w: set<Reg>, prog: Program, s: State, size: nat, m: nat) {
    var e := Run(prog, s, m * size);
    && Get(e, Counter(isa)) == 0 && e.pc == s.pc + size && AlwaysWithin(w + {Counter(isa)}, prog, s, m * size)
    && (forall k: nat :: k < m ==> Turns(isa, prog, s, size, m, k))
    && forall line: nat {:trigger Visits(prog, s, m * size, line)} ::
         Visits(prog, s, m * size, line) == if s.pc <= line < s.pc + size then m else 0
  }

  lemma {:induction false} IterationsRun(isa: Isa, w: set<Reg>, x: Places, prog: Program, s: State, start: Symbol, b: Body, n: nat, m: nat)
    requires (n > 0 ==> b.fillers != []) && LoopAt(isa, w, x, prog, s.pc, start, b, n) && s.ok && 1 <= m <= TWO64 && Get(s, Counter(isa)) == Wrap(m)
    ensures LoopDone(isa, w, prog, s, |CountedLoop(isa, start, b, n)|, m)
    decreases m
  {
    hide Get, Run, LoopAt, CountedLoop, Straight, AlwaysWithin, Wrap, LoopDone;
    var size := |CountedLoop(isa, start, b, n)|;
    IterationRuns(isa, w, x, prog, s, start, b, n);
    CountDown(m);
    if m == 1 {
      DoneOnce(isa, w, prog, s, size);
    } else {
      var s1 := Run(prog, s, size);
      AlwaysOk(w + {Counter(isa)}, prog, s, size);
      IterationsRun(isa, w, x, prog, s1, start, b, n, m - 1);
      DoneMore(isa, w, prog, s, size, m - 1);
    }
  }

  lemma AlwaysOk(w: set<Reg>, prog: Program, s: State, k: nat)
    requires AlwaysWithin(w, prog, s, k)
    ensures Run(prog, s, k).ok && Within(w, s, Run(prog, s, k))
  {
    hide Run;
  }

  lemma CountDown(m: nat)
    requires 1 <= m <= TWO64
    ensures Wrap(Wrap(m) - 1) == m - 1 && Wrap(m - 1) == m - 1
  {
  }

  lemma IterationVisits(prog: Program, s: State, k: nat, line: nat)
    requires k >= 1 && Straight(prog, s, k - 1)
    ensures Visits(prog, s, k, line) == if s.pc <= line < s.pc + k then 1 else 0
  {
    hide Run, Step;
    VisitsAdd(prog, s, k - 1, 1, line);
    VisitsStraight(prog, s, k - 1, line);
    var t := Run(prog, s, k - 1);
    assert Visits(prog, Step(prog, t), 0, line) == 0;
  }

  lemma TurnsFirst(isa: Isa, prog: Program, s: State, size: nat, m: nat)
    requires Get(s, Counter(isa)) == Wrap(m) && size >= 1 && Straight(prog, s, size - 1)
    ensures Turns(isa, prog, s, size, m, 0)
  {
    hide Run, Get, Straight, Wrap;
    RunNone(prog, s);
    assert 0 * size == 0;
  }

  lemma TurnsLater(isa: Isa, prog: Program, s: State, size: nat, m: nat, k: nat)
    requires var s1 := Run(prog, s, size); s1.pc == s.pc && Turns(isa, prog, s1, size, m, k)
    ensures Turns(isa, prog, s, size, m + 1, k + 1)
  {
    hide Run, Get, Straight, Wrap;
    RunAdd(prog, s, size, k * size);
    assert (k + 1) * size == size + k * size;
  }

  lemma DoneOnce(isa: Isa, w: set<Reg>, prog: Program, s: State, size: nat)
    requires size >= 1 && Straight(prog, s, size - 1) && AlwaysWithin(w + {Counter(isa)}, prog, s, size)
    requires var e := Run(prog, s, size); Get(e, Counter(isa)) == 0 && e.pc == s.pc + size && Get(s, Counter(isa)) == Wrap(1)
    ensures LoopDone(isa, w, prog, s, size, 1)
  {
    hide Get, Run, Straight, AlwaysWithin, Visits, Turns, Wrap;
    assert 1 * size == size;
    TurnsFirst(isa, prog, s, size, 1);
    forall line: nat {:trigger Visits(prog, s, size, line)} { IterationVisits(prog, s, size, line); }
  }

  lemma DoneMore(isa: Isa, w: set<Reg>, prog: Program, s: State, size: nat, m: nat)
    requires size >= 1 && Straight(prog, s, size - 1) && AlwaysWithin(w + {Counter(isa)}, prog, s, size)
    requires Run(prog, s, size).pc == s.pc && Get(s, Counter(isa)) == Wrap(m + 1)
    requires LoopDone(isa, w, prog, Run(prog, s, size), size, m)
    ensures LoopDone(isa, w, prog, s, size, m + 1)
  {
    hide Get, Run, Straight, AlwaysWithin, Visits, Turns, Wrap;
    var s1 := Run(prog, s, size);
    var k1 := m * size;
    assert (m + 1) * size == size + k1;
    RunAdd(prog, s, size, k1);
    AlwaysAdd(w + {Counter(isa)}, prog, s, size, k1);
    forall k: nat {:trigger Turns(isa, prog, s, size, m + 1, k)} | k < m + 1
      ensures Turns(isa, prog, s, size, m + 1, k)
    {
      if k == 0 {
        TurnsFirst(isa, prog, s, size, m + 1);
      } else {
        TurnsLater(isa, prog, s, size, m, k - 1);
      }
    }
    forall line: nat {:trigger Visits(prog, s, size + k1, line)}
      ensures Visits(prog, s, size + k1, line) == if s.pc <= line < s.pc + size then m + 1 else 0
    {
      IterationVisits(prog, s, size, line);
      VisitsAdd(prog, s, size, k1, line);
    }
  }

  // ----- stores at constant offsets

  /** Eight bytes at each of the offsets from base miss the range from lo to hi. */
  ghost predicate Apart(offsets: set<int>, base: Word, lo: nat, hi: nat) {
    forall c :: c in offsets ==> Wrap(base + c) + 8 <= lo || hi <= Wrap(base + c)
  }

  /** Memory changed at most from lo to hi and in the eight bytes at each of the offsets from base. */
  ghost predicate WroteOnly(m: Memory, m': Memory, lo: nat, hi: nat, base: Word, offsets: set<int>) {
    forall x: nat {:trigger ByteAt(m', x)} :: !(lo <= x < hi) && Apart(offsets, base, x, x + 1) ==> ByteAt(m, x) == ByteAt(m', x)
  }

  /** Byte x is the same, unless one of the places covers it. */
  ghost predicate SameOff(m: Memory, m': Memory, base: Word, offsets: set<int>, x: nat) {
    Apart(offsets, base, x, x + 1) ==> Agree(m, m', x, x + 1)
  }

  lemma WroteOnlyThen(m: Memory, m1: Memory, m2: Memory, lo: nat, hi: nat, base: Word, offsets: set<int>)
    requires AgreeOutside(m, m1, lo, hi)
    requires forall x: nat :: SameOff(m1, m2, base, offsets, x)
    ensures WroteOnly(m, m2, lo, hi, base, offsets)
  {
    hide ByteAt, Apart;
    forall x: nat {:trigger ByteAt(m2, x)} | !(lo <= x < hi) && Apart(offsets, base, x, x + 1)
      ensures ByteAt(m, x) == ByteAt(m2, x)
    {
      assert SameOff(m1, m2, base, offsets, x);
    }
  }

  ghost predicate Stores(x: Places, i: Instr) {
    match i
    case Store(_, a) => PlaceIn(x, a)
    case Push(_) => false
    case CallPush(_) => false
    case _ => true
  }

  ghost predicate LinesStore(prog: Program, p: nat, n: nat, x: Places) {
    p + n <= |prog| && forall l :: p <= l < p + n && prog[l].Op? ==> Stores(x, prog[l].instr)
  }

  lemma StoreStep(prog: Program, s: State, reg: Reg, offsets: set<int>, lo: nat, hi: nat)
    requires s.ok && s.pc < |prog| && (prog[s.pc].Op? ==> Stores(AtOffsets(reg, offsets), prog[s.pc].instr))
    requires Apart(offsets, Get(s, reg), lo, hi)
    ensures Spares(prog, s, lo, hi)
  {
    hide Eval, Fetch, Load64, Store64, Get, ByteAt, Resolve;
    if prog[s.pc].Op? && prog[s.pc].instr.Store? {
      var a := prog[s.pc].instr.addr;
      EffectiveOffset(s, reg, a.offset);
      Store64Laws(s.mem, Effective(s, a), Get(s, prog[s.pc].instr.rs));
    }
  }

  lemma EffectiveOffset(s: State, reg: Reg, c: int)
    ensures Effective(s, Address(reg, I(0), By1, c)) == Wrap(Get(s, reg) + c)
  {
  }

  lemma LinesRespectStore(prog: Program, p: nat, n: nat, w: set<Reg>, x: Places)
    requires LinesRespect(prog, p, n, w, x)
    ensures LinesStore(prog, p, n, x)
  {
    hide PlaceIn;
  }

  /** The loop stores where its texts do. */
  lemma LoopStores(isa: Isa, w: set<Reg>, x: Places, prog: Program, p: nat, start: Symbol, b: Body, n: nat)
    requires (n > 0 ==> b.fillers != []) && LoopAt(isa, w, x, prog, p, start, b, n)
    ensures LinesStore(prog, p, |CountedLoop(isa, start, b, n)|, x)
  {
    hide Embedded, CountedLoop, FenceLines, CountLines, Pieces, Concat, Resolve, BodyRespects, LinesRespect, PlaceIn;
    var size := |CountedLoop(isa, start, b, n)|;
    LoopParts(isa, prog, p, start, b, n);
    LoopRespects(isa, w, x, prog, p, start, b, n);
    LinesRespectStore(prog, p, size - 2, w, x);
    CountLinesAt(isa, prog, p + size - 2, start);
  }

  /** Steps at lines that store at constant offsets from a register that stays spare what is apart from there. */
  lemma SparesAlong(w: set<Reg>, prog: Program, s: State, k: nat, p: nat, n: nat, reg: Reg, offsets: set<int>, lo: nat, hi: nat)
    requires AlwaysWithin(w, prog, s, k) && reg !in w && LinesStore(prog, p, n, AtOffsets(reg, offsets))
    requires forall j {:trigger Run(prog, s, j)} :: 0 <= j < k ==> p <= Run(prog, s, j).pc < p + n
    requires Apart(offsets, Get(s, reg), lo, hi)
    ensures AlwaysSpares(prog, s, k, lo, hi)
  {
    hide Run, Get, Spares, Stores, Apart;
    forall j {:trigger Run(prog, s, j)} | 0 <= j < k
      ensures Spares(prog, Run(prog, s, j), lo, hi)
    {
      StoreStep(prog, Run(prog, s, j), reg, offsets, lo, hi);
    }
  }

  lemma SparesAdd(prog: Program, s: State, a: nat, b: nat, lo: nat, hi: nat)
    requires AlwaysSpares(prog, s, a, lo, hi) && AlwaysSpares(prog, Run(prog, s, a), b, lo, hi)
    ensures AlwaysSpares(prog, s, a + b, lo, hi)
  {
    hide Run, Spares;
    forall j {:trigger Run(prog, s, j)} | 0 <= j < a + b
      ensures Spares(prog, Run(prog, s, j), lo, hi)
    {
      if j >= a {
        RunAdd(prog, s, a, j - a);
      }
    }
  }

  /** Until it is done the loop is at its own lines. */
  lemma LoopWhere(isa: Isa, w: set<Reg>, prog: Program, s: State, size: nat, m: nat, j: nat)
    requires LoopDone(isa, w, prog, s, size, m) && j < m * size
    ensures s.pc <= Run(prog, s, j).pc < s.pc + size
  {
    hide Run, Get, AlwaysWithin, Visits, Wrap;
    InIteration(m, size, j);
    var k, o := j / size, j % size;
    assert Turns(isa, prog, s, size, m, k);
    RunAdd(prog, s, k * size, o);
  }

  lemma InIteration(m: nat, size: nat, j: nat)
    requires j < m * size
    ensures size >= 1 && j / size < m && j == (j / size) * size + j % size && j % size < size
  {
    ProductOrder(m, size, 0);
    if size >= 1 {
      ProductOrder(m, size, j / size);
    }
  }

  lemma ProductOrder(m: nat, size: nat, q: nat)
    ensures size == 0 ==> m * size == 0
    ensures q >= m ==> q * size >= m * size
  {
    if q >= m {
      assert q * size == m * size + (q - m) * size;
    }
  }

  lemma SparesAlongLine(w: set<Reg>, prog: Program, s: State, k: nat, reg: Reg, offsets: set<int>, lo: nat, hi: nat)
    requires Straight(prog, s, k) && AlwaysWithin(w, prog, s, k) && reg !in w && LinesStore(prog, s.pc, k, AtOffsets(reg, offsets))
    requires Apart(offsets, Get(s, reg), lo, hi)
    ensures AlwaysSpares(prog, s, k, lo, hi)
  {
    hide Run, Get, AlwaysWithin, LinesStore, Apart, AlwaysSpares;
    SparesAlong(w, prog, s, k, s.pc, k, reg, offsets, lo, hi);
  }

  lemma SparesInLoop(isa: Isa, w: set<Reg>, prog: Program, s: State, size: nat, m: nat, reg: Reg, offsets: set<int>, lo: nat, hi: nat)
    requires LoopDone(isa, w, prog, s, size, m) && reg !in w && reg != Counter(isa)
    requires LinesStore(prog, s.pc, size, AtOffsets(reg, offsets)) && Apart(offsets, Get(s, reg), lo, hi)
    ensures AlwaysSpares(prog, s, m * size, lo, hi)
  {
    hide Run, Get, AlwaysWithin, LinesStore, Apart, AlwaysSpares, Turns, Visits;
    forall j {:trigger Run(prog, s, j)} | 0 <= j < m * size
      ensures s.pc <= Run(prog, s, j).pc < s.pc + size
    {
      LoopWhere(isa, w, prog, s, size, m, j);
    }
    SparesAlong(w + {Counter(isa)}, prog, s, m * size, s.pc, size, reg, offsets, lo, hi);
  }

  lemma BaseIsNotCounter(isa: Isa)
    ensures Base(isa) != Counter(isa)
  {
  }

  lemma WithinKeeps(w: set<Reg>, s: State, e: State, r: Reg)
    requires Within(w, s, e) && r !in w
    ensures e.ok && Get(e, r) == Get(s, r)
  {
    hide Get;
  }

  /** The text before the loop and the loop, storing at constant offsets from the data, spare what is apart from there. */
  lemma TestSpares(isa: Isa, prog: Program, s1: State, w: set<Reg>, offsets: set<int>, t: Throughput, count: nat, m: nat, lo: nat, hi: nat)
    requires var x := AtOffsets(Base(isa), offsets); TextRespects(w, x, t.init) && BodyRespects(w, x, t.body)
    requires Sp !in w && Counter(isa) !in w && Base(isa) !in w && Assigned(t, count) && s1.ok
    requires Embedded(prog, s1.pc, t.init) && Embedded(prog, s1.pc + |t.init|, LoopOf(isa, t, count))
    requires 1 <= m <= TWO64 && Get(s1, Counter(isa)) == Wrap(m) && Apart(offsets, Get(s1, Base(isa)), lo, hi)
    ensures AlwaysSpares(prog, s1, Middle(isa, t, count, m), lo, hi)
  {
    hide Run, Get, Embedded, CountedLoop, Straight, Wrap, LoopDone, AlwaysSpares, TextRespects, BodyRespects, LinesRespect,
      LinesStore, AlwaysWithin, Within, Apart, Base, Counter;
    var x, size := AtOffsets(Base(isa), offsets), |LoopOf(isa, t, count)|;
    BaseIsNotCounter(isa);
    TextLines(w, x, prog, s1.pc, t.init);
    LinesRespectStore(prog, s1.pc, |t.init|, w, x);
    BlockRuns(w, x, prog, s1, |t.init|);
    BlockAlways(w, x, prog, s1, |t.init|);
    var s2 := Run(prog, s1, |t.init|);
    SparesAlongLine(w, prog, s1, |t.init|, Base(isa), offsets, lo, hi);
    WithinKeeps(w, s1, s2, Base(isa));
    WithinKeeps(w, s1, s2, Counter(isa));
    IterationsRun(isa, w, x, prog, s2, TestStart(t.prefix, count), t.body, SlotCount(t, count), m);
    LoopStores(isa, w, x, prog, s2.pc, TestStart(t.prefix, count), t.body, SlotCount(t, count));
    SparesInLoop(isa, w, prog, s2, size, m, Base(isa), offsets, lo, hi);
    SparesAdd(prog, s1, |t.init|, m * size, lo, hi);
  }
}
