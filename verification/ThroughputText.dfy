/** The throughput emitters: a counted loop around filler text taken round robin from an array, with optional
    text before the loop and before and behind the fillers. An absent string is empty text. */
module ThroughputText {
  import opened Listing
  import opened Machine
  import opened Symbols
  import opened Sums
  import opened Trace
  import Riscv
  import X86

  /** The start of the data, and the iteration counter. */
  function Base(isa: Isa): Reg { if isa == Rv then A1 else Rdx }
  function Counter(isa: Isa): Reg { if isa == Rv then A0 else Rcx }

  function FenceLines(isa: Isa, fence: bool): Program {
    if !fence then [] else if isa == Rv then [Op(Barrier), Op(Barrier)] else [Op(Barrier)]
  }

  function CountLines(isa: Isa, start: Symbol): (p: Program)
    ensures |p| == 2
  {
    if isa == Rv then [Op(Riscv.Addi(A0, A0, -1)), Op(Riscv.Bnez(A0, start))]
    else [Op(X86.Dec(Rcx)), Op(X86.Jne(start))]
  }

  /** What a loop is made of besides its counter. */
  datatype Body = Body(preLoad1: Program, postLoad1: Program, fillers: seq<Program>, preLoad2: Program, fence: bool)

  /** A test: its name, the text before the loop, the loop, and whether its counts include two chasing loads. */
  datatype Throughput = Throughput(prefix: string, init: Program, body: Body, includePtrChasingLoads: bool)

  /** How many fillers a test of the given count gets. */
  function FillerCount(count: nat, includePtrChasingLoads: bool): nat {
    var n: int := if includePtrChasingLoads then count - 2 else count;
    if n < 0 then 0 else n
  }

  function Pieces(fillers: seq<Program>, n: nat): (r: seq<Program>)
    requires n > 0 ==> fillers != []
    ensures |r| == n
  {
    seq(n, k requires 0 <= k < n => fillers[k % |fillers|])
  }

  function CountedLoop(isa: Isa, start: Symbol, b: Body, n: nat): Program
    requires n > 0 ==> b.fillers != []
  {
    [Label(start)] + b.preLoad1 + b.postLoad1 + Concat(Pieces(b.fillers, n)) + b.preLoad2 + FenceLines(isa, b.fence)
      + CountLines(isa, start)
  }

  function SlotCount(t: Throughput, count: nat): nat {
    FillerCount(count, t.includePtrChasingLoads)
  }

  /** The filler array has an entry to take. */
  predicate Assigned(t: Throughput, count: nat) {
    SlotCount(t, count) > 0 ==> t.body.fillers != []
  }

  function LoopOf(isa: Isa, t: Throughput, count: nat): Program
    requires Assigned(t, count)
  {
    CountedLoop(isa, TestStart(t.prefix, count), t.body, SlotCount(t, count))
  }

  /** The steps m iterations take from behind the prologue to behind the loop. */
  function Middle(isa: Isa, t: Throughput, count: nat, m: nat): nat
    requires Assigned(t, count)
  {
    |t.init| + m * |LoopOf(isa, t, count)|
  }

  // ----- the emitters' loops

  method AppendFillers(sb: StringBuilder<Instr>, fillerInstrs: seq<Program>, fillerInstrCount: nat)
    requires fillerInstrCount > 0 ==> fillerInstrs != []
    modifies sb
    ensures sb.lines == old(sb.lines) + Concat(Pieces(fillerInstrs, fillerInstrCount))
  {
    var instrIdx: nat := 0;
    for fillerIdx := 0 to fillerInstrCount
      invariant fillerInstrCount > 0 ==> instrIdx == fillerIdx % |fillerInstrs|
      invariant sb.lines == old(sb.lines) + Concat(Pieces(fillerInstrs, fillerIdx))
    {
      sb.AppendLines(fillerInstrs[instrIdx]);
      ModStep(fillerIdx, |fillerInstrs|);
      NextIndex(instrIdx, |fillerInstrs|);
      instrIdx := (instrIdx + 1) % |fillerInstrs|;
      PieceNext(fillerInstrs, fillerIdx);
    }
  }

  /** The loop of one function. */
  method AppendLoop(sb: StringBuilder<Instr>, isa: Isa, t: Throughput, count: nat)
    requires Assigned(t, count)
    modifies sb
    ensures sb.lines == old(sb.lines) + LoopOf(isa, t, count)
  {
    hide FenceLines, CountLines, Pieces, Concat;
    var start := TestStart(t.prefix, count);
    sb.AppendLine(Label(start));
    sb.AppendLines(t.body.preLoad1);
    sb.AppendLines(t.body.postLoad1);
    AppendFillers(sb, t.body.fillers, FillerCount(count, t.includePtrChasingLoads));
    sb.AppendLines(t.body.preLoad2);
    if t.body.fence {
      sb.AppendLines(FenceLines(isa, true));
    }
    sb.AppendLines(CountLines(isa, start));
    NoFence(isa);
  }

  lemma NoFence(isa: Isa)
    ensures FenceLines(isa, false) == []
  {
  }

  lemma NextIndex(i: nat, n: nat)
    requires i < n
    ensures (i + 1) % n == if i + 1 == n then 0 else i + 1
  {
    if i + 1 < n {
      Remainder(i + 1, n, 0, i + 1);
    }
  }

  lemma PieceNext(fillers: seq<Program>, k: nat)
    requires fillers != []
    ensures Concat(Pieces(fillers, k + 1)) == Concat(Pieces(fillers, k)) + fillers[k % |fillers|]
  {
    assert Pieces(fillers, k + 1) == Pieces(fillers, k) + [fillers[k % |fillers|]];
    ConcatOne(Pieces(fillers, k), fillers[k % |fillers|]);
  }

  // ----- the parts of a loop

  /** How far into the loop filler k begins. */
  function FillerOffset(b: Body, n: nat, k: nat): nat
    requires (n > 0 ==> b.fillers != []) && k <= n
  {
    1 + |b.preLoad1| + |b.postLoad1| + |Concat(Pieces(b.fillers, n)[..k])|
  }

  lemma LoopParts(isa: Isa, prog: Program, p: nat, start: Symbol, b: Body, n: nat)
    requires (n > 0 ==> b.fillers != []) && Embedded(prog, p, CountedLoop(isa, start, b, n))
    ensures var x := FillerOffset(b, n, n); var y := x + |b.preLoad2|; var f := |FenceLines(isa, b.fence)|;
      && p < |prog| && prog[p] == Label(start) && Resolve(prog, start) == Some(p)
      && Embedded(prog, p + 1, b.preLoad1) && Embedded(prog, p + 1 + |b.preLoad1|, b.postLoad1)
      && Embedded(prog, p + FillerOffset(b, n, 0), Concat(Pieces(b.fillers, n)))
      && Embedded(prog, p + x, b.preLoad2) && Embedded(prog, p + y, FenceLines(isa, b.fence))
      && Embedded(prog, p + y + f, CountLines(isa, start))
      && |CountedLoop(isa, start, b, n)| == y + f + 2
  {
    hide Embedded, FenceLines, CountLines, Concat, Resolve;
    var h: Program := [Label(start)];
    var c, d, f, g := Concat(Pieces(b.fillers, n)), b.preLoad2, FenceLines(isa, b.fence), CountLines(isa, start);
    assert CountedLoop(isa, start, b, n) == (h + b.preLoad1) + b.postLoad1 + c + d + f + g;
    EmbedSix(prog, p, h + b.preLoad1, b.postLoad1, c, d, f, g);
    assert h + b.preLoad1 == h + b.preLoad1 + [];
    EmbedThree(prog, p, h, b.preLoad1, []);
    TopLine(prog, p, start);
    var pieces := Pieces(b.fillers, n);
    assert pieces[..n] == pieces && pieces[..0] == [];
    NoPieces<Instr>();
  }

  /** Filler k of the loop is entry k mod L of the array, and stands inside the loop. */
  lemma FillerAt(isa: Isa, prog: Program, p: nat, start: Symbol, b: Body, n: nat, k: nat)
    requires (n > 0 ==> b.fillers != []) && k < n && Embedded(prog, p, CountedLoop(isa, start, b, n))
    ensures var at := FillerOffset(b, n, k); var f := b.fillers[k % |b.fillers|];
      Embedded(prog, p + at, f) && 1 <= at && at + |f| < |CountedLoop(isa, start, b, n)|
  {
    hide Embedded, CountedLoop, FenceLines, CountLines, Resolve, Concat;
    LoopParts(isa, prog, p, start, b, n);
    var pieces := Pieces(b.fillers, n);
    assert pieces[..0] == [];
    NoPieces<Instr>();
    PieceAt(prog, p + FillerOffset(b, n, 0), pieces, k);
    PrefixFits(pieces, k + 1);
    assert pieces[..n] == pieces && pieces[k] == b.fillers[k % |b.fillers|];
  }

  lemma {:induction false} PrefixFits(pieces: seq<Program>, k: nat)
    requires k <= |pieces|
    ensures |Concat(pieces[..k])| <= |Concat(pieces)|
    decreases |pieces|
  {
    if k == |pieces| {
      assert pieces[..k] == pieces;
    } else {
      var front := pieces[..|pieces| - 1];
      PrefixFits(front, k);
      assert front[..k] == pieces[..k];
    }
  }

  // ----- labels

  ghost predicate TextsUnlabelled(t: Throughput) {
    && Unlabelled(t.init) && Unlabelled(t.body.preLoad1) && Unlabelled(t.body.postLoad1) && Unlabelled(t.body.preLoad2)
    && forall i :: 0 <= i < |t.body.fillers| ==> Unlabelled(t.body.fillers[i])
  }

  /** The only label of a loop is its start, when its texts have none. */
  lemma LoopLabel(isa: Isa, t: Throughput, count: nat)
    requires Assigned(t, count) && TextsUnlabelled(t)
    ensures var l := LoopOf(isa, t, count); UniqueLabels(l) && LabelsIn(l) == {TestStart(t.prefix, count)}
  {
    hide Concat;
    var b, n := t.body, SlotCount(t, count);
    var pieces := Pieces(b.fillers, n);
    forall k | 0 <= k < n
      ensures Unlabelled(pieces[k])
    {
      assert pieces[k] == b.fillers[k % |b.fillers|];
    }
    UnlabelledConcat(pieces);
    SingleLabel(LoopOf(isa, t, count), 0, TestStart(t.prefix, count));
  }

  // ----- round robin

  /** How often line o of slot s's text is executed in a run of `steps` steps, over the first m fillers of the loop at p. */
  function Executions(prog: Program, s: State, steps: nat, p: nat, b: Body, n: nat, slot: nat, o: nat, m: nat): nat
    requires (n > 0 ==> b.fillers != []) && m <= n
  {
    if m == 0 then 0
    else
      var here := if (m - 1) % |b.fillers| == slot then Visits(prog, s, steps, p + FillerOffset(b, n, m - 1) + o) else 0;
      Executions(prog, s, steps, p, b, n, slot, o, m - 1) + here
  }

  /** ceil((n - slot) / len), or zero. */
  function Share(n: nat, len: nat, slot: nat): nat
    requires len >= 1
  {
    if n <= slot then 0 else (n - slot + len - 1) / len
  }

  /** Every line of every slot's text is executed the slot's share of n, `times` times over. */
  ghost predicate RoundRobin(prog: Program, s: State, steps: nat, p: nat, b: Body, n: nat, times: nat)
    requires n > 0 ==> b.fillers != []
  {
    forall slot: nat, o: nat {:trigger Executions(prog, s, steps, p, b, n, slot, o, n)} ::
      slot < |b.fillers| && o < |b.fillers[slot]| ==>
        Executions(prog, s, steps, p, b, n, slot, o, n) == times * Share(n, |b.fillers|, slot)
  }

  lemma TurnsTaken(isa: Isa, prog: Program, s: State, steps: nat, p: nat, start: Symbol, b: Body, n: nat, times: nat)
    requires (n > 0 ==> b.fillers != []) && Embedded(prog, p, CountedLoop(isa, start, b, n))
    requires PassedTimes(prog, s, steps, p, |CountedLoop(isa, start, b, n)|, times)
    ensures RoundRobin(prog, s, steps, p, b, n, times)
  {
    hide Embedded, CountedLoop, Executions, PassedTimes, Share;
    forall slot: nat, o: nat {:trigger Executions(prog, s, steps, p, b, n, slot, o, n)} | slot < |b.fillers| && o < |b.fillers[slot]|
      ensures Executions(prog, s, steps, p, b, n, slot, o, n) == times * Share(n, |b.fillers|, slot)
    {
      SlotRuns(isa, prog, s, steps, p, start, b, n, slot, o, times);
    }
  }

  /** When a run passes every line of the loop `times` times, each line of slot s's text is executed
      times * ceil((n - s)/L) times. */
  lemma SlotRuns(isa: Isa, prog: Program, s: State, steps: nat, p: nat, start: Symbol, b: Body, n: nat, slot: nat, o: nat, times: nat)
    requires (n > 0 ==> b.fillers != []) && Embedded(prog, p, CountedLoop(isa, start, b, n))
    requires slot < |b.fillers| && o < |b.fillers[slot]|
    requires PassedTimes(prog, s, steps, p, |CountedLoop(isa, start, b, n)|, times)
    ensures Executions(prog, s, steps, p, b, n, slot, o, n)
         == times * Share(n, |b.fillers|, slot)
  {
    hide Embedded, CountedLoop, Executions, Visits;
    SlotUses(isa, prog, s, steps, p, start, b, n, slot, o, times, n);
    UsesExact(n, |b.fillers|, slot);
  }

  /** The run passes each of so many lines so many times. */
  ghost predicate PassedTimes(prog: Program, s: State, steps: nat, p: nat, size: nat, times: nat) {
    forall line: nat {:trigger Visits(prog, s, steps, line)} :: p <= line < p + size ==> Visits(prog, s, steps, line) == times
  }

  lemma {:induction false} SlotUses(isa: Isa, prog: Program, s: State, steps: nat, p: nat, start: Symbol, b: Body, n: nat,
                                    slot: nat, o: nat, times: nat, m: nat)
    requires (n > 0 ==> b.fillers != []) && m <= n && Embedded(prog, p, CountedLoop(isa, start, b, n))
    requires slot < |b.fillers| && o < |b.fillers[slot]|
    requires PassedTimes(prog, s, steps, p, |CountedLoop(isa, start, b, n)|, times)
    ensures Executions(prog, s, steps, p, b, n, slot, o, m) == times * Uses(m, |b.fillers|, slot)
    decreases m
  {
    hide Embedded, CountedLoop, Visits, FillerOffset;
    if m != 0 {
      SlotUses(isa, prog, s, steps, p, start, b, n, slot, o, times, m - 1);
      FillerAt(isa, prog, p, start, b, n, m - 1);
      var u := Uses(m - 1, |b.fillers|, slot);
      if (m - 1) % |b.fillers| == slot {
        assert Visits(prog, s, steps, p + FillerOffset(b, n, m - 1) + o) == times;
        assert times * (u + 1) == times * u + times;
      }
    }
  }

  /** How many of the first n fillers are slot s of an array of length len. */
  function Uses(n: nat, len: nat, s: nat): nat
    requires len >= 1
  {
    if n == 0 then 0 else Uses(n - 1, len, s) + if (n - 1) % len == s then 1 else 0
  }

  /** Slot s is used exactly ceil((n - s) / len) times. */
  lemma {:induction false} UsesExact(n: nat, len: nat, s: nat)
    requires s < len
    ensures Uses(n, len, s) == Share(n, len, s)
    decreases n
  {
    if n != 0 {
      UsesExact(n - 1, len, s);
      CeilStep(n - 1, len, s);
    }
  }

  lemma CeilStep(m: nat, len: nat, s: nat)
    requires s < len
    ensures (if m + 1 <= s then 0 else (m + 1 - s + len - 1) / len)
         == (if m <= s then 0 else (m - s + len - 1) / len) + (if m % len == s then 1 else 0)
  {
    if m < s {
      Remainder(m, len, 0, m);
    } else {
      var q, r := m / len, m % len;
      assert m == q * len + r;
      if r >= s {
        CeilParts(m, len, s, q, r - s);
      } else {
        CeilParts(m, len, s, q - 1, r + len - s);
      }
    }
  }

  /** With m - s == q * len + d, both quotients are known. */
  lemma CeilParts(m: nat, len: nat, s: nat, q: int, d: nat)
    requires s <= m && d < len && m - s == q * len + d && s < len
    ensures (m + 1 - s + len - 1) / len == q + 1
    ensures (if m <= s then 0 else (m - s + len - 1) / len) == q + if d == 0 then 0 else 1
    ensures d == 0 <==> m % len == s
  {
    Remainder(m - s, len, q, d);
    RemainderOf(m, len, s, q, d);
    assert m - s + len == (q + 1) * len + d;
    Remainder(m - s + len, len, q + 1, d);
    if d == 0 {
      assert m - s + len - 1 == q * len + (len - 1);
      Remainder(m - s + len - 1, len, q, len - 1);
    } else {
      assert m - s + len - 1 == (q + 1) * len + (d - 1);
      Remainder(m - s + len - 1, len, q + 1, d - 1);
    }
  }

  lemma RemainderOf(m: nat, len: nat, s: nat, q: int, d: nat)
    requires d < len && m - s == q * len + d && s < len
    ensures d == 0 <==> m % len == s
  {
    if d == 0 {
      Remainder(m, len, q, s);
    } else if d + s < len {
      Remainder(m, len, q, d + s);
    } else {
      assert m == (q + 1) * len + (d + s - len);
      Remainder(m, len, q + 1, d + s - len);
    }
  }
}
