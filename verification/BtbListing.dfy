/** The branch-target-buffer test for ARM: the listing for all its counts. */
module BtbListing {
  import opened Words
  import opened Listing
  import opened Layout
  import opened Machine
  import opened Symbols
  import opened BtbText
  import opened BtbRun

  ghost predicate Positive(counts: seq<nat>) {
    forall i :: 0 <= i < |counts| ==> counts[i] >= 1
  }

  function Functions(t: Btb, counts: seq<nat>): (r: seq<Program>)
    requires forall i :: 0 <= i < |counts| ==> counts[i] >= 1
    ensures |r| == |counts|
  {
    seq(|counts|, i requires 0 <= i < |counts| => FnLines(t, counts[i]))
  }

  /** What is executed is the functions one behind the other. */
  lemma {:induction false} ListedIs(t: Btb, counts: seq<nat>)
    requires Positive(counts)
    ensures Listed(t, counts) == Concat(Functions(t, counts))
    decreases |counts|
  {
    hide Lines, Fn, FnLines, Concat;
    if counts == [] {
      NoLines<Instr>();
      NoPieces<Instr>();
      assert Functions(t, counts) == [];
    } else {
      var front, last := counts[..|counts| - 1], counts[|counts| - 1];
      ListedIs(t, front);
      FnListed(t, last);
      LinesAppend(All(t, front), Fn(t, last));
      assert Functions(t, counts) == Functions(t, front) + [FnLines(t, last)];
      ConcatOne(Functions(t, front), FnLines(t, last));
    }
  }

  // ----- every label is defined once

  ghost predicate OfFunction(labels: set<Symbol>, count: nat) {
    forall x :: x in labels ==> (x.BtbTop? || x.BtbHead? || x.BtbPart? || x.BtbExit?) && x.count == count
  }

  ghost predicate OfChain(labels: set<Symbol>, count: nat, n: nat) {
    forall x :: x in labels ==> x.BtbPart? && x.count == count && x.part <= n
  }

  lemma LinkLabel(t: Btb, count: nat, k: nat)
    ensures UniqueLabels(LinkLines(t, count, k)) && LabelsIn(LinkLines(t, count, k)) == {BtbPart(t.prefix, count, k)}
  {
    hide Branching;
    SingleLabel(LinkLines(t, count, k), 1, BtbPart(t.prefix, count, k));
  }

  lemma {:induction false} ChainUnique(t: Btb, count: nat, n: nat)
    ensures UniqueLabels(ChainLines(t, count, n)) && OfChain(LabelsIn(ChainLines(t, count, n)), count, n)
    decreases n
  {
    hide UniqueLabels, LabelsIn, LinkLines;
    if n == 0 {
      Empty<Instr>();
    } else {
      ChainUnique(t, count, n - 1);
      LinkLabel(t, count, n);
      LabelsAppend(ChainLines(t, count, n - 1), LinkLines(t, count, n));
      UniqueAppend(ChainLines(t, count, n - 1), LinkLines(t, count, n));
    }
  }

  lemma HeadLabels(t: Btb, count: nat)
    ensures var h := HeadLines(t, count); UniqueLabels(h) && LabelsIn(h) == {BtbTop(t.prefix, count), BtbHead(t.prefix, count)}
  {
    var h := HeadLines(t, count);
    assert h[0] == Label(BtbTop(t.prefix, count)) && h[4] == Label(BtbHead(t.prefix, count));
  }

  lemma TailLabels(t: Btb, count: nat)
    ensures var l := TailLines(t, count); UniqueLabels(l) && LabelsIn(l) <= {BtbExit(t.prefix, count)}
  {
    hide Direct;
  }

  lemma FnUnique(t: Btb, count: nat)
    requires count >= 1
    ensures UniqueLabels(FnLines(t, count)) && OfFunction(LabelsIn(FnLines(t, count)), count)
  {
    hide UniqueLabels, LabelsIn, HeadLines, ChainLines, TailLines;
    var h, c, l := HeadLines(t, count), ChainLines(t, count, count - 1), TailLines(t, count);
    HeadLabels(t, count);
    ChainUnique(t, count, count - 1);
    TailLabels(t, count);
    LabelsAppend(h, c);
    UniqueAppend(h, c);
    LabelsAppend(h + c, l);
    UniqueAppend(h + c, l);
  }

  lemma ListedUnique(t: Btb, counts: seq<nat>)
    requires Positive(counts) && Distinct(counts)
    ensures UniqueLabels(Concat(Functions(t, counts)))
  {
    hide UniqueLabels, LabelsIn, Concat, FnLines;
    var pieces := Functions(t, counts);
    forall i | 0 <= i < |counts|
      ensures UniqueLabels(pieces[i]) && OfFunction(LabelsIn(pieces[i]), counts[i])
    {
      FnUnique(t, counts[i]);
    }
    ConcatUnique(pieces);
  }

  lemma Found(t: Btb, counts: seq<nat>, count: nat) returns (at: nat)
    requires Positive(counts) && Distinct(counts) && count in counts
    ensures count >= 1 && Embedded(Listed(t, counts), at, FnLines(t, count))
  {
    hide UniqueLabels, Concat, Embedded, FnLines;
    var i :| 0 <= i < |counts| && counts[i] == count;
    var pieces := Functions(t, counts);
    ListedIs(t, counts);
    ListedUnique(t, counts);
    var prog := Listed(t, counts);
    assert At(prog, 0, prog);
    EmbedUnique(prog, 0, prog);
    PieceAt(prog, 0, pieces, i);
    assert pieces[i] == FnLines(t, count);
    at := |Concat(pieces[..i])|;
  }

  /** The emitted ARM test for any distinct positive counts, of any spacing and kind of branch: a call for `count`
      branches with m iterations (zero standing for 2^64) returns in order with every register but x0, x1 and x2 as before.
      The branches of the chain are of the test's kind. When the whole chain and 20 bytes more fit a megabyte it takes m * count - 1 branches and no indirect jump, and
      otherwise m * (count - 1) + 1 branches and m - 1 indirect jumps, all to the top of the function. */
  lemma ArmTest(t: Btb, counts: seq<nat>, count: nat, s: State, m: nat) returns (k: nat)
    requires Positive(counts) && Distinct(counts) && count in counts && |Listed(t, counts)| < TWO64
    requires Resolve(Listed(t, counts), BtbTop(t.prefix, count)) == Some(s.pc) && s.ok
    requires 1 <= m <= TWO64 && Get(s, X0) == Wrap(m)
    ensures var e := Run(Listed(t, counts), s, k);
      && e.ok && e.pc == Get(s, X30) && Get(e, X0) == 0 && e.mem == s.mem
      && forall r :: r != X0 && r != X1 && r != X2 ==> Get(e, r) == Get(s, r)
    ensures Kinds(t, Listed(t, counts), count)
    ensures var prog := Listed(t, counts); var e := Run(prog, s, k); t.spacing * count + 20 < 1024 * 1024 ==>
      e.log == s.log + [Returned(Get(s, X30))] && Taken(prog, s, k) == m * count - 1
    ensures var prog := Listed(t, counts); var e := Run(prog, s, k); t.spacing * count + 20 >= 1024 * 1024 ==>
      && e.log == s.log + seq(m - 1, i => Jumped(s.pc)) + [Returned(Get(s, X30))]
      && Taken(prog, s, k) == m * (count - 1) + 1
  {
    hide Run, Get, Embedded, Resolve, FnLines, HeadLines, Listed, Completed, Wrap, Jumps, Taken, Kinds, ChainLines;
    var prog := Listed(t, counts);
    var at := Found(t, counts, count);
    FnParts(t, prog, at, count);
    KindsAre(t, prog, at + 5, count);
    HeadAt(t, prog, at, count);
    k := FunctionRuns(t, prog, s, count, m);
    Outcome(t, prog, s, k, count, m);
  }

  /** The branch to label k, for every k of the chain: conditional, unconditional, or the two in turn with the odd ones conditional. */
  ghost predicate Kinds(t: Btb, prog: Program, count: nat) {
    forall k: nat {:trigger BtbPart(t.prefix, count, k)} :: 1 <= k < count ==>
      var target := BtbPart(t.prefix, count, k); var conditional := t.kind == Conditional || (t.kind == ZenMix && k % 2 == 1);
      && Resolve(prog, target).Some? && Resolve(prog, target).value >= 1
      && prog[Resolve(prog, target).value - 1] == Op(Branch(if conditional then IfNonzero(X1) else Always, target))
  }

  lemma {:induction false} LinkPlaced(t: Btb, prog: Program, p: nat, count: nat, n: nat, k: nat)
    requires Embedded(prog, p, ChainLines(t, count, n)) && 1 <= k <= n
    ensures Embedded(prog, p + 2 * (k - 1), LinkLines(t, count, k))
    decreases n
  {
    hide Embedded, LinkLines;
    var front, last := ChainLines(t, count, n - 1), LinkLines(t, count, n);
    assert ChainLines(t, count, n) == front + last + [];
    EmbedThree(prog, p, front, last, []);
    if k < n {
      LinkPlaced(t, prog, p, count, n - 1, k);
    }
  }

  lemma KindsAre(t: Btb, prog: Program, p: nat, count: nat)
    requires count >= 1 && Embedded(prog, p, ChainLines(t, count, count - 1))
    ensures Kinds(t, prog, count)
  {
    hide Embedded, ChainLines, LinkLines, Resolve;
    forall k: nat {:trigger BtbPart(t.prefix, count, k)} | 1 <= k < count
      ensures var target := BtbPart(t.prefix, count, k); var conditional := t.kind == Conditional || (t.kind == ZenMix && k % 2 == 1);
        && Resolve(prog, target).Some? && Resolve(prog, target).value >= 1
        && prog[Resolve(prog, target).value - 1] == Op(Branch(if conditional then IfNonzero(X1) else Always, target))
    {
      LinkPlaced(t, prog, p, count, count - 1, k);
      LinkAt(t, prog, p + 2 * (k - 1), count, k);
    }
  }

  /** What a completed call is in the caller's numbers. */
  lemma Outcome(t: Btb, prog: Program, s: State, k: nat, count: nat, m: nat)
    requires m >= 1 && Completed(t, prog, s, k, count, m)
    ensures var e := Run(prog, s, k);
      && e.ok && e.pc == Get(s, X30) && Get(e, X0) == 0 && e.mem == s.mem
      && (forall r :: r != X0 && r != X1 && r != X2 ==> Get(e, r) == Get(s, r))
      && (t.spacing * count + 20 < 1024 * 1024 ==>
            e.log == s.log + [Returned(Get(s, X30))] && Taken(prog, s, k) == m * count - 1)
      && (t.spacing * count + 20 >= 1024 * 1024 ==>
            && e.log == s.log + seq(m - 1, i => Jumped(s.pc)) + [Returned(Get(s, X30))]
            && Taken(prog, s, k) == m * (count - 1) + 1)
  {
    hide Run, Get, Jumps, Taken;
    JumpsAre(s.pc, m - 1);
  }

  lemma {:induction false} JumpsAre(top: nat, n: nat)
    ensures Jumps(top, n) == seq(n, i => Jumped(top))
  {
    if n != 0 {
      JumpsAre(top, n - 1);
      assert seq(n, i => Jumped(top)) == [Jumped(top)] + seq(n - 1, i => Jumped(top));
    }
  }
}
