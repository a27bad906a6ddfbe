/** The functions of throughput tests: prologue, text before the loop, loop, epilogue. The emitters for the two
    instruction sets differ in the prologue and the epilogue only. */
module ThroughputListing {
  import opened Listing
  import opened Machine
  import opened Symbols
  import opened ThroughputText
  import RiscvFrame
  import X86Frame

  function PrologueOf(isa: Isa): Program {
    if isa == Rv then RiscvFrame.Prologue() else X86Frame.Prologue()
  }

  function EpilogueOf(isa: Isa): Program {
    if isa == Rv then RiscvFrame.Epilogue() else X86Frame.Epilogue()
  }

  /** The label and the prologue of a function. */
  function Entry(isa: Isa, prefix: string, count: nat): (p: Program)
    ensures |p| == if isa == Rv then 20 else 23
  {
    [Label(TestTop(prefix, count))] + PrologueOf(isa)
  }

  function Fn(isa: Isa, t: Throughput, count: nat): Program
    requires Assigned(t, count)
  {
    Entry(isa, t.prefix, count) + t.init + LoopOf(isa, t, count) + EpilogueOf(isa)
  }

  function Functions(isa: Isa, t: Throughput, counts: seq<nat>): (r: seq<Program>)
    requires forall i :: 0 <= i < |counts| ==> Assigned(t, counts[i])
    ensures |r| == |counts|
  {
    seq(|counts|, i requires 0 <= i < |counts| => Fn(isa, t, counts[i]))
  }

  method GenerateAsmThroughputTestFuncs(sb: StringBuilder<Instr>, isa: Isa, counts: seq<nat>, t: Throughput)
    requires forall i :: 0 <= i < |counts| ==> Assigned(t, counts[i])
    modifies sb
    ensures sb.lines == old(sb.lines) + Concat(Functions(isa, t, counts))
  {
    hide Fn, Concat;
    assert Functions(isa, t, counts[..0]) == [];
    NoPieces<Instr>();
    for i := 0 to |counts|
      invariant sb.lines == old(sb.lines) + Concat(Functions(isa, t, counts[..i]))
    {
      GenerateFunction(sb, isa, t, counts[i]);
      assert Functions(isa, t, counts[..i + 1]) == Functions(isa, t, counts[..i]) + [Fn(isa, t, counts[i])];
      ConcatOne(Functions(isa, t, counts[..i]), Fn(isa, t, counts[i]));
    }
    assert counts[..|counts|] == counts;
  }

  method GenerateFunction(sb: StringBuilder<Instr>, isa: Isa, t: Throughput, count: nat)
    requires Assigned(t, count)
    modifies sb
    ensures sb.lines == old(sb.lines) + Fn(isa, t, count)
  {
    hide PrologueOf, CountedLoop, EpilogueOf;
    sb.AppendLine(Label(TestTop(t.prefix, count)));
    sb.AppendLines(PrologueOf(isa));
    sb.AppendLines(t.init);
    AppendLoop(sb, isa, t, count);
    sb.AppendLines(EpilogueOf(isa));
  }

  lemma EntryLabel(isa: Isa, prefix: string, count: nat)
    ensures UniqueLabels(Entry(isa, prefix, count)) && LabelsIn(Entry(isa, prefix, count)) == {TestTop(prefix, count)}
    ensures Unlabelled(EpilogueOf(isa))
  {
    hide Unlabelled, RiscvFrame.Prologue, RiscvFrame.Epilogue, X86Frame.Prologue, X86Frame.Epilogue, UniqueLabels, LabelsIn;
    FramesUnlabelled();
    SingleFirst(TestTop(prefix, count), PrologueOf(isa));
  }

  lemma FramesUnlabelled()
    ensures Unlabelled(RiscvFrame.Prologue()) && Unlabelled(RiscvFrame.Epilogue())
    ensures Unlabelled(X86Frame.Prologue()) && Unlabelled(X86Frame.Epilogue())
  {
  }

  lemma SingleFirst(x: Symbol, rest: Program)
    requires Unlabelled(rest)
    ensures UniqueLabels([Label(x)] + rest) && LabelsIn([Label(x)] + rest) == {x}
  {
    SingleLabel([Label(x)] + rest, 0, x);
  }

  lemma FnLabels(isa: Isa, t: Throughput, count: nat)
    requires Assigned(t, count) && TextsUnlabelled(t)
    ensures UniqueLabels(Fn(isa, t, count)) && LabelsIn(Fn(isa, t, count)) == {TestTop(t.prefix, count), TestStart(t.prefix, count)}
  {
    hide UniqueLabels, LabelsIn, Entry, CountedLoop, EpilogueOf, Unlabelled;
    var o, l, e := Entry(isa, t.prefix, count), LoopOf(isa, t, count), EpilogueOf(isa);
    EntryLabel(isa, t.prefix, count);
    LoopLabel(isa, t, count);
    UnlabelledUnique(t.init);
    UnlabelledUnique(e);
    LabelsAppend(o, t.init);
    UniqueAppend(o, t.init);
    LabelsAppend(o + t.init, l);
    UniqueAppend(o + t.init, l);
    LabelsAppend(o + t.init + l, e);
    UniqueAppend(o + t.init + l, e);
  }

  /** For distinct counts no label of a listing of tests is defined twice. */
  lemma ListingUnique(isa: Isa, t: Throughput, counts: seq<nat>)
    requires Distinct(counts) && TextsUnlabelled(t) && forall i :: 0 <= i < |counts| ==> Assigned(t, counts[i])
    ensures UniqueLabels(Concat(Functions(isa, t, counts)))
    ensures forall x :: x in LabelsIn(Concat(Functions(isa, t, counts))) ==> x.TestTop? || x.TestStart?
  {
    hide UniqueLabels, LabelsIn, Concat, Fn, TextsUnlabelled;
    var pieces := Functions(isa, t, counts);
    forall i | 0 <= i < |counts|
      ensures UniqueLabels(pieces[i]) && LabelsIn(pieces[i]) == {TestTop(t.prefix, counts[i]), TestStart(t.prefix, counts[i])}
    {
      FnLabels(isa, t, counts[i]);
    }
    ConcatUnique(pieces);
  }

  /** Function i of a listing that starts with the functions of the counts. */
  lemma ListingAt(isa: Isa, t: Throughput, counts: seq<nat>, rest: Program, i: nat) returns (p: nat)
    requires i < |counts| && forall i :: 0 <= i < |counts| ==> Assigned(t, counts[i])
    requires UniqueLabels(Concat(Functions(isa, t, counts)) + rest)
    ensures Embedded(Concat(Functions(isa, t, counts)) + rest, p, Fn(isa, t, counts[i]))
  {
    hide UniqueLabels, Concat, Fn, Embedded;
    var all := Concat(Functions(isa, t, counts));
    var prog := all + rest;
    assert At(prog, 0, prog);
    EmbedUnique(prog, 0, prog);
    assert prog == [] + all + rest;
    EmbedPart(prog, 0, [], all, rest);
    PieceAt(prog, 0, Functions(isa, t, counts), i);
    p := |Concat(Functions(isa, t, counts)[..i])|;
  }

  // ----- the parts of a function

  lemma FnParts(isa: Isa, prog: Program, p: nat, t: Throughput, count: nat)
    requires Assigned(t, count) && Embedded(prog, p, Fn(isa, t, count))
    ensures var loop := p + |Entry(isa, t.prefix, count)| + |t.init|; var size := |LoopOf(isa, t, count)|;
      && Embedded(prog, p, Entry(isa, t.prefix, count)) && Embedded(prog, p + |Entry(isa, t.prefix, count)|, t.init)
      && Embedded(prog, loop, LoopOf(isa, t, count)) && Embedded(prog, loop + size, EpilogueOf(isa))
  {
    hide Embedded, Entry, LoopOf, EpilogueOf;
    var a, l := Entry(isa, t.prefix, count), LoopOf(isa, t, count);
    assert Fn(isa, t, count) == (a + t.init) + l + EpilogueOf(isa);
    EmbedThree(prog, p, a + t.init, l, EpilogueOf(isa));
    assert a + t.init == a + t.init + [];
    EmbedThree(prog, p, a, t.init, []);
  }

  lemma EntryParts(isa: Isa, prog: Program, p: nat, prefix: string, count: nat)
    requires Embedded(prog, p, Entry(isa, prefix, count))
    ensures p < |prog| && prog[p] == Label(TestTop(prefix, count)) && Resolve(prog, TestTop(prefix, count)) == Some(p)
    ensures Embedded(prog, p + 1, PrologueOf(isa))
  {
    hide Embedded, PrologueOf, Resolve;
    var a: Program := [Label(TestTop(prefix, count))];
    assert Entry(isa, prefix, count) == a + PrologueOf(isa) + [];
    EmbedThree(prog, p, a, PrologueOf(isa), []);
    TopLine(prog, p, TestTop(prefix, count));
  }

  /** Where the function for a count stands in a listing of tests. */
  lemma Found(isa: Isa, t: Throughput, counts: seq<nat>, count: nat) returns (at: nat)
    requires Distinct(counts) && count in counts && (forall i :: 0 <= i < |counts| ==> Assigned(t, counts[i])) && TextsUnlabelled(t)
    ensures Assigned(t, count) && Embedded(Concat(Functions(isa, t, counts)), at, Fn(isa, t, count))
    ensures Resolve(Concat(Functions(isa, t, counts)), TestTop(t.prefix, count)) == Some(at)
  {
    hide UniqueLabels, Concat, Embedded, Fn, TextsUnlabelled, Resolve, Entry;
    var i :| 0 <= i < |counts| && counts[i] == count;
    ListingUnique(isa, t, counts);
    var all := Concat(Functions(isa, t, counts));
    assert all + [] == all;
    at := ListingAt(isa, t, counts, [], i);
    FnParts(isa, all, at, t, count);
    EntryParts(isa, all, at, t.prefix, count);
  }
}
