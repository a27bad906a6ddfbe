/** Assembly listings: the text the generators append to, and label resolution in it. */
module Listing {
  import opened Symbols

  /** A line of an assembly file over the instruction set I. */
  datatype Line<I> = Label(name: Symbol) | Global(name: Symbol) | Op(instr: I)

  datatype Option<T> = None | Some(value: T)

  /** The text buffer that every generator appends to. */
  class StringBuilder<I> {
    var lines: seq<Line<I>>

    constructor ()
      ensures lines == []
    {
      lines := [];
    }

    method AppendLine(line: Line<I>)
      modifies this
      ensures lines == old(lines) + [line]
    {
      lines := lines + [line];
    }

    /** Several consecutive AppendLine calls. */
    method AppendLines(more: seq<Line<I>>)
      modifies this
      ensures lines == old(lines) + more
    {
      lines := lines + more;
    }
  }

  /** The line number of the first definition of a label. */
  function Resolve<I>(prog: seq<Line<I>>, name: Symbol): (r: Option<nat>)
    ensures r.Some? ==> r.value < |prog| && prog[r.value] == Label(name)
  {
    if prog == [] then None
    else if prog[0] == Label(name) then Some(0)
    else match Resolve(prog[1..], name)
      case None => None
      case Some(i) => Some(i + 1)
  }

  /** A label that is defined resolves, to a line no later than any definition of it. */
  lemma {:induction false} ResolveDefined<I>(prog: seq<Line<I>>, i: nat)
    requires i < |prog| && prog[i].Label?
    ensures var r := Resolve(prog, prog[i].name); r.Some? && r.value <= i
  {
    if i > 0 && prog[0] != prog[i] {
      ResolveDefined(prog[1..], i - 1);
    }
  }

  /** No label is defined twice, which is what an assembler accepts. */
  ghost predicate UniqueLabels<I>(prog: seq<Line<I>>) {
    forall i, j :: 0 <= i < |prog| && 0 <= j < |prog| && prog[i].Label? && prog[i] == prog[j] ==> i == j
  }

  /** The block stands at line p of the listing. */
  ghost predicate At<I>(prog: seq<Line<I>>, p: nat, block: seq<Line<I>>) {
    p + |block| <= |prog| && prog[p..p + |block|] == block
  }

  /** In addition every label of the block resolves to its place in the block. */
  ghost predicate Embedded<I>(prog: seq<Line<I>>, p: nat, block: seq<Line<I>>) {
    && At(prog, p, block)
    && forall o :: 0 <= o < |block| && block[o].Label? ==> Resolve(prog, block[o].name) == Some(p + o)
  }

  lemma EmbedUnique<I>(prog: seq<Line<I>>, p: nat, block: seq<Line<I>>)
    requires UniqueLabels(prog) && At(prog, p, block)
    ensures Embedded(prog, p, block)
  {
    forall o | 0 <= o < |block| && block[o].Label?
      ensures Resolve(prog, block[o].name) == Some(p + o)
    {
      assert prog[p + o] == block[o];
      ResolveDefined(prog, p + o);
    }
  }

  lemma EmbedLines<I>(prog: seq<Line<I>>, p: nat, block: seq<Line<I>>)
    requires Embedded(prog, p, block)
    ensures p + |block| <= |prog|
    ensures forall o {:trigger block[o]} :: 0 <= o < |block| ==> prog[p + o] == block[o]
    ensures forall o {:trigger block[o]} :: 0 <= o < |block| && block[o].Label? ==> Resolve(prog, block[o].name) == Some(p + o)
  {
    forall o | 0 <= o < |block|
      ensures prog[p + o] == block[o]
    {
      assert prog[p..p + |block|][o] == prog[p + o];
    }
  }

  /** The parts of an embedded block are embedded. */
  lemma EmbedPart<I>(prog: seq<Line<I>>, p: nat, a: seq<Line<I>>, b: seq<Line<I>>, c: seq<Line<I>>)
    requires Embedded(prog, p, a + b + c)
    ensures Embedded(prog, p + |a|, b)
  {
    var block := a + b + c;
    forall o | 0 <= o < |b|
      ensures prog[p + |a| + o] == b[o]
    {
      assert block[|a| + o] == b[o];
      assert prog[p..p + |block|][|a| + o] == block[|a| + o];
    }
    assert prog[p + |a|..p + |a| + |b|] == b;
    forall o | 0 <= o < |b| && b[o].Label?
      ensures Resolve(prog, b[o].name) == Some(p + |a| + o)
    {
      assert block[|a| + o] == b[o];
    }
  }

  /** Six parts in a row. */
  lemma EmbedSix<I>(prog: seq<Line<I>>, p: nat, a: seq<Line<I>>, b: seq<Line<I>>, c: seq<Line<I>>,
                    d: seq<Line<I>>, e: seq<Line<I>>, f: seq<Line<I>>)
    requires Embedded(prog, p, a + b + c + d + e + f)
    ensures Embedded(prog, p, a) && Embedded(prog, p + |a|, b) && Embedded(prog, p + |a| + |b|, c)
    ensures Embedded(prog, p + |a| + |b| + |c|, d) && Embedded(prog, p + |a| + |b| + |c| + |d|, e)
    ensures Embedded(prog, p + |a| + |b| + |c| + |d| + |e|, f)
  {
    hide Embedded;
    assert a + b + c + d + e + f == [] + (a + b + c) + (d + e + f) == (a + b + c) + (d + e + f) + [];
    EmbedPart(prog, p, [], a + b + c, d + e + f);
    EmbedPart(prog, p, a + b + c, d + e + f, []);
    EmbedThree(prog, p, a, b, c);
    EmbedThree(prog, p + |a| + |b| + |c|, d, e, f);
  }

  lemma EmbedThree<I>(prog: seq<Line<I>>, p: nat, a: seq<Line<I>>, b: seq<Line<I>>, c: seq<Line<I>>)
    requires Embedded(prog, p, a + b + c)
    ensures Embedded(prog, p, a) && Embedded(prog, p + |a|, b) && Embedded(prog, p + |a| + |b|, c)
  {
    hide Embedded;
    assert a + b + c == [] + a + (b + c) == (a + b) + c + [];
    EmbedPart(prog, p, [], a, b + c);
    EmbedPart(prog, p, a, b, c);
    EmbedPart(prog, p, a + b, c, []);
  }

  ghost function LabelsIn<I>(prog: seq<Line<I>>): set<Symbol> {
    set i | 0 <= i < |prog| && prog[i].Label? :: prog[i].name
  }

  lemma LabelsAppend<I>(a: seq<Line<I>>, b: seq<Line<I>>)
    ensures LabelsIn(a + b) == LabelsIn(a) + LabelsIn(b)
  {
    forall x | x in LabelsIn(b)
      ensures x in LabelsIn(a + b)
    {
      var i :| 0 <= i < |b| && b[i] == Label(x);
      assert (a + b)[|a| + i] == Label(x);
    }
    forall x | x in LabelsIn(a)
      ensures x in LabelsIn(a + b)
    {
      var i :| 0 <= i < |a| && a[i] == Label(x);
      assert (a + b)[i] == Label(x);
    }
  }

  lemma UniqueAppend<I>(a: seq<Line<I>>, b: seq<Line<I>>)
    requires UniqueLabels(a) && UniqueLabels(b) && LabelsIn(a) !! LabelsIn(b)
    ensures UniqueLabels(a + b)
  {
    forall i | 0 <= i < |a| && a[i].Label?
      ensures a[i].name in LabelsIn(a)
    {}
    forall i | 0 <= i < |b| && b[i].Label?
      ensures b[i].name in LabelsIn(b)
    {}
  }

  /** No count is listed twice. */
  ghost predicate Distinct(counts: seq<nat>) {
    forall i, j :: 0 <= i < j < |counts| ==> counts[i] != counts[j]
  }

  // ----- listings made of pieces

  function Concat<I>(pieces: seq<seq<Line<I>>>): seq<Line<I>> {
    if pieces == [] then [] else Concat(pieces[..|pieces| - 1]) + pieces[|pieces| - 1]
  }

  lemma ConcatOne<I>(pieces: seq<seq<Line<I>>>, piece: seq<Line<I>>)
    ensures Concat(pieces + [piece]) == Concat(pieces) + piece
  {
    assert (pieces + [piece])[..|pieces|] == pieces;
  }

  /** Piece i stands behind the pieces before it. */
  lemma {:induction false} PieceAt<I>(prog: seq<Line<I>>, p: nat, pieces: seq<seq<Line<I>>>, i: nat)
    requires Embedded(prog, p, Concat(pieces)) && i < |pieces|
    ensures Embedded(prog, p + |Concat(pieces[..i])|, pieces[i])
    ensures |Concat(pieces[..i + 1])| == |Concat(pieces[..i])| + |pieces[i]|
    decreases |pieces|
  {
    hide Embedded;
    var front := pieces[..|pieces| - 1];
    assert pieces[..i + 1][..i] == pieces[..i];
    if i == |pieces| - 1 {
      assert pieces[..i + 1] == pieces;
      assert Concat(pieces) == Concat(front) + pieces[i] + [];
      EmbedPart(prog, p, Concat(front), pieces[i], []);
    } else {
      assert Concat(pieces) == [] + Concat(front) + pieces[|pieces| - 1];
      EmbedPart(prog, p, [], Concat(front), pieces[|pieces| - 1]);
      PieceAt(prog, p, front, i);
      assert front[..i] == pieces[..i] && front[..i + 1] == pieces[..i + 1];
    }
  }

  ghost predicate PiecesDisjoint<I>(pieces: seq<seq<Line<I>>>) {
    forall i, j :: 0 <= i < j < |pieces| ==> LabelsIn(pieces[i]) !! LabelsIn(pieces[j])
  }

  lemma {:induction false} ConcatUnique<I>(pieces: seq<seq<Line<I>>>)
    requires PiecesDisjoint(pieces) && forall i :: 0 <= i < |pieces| ==> UniqueLabels(pieces[i])
    ensures UniqueLabels(Concat(pieces))
    ensures forall x :: x in LabelsIn(Concat(pieces)) ==> exists i :: 0 <= i < |pieces| && x in LabelsIn(pieces[i])
    decreases |pieces|
  {
    hide UniqueLabels, LabelsIn;
    if pieces == [] {
      Empty<I>();
    } else {
      var front, last := pieces[..|pieces| - 1], pieces[|pieces| - 1];
      ConcatUnique(front);
      forall x | x in LabelsIn(Concat(front))
        ensures x !in LabelsIn(last) && exists i :: 0 <= i < |pieces| && x in LabelsIn(pieces[i])
      {
        var i :| 0 <= i < |front| && x in LabelsIn(front[i]);
        assert front[i] == pieces[i];
      }
      UniqueAppend(Concat(front), last);
      LabelsAppend(Concat(front), last);
    }
  }

  lemma Empty<I>()
    ensures UniqueLabels<I>([]) && LabelsIn<I>([]) == {}
  {
  }

  ghost predicate Unlabelled<I>(prog: seq<Line<I>>) {
    forall i :: 0 <= i < |prog| ==> !prog[i].Label?
  }

  lemma UnlabelledUnique<I>(prog: seq<Line<I>>)
    requires Unlabelled(prog)
    ensures UniqueLabels(prog) && LabelsIn(prog) == {}
  {
  }

  /** Pieces of the same length. */
  lemma {:induction false} ConcatLength<I>(pieces: seq<seq<Line<I>>>, n: nat)
    requires forall i :: 0 <= i < |pieces| ==> |pieces[i]| == n
    ensures |Concat(pieces)| == |pieces| * n
    decreases |pieces|
  {
    if pieces != [] {
      ConcatLength(pieces[..|pieces| - 1], n);
      assert |pieces| * n == (|pieces| - 1) * n + n;
    }
  }

  lemma {:induction false} UnlabelledConcat<I>(pieces: seq<seq<Line<I>>>)
    requires forall i :: 0 <= i < |pieces| ==> Unlabelled(pieces[i])
    ensures Unlabelled(Concat(pieces))
    decreases |pieces|
  {
    if pieces != [] {
      UnlabelledConcat(pieces[..|pieces| - 1]);
    }
  }

  /** A block with one label line. */
  lemma SingleLabel<I>(prog: seq<Line<I>>, o: nat, x: Symbol)
    requires o < |prog| && prog[o] == Label(x) && forall i :: 0 <= i < |prog| && prog[i].Label? ==> i == o
    ensures UniqueLabels(prog) && LabelsIn(prog) == {x}
  {
  }

  lemma TopLine<I>(prog: seq<Line<I>>, p: nat, x: Symbol)
    requires Embedded(prog, p, [Label(x)])
    ensures p < |prog| && prog[p] == Label(x) && Resolve(prog, x) == Some(p)
  {
    hide Embedded, Resolve;
    var f: seq<Line<I>> := [Label(x)];
    EmbedLines(prog, p, f);
    assert f[0].Label?;
  }

  lemma NoPieces<I>()
    ensures Concat<I>([]) == []
  {
  }
}
