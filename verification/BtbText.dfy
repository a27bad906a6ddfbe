/** The branch-target-buffer test for ARM as text: a chain of taken branches, each padded to a fixed spacing, and a
    loop back that is direct where a conditional branch reaches and indirect where it does not. */
module BtbText {
  import opened Words
  import opened Listing
  import opened Layout
  import opened Machine
  import opened Symbols

  datatype BranchType = Conditional | Unconditional | ZenMix

  /** A test: label prefix, distance between branches, kind of branch. */
  datatype Btb = Btb(prefix: string, spacing: nat, kind: BranchType)

  type Items = seq<Item<Instr>>

  const REACH := 1024 * 1024

  /** The loop back is direct when the chain is short enough. */
  predicate Direct(t: Btb, count: nat) {
    t.spacing * count < REACH - 20
  }

  function Branching(t: Btb, count: nat, k: nat): Instr {
    var target := BtbPart(t.prefix, count, k);
    match t.kind
    case Unconditional => Branch(Always, target)
    case Conditional => Branch(IfNonzero(X1), target)
    case ZenMix => if k % 2 == 0 then Branch(Always, target) else Branch(IfNonzero(X1), target)
  }

  /** The address of the function goes into x2 in two halves; x1 is never zero. */
  function Head(t: Btb, count: nat): (r: Items)
    ensures |r| == 6
  {
    [ Text(Label(BtbTop(t.prefix, count))),
      Text(Op(LoadLabel(X2, BtbTop(t.prefix, count)))),
      Text(Op(Alu(X2, Plus, R(X2), I(0), false))),
      Text(Op(Alu(X1, Plus, R(Zero), I(1), false))),
      Align(64),
      Text(Label(BtbHead(t.prefix, count)))]
  }

  function Link(t: Btb, count: nat, k: nat): (r: Items)
    ensures |r| == 3
  {
    [Text(Op(Branching(t, count, k))), Align(t.spacing), Text(Label(BtbPart(t.prefix, count, k)))]
  }

  /** The branches 1 .. n of the chain. */
  function Chain(t: Btb, count: nat, n: nat): Items {
    if n == 0 then [] else Chain(t, count, n - 1) + Link(t, count, n)
  }

  function Back(t: Btb, count: nat): Items {
    if Direct(t, count) then [Text(Op(Branch(IfNonzero(X0), BtbHead(t.prefix, count))))]
    else
      [ Text(Op(Branch(IfZero(X0), BtbExit(t.prefix, count)))),
        Text(Op(JumpReg(X2))),
        Text(Label(BtbExit(t.prefix, count)))]
  }

  function Tail(t: Btb, count: nat): Items {
    [Text(Op(Alu(X0, Minus, R(X0), I(1), false)))] + Back(t, count) + [Text(Op(ReturnLink(X30))), Align(t.spacing)]
  }

  function Fn(t: Btb, count: nat): Items
    requires count >= 1
  {
    Head(t, count) + Chain(t, count, count - 1) + Tail(t, count)
  }

  function All(t: Btb, counts: seq<nat>): Items
    requires forall i :: 0 <= i < |counts| ==> counts[i] >= 1
  {
    if counts == [] then [] else All(t, counts[..|counts| - 1]) + Fn(t, counts[|counts| - 1])
  }

  /** The buffer the ARM generator appends to, alignment directives included. */
  class ItemBuilder {
    var items: Items

    constructor ()
      ensures items == []
    {
      items := [];
    }

    method AppendItems(more: Items)
      modifies this
      ensures items == old(items) + more
    {
      items := items + more;
    }
  }

  method GenerateArmAsm(sb: ItemBuilder, t: Btb, counts: seq<nat>)
    requires forall i :: 0 <= i < |counts| ==> counts[i] >= 1
    modifies sb
    ensures sb.items == old(sb.items) + All(t, counts)
  {
    hide Fn;
    for i := 0 to |counts|
      invariant sb.items == old(sb.items) + All(t, counts[..i])
    {
      GenerateFunction(sb, t, counts[i]);
      assert counts[..i + 1][..i] == counts[..i];
    }
    assert counts[..|counts|] == counts;
  }

  method GenerateFunction(sb: ItemBuilder, t: Btb, count: nat)
    requires count >= 1
    modifies sb
    ensures sb.items == old(sb.items) + Fn(t, count)
  {
    hide Head, Link, Back;
    sb.AppendItems(Head(t, count));
    for branchIdx := 1 to count
      invariant sb.items == old(sb.items) + (Head(t, count) + Chain(t, count, branchIdx - 1))
    {
      sb.AppendItems(Link(t, count, branchIdx));
    }
    sb.AppendItems([Text(Op(Alu(X0, Minus, R(X0), I(1), false)))]);
    sb.AppendItems(Back(t, count));
    sb.AppendItems([Text(Op(ReturnLink(X30))), Align(t.spacing)]);
  }

  // ----- where the labels are

  /** The spacings the test allows: at least one instruction, and a divisor of the alignment of the loop. */
  predicate Spaced(t: Btb) {
    t.spacing >= INSTRUCTION && 64 % t.spacing == 0
  }

  lemma DivisorOf(a: nat, s: nat)
    requires s >= 1 && 64 % s == 0 && a % 64 == 0
    ensures a == a / 64 * (64 / s) * s
  {
    var q, h := 64 / s, a / 64;
    assert q * s == 64 && a == h * 64;
    assert h * q * s == h * (q * s);
  }

  /** The loop starts at a multiple of 64, at least three instructions behind the start of the function. */
  lemma HeadAddress(t: Btb, count: nat, a: nat)
    ensures End(Head(t, count), a) == RoundUp(a + 12, 64)
  {
    var h := Head(t, count);
    var h1, h2, h3, h4, h5 := h[..1], h[..2], h[..3], h[..4], h[..5];
    assert h[..5][..4] == h4 && h4[..3] == h3 && h3[..2] == h2 && h2[..1] == h1 && h1[..0] == [];
    assert End(h1, a) == a && End(h2, a) == a + 4 && End(h3, a) == a + 8 && End(h4, a) == a + 12;
    assert End(h5, a) == RoundUp(a + 12, 64);
  }

  lemma LinkAddress(t: Btb, count: nat, k: nat, a: nat)
    requires t.spacing >= 1
    ensures End(Link(t, count, k), a) == RoundUp(a + INSTRUCTION, t.spacing)
  {
    var l := Link(t, count, k);
    assert l[..2][..1] == l[..1] && l[..1][..0] == [];
    assert End(l[..1], a) == a + 4;
    assert End(l[..2], a) == RoundUp(a + 4, t.spacing);
  }

  /** From a loop head at a multiple of 64, label k is exactly k spacings on. */
  lemma {:induction false} LabelAddress(t: Btb, count: nat, k: nat, a: nat)
    requires Spaced(t) && a % 64 == 0
    ensures End(Chain(t, count, k), a) == a + k * t.spacing
    decreases k
  {
    hide RoundUp, Link;
    if k != 0 {
      LabelAddress(t, count, k - 1, a);
      EndAppend(Chain(t, count, k - 1), Link(t, count, k), a);
      LinkAddress(t, count, k, a + (k - 1) * t.spacing);
      DivisorOf(a, t.spacing);
      var m := a / 64 * (64 / t.spacing);
      assert a + (k - 1) * t.spacing == (m + (k - 1)) * t.spacing;
      RoundUpMultiple(t.spacing, m + (k - 1), INSTRUCTION);
      assert (m + (k - 1) + 1) * t.spacing == a + k * t.spacing;
    }
  }

  /** In a function assembled at any address, label k (the loop head for 0) lies k spacings behind the loop head, and the
      closing branch stands 4 bytes behind the last label. When the whole chain and 20 bytes more fit a megabyte, the way
      back to the head fits the 21 signed bits that a direct branch encodes. What follows the function is aligned again. */
  lemma FunctionLayout(t: Btb, count: nat, a: nat, k: nat)
    requires Spaced(t) && 1 <= count && k < count
    ensures var head := End(Head(t, count), a);
      && head % 64 == 0 && a + 12 <= head < a + 76
      && End(Head(t, count) + Chain(t, count, k), a) == head + k * t.spacing
      && var closing := End(Head(t, count) + Chain(t, count, count - 1), a) + 4;
           && closing == head + (count - 1) * t.spacing + 4
           && (t.spacing * count + 20 < 1024 * 1024 ==> -1024 * 1024 <= head - closing < 1024 * 1024)
    ensures End(Fn(t, count), a) % t.spacing == 0
  {
    hide RoundUp, Head, Chain;
    HeadAddress(t, count, a);
    RoundUpNext(a + 12, 64);
    var head := End(Head(t, count), a);
    EndAppend(Head(t, count), Chain(t, count, k), a);
    EndAppend(Head(t, count), Chain(t, count, count - 1), a);
    LabelAddress(t, count, k, head);
    LabelAddress(t, count, count - 1, head);
    assert (count - 1) * t.spacing == t.spacing * count - t.spacing;
    ChainBackwards(count, t.spacing);
    PaddedEnd(t, count, a);
  }

  /** What follows a function starts at a multiple of the spacing. */
  lemma PaddedEnd(t: Btb, count: nat, a: nat)
    requires t.spacing >= 1 && count >= 1
    ensures End(Fn(t, count), a) % t.spacing == 0
  {
    hide RoundUp, Head, Chain, Back;
    var f := Fn(t, count);
    assert f[|f| - 1] == Align(t.spacing);
    RoundUpNext(End(f[..|f| - 1], a), t.spacing);
  }

  lemma ChainBackwards(count: nat, spacing: nat)
    requires count >= 1
    ensures (count - 1) * spacing >= 0
  {
  }
}
