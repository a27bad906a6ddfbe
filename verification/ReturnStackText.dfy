/** The return-stack test as text: for each depth, a loop around a chain of calls that deep. */
module ReturnStackText {
  import opened Words
  import opened Listing
  import opened Machine
  import opened CallNest
  import opened Symbols
  import opened Riscv
  import X86

  function Head(isa: Isa, d: nat): (p: Program)
    ensures |p| == HeadSize(isa)
  {
    match isa
    case Rv =>
      [ Label(StackTop(d)),
        Op(Addi(Sp, Sp, -32)),
        Op(Sd(Ra, 24, Sp)),
        Op(Sd(S0, 16, Sp)),
        Op(Mv(S0, Sp)),
        Op(Mv(T0, Zero)),
        Label(StackLoop(d)),
        Op(Riscv.Call(StackFn(d, 0))),
        Op(Addi(A0, A0, -1)),
        Op(Bnez(A0, StackLoop(d))),
        Op(Ld(Ra, 24, Sp)),
        Op(Ld(S0, 16, Sp)),
        Op(Addi(Sp, Sp, 32)),
        Op(Ret())]
    case Amd =>
      [ Label(StackTop(d)),
        Op(X86.XorRR(Rax, Rax)),
        Label(StackLoop(d)),
        Op(CallPush(StackFn(d, 0))),
        Op(X86.Dec(Rdi)),
        Op(X86.Jne(StackLoop(d))),
        Op(ReturnPop)]
  }

  /** A function of the chain that calls the next one. */
  function Inner(isa: Isa, d: nat, i: nat): (p: Program)
    ensures |p| == InnerSize(isa)
  {
    match isa
    case Rv =>
      [ Global(StackFn(d, i)),
        Label(StackFn(d, i)),
        Op(Add(T0, T0, A0)),
        Op(Addi(Sp, Sp, -32)),
        Op(Sd(Ra, 24, Sp)),
        Op(Sd(S0, 16, Sp)),
        Op(Mv(S0, Sp)),
        Op(Riscv.Call(StackFn(d, i + 1))),
        Op(Ld(Ra, 24, Sp)),
        Op(Ld(S0, 16, Sp)),
        Op(Addi(Sp, Sp, 32)),
        Op(Ret())]
    case Amd =>
      [ Global(StackFn(d, i)),
        Label(StackFn(d, i)),
        Op(X86.AddRR(Rdi, Rax)),
        Op(CallPush(StackFn(d, i + 1))),
        Op(ReturnPop)]
  }

  /** The last function of the chain. */
  function Leaf(isa: Isa, d: nat, i: nat): (p: Program)
  {
    match isa
    case Rv =>
      [ Global(StackFn(d, i)),
        Label(StackFn(d, i)),
        Op(Add(T0, T0, A0)),
        Op(Ret())]
    case Amd =>
      [ Global(StackFn(d, i)),
        Label(StackFn(d, i)),
        Op(ReturnPop)]
  }

  function HeadSize(isa: Isa): nat { if isa == Rv then 14 else 7 }

  function InnerSize(isa: Isa): nat { if isa == Rv then 12 else 5 }

  /** The line after the call instruction, in the head and in an inner function alike. */
  function AfterCall(isa: Isa): nat { if isa == Rv then 8 else 4 }

  function Fn(isa: Isa, d: nat, i: nat): Program {
    if i + 1 < d then Inner(isa, d, i) else Leaf(isa, d, i)
  }

  /** The functions 0 .. i-1 of the chain. */
  function Chain(isa: Isa, d: nat, i: nat): Program {
    if i == 0 then [] else Chain(isa, d, i - 1) + Fn(isa, d, i - 1)
  }

  function Block(isa: Isa, d: nat): Program {
    Head(isa, d) + Chain(isa, d, d)
  }

  function Text(isa: Isa, counts: seq<nat>): Program {
    if counts == [] then [] else Text(isa, counts[..|counts| - 1]) + Block(isa, counts[|counts| - 1])
  }

  method GenerateRiscvAsm(sb: StringBuilder<Instr>, counts: seq<nat>)
    modifies sb
    ensures sb.lines == old(sb.lines) + Text(Rv, counts)
  {
    hide Head, Fn;
    for countIdx := 0 to |counts|
      invariant sb.lines == old(sb.lines) + Text(Rv, counts[..countIdx])
    {
      var callDepth := counts[countIdx];
      ghost var before := sb.lines;
      sb.AppendLines(Head(Rv, callDepth));
      for callIdx := 0 to callDepth
        invariant sb.lines == before + (Head(Rv, callDepth) + Chain(Rv, callDepth, callIdx))
      {
        AppendRiscvFunction(sb, callDepth, callIdx);
      }
      assert counts[..countIdx + 1][..countIdx] == counts[..countIdx];
    }
    assert counts[..|counts|] == counts;
  }

  /** The body of the inner loop. */
  method AppendRiscvFunction(sb: StringBuilder<Instr>, callDepth: nat, callIdx: nat)
    requires callIdx < callDepth
    modifies sb
    ensures sb.lines == old(sb.lines) + Fn(Rv, callDepth, callIdx)
  {
    var name := StackFn(callDepth, callIdx);
    sb.AppendLines([Global(name), Label(name), Op(Add(T0, T0, A0))]);
    if callIdx + 1 < callDepth {
      sb.AppendLines([
        Op(Addi(Sp, Sp, -32)),
        Op(Sd(Ra, 24, Sp)),
        Op(Sd(S0, 16, Sp)),
        Op(Mv(S0, Sp)),
        Op(Riscv.Call(StackFn(callDepth, callIdx + 1))),
        Op(Ld(Ra, 24, Sp)),
        Op(Ld(S0, 16, Sp)),
        Op(Addi(Sp, Sp, 32))]);
    }
    sb.AppendLine(Op(Ret()));
  }

  method GenerateX86GccAsm(sb: StringBuilder<Instr>, counts: seq<nat>)
    modifies sb
    ensures sb.lines == old(sb.lines) + Text(Amd, counts)
  {
    hide Head, Fn;
    for countIdx := 0 to |counts|
      invariant sb.lines == old(sb.lines) + Text(Amd, counts[..countIdx])
    {
      var callDepth := counts[countIdx];
      ghost var before := sb.lines;
      sb.AppendLines(Head(Amd, callDepth));
      for callIdx := 0 to callDepth
        invariant sb.lines == before + (Head(Amd, callDepth) + Chain(Amd, callDepth, callIdx))
      {
        AppendX86Function(sb, callDepth, callIdx);
      }
      assert counts[..countIdx + 1][..countIdx] == counts[..countIdx];
    }
    assert counts[..|counts|] == counts;
  }

  /** The body of the inner loop. */
  method AppendX86Function(sb: StringBuilder<Instr>, callDepth: nat, callIdx: nat)
    requires callIdx < callDepth
    modifies sb
    ensures sb.lines == old(sb.lines) + Fn(Amd, callDepth, callIdx)
  {
    var name := StackFn(callDepth, callIdx);
    sb.AppendLines([Global(name), Label(name)]);
    if callIdx + 1 < callDepth {
      sb.AppendLines([Op(X86.AddRR(Rdi, Rax)), Op(CallPush(StackFn(callDepth, callIdx + 1)))]);
    }
    sb.AppendLine(Op(ReturnPop));
  }

  // ----- where the parts stand

  /** The block for count d stands at line base, and line numbers fit a register. */
  ghost predicate Placed(isa: Isa, prog: Program, base: nat, d: nat) {
    Embedded(prog, base, Block(isa, d)) && |prog| < TWO64
  }

  /** The line where function i starts, the line of its label, and the line a call to it returns to. */
  function Place(isa: Isa, base: nat, i: nat): nat {
    base + HeadSize(isa) + InnerSize(isa) * i
  }

  function Entry(isa: Isa, base: nat, i: nat): nat { Place(isa, base, i) + 1 }

  function ReturnTo(isa: Isa, base: nat, i: nat): nat {
    (if i == 0 then base else Place(isa, base, i - 1)) + AfterCall(isa)
  }

  lemma {:induction false} ChainLength(isa: Isa, d: nat, i: nat)
    requires i < d
    ensures |Chain(isa, d, i)| == InnerSize(isa) * i
  {
    if i > 0 {
      ChainLength(isa, d, i - 1);
    }
  }

  lemma {:induction false} ChainPrefix(isa: Isa, d: nat, i: nat, j: nat)
    requires i <= j
    ensures |Chain(isa, d, i)| <= |Chain(isa, d, j)| && Chain(isa, d, j)[..|Chain(isa, d, i)|] == Chain(isa, d, i)
    decreases j
  {
    hide Fn;
    if i < j {
      ChainPrefix(isa, d, i, j - 1);
    }
  }

  lemma FnPlaced(isa: Isa, prog: Program, base: nat, d: nat, i: nat)
    requires Placed(isa, prog, base, d) && i < d
    ensures Embedded(prog, Place(isa, base, i), Fn(isa, d, i))
  {
    hide Fn, Embedded, At;
    ChainLength(isa, d, i);
    ChainPrefix(isa, d, i + 1, d);
    var rest := Chain(isa, d, d)[|Chain(isa, d, i + 1)|..];
    assert Block(isa, d) == (Head(isa, d) + Chain(isa, d, i)) + Fn(isa, d, i) + rest by {
      hide Head;
    }
    EmbedPart(prog, base, Head(isa, d) + Chain(isa, d, i), Fn(isa, d, i), rest);
  }

  lemma HeadPlaced(isa: Isa, prog: Program, base: nat, d: nat)
    requires Placed(isa, prog, base, d)
    ensures Embedded(prog, base, Head(isa, d))
  {
    hide Embedded, At;
    assert Block(isa, d) == [] + Head(isa, d) + Chain(isa, d, d);
    EmbedPart(prog, base, [], Head(isa, d), Chain(isa, d, d));
  }

  /** The calls to the functions i .. d-1 of the chain. */
  function Calls(isa: Isa, base: nat, d: nat, i: nat): (r: seq<Call>)
    requires i <= d
    ensures |r| == d - i
    decreases d - i
  {
    if i == d then [] else [Call(Entry(isa, base, i), ReturnTo(isa, base, i))] + Calls(isa, base, d, i + 1)
  }

  lemma NestedEmpty()
    ensures Nested([]) == []
  {
  }

  lemma NestedCalls(isa: Isa, base: nat, d: nat, i: nat)
    requires i < d
    ensures Nested(Calls(isa, base, d, i)) ==
      [Called(Entry(isa, base, i), ReturnTo(isa, base, i))] + Nested(Calls(isa, base, d, i + 1)) + [Returned(ReturnTo(isa, base, i))]
  {
    assert Calls(isa, base, d, i)[1..] == Calls(isa, base, d, i + 1);
  }

  lemma Predictions(isa: Isa, base: nat, d: nat, n: nat)
    ensures var chain := Repeat(Nested(Calls(isa, base, d, 0)), n);
      CallCount(chain) == n * d && forall c :: Misses(c, chain, []) == n * Excess(d, c)
  {
    hide Repeat, Nested, Misses, CallCount;
    RoundsPredicted(0, Calls(isa, base, d, 0), n);
    forall c
      ensures Misses(c, Repeat(Nested(Calls(isa, base, d, 0)), n), []) == n * Excess(d, c)
    {
      RoundsPredicted(c, Calls(isa, base, d, 0), n);
    }
  }

  // ----- the listing for a list of depths

  ghost predicate ChainLabels(labels: set<Symbol>, d: nat, i: nat) {
    forall x :: x in labels ==> x.StackFn? && x.count == d && x.depth < i
  }

  ghost predicate BlockLabels(labels: set<Symbol>, counts: seq<nat>) {
    forall x :: x in labels ==> (x.StackTop? || x.StackLoop? || x.StackFn?) && x.count in counts
  }

  lemma FnUnique(isa: Isa, d: nat, i: nat)
    ensures UniqueLabels(Fn(isa, d, i)) && LabelsIn(Fn(isa, d, i)) == {StackFn(d, i)}
  {
    var f := Fn(isa, d, i);
    assert f[1] == Label(StackFn(d, i));
    assert forall o :: 0 <= o < |f| && f[o].Label? ==> o == 1;
  }

  lemma {:induction false} ChainUnique(isa: Isa, d: nat, i: nat)
    ensures UniqueLabels(Chain(isa, d, i)) && ChainLabels(LabelsIn(Chain(isa, d, i)), d, i)
  {
    hide Fn, UniqueLabels, LabelsIn;
    if i == 0 {
      NoLabels();
    } else {
      ChainUnique(isa, d, i - 1);
      FnUnique(isa, d, i - 1);
      UniqueAppend(Chain(isa, d, i - 1), Fn(isa, d, i - 1));
      LabelsAppend(Chain(isa, d, i - 1), Fn(isa, d, i - 1));
    }
  }

  lemma NoLabels()
    ensures UniqueLabels<Instr>([]) && LabelsIn<Instr>([]) == {}
  {
  }

  lemma HeadUnique(isa: Isa, d: nat)
    ensures UniqueLabels(Head(isa, d)) && LabelsIn(Head(isa, d)) == {StackTop(d), StackLoop(d)}
  {
    var f := Head(isa, d);
    var loop := if isa == Rv then 6 else 2;
    assert f[0] == Label(StackTop(d)) && f[loop] == Label(StackLoop(d));
    assert forall o :: 0 <= o < |f| && f[o].Label? ==> o == 0 || o == loop;
  }

  lemma BlockUnique(isa: Isa, d: nat)
    ensures UniqueLabels(Block(isa, d)) && BlockLabels(LabelsIn(Block(isa, d)), [d])
  {
    hide Fn, Head, Chain, UniqueLabels, LabelsIn;
    HeadUnique(isa, d);
    ChainUnique(isa, d, d);
    UniqueAppend(Head(isa, d), Chain(isa, d, d));
    LabelsAppend(Head(isa, d), Chain(isa, d, d));
  }

  lemma {:induction false} TextUnique(isa: Isa, counts: seq<nat>)
    requires Distinct(counts)
    ensures UniqueLabels(Text(isa, counts)) && BlockLabels(LabelsIn(Text(isa, counts)), counts)
  {
    hide Block, UniqueLabels, LabelsIn;
    if counts == [] {
      NoLabels();
    } else {
      var front, d := counts[..|counts| - 1], counts[|counts| - 1];
      TextUnique(isa, front);
      BlockUnique(isa, d);
      UniqueAppend(Text(isa, front), Block(isa, d));
      LabelsAppend(Text(isa, front), Block(isa, d));
    }
  }

  lemma {:induction false} BlockAt(isa: Isa, counts: seq<nat>, ci: nat)
    requires ci < |counts|
    ensures At(Text(isa, counts), |Text(isa, counts[..ci])|, Block(isa, counts[ci]))
  {
    hide Block;
    var front := counts[..|counts| - 1];
    if ci < |counts| - 1 {
      BlockAt(isa, front, ci);
      assert front[..ci] == counts[..ci];
      var p, b := |Text(isa, counts[..ci])|, Block(isa, counts[ci]);
      assert Text(isa, counts)[p..p + |b|] == Text(isa, front)[p..p + |b|];
    }
  }

  lemma TopResolves(isa: Isa, prog: Program, base: nat, d: nat)
    requires Embedded(prog, base, Block(isa, d))
    ensures Resolve(prog, StackTop(d)) == Some(base)
  {
    hide Chain, Resolve, At;
    assert Block(isa, d)[0] == Head(isa, d)[0] == Label(StackTop(d));
  }
}
