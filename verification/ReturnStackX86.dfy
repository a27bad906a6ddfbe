/** The x86-64 return-stack test: calls push their return address, and only the inner functions add. */
module ReturnStackX86 {
  import opened Words
  import opened Listing
  import opened Machine
  import opened X86
  import opened CallNest
  import opened ReturnStackText
  import opened Sums
  import opened Symbols

  lemma FnLines(prog: Program, base: nat, d: nat, i: nat)
    requires Placed(Amd, prog, base, d) && i < d
    ensures var p := Place(Amd, base, i);
      && p + 3 <= |prog| < TWO64
      && prog[p + 1] == Label(StackFn(d, i)) && Resolve(prog, StackFn(d, i)) == Some(Entry(Amd, base, i))
      && (i + 1 == d ==> prog[p + 2] == Op(ReturnPop))
      && (i + 1 < d ==>
        && p + 5 <= |prog|
        && prog[p + 2] == Op(AddRR(Rdi, Rax))
        && prog[p + 3] == Op(CallPush(StackFn(d, i + 1)))
        && prog[p + 4] == Op(ReturnPop))
  {
    hide Embedded, At, Resolve, Block;
    FnPlaced(Amd, prog, base, d, i);
    var f := Fn(Amd, d, i);
    EmbedLines(prog, Place(Amd, base, i), f);
    assert f[1] == Label(StackFn(d, i));
    assert f[2].Op?;
    if i + 1 < d {
      assert f[3].Op? && f[4].Op?;
    }
  }

  lemma ReturnFits(prog: Program, base: nat, d: nat, i: nat)
    requires Placed(Amd, prog, base, d) && i + 1 < d
    ensures ReturnTo(Amd, base, i + 1) < TWO64
  {
    hide Placed, Resolve;
    FnLines(prog, base, d, i);
  }

  lemma HeadLines(prog: Program, base: nat, d: nat)
    requires Placed(Amd, prog, base, d)
    ensures base + 7 <= |prog| < TWO64
      && prog[base] == Label(StackTop(d))
      && prog[base + 1] == Op(XorRR(Rax, Rax))
      && prog[base + 2] == Label(StackLoop(d)) && Resolve(prog, StackLoop(d)) == Some(base + 2)
      && prog[base + 3] == Op(CallPush(StackFn(d, 0)))
      && prog[base + 4] == Op(Dec(Rdi))
      && prog[base + 5] == Op(Jne(StackLoop(d)))
      && prog[base + 6] == Op(ReturnPop)
  {
    hide Embedded, At, Block, Resolve;
    HeadPlaced(Amd, prog, base, d);
    var f := Head(Amd, d);
    EmbedLines(prog, base, f);
    assert f[0].Label? && f[2].Label? && f[1].Op? && f[3].Op? && f[4].Op? && f[5].Op? && f[6].Op?;
  }

  /** The registers that neither the chain nor its loop uses are as they were. */
  ghost predicate Others(s: State, e: State) {
    forall r :: r != Rax && r != Rdi && r != Sp ==> Get(e, r) == Get(s, r)
  }

  lemma OthersTrans(s: State, s': State, e: State)
    requires Others(s, s') && Others(s', e)
    ensures Others(s, e)
  {
    hide Get;
  }

  /** What a call that returns to line `to` leaves behind: depth more bytes of stack were used below
      the return address, which is popped. */
  ghost predicate Returns(s: State, e: State, depth: nat, to: nat) {
    && e.ok && depth <= Get(s, Sp) && e.pc == to
    && Get(e, Sp) == Get(s, Sp) + 8 && Get(e, Rdi) == Get(s, Rdi)
    && AgreeOutside(s.mem, e.mem, Get(s, Sp) - depth, Get(s, Sp))
    && e.low == Min(s.low, Get(s, Sp) - depth)
  }

  /** From the label of a function that is not the last to the label of the next one. */
  lemma Enter(prog: Program, base: nat, d: nat, i: nat, s: State, to: Word) returns (e: State)
    requires Placed(Amd, prog, base, d) && i + 1 < d && to == ReturnTo(Amd, base, i + 1)
    requires s.ok && s.pc == Entry(Amd, base, i) && 8 <= Get(s, Sp) && s.low <= Get(s, Sp)
    ensures e == Run(prog, s, 3)
      && e.ok && e.pc == Entry(Amd, base, i + 1) && Get(e, Sp) == Get(s, Sp) - 8 && Get(e, Rdi) == Get(s, Rdi)
      && Get(e, Rax) == Wrap(Get(s, Rax) + Get(s, Rdi))
      && e.mem == Store64(s.mem, Get(s, Sp) - 8, to)
      && e.low == Min(s.low, Get(s, Sp) - 8)
      && e.log == s.log + [Called(Entry(Amd, base, i + 1), to)] && Others(s, e)
  {
    hide Step, Exec, Get, Placed, Store64, Resolve, XorWord, BitAnd, Pow2;
    FnLines(prog, base, d, i);
    FnLines(prog, base, d, i + 1);
    var p := Place(Amd, base, i);
    var s1 := StepMark(prog, s, p + 1);
    var s2 := StepFlags(prog, s1, p + 2, Rax, Plus, R(Rax), R(Rdi), Wrap(Get(s, Rax) + Get(s, Rdi)));
    e := StepCallPush(prog, s2, p + 3, StackFn(d, i + 1), Entry(Amd, base, i + 1));
  }

  lemma LeafRuns(prog: Program, base: nat, d: nat, s: State)
    requires Placed(Amd, prog, base, d) && d >= 1
    requires s.ok && s.pc == Entry(Amd, base, d - 1) && s.low <= Get(s, Sp) && Get(s, Sp) + 8 < TWO64
    ensures var e := Run(prog, s, 2); var to := Load64(s.mem, Get(s, Sp));
      Returns(s, e, 0, to) && Get(e, Rax) == Get(s, Rax) && e.log == s.log + [Returned(to)] && Others(s, e)
  {
    hide Step, Exec, Get, Placed, Load64, Resolve, XorWord, BitAnd, Pow2;
    FnLines(prog, base, d, d - 1);
    var p := Place(Amd, base, d - 1);
    var s1 := StepMark(prog, s, p + 1);
    var s2 := StepReturnPop(prog, s1, p + 2, Load64(s.mem, Get(s, Sp)));
  }

  /** Function i and everything it calls: each of the d - 1 - i functions that are not last adds rdi to rax. */
  lemma {:induction false} FnRuns(prog: Program, base: nat, d: nat, i: nat, s: State) returns (k: nat)
    requires Placed(Amd, prog, base, d) && i < d
    requires s.ok && s.pc == Entry(Amd, base, i) && Load64(s.mem, Get(s, Sp)) == ReturnTo(Amd, base, i)
    requires 8 * (d - 1 - i) <= Get(s, Sp) && Get(s, Sp) + 8 < TWO64 && s.low <= Get(s, Sp)
    ensures var e := Run(prog, s, k);
      && Returns(s, e, 8 * (d - 1 - i), ReturnTo(Amd, base, i))
      && Get(e, Rax) == Scaled(Get(s, Rax), d - 1 - i, Get(s, Rdi))
      && e.log == s.log + Nested(Calls(Amd, base, d, i + 1)) + [Returned(ReturnTo(Amd, base, i))] && Others(s, e)
    ensures k == 4 * (d - 1 - i) + 2
    decreases d - i
  {
    hide Others, Run, Get, Placed, Store64, Load64, AgreeOutside, Nested, Scaled, Wrap, Returns, Calls, ReturnTo;
    if i + 1 == d {
      LeafRuns(prog, base, d, s);
      k := 2;
      NestedEmpty();
      NoCalls(base, d);
      NoStep(Get(s, Rax), Get(s, Rdi));
    } else {
      ReturnFits(prog, base, d, i);
      var sp, to: Word := Get(s, Sp), ReturnTo(Amd, base, i + 1);
      var s1 := Enter(prog, base, d, i, s, to);
      Store64Laws(s.mem, sp - 8, to);
      var k1 := FnRuns(prog, base, d, i + 1, s1);
      var s2 := Run(prog, s1, k1);
      var s3 := Comeback(prog, base, d, i, s, s1, s2, to);
      RunAdd(prog, s1, k1, 1);
      RunAdd(prog, s, 3, k1 + 1);
      k := 3 + (k1 + 1);
      OthersTrans(s, s1, s2);
      OthersTrans(s, s2, s3);
      SumStep(Get(s, Rax), d - 1 - i, Get(s, Rdi));
      NestedCalls(Amd, base, d, i + 1);
    }
  }

  lemma NoCalls(base: nat, d: nat)
    ensures Calls(Amd, base, d, d) == []
  {
  }

  /** The return that follows the callee's. */
  lemma Comeback(prog: Program, base: nat, d: nat, i: nat, s: State, s1: State, s2: State, to: Word) returns (e: State)
    requires Placed(Amd, prog, base, d) && i + 1 < d && to == ReturnTo(Amd, base, i + 1) && 8 * (d - 1 - i) <= Get(s, Sp)
    requires Get(s, Sp) + 8 < TWO64 && s.low <= Get(s, Sp)
    requires Get(s1, Sp) == Get(s, Sp) - 8 && Get(s1, Rdi) == Get(s, Rdi) && s1.mem == Store64(s.mem, Get(s, Sp) - 8, to)
    requires s1.low == Min(s.low, Get(s, Sp) - 8)
    requires Returns(s1, s2, 8 * (d - 2 - i), to)
    ensures e == Run(prog, s2, 1) && Returns(s, e, 8 * (d - 1 - i), Load64(s.mem, Get(s, Sp))) && Get(e, Rax) == Get(s2, Rax) && Others(s2, e)
    ensures e.log == s2.log + [Returned(Load64(s.mem, Get(s, Sp)))]
  {
    hide Run, Get, Placed, Store64, Load64, AgreeOutside;
    SlotKept(s.mem, s2.mem, Get(s, Sp), Get(s, Sp) - 8 * (d - 1 - i), to);
    e := Leave(prog, base, d, i, s2);
  }

  lemma NoStep(t: Word, a: Word)
    ensures Scaled(t, 0, a) == t
  {
  }

  /** The memory at and above a function's return address survives its callee. */
  lemma SlotKept(m: Memory, m': Memory, sp: nat, lo: nat, to: Word)
    requires lo + 8 <= sp && AgreeOutside(Store64(m, sp - 8, to), m', lo, sp - 8)
    ensures Load64(m', sp) == Load64(m, sp) && AgreeOutside(m, m', lo, sp)
  {
    hide Load64, Store64;
    Store64Laws(m, sp - 8, to);
    Load64Agree(m, m', sp);
  }

  lemma Leave(prog: Program, base: nat, d: nat, i: nat, s: State) returns (e: State)
    requires Placed(Amd, prog, base, d) && i + 1 < d
    requires s.ok && s.pc == Place(Amd, base, i) + 4 && Get(s, Sp) + 8 < TWO64 && s.low <= Get(s, Sp)
    ensures e == Run(prog, s, 1) && Wrote(s, e, Sp, Get(s, Sp) + 8, Load64(s.mem, Get(s, Sp)))
    ensures e.mem == s.mem && e.log == s.log + [Returned(Load64(s.mem, Get(s, Sp)))]
  {
    hide Step, Exec, Get, Placed, Load64, Resolve, XorWord, BitAnd, Pow2;
    FnLines(prog, base, d, i);
    e := StepReturnPop(prog, s, Place(Amd, base, i) + 4, Load64(s.mem, Get(s, Sp)));
  }

  // ----- the loop around the chain

  lemma Prologue(prog: Program, base: nat, d: nat, s: State) returns (e: State)
    requires Placed(Amd, prog, base, d) && s.ok && s.pc == base && s.low <= Get(s, Sp)
    ensures e == Run(prog, s, 2) && Wrote(s, e, Rax, 0, base + 2) && e.mem == s.mem && e.log == s.log
  {
    hide Step, Exec, Get, Placed, Resolve, XorWord, BitAnd, Pow2;
    HeadLines(prog, base, d);
    XorWordSelf(Get(s, Rax));
    var s1 := StepMark(prog, s, base);
    e := StepFlags(prog, s1, base + 1, Rax, ExOr, R(Rax), R(Rax), 0);
  }

  lemma RoundCall(prog: Program, base: nat, d: nat, s: State, to: Word) returns (e: State)
    requires Placed(Amd, prog, base, d) && d >= 1 && s.ok && s.pc == base + 2 && Get(s, Sp) >= 8 && to == base + 4
    ensures e == Run(prog, s, 2) && Wrote(s, e, Sp, Get(s, Sp) - 8, Entry(Amd, base, 0))
    ensures e.mem == Store64(s.mem, Get(s, Sp) - 8, to) && e.log == s.log + [Called(Entry(Amd, base, 0), base + 4)]
    ensures Others(s, e)
  {
    hide Step, Exec, Get, Placed, Resolve, Store64, XorWord, BitAnd, Pow2;
    HeadLines(prog, base, d);
    FnLines(prog, base, d, 0);
    var s1 := StepMark(prog, s, base + 2);
    e := StepCallPush(prog, s1, base + 3, StackFn(d, 0), Entry(Amd, base, 0));
  }

  lemma RoundEnd(prog: Program, base: nat, d: nat, s: State) returns (e: State)
    requires Placed(Amd, prog, base, d) && s.ok && s.pc == base + 4
    ensures e == Run(prog, s, 2) && e.mem == s.mem && e.log == s.log && Others(s, e)
    ensures var a := Wrap(Get(s, Rdi) - 1); Wrote(s, e, Rdi, a, if a != 0 then base + 2 else base + 6)
  {
    hide Step, Exec, Get, Placed, Resolve, XorWord, BitAnd, Pow2;
    HeadLines(prog, base, d);
    var a := Wrap(Get(s, Rdi) - 1);
    var s1 := StepFlags(prog, s, base + 4, Rdi, Minus, R(Rdi), I(1), a);
    e := StepBranch(prog, s1, base + 5, IfFlag(false), StackLoop(d), base + 2);
  }

  lemma Round(prog: Program, base: nat, d: nat, s: State) returns (k: nat)
    requires Placed(Amd, prog, base, d) && d >= 1
    requires s.ok && s.pc == base + 2 && 8 * d <= Get(s, Sp) && s.low <= Get(s, Sp)
    ensures var e := Run(prog, s, k); var a := Wrap(Get(s, Rdi) - 1);
      && e.ok && e.pc == (if a != 0 then base + 2 else base + 6) && Get(e, Rdi) == a && Get(e, Sp) == Get(s, Sp)
      && Get(e, Rax) == Scaled(Get(s, Rax), d - 1, Get(s, Rdi))
      && AgreeOutside(s.mem, e.mem, Get(s, Sp) - 8 * d, Get(s, Sp))
      && e.low == Min(s.low, Get(s, Sp) - 8 * d)
      && e.log == s.log + Nested(Calls(Amd, base, d, 0)) && Others(s, e)
    ensures k == 4 * d + 2
  {
    hide Others, Run, Step, Exec, Get, Placed, Resolve, AgreeOutside, Nested, Calls, Store64, Load64, XorWord, BitAnd, Pow2;
    BaseFits(prog, base, d);
    var sp := Get(s, Sp);
    var s2 := RoundCall(prog, base, d, s, base + 4);
    Store64Laws(s.mem, sp - 8, base + 4);
    var k1 := FnRuns(prog, base, d, 0, s2);
    var s3 := Run(prog, s2, k1);
    SlotKept(s.mem, s3.mem, sp, sp - 8 * d, base + 4);
    var s5 := RoundEnd(prog, base, d, s3);
    RunAdd(prog, s2, k1, 2);
    RunAdd(prog, s, 2, k1 + 2);
    k := 2 + (k1 + 2);
    OthersTrans(s, s2, s3);
    OthersTrans(s, s3, s5);
    NestedCalls(Amd, base, d, 0);
  }

  lemma BaseFits(prog: Program, base: nat, d: nat)
    requires Placed(Amd, prog, base, d)
    ensures base + 7 < TWO64
  {
    hide Placed, Resolve;
    HeadLines(prog, base, d);
  }

  lemma {:induction false} Rounds(prog: Program, base: nat, d: nat, m: nat, s: State) returns (k: nat)
    requires Placed(Amd, prog, base, d) && d >= 1 && 1 <= m <= TWO64
    requires s.ok && s.pc == base + 2 && Get(s, Rdi) == Wrap(m)
    requires 8 * d <= Get(s, Sp) && s.low <= Get(s, Sp)
    ensures var e := Run(prog, s, k);
      && e.ok && e.pc == base + 6 && Get(e, Rdi) == 0 && Get(e, Sp) == Get(s, Sp)
      && Get(e, Rax) == Scaled(Get(s, Rax), d - 1, Sum(m))
      && AgreeOutside(s.mem, e.mem, Get(s, Sp) - 8 * d, Get(s, Sp))
      && e.low == Min(s.low, Get(s, Sp) - 8 * d)
      && e.log == s.log + Repeat(Nested(Calls(Amd, base, d, 0)), m) && Others(s, e)
    ensures k == Product(m, 4 * d + 2)
    decreases m
  {
    hide Others, Product, Run, Step, Exec, Get, Placed, Nested, Calls, Scaled, AgreeOutside, XorWord, BitAnd, Pow2;
    var k1 := Round(prog, base, d, s);
    var s1 := Run(prog, s, k1);
    var t, round := Get(s, Rax), Nested(Calls(Amd, base, d, 0));
    WrapProduct(t, d - 1, m, Sum(m - 1));
    assert Repeat(round, m) == round + Repeat(round, m - 1);
    ProductMore(m, 4 * d + 2);
    if m == 1 {
      k := k1;
      assert Repeat(round, 0) == [];
    } else {
      var k2 := Rounds(prog, base, d, m - 1, s1);
      RunAdd(prog, s, k1, k2);
      k := k1 + k2;
      OthersTrans(s, s1, Run(prog, s1, k2));
      AgreeTrans(s.mem, s1.mem, Run(prog, s1, k2).mem, Get(s, Sp) - 8 * d, Get(s, Sp));
    }
  }

  lemma Epilogue(prog: Program, base: nat, d: nat, s: State, to: Word) returns (e: State)
    requires Placed(Amd, prog, base, d)
    requires s.ok && s.pc == base + 6 && Get(s, Sp) + 8 < TWO64 && Load64(s.mem, Get(s, Sp)) == to && s.low <= Get(s, Sp)
    ensures e == Run(prog, s, 1) && Wrote(s, e, Sp, Get(s, Sp) + 8, to)
    ensures e.mem == s.mem && e.log == s.log + [Returned(to)]
  {
    hide Step, Exec, Get, Placed, Load64, Resolve, XorWord, BitAnd, Pow2;
    HeadLines(prog, base, d);
    e := StepReturnPop(prog, s, base + 6, to);
  }

  /** The listing for any list of distinct depths: calling the function for depth d with iteration count n
      (zero standing for 2^64) and return address `to` on the stack returns there with the caller's memory
      intact, having used exactly 8*d bytes below that address, left (d-1)*n*(n+1)/2 in rax (the last
      function of the chain does not add), and made n*d chain calls, every one matched by its return;
      a return-address stack of capacity c mispredicts exactly n*max(0, d-c) of the chain's returns. Every other
      register is as before but rdi, which is zero, and the call passes 3 + n*(4*d + 2) lines. */
  lemma ReturnStackTest(counts: seq<nat>, d: nat, n: nat, s: State, to: Word) returns (k: nat)
    requires Distinct(counts) && d in counts && d >= 1 && 1 <= n <= TWO64 && |Text(Amd, counts)| < TWO64
    requires s.ok && Resolve(Text(Amd, counts), StackTop(d)) == Some(s.pc) && Get(s, Rdi) == Wrap(n)
    requires 8 * d <= Get(s, Sp) && Get(s, Sp) + 8 < TWO64 && s.low == Get(s, Sp) && Load64(s.mem, Get(s, Sp)) == to
    ensures var e := Run(Text(Amd, counts), s, k);
      && e.ok && e.pc == to && Get(e, Sp) == Get(s, Sp) + 8
      && (forall r :: r != Rax && r != Rdi && r != Sp ==> Get(e, r) == Get(s, r)) && Get(e, Rdi) == 0
      && Get(e, Rax) == Wrap((d - 1) * (n * (n + 1) / 2))
      && e.low == Get(s, Sp) - 8 * d && AgreeOutside(s.mem, e.mem, e.low, Get(s, Sp))
      && e.log == s.log + Repeat(Nested(Calls(Amd, s.pc, d, 0)), n) + [Returned(to)]
    ensures var chain := Repeat(Nested(Calls(Amd, s.pc, d, 0)), n);
      && CallCount(chain) == n * d
      && forall c :: Misses(c, chain, []) == n * (if d > c then d - c else 0)
    ensures k == 3 + n * (4 * d + 2)
  {
    hide Run, Step, Get, Block, UniqueLabels, Embedded, At, AgreeOutside, Nested, Calls, Repeat, Misses, CallCount, Scaled, Wrap, Resolve, Load64;
    var prog := Text(Amd, counts);
    var ci :| 0 <= ci < |counts| && counts[ci] == d;
    var base := |Text(Amd, counts[..ci])|;
    TextUnique(Amd, counts);
    BlockAt(Amd, counts, ci);
    EmbedUnique(prog, base, Block(Amd, d));
    TopResolves(Amd, prog, base, d);
    k := FunctionRuns(prog, base, d, n, s, to);
    Total(d - 1, n);
    Predictions(Amd, base, d, n);
  }

  lemma FunctionRuns(prog: Program, base: nat, d: nat, n: nat, s: State, to: Word) returns (k: nat)
    requires Placed(Amd, prog, base, d) && d >= 1 && 1 <= n <= TWO64
    requires s.ok && s.pc == base && Get(s, Rdi) == Wrap(n)
    requires 8 * d <= Get(s, Sp) && Get(s, Sp) + 8 < TWO64 && s.low <= Get(s, Sp) && Load64(s.mem, Get(s, Sp)) == to
    ensures var e := Run(prog, s, k);
      && e.ok && e.pc == to && Get(e, Sp) == Get(s, Sp) + 8 && Get(e, Rax) == Scaled(0, d - 1, Sum(n))
      && AgreeOutside(s.mem, e.mem, Get(s, Sp) - 8 * d, Get(s, Sp)) && e.low == Min(s.low, Get(s, Sp) - 8 * d)
      && e.log == s.log + Repeat(Nested(Calls(Amd, base, d, 0)), n) + [Returned(to)] && Others(s, e) && Get(e, Rdi) == 0
    ensures k == 3 + n * (4 * d + 2)
  {
    hide Run, Step, Exec, Get, Placed, Load64, AgreeOutside, Nested, Calls, Repeat, Scaled, XorWord, BitAnd, Pow2;
    var s1 := Prologue(prog, base, d, s);
    var k1 := Rounds(prog, base, d, n, s1);
    var s2 := Run(prog, s1, k1);
    AgreeAbove(s.mem, s2.mem, Get(s, Sp) - 8 * d, Get(s, Sp));
    var e := Epilogue(prog, base, d, s2, to);
    RunAdd(prog, s1, k1, 1);
    RunAdd(prog, s, 2, k1 + 1);
    k := 2 + (k1 + 1);
    OthersTrans(s, s1, s2);
    OthersTrans(s, s2, e);
  }

  lemma AgreeAbove(m: Memory, m': Memory, lo: nat, hi: nat)
    requires AgreeOutside(m, m', lo, hi)
    ensures Load64(m, hi) == Load64(m', hi)
  {
    hide Load64;
    Load64Agree(m, m', hi);
  }
}
