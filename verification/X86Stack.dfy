/** Saving registers by pushing them and restoring them by popping them in reverse. */
module X86Stack {
  import opened Words
  import opened Listing
  import opened Machine

  function Pushes(regs: seq<Reg>): (p: Program)
    ensures |p| == |regs|
  {
    seq(|regs|, i requires 0 <= i < |regs| => Op(Push(regs[i])))
  }

  function Pops(regs: seq<Reg>): (p: Program)
    ensures |p| == |regs|
  {
    seq(|regs|, i requires 0 <= i < |regs| => Op(Pop(regs[|regs| - 1 - i])))
  }

  /** General registers only, so that pushing and popping does not disturb the stack pointer. */
  ghost predicate Plain(regs: seq<Reg>) {
    forall i :: 0 <= i < |regs| ==> regs[i] != Sp && regs[i] != Zero
  }

  /** Below sp lie the first n of the registers as they are in s. */
  ghost predicate Stacked(m: Memory, sp: nat, s: State, regs: seq<Reg>, n: nat) {
    sp >= 8 * |regs| && forall j {:trigger regs[j]} :: 0 <= j < n && j < |regs| ==> Load64(m, sp - 8 * (j + 1)) == Get(s, regs[j])
  }

  // ----- pushing

  lemma PushOne(prog: Program, p: nat, regs: seq<Reg>, n: nat, s: State, e: State)
    requires Embedded(prog, p, Pushes(regs)) && 1 <= n <= |regs| && Get(s, Sp) >= 8 * |regs| && Plain(regs)
    requires e.ok && e.pc == p + n - 1 && Get(e, Sp) == Get(s, Sp) - 8 * (n - 1) && (forall r :: r != Sp ==> Get(e, r) == Get(s, r))
    requires Stacked(e.mem, Get(s, Sp), s, regs, n - 1) && AgreeOutside(s.mem, e.mem, Get(s, Sp) - 8 * |regs|, Get(s, Sp))
    ensures var e' := Step(prog, e);
      && e'.ok && e'.pc == p + n && Get(e', Sp) == Get(s, Sp) - 8 * n && (forall r :: r != Sp ==> Get(e', r) == Get(s, r))
      && Stacked(e'.mem, Get(s, Sp), s, regs, n) && AgreeOutside(s.mem, e'.mem, Get(s, Sp) - 8 * |regs|, Get(s, Sp))
      && e'.log == e.log
  {
    hide Step, Get, Embedded, Load64, Store64, Pushes, Stacked, AgreeOutside;
    PushAt(prog, p, regs, n - 1);
    var e' := StepPush(prog, e, p + n - 1, regs[n - 1]);
    StackedMore(s.mem, e.mem, Get(s, Sp), s, regs, n);
  }

  lemma PushAt(prog: Program, p: nat, regs: seq<Reg>, i: nat)
    requires Embedded(prog, p, Pushes(regs)) && i < |regs|
    ensures p + i < |prog| && prog[p + i] == Op(Push(regs[i]))
  {
    hide Embedded;
    EmbedLines(prog, p, Pushes(regs));
    assert Pushes(regs)[i] == Op(Push(regs[i]));
  }

  lemma PopAt(prog: Program, p: nat, regs: seq<Reg>, i: nat)
    requires Embedded(prog, p, Pops(regs)) && i < |regs|
    ensures p + i < |prog| && prog[p + i] == Op(Pop(regs[|regs| - 1 - i]))
  {
    hide Embedded;
    EmbedLines(prog, p, Pops(regs));
    assert Pops(regs)[i] == Op(Pop(regs[|regs| - 1 - i]));
  }

  lemma StackedMore(m0: Memory, m: Memory, sp: nat, s: State, regs: seq<Reg>, n: nat)
    requires 1 <= n <= |regs| && Stacked(m, sp, s, regs, n - 1) && sp >= 8 * |regs| && AgreeOutside(m0, m, sp - 8 * |regs|, sp)
    ensures var m' := Store64(m, sp - 8 * n, Get(s, regs[n - 1]));
      Stacked(m', sp, s, regs, n) && AgreeOutside(m0, m', sp - 8 * |regs|, sp)
  {
    hide Get, Load64, Store64;
    var at, v := sp - 8 * n, Get(s, regs[n - 1]);
    Store64Laws(m, at, v);
    forall j {:trigger regs[j]} | 0 <= j < n - 1
      ensures Load64(Store64(m, at, v), sp - 8 * (j + 1)) == Get(s, regs[j])
    {
      Load64Store64Other(m, at, v, sp - 8 * (j + 1));
    }
  }

  lemma {:induction false} PushesRun(prog: Program, p: nat, regs: seq<Reg>, n: nat, s: State)
    requires Embedded(prog, p, Pushes(regs)) && n <= |regs| && s.ok && s.pc == p && Get(s, Sp) >= 8 * |regs| && Plain(regs)
    ensures var e := Run(prog, s, n);
      && e.ok && e.pc == p + n && Get(e, Sp) == Get(s, Sp) - 8 * n && (forall r :: r != Sp ==> Get(e, r) == Get(s, r))
      && Stacked(e.mem, Get(s, Sp), s, regs, n) && AgreeOutside(s.mem, e.mem, Get(s, Sp) - 8 * |regs|, Get(s, Sp))
      && e.log == s.log
    decreases n
  {
    hide Run, Step, Get, Embedded, Pushes;
    if n == 0 {
      RunNone(prog, s);
    } else {
      PushesRun(prog, p, regs, n - 1, s);
      PushOne(prog, p, regs, n, s, Run(prog, s, n - 1));
      RunOneMore(prog, s, n - 1);
    }
  }

  // ----- popping

  /** The last n of the registers hold what they held in s. */
  ghost predicate Restored(e: State, s: State, regs: seq<Reg>, n: nat) {
    forall j {:trigger regs[j]} :: |regs| - n <= j < |regs| && 0 <= j ==> Get(e, regs[j]) == Get(s, regs[j])
  }

  lemma PopOne(prog: Program, p: nat, regs: seq<Reg>, n: nat, sp: Word, s: State, e: State)
    requires Embedded(prog, p, Pops(regs)) && 1 <= n <= |regs| && Plain(regs) && Stacked(e.mem, sp, s, regs, |regs|)
    requires e.ok && e.pc == p + n - 1 && sp >= 8 * |regs| && Get(e, Sp) == sp - 8 * |regs| + 8 * (n - 1) && Restored(e, s, regs, n - 1)
    ensures var e' := Step(prog, e);
      && e'.ok && e'.pc == p + n && Get(e', Sp) == sp - 8 * |regs| + 8 * n && Restored(e', s, regs, n)
      && e'.mem == e.mem && e'.log == e.log && (forall r :: r !in regs && r != Sp ==> Get(e', r) == Get(e, r))
  {
    hide Step, Get, Embedded, Load64, Pops;
    PopAt(prog, p, regs, n - 1);
    var r := regs[|regs| - n];
    var e' := StepPop(prog, e, p + n - 1, r, Get(s, r));
  }

  lemma {:induction false} PopsRun(prog: Program, p: nat, regs: seq<Reg>, n: nat, sp: Word, s: State, e: State)
    requires Embedded(prog, p, Pops(regs)) && n <= |regs| && Plain(regs) && Stacked(e.mem, sp, s, regs, |regs|)
    requires e.ok && e.pc == p && sp >= 8 * |regs| && Get(e, Sp) == sp - 8 * |regs|
    ensures var e' := Run(prog, e, n);
      && e'.ok && e'.pc == p + n && Get(e', Sp) == sp - 8 * |regs| + 8 * n && Restored(e', s, regs, n)
      && e'.mem == e.mem && e'.log == e.log && (forall r :: r !in regs && r != Sp ==> Get(e', r) == Get(e, r))
    decreases n
  {
    hide Run, Step, Get, Embedded, Pops, Stacked;
    if n == 0 {
      RunNone(prog, e);
    } else {
      PopsRun(prog, p, regs, n - 1, sp, s, e);
      PopOne(prog, p, regs, n, sp, s, Run(prog, e, n - 1));
      RunOneMore(prog, e, n - 1);
    }
  }

  // ----- a whole call

  /** A call made in s has pushed the registers in e; the registers of neither list are as they were. */
  ghost predicate InFrame(s: State, e: State, regs: seq<Reg>, changed: seq<Reg>) {
    && Get(s, Sp) >= 8 * |regs| && Get(e, Sp) == Get(s, Sp) - 8 * |regs| && e.ok
    && (forall r :: r !in regs && r !in changed && r != Sp ==> Get(e, r) == Get(s, r))
    && Stacked(e.mem, Get(s, Sp), s, regs, |regs|) && Load64(e.mem, Get(s, Sp)) == Load64(s.mem, Get(s, Sp))
  }

  /** After the pushes. */
  lemma EnterRuns(prog: Program, p: nat, s: State, regs: seq<Reg>, changed: seq<Reg>)
    requires Embedded(prog, p, Pushes(regs)) && s.ok && s.pc == p && Get(s, Sp) >= 8 * |regs| && Plain(regs)
    ensures var e := Run(prog, s, |regs|); var sp := Get(s, Sp);
      && InFrame(s, e, regs, changed) && e.ok && e.pc == p + |regs| && e.log == s.log && (forall r :: r != Sp ==> Get(e, r) == Get(s, r))
      && AgreeOutside(s.mem, e.mem, sp - 8 * |regs|, sp)
  {
    hide Run, Get, Embedded, Pushes, Stacked, AgreeOutside, Load64, Plain;
    PushesRun(prog, p, regs, |regs|, s);
    AboveFrame(s.mem, Run(prog, s, |regs|).mem, Get(s, Sp), 8 * |regs|);
  }

  lemma AboveFrame(m: Memory, m': Memory, sp: nat, size: nat)
    requires sp >= size && AgreeOutside(m, m', sp - size, sp)
    ensures Load64(m', sp) == Load64(m, sp)
  {
    hide Load64, ByteAt;
    Load64Agree(m, m', sp);
  }

  /** Pops and return: every register outside `changed` is restored. */
  lemma LeaveRuns(prog: Program, p: nat, s: State, e: State, regs: seq<Reg>, changed: seq<Reg>)
    requires Embedded(prog, p, Pops(regs) + [Op(ReturnPop)]) && InFrame(s, e, regs, changed) && e.pc == p && Get(s, Sp) + 8 < TWO64
    requires Plain(regs)
    ensures var e' := Run(prog, e, |regs| + 1); var to := Load64(s.mem, Get(s, Sp));
      && e'.ok && e'.pc == to && Get(e', Sp) == Get(s, Sp) + 8 && e'.mem == e.mem && e'.log == e.log + [Returned(to)]
      && (forall r :: r != Sp && (r in regs || r !in changed) ==> Get(e', r) == Get(s, r))
      && (forall r :: r !in regs && r != Sp ==> Get(e', r) == Get(e, r))
  {
    hide Run, Step, Get, Embedded, Load64, Pops, Stacked, Plain, Restored;
    var last: Program := [Op(ReturnPop)];
    assert Pops(regs) + last == [] + Pops(regs) + last;
    EmbedThree(prog, p, [], Pops(regs), last);
    PopsRun(prog, p, regs, |regs|, Get(s, Sp), s, e);
    var e1 := Run(prog, e, |regs|);
    AllRestored(e1, s, regs);
    EmbedLines(prog, p + |regs|, last);
    assert last[0].Op?;
    var e2 := StepReturnPop(prog, e1, p + |regs|, Load64(s.mem, Get(s, Sp)));
    RunOneMore(prog, e, |regs|);
  }

  lemma AllRestored(e: State, s: State, regs: seq<Reg>)
    requires Restored(e, s, regs, |regs|)
    ensures forall r :: r in regs ==> Get(e, r) == Get(s, r)
  {
    hide Get;
  }
}
