/** A small-step machine for the assembly listings the generators emit.

    One machine serves RISC-V, ARM and x86: their instructions are expressed in the formats
    below (modules Riscv, Arm and X86 spell them out), and each ISA uses its own registers.
    Sp is the stack pointer of all three. A code address is a line number of the listing; a
    control transfer out of the listing, to the caller's return address, leaves the machine at rest. */
module Machine {
  import opened Words
  import opened Listing
  import opened Symbols

  /** The two instruction sets of the tests that are emitted alike for both. */
  datatype Isa = Rv | Amd

  datatype Reg =
    | Sp
    | Zero | Ra | T0 | T1 | T2 | T3 | T4 | T5 | T6 | S0 | S1 | S2 | A0 | A1 | A2 | A3
    | Rax | Rbx | Rcx | Rdx | Rsi | Rdi | R8 | R9 | R10 | R11 | R12 | R13 | R14 | R15
    | X0 | X1 | X2 | X11 | X12 | X13 | X14 | X15 | X16 | X30

  datatype Operand = R(reg: Reg) | I(imm: int)

  /** Conj32 and Shl32 work on the low halves and clear the high half of the result. Quotient is the unsigned division of
      RISC-V, which gives all ones for a zero divisor. */
  datatype AluOp = Plus | Minus | Quotient | Conj | ExOr | Below | Shl1 | Shl2 | Shl3 | Conj32 | Shl32

  datatype Scale = By1 | By4 | By8

  datatype Address = Address(base: Reg, index: Operand, scale: Scale, offset: int)

  datatype Size = Half | SignedHalf | Full

  datatype Cond = Always | IfZero(reg: Reg) | IfNonzero(reg: Reg) | IfEqual(r1: Reg, r2: Reg) | IfFlag(want: bool)

  datatype Instr =
    | Nop
    | Barrier
    | Trap
    | Alu(rd: Reg, op: AluOp, a: Operand, b: Operand, flags: bool)
    | Compare(op: AluOp, a: Operand, b: Operand)
    | Select(rd: Reg, ifSet: Reg, ifClear: Reg)
    | LoadLabel(rd: Reg, target: Symbol)
    | Load(rd: Reg, size: Size, addr: Address)
    | Store(rs: Reg, addr: Address)
    | Push(rs: Reg)
    | Pop(rd: Reg)
    | Branch(cond: Cond, target: Symbol)
    | CallLink(link: Reg, target: Symbol)
    | ReturnLink(link: Reg)
    | CallPush(target: Symbol)
    | ReturnPop
    | JumpReg(reg: Reg)

  type Program = seq<Line<Instr>>

  /** Control transfers a branch predictor sees: calls, returns and indirect jumps. */
  datatype Event = Called(target: nat, returnTo: nat) | Returned(to: nat) | Jumped(to: nat)

  /** zf is the zero flag; low is the least value the stack pointer has held; ok is false after a
      trap or a reference to an undefined label. */
  datatype State =
    State(pc: nat, regs: map<Reg, Word>, mem: Memory, zf: bool, low: Word, log: seq<Event>, ok: bool)

  // ----- the meaning of each format

  function Get(s: State, r: Reg): Word {
    if r == Zero then 0 else if r in s.regs then s.regs[r] else 0
  }

  /** Register r receives v and control moves to the next line. */
  function Set(s: State, r: Reg, v: Word): State {
    s.(regs := s.regs[r := v], pc := s.pc + 1, low := if r == Sp && v < s.low then v else s.low)
  }

  function Next(s: State): State {
    s.(pc := s.pc + 1)
  }

  function Val(s: State, x: Operand): Word {
    match x
    case R(r) => Get(s, r)
    case I(imm) => Wrap(imm)
  }

  function Eval(op: AluOp, x: Word, y: Word): Word {
    match op
    case Plus => Wrap(x + y)
    case Minus => Wrap(x - y)
    case Quotient => if y == 0 then TWO64 - 1 else x / y
    case Conj => BitAnd(x, y)
    case ExOr => XorWord(x, y)
    case Below => if x < y then 1 else 0
    case Shl1 => Wrap(2 * x)
    case Shl2 => Wrap(4 * x)
    case Shl3 => Wrap(8 * x)
    case Conj32 => BitAnd(x % TWO32, y % TWO32)
    case Shl32 => 2 * x % TWO32
  }

  function Effective(s: State, a: Address): Word {
    var x := Val(s, a.index);
    var scaled := match a.scale case By1 => x case By4 => 4 * x case By8 => 8 * x;
    Wrap(Get(s, a.base) + scaled + a.offset)
  }

  function Fetch(m: Memory, size: Size, a: nat): Word {
    match size
    case Full => Load64(m, a)
    case Half => Load32(m, a)
    case SignedHalf => var v := Load32(m, a); if v < 0x8000_0000 then v else v + (TWO64 - TWO32)
  }

  predicate Holds(s: State, c: Cond) {
    match c
    case Always => true
    case IfZero(r) => Get(s, r) == 0
    case IfNonzero(r) => Get(s, r) != 0
    case IfEqual(r1, r2) => Get(s, r1) == Get(s, r2)
    case IfFlag(want) => s.zf == want
  }

  function Goto(prog: Program, s: State, target: Symbol): State {
    match Resolve(prog, target)
    case None => s.(ok := false)
    case Some(i) => s.(pc := i)
  }

  function Exec(prog: Program, s: State, i: Instr): State {
    match i
    case Nop => Next(s)
    case Barrier => Next(s)
    case Trap => s.(ok := false)
    case Alu(rd, op, a, b, flags) =>
      var v := Eval(op, Val(s, a), Val(s, b));
      Set(s, rd, v).(zf := if flags then v == 0 else s.zf)
    case Compare(op, a, b) => Next(s).(zf := Eval(op, Val(s, a), Val(s, b)) == 0)
    case Select(rd, x, y) => Set(s, rd, if s.zf then Get(s, x) else Get(s, y))
    case LoadLabel(rd, target) =>
      (match Resolve(prog, target)
       case None => s.(ok := false)
       case Some(p) => Set(s, rd, Wrap(p)))
    case Load(rd, size, a) => Set(s, rd, Fetch(s.mem, size, Effective(s, a)))
    case Store(rs, a) => Next(s).(mem := Store64(s.mem, Effective(s, a), Get(s, rs)))
    case Push(rs) =>
      var sp := Wrap(Get(s, Sp) - 8);
      Set(s, Sp, sp).(mem := Store64(s.mem, sp, Get(s, rs)))
    case Pop(rd) =>
      Set(Set(s, Sp, Wrap(Get(s, Sp) + 8)), rd, Load64(s.mem, Get(s, Sp))).(pc := s.pc + 1)
    case Branch(c, target) => if Holds(s, c) then Goto(prog, s, target) else Next(s)
    case CallLink(link, target) =>
      var t := Goto(prog, Set(s, link, Wrap(s.pc + 1)), target);
      t.(log := s.log + [Called(t.pc, s.pc + 1)])
    case ReturnLink(link) => s.(pc := Get(s, link), log := s.log + [Returned(Get(s, link))])
    case CallPush(target) =>
      var sp := Wrap(Get(s, Sp) - 8);
      var t := Goto(prog, Set(s, Sp, sp), target);
      t.(mem := Store64(s.mem, sp, Wrap(s.pc + 1)), log := s.log + [Called(t.pc, s.pc + 1)])
    case ReturnPop =>
      var to := Load64(s.mem, Get(s, Sp));
      Set(s, Sp, Wrap(Get(s, Sp) + 8)).(pc := to, log := s.log + [Returned(to)])
    case JumpReg(r) => s.(pc := Get(s, r), log := s.log + [Jumped(Get(s, r))])
  }

  function Step(prog: Program, s: State): State {
    if !s.ok || s.pc >= |prog| then s
    else match prog[s.pc]
      case Label(_) => Next(s)
      case Global(_) => Next(s)
      case Op(i) => Exec(prog, s, i)
  }

  function Run(prog: Program, s: State, k: nat): State
    decreases k
  {
    if k == 0 then s else Run(prog, Step(prog, s), k - 1)
  }

  lemma {:induction false} RunAdd(prog: Program, s: State, a: nat, b: nat)
    ensures Run(prog, s, a + b) == Run(prog, Run(prog, s, a), b)
    decreases a
  {
    if a != 0 {
      RunAdd(prog, Step(prog, s), a - 1, b);
    }
  }

  lemma RunNone(prog: Program, s: State)
    ensures Run(prog, s, 0) == s
  {
  }

  lemma RunOneMore(prog: Program, s: State, n: nat)
    ensures Run(prog, s, n + 1) == Step(prog, Run(prog, s, n))
  {
    RunAdd(prog, s, n, 1);
    RunSingle(prog, Run(prog, s, n));
  }

  lemma RunSingle(prog: Program, s: State)
    ensures Run(prog, s, 1) == Step(prog, s)
  {
    hide Step;
  }

  /** Once stopped by a trap, the machine stays stopped. */
  lemma {:induction false} StaysStopped(prog: Program, s: State, a: nat, b: nat)
    requires !Run(prog, s, a).ok
    ensures !Run(prog, s, a + b).ok
    decreases b
  {
    hide Run;
    if b != 0 {
      StaysStopped(prog, s, a, b - 1);
      RunOneMore(prog, s, a + b - 1);
    }
  }

  /** Outside the listing the machine is at rest. */
  lemma {:induction false} AtRest(prog: Program, s: State, k: nat)
    requires s.pc >= |prog|
    ensures Run(prog, s, k) == s
    decreases k
  {
    if k != 0 {
      AtRest(prog, s, k - 1);
    }
  }

  /** A run that leaves the listing in order was never stopped. */
  lemma NeverStopped(prog: Program, s: State, k: nat, j: nat)
    requires var e := Run(prog, s, k); e.ok && e.pc >= |prog|
    ensures Run(prog, s, j).ok
  {
    hide Run;
    if j >= k {
      RunAdd(prog, s, k, j - k);
      AtRest(prog, Run(prog, s, k), j - k);
    } else if !Run(prog, s, j).ok {
      StaysStopped(prog, s, j, k - j);
    }
  }

  // ----- one lemma per format: what the step changes, and that it changes nothing else
  //
  // Proofs about listings hide Step and Get and use these, each naming the line and the value explicitly.

  ghost predicate Ready(prog: Program, s: State, p: nat, i: Instr) {
    s.ok && s.pc == p < |prog| && prog[p] == Op(i)
  }

  /** Control is at line p and every register but rd, which holds v, is as before. */
  ghost predicate Wrote(s: State, e: State, rd: Reg, v: Word, p: nat) {
    && e.ok && e.pc == p
    && (rd != Zero ==> Get(e, rd) == v)
    && (forall r :: r != rd ==> Get(e, r) == Get(s, r))
    && e.low == (if rd == Sp && v < s.low then v else s.low)
  }

  /** Control is at line p and all registers are as before. */
  ghost predicate Moved(s: State, e: State, p: nat) {
    && e.ok && e.pc == p && e.low == s.low
    && (forall r :: Get(e, r) == Get(s, r))
  }

  lemma StepMark(prog: Program, s: State, p: nat) returns (e: State)
    requires s.ok && s.pc == p < |prog| && (prog[p].Op? ==> prog[p] == Op(Nop) || prog[p] == Op(Barrier))
    ensures e == Step(prog, s) && Moved(s, e, p + 1) && e.mem == s.mem && e.log == s.log && e.zf == s.zf
  {
    e := Step(prog, s);
  }

  lemma StepAlu(prog: Program, s: State, p: nat, rd: Reg, op: AluOp, a: Operand, b: Operand, v: Word) returns (e: State)
    requires Ready(prog, s, p, Alu(rd, op, a, b, false)) && Eval(op, Val(s, a), Val(s, b)) == v
    ensures e == Step(prog, s) && Wrote(s, e, rd, v, p + 1) && e.mem == s.mem && e.log == s.log && e.zf == s.zf
  {
    e := Step(prog, s);
  }

  /** Additions that do not wrap. */
  lemma StepAdd(prog: Program, s: State, p: nat, rd: Reg, r1: Reg, r2: Reg, v: Word) returns (e: State)
    requires Ready(prog, s, p, Alu(rd, Plus, R(r1), R(r2), false)) && Get(s, r1) + Get(s, r2) == v
    ensures e == Step(prog, s) && Wrote(s, e, rd, v, p + 1) && e.mem == s.mem && e.log == s.log && e.zf == s.zf
  {
    e := StepAlu(prog, s, p, rd, Plus, R(r1), R(r2), v);
  }

  lemma StepAddI(prog: Program, s: State, p: nat, rd: Reg, r: Reg, imm: int, v: Word) returns (e: State)
    requires Ready(prog, s, p, Alu(rd, Plus, R(r), I(imm), false)) && Get(s, r) + imm == v
    ensures e == Step(prog, s) && Wrote(s, e, rd, v, p + 1) && e.mem == s.mem && e.log == s.log && e.zf == s.zf
  {
    hide Get;
    WrapSum(Get(s, r), imm);
    e := StepAlu(prog, s, p, rd, Plus, R(r), I(imm), v);
  }

  lemma WrapSum(x: Word, imm: int)
    requires 0 <= x + imm < TWO64
    ensures Wrap(x + Wrap(imm)) == x + imm
  {
  }

  lemma StepLi(prog: Program, s: State, p: nat, rd: Reg, v: Word) returns (e: State)
    requires Ready(prog, s, p, Alu(rd, Plus, R(Zero), I(v), false))
    ensures e == Step(prog, s) && Wrote(s, e, rd, v, p + 1) && e.mem == s.mem && e.log == s.log && e.zf == s.zf
  {
    e := StepAlu(prog, s, p, rd, Plus, R(Zero), I(v), v);
  }

  /** A register exclusive-ored with itself. */
  lemma StepXorSelf(prog: Program, s: State, p: nat, rd: Reg, r: Reg) returns (e: State)
    requires Ready(prog, s, p, Alu(rd, ExOr, R(r), R(r), false))
    ensures e == Step(prog, s) && Wrote(s, e, rd, 0, p + 1) && e.mem == s.mem && e.log == s.log && e.zf == s.zf
  {
    XorWordSelf(Get(s, r));
    e := StepAlu(prog, s, p, rd, ExOr, R(r), R(r), 0);
  }

  /** Left shifts that do not wrap. */
  lemma StepSlli2(prog: Program, s: State, p: nat, rd: Reg, r: Reg, v: Word) returns (e: State)
    requires Ready(prog, s, p, Alu(rd, Shl2, R(r), I(0), false)) && 4 * Get(s, r) == v
    ensures e == Step(prog, s) && Wrote(s, e, rd, v, p + 1) && e.mem == s.mem && e.log == s.log && e.zf == s.zf
  {
    e := StepAlu(prog, s, p, rd, Shl2, R(r), I(0), v);
  }

  lemma StepSlli3(prog: Program, s: State, p: nat, rd: Reg, r: Reg, v: Word) returns (e: State)
    requires Ready(prog, s, p, Alu(rd, Shl3, R(r), I(0), false)) && 8 * Get(s, r) == v
    ensures e == Step(prog, s) && Wrote(s, e, rd, v, p + 1) && e.mem == s.mem && e.log == s.log && e.zf == s.zf
  {
    e := StepAlu(prog, s, p, rd, Shl3, R(r), I(0), v);
  }

  lemma StepFlags(prog: Program, s: State, p: nat, rd: Reg, op: AluOp, a: Operand, b: Operand, v: Word) returns (e: State)
    requires Ready(prog, s, p, Alu(rd, op, a, b, true)) && Eval(op, Val(s, a), Val(s, b)) == v
    ensures e == Step(prog, s) && Wrote(s, e, rd, v, p + 1) && e.mem == s.mem && e.log == s.log && e.zf == (v == 0)
  {
    e := Step(prog, s);
  }

  lemma StepCompare(prog: Program, s: State, p: nat, op: AluOp, a: Operand, b: Operand) returns (e: State)
    requires Ready(prog, s, p, Compare(op, a, b))
    ensures e == Step(prog, s) && Moved(s, e, p + 1) && e.mem == s.mem && e.log == s.log
    ensures e.zf == (Eval(op, Val(s, a), Val(s, b)) == 0)
  {
    e := Step(prog, s);
  }

  lemma StepSelect(prog: Program, s: State, p: nat, rd: Reg, x: Reg, y: Reg) returns (e: State)
    requires Ready(prog, s, p, Select(rd, x, y))
    ensures e == Step(prog, s) && Wrote(s, e, rd, if s.zf then Get(s, x) else Get(s, y), p + 1)
    ensures e.mem == s.mem && e.log == s.log && e.zf == s.zf
  {
    e := Step(prog, s);
  }

  lemma StepLoadLabel(prog: Program, s: State, p: nat, rd: Reg, target: Symbol, q: nat) returns (e: State)
    requires Ready(prog, s, p, LoadLabel(rd, target)) && Resolve(prog, target) == Some(q) && q < TWO64
    ensures e == Step(prog, s) && Wrote(s, e, rd, q, p + 1) && e.mem == s.mem && e.log == s.log && e.zf == s.zf
  {
    e := Step(prog, s);
  }

  lemma StepLoad(prog: Program, s: State, p: nat, rd: Reg, size: Size, a: Address, ea: Word, v: Word) returns (e: State)
    requires Ready(prog, s, p, Load(rd, size, a)) && Effective(s, a) == ea && Fetch(s.mem, size, ea) == v
    ensures e == Step(prog, s) && Wrote(s, e, rd, v, p + 1) && e.mem == s.mem && e.log == s.log && e.zf == s.zf
  {
    e := Step(prog, s);
  }

  lemma StepStore(prog: Program, s: State, p: nat, rs: Reg, a: Address, ea: Word) returns (e: State)
    requires Ready(prog, s, p, Store(rs, a)) && Effective(s, a) == ea
    ensures e == Step(prog, s) && Moved(s, e, p + 1) && e.log == s.log && e.zf == s.zf
    ensures e.mem == Store64(s.mem, ea, Get(s, rs))
  {
    e := Step(prog, s);
  }

  /** Loads and stores at base + offset, where that does not wrap. */
  lemma StepLd(prog: Program, s: State, p: nat, rd: Reg, base: Reg, offset: int, ea: Word, v: Word) returns (e: State)
    requires Ready(prog, s, p, Load(rd, Full, Address(base, I(0), By1, offset)))
    requires Get(s, base) + offset == ea && Load64(s.mem, ea) == v
    ensures e == Step(prog, s) && Wrote(s, e, rd, v, p + 1) && e.mem == s.mem && e.log == s.log && e.zf == s.zf
  {
    e := StepLoad(prog, s, p, rd, Full, Address(base, I(0), By1, offset), ea, v);
  }

  lemma StepLw(prog: Program, s: State, p: nat, rd: Reg, base: Reg, offset: int, ea: Word, v: Word) returns (e: State)
    requires Ready(prog, s, p, Load(rd, SignedHalf, Address(base, I(0), By1, offset)))
    requires Get(s, base) + offset == ea && Load32(s.mem, ea) == v < 0x8000_0000
    ensures e == Step(prog, s) && Wrote(s, e, rd, v, p + 1) && e.mem == s.mem && e.log == s.log && e.zf == s.zf
  {
    e := StepLoad(prog, s, p, rd, SignedHalf, Address(base, I(0), By1, offset), ea, v);
  }

  lemma StepSd(prog: Program, s: State, p: nat, rs: Reg, base: Reg, offset: int, ea: Word) returns (e: State)
    requires Ready(prog, s, p, Store(rs, Address(base, I(0), By1, offset))) && Get(s, base) + offset == ea
    ensures e == Step(prog, s) && Moved(s, e, p + 1) && e.log == s.log && e.zf == s.zf
    ensures e.mem == Store64(s.mem, ea, Get(s, rs))
  {
    e := StepStore(prog, s, p, rs, Address(base, I(0), By1, offset), ea);
  }

  lemma StepPush(prog: Program, s: State, p: nat, rs: Reg) returns (e: State)
    requires Ready(prog, s, p, Push(rs)) && Get(s, Sp) >= 8
    ensures e == Step(prog, s) && Wrote(s, e, Sp, Get(s, Sp) - 8, p + 1) && e.log == s.log && e.zf == s.zf
    ensures e.mem == Store64(s.mem, Get(s, Sp) - 8, Get(s, rs))
  {
    hide Resolve, Eval, Effective, Fetch, Load64, Store64, Holds;
    e := Step(prog, s);
  }

  lemma StepPop(prog: Program, s: State, p: nat, rd: Reg, v: Word) returns (e: State)
    requires Ready(prog, s, p, Pop(rd)) && Get(s, Sp) + 8 < TWO64 && Load64(s.mem, Get(s, Sp)) == v && rd != Sp && rd != Zero
    ensures e == Step(prog, s) && e.ok && e.pc == p + 1 && Get(e, rd) == v && Get(e, Sp) == Get(s, Sp) + 8
    ensures forall r :: r != rd && r != Sp ==> Get(e, r) == Get(s, r)
    ensures e.mem == s.mem && e.log == s.log && e.zf == s.zf && (s.low <= Get(s, Sp) ==> e.low == s.low)
  {
    hide Resolve, Eval, Effective, Fetch, Load64, Store64, Holds;
    e := Step(prog, s);
  }

  lemma StepBranch(prog: Program, s: State, p: nat, c: Cond, target: Symbol, q: nat) returns (e: State)
    requires Ready(prog, s, p, Branch(c, target)) && Resolve(prog, target) == Some(q)
    ensures e == Step(prog, s) && Moved(s, e, if Holds(s, c) then q else p + 1)
    ensures e.mem == s.mem && e.log == s.log && e.zf == s.zf
  {
    e := Step(prog, s);
  }

  lemma StepCallLink(prog: Program, s: State, p: nat, link: Reg, target: Symbol, q: nat) returns (e: State)
    requires Ready(prog, s, p, CallLink(link, target)) && Resolve(prog, target) == Some(q) && p + 1 < TWO64
    ensures e == Step(prog, s) && Wrote(s, e, link, p + 1, q) && e.mem == s.mem && e.zf == s.zf
    ensures e.log == s.log + [Called(q, p + 1)]
  {
    hide Resolve, Eval, Effective, Fetch, Load64, Store64, Holds;
    e := Step(prog, s);
  }

  lemma StepReturnLink(prog: Program, s: State, p: nat, link: Reg) returns (e: State)
    requires Ready(prog, s, p, ReturnLink(link))
    ensures e == Step(prog, s) && Moved(s, e, Get(s, link)) && e.mem == s.mem && e.zf == s.zf
    ensures e.log == s.log + [Returned(Get(s, link))]
  {
    e := Step(prog, s);
  }

  lemma StepCallPush(prog: Program, s: State, p: nat, target: Symbol, q: nat) returns (e: State)
    requires Ready(prog, s, p, CallPush(target)) && Resolve(prog, target) == Some(q) && p + 1 < TWO64 && Get(s, Sp) >= 8
    ensures e == Step(prog, s) && Wrote(s, e, Sp, Get(s, Sp) - 8, q) && e.zf == s.zf
    ensures e.mem == Store64(s.mem, Get(s, Sp) - 8, p + 1) && e.log == s.log + [Called(q, p + 1)]
  {
    hide Resolve, Eval, Effective, Fetch, Load64, Store64, Holds;
    e := Step(prog, s);
  }

  lemma StepReturnPop(prog: Program, s: State, p: nat, v: Word) returns (e: State)
    requires Ready(prog, s, p, ReturnPop) && Get(s, Sp) + 8 < TWO64 && Load64(s.mem, Get(s, Sp)) == v
    ensures e == Step(prog, s) && Wrote(s, e, Sp, Get(s, Sp) + 8, v) && e.mem == s.mem && e.zf == s.zf
    ensures e.log == s.log + [Returned(v)]
  {
    hide Resolve, Eval, Effective, Fetch, Load64, Store64, Holds;
    e := Step(prog, s);
  }

  lemma StepJumpReg(prog: Program, s: State, p: nat, r: Reg) returns (e: State)
    requires Ready(prog, s, p, JumpReg(r))
    ensures e == Step(prog, s) && Moved(s, e, Get(s, r)) && e.mem == s.mem && e.zf == s.zf
    ensures e.log == s.log + [Jumped(Get(s, r))]
  {
    e := Step(prog, s);
  }

  // ----- sequences of steps

  /** Only the five registers named may have changed; the stack watermark and the flag ok are as before. */
  ghost predicate Keeps(s: State, e: State, a: Reg, b: Reg, c: Reg, d: Reg, f: Reg) {
    && e.ok && e.low == s.low
    && (forall r :: r != a && r != b && r != c && r != d && r != f ==> Get(e, r) == Get(s, r))
  }
}
