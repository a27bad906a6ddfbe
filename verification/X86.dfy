/** The x86-64 instructions the generators emit (AT&T operand order), in the formats of the machine. */
module X86 {
  import opened Machine
  import opened Symbols

  function XorRR(src: Reg, dst: Reg): Instr { Alu(dst, ExOr, R(dst), R(src), true) }
  function AddRR(src: Reg, dst: Reg): Instr { Alu(dst, Plus, R(dst), R(src), true) }
  function MovRR(src: Reg, dst: Reg): Instr { Alu(dst, Plus, R(src), I(0), false) }
  function MovI(imm: int, dst: Reg): Instr { Alu(dst, Plus, R(Zero), I(imm), false) }
  function Lea(offset: int, base: Reg, dst: Reg): Instr { Alu(dst, Plus, R(base), I(offset), false) }
  function Dec(dst: Reg): Instr { Alu(dst, Minus, R(dst), I(1), true) }
  function Inc(dst: Reg): Instr { Alu(dst, Plus, R(dst), I(1), true) }
  function Jne(target: Symbol): Instr { Branch(IfFlag(false), target) }
  function Je(target: Symbol): Instr { Branch(IfFlag(true), target) }
}
