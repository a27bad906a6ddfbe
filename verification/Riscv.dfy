/** The RISC-V instructions the generators emit, in the formats of the machine. */
module Riscv {
  import opened Machine
  import opened Symbols

  function Li(rd: Reg, imm: int): Instr { Alu(rd, Plus, R(Zero), I(imm), false) }
  function Mv(rd: Reg, rs: Reg): Instr { Alu(rd, Plus, R(rs), I(0), false) }
  function Addi(rd: Reg, rs: Reg, imm: int): Instr { Alu(rd, Plus, R(rs), I(imm), false) }
  function Add(rd: Reg, rs1: Reg, rs2: Reg): Instr { Alu(rd, Plus, R(rs1), R(rs2), false) }
  function Sub(rd: Reg, rs1: Reg, rs2: Reg): Instr { Alu(rd, Minus, R(rs1), R(rs2), false) }
  function Divu(rd: Reg, rs1: Reg, rs2: Reg): Instr { Alu(rd, Quotient, R(rs1), R(rs2), false) }
  function Xor(rd: Reg, rs1: Reg, rs2: Reg): Instr { Alu(rd, ExOr, R(rs1), R(rs2), false) }
  function Xori(rd: Reg, rs: Reg, imm: int): Instr { Alu(rd, ExOr, R(rs), I(imm), false) }
  function And(rd: Reg, rs1: Reg, rs2: Reg): Instr { Alu(rd, Conj, R(rs1), R(rs2), false) }
  function Andi(rd: Reg, rs: Reg, imm: int): Instr { Alu(rd, Conj, R(rs), I(imm), false) }
  function Slli(rd: Reg, rs: Reg, amount: nat): Instr
    requires 1 <= amount <= 3
  {
    Alu(rd, if amount == 1 then Shl1 else if amount == 2 then Shl2 else Shl3, R(rs), I(0), false)
  }

  function Sltu(rd: Reg, rs1: Reg, rs2: Reg): Instr { Alu(rd, Below, R(rs1), R(rs2), false) }
  function Seqz(rd: Reg, rs: Reg): Instr { Alu(rd, Below, R(rs), I(1), false) }
  function La(rd: Reg, target: Symbol): Instr { LoadLabel(rd, target) }
  function Lw(rd: Reg, offset: int, base: Reg): Instr { Load(rd, SignedHalf, Address(base, I(0), By1, offset)) }
  function Beq(rs1: Reg, rs2: Reg, target: Symbol): Instr { Branch(IfEqual(rs1, rs2), target) }
  function Jr(rs: Reg): Instr { JumpReg(rs) }
  function Ld(rd: Reg, offset: int, base: Reg): Instr { Load(rd, Full, Address(base, I(0), By1, offset)) }
  function Sd(rs: Reg, offset: int, base: Reg): Instr { Store(rs, Address(base, I(0), By1, offset)) }
  function Bnez(rs: Reg, target: Symbol): Instr { Branch(IfNonzero(rs), target) }
  function Call(target: Symbol): Instr { CallLink(Ra, target) }
  function Ret(): Instr { ReturnLink(Ra) }
}
