/** The labels of the generated programs. */
module Symbols {
  datatype Symbol =
    | TestTop(prefix: string, count: nat)
    | TestStart(prefix: string, count: nat)
    | JumpTrap
    | BranchTop(count: nat)
    | BranchLoop(count: nat)
    | BranchZero(count: nat, branch: nat)
    | BtbTop(prefix: string, count: nat)
    | BtbHead(prefix: string, count: nat)
    | BtbPart(prefix: string, count: nat, part: nat)
    | BtbExit(prefix: string, count: nat)
    | StackTop(count: nat)
    | StackLoop(count: nat)
    | StackFn(count: nat, depth: nat)
    | IndirectTop(branches: nat, targets: nat)
    | IndirectLoop(branches: nat, targets: nat)
    | IndirectTarget(branches: nat, targets: nat, branch: nat, index: nat)
    | IndirectHist(branches: nat, targets: nat, branch: nat, bit: nat)
}
