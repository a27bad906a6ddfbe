# Verified models of the microbenchmarks' generated programs and access patterns

The repository measures CPUs with programs whose results mean something only if the programs do exactly what
they are built to do. This project models four parts of it in Dafny and proves what they do for every size,
depth, count, iteration number and random draw.

**AsmGen as a compiler.** The C# generators append assembly in nested loops. Here they append to a
`StringBuilder` of structured lines (`Listing`, `Symbols`), and a small-step machine (`Machine`: registers
modulo 2^64, little-endian byte memory (`Words`), program counter, a log of calls, returns and indirect
jumps) runs the result. `Riscv` and `X86` spell the instructions out. The theorems are about whole calls of the
emitted functions in the whole emitted listing, for any list of counts:

- `ReturnStack*`, `CallNest`: call chains of any depth, their stack use, and what a return-address stack of
  any capacity predicts of them.
- `Indirect*`, `JumpTables`, `BranchBits`, `Selections`: jump tables filled at run time, the exact sequence of indirect
  jumps, and the history branches in front of each, on RISC-V and x86.
- `Throughput*`, `RiscvFrame`, `X86Stack`, `X86Frame`, `Trace`, `Tally`: the throughput emitters with any text before the loop,
  before and behind the fillers: whatever the texts compute, load and store, as long as they leave the stack pointer,
  the counter, the return address and the frame alone, the body runs exactly n times, the slots of the filler array
  take their turns, every instruction is executed as often as its places in the text say, and every saved register comes
  back. `Trace` also records the outcomes of conditional branches.
- `Chain*`, `ChainTally`, `DataFile`, `JumpSched`, `StoreSched`, `BlockedRiscv`: the structure-test emitters, which are the former with
  two pointer chains over byte-serialised records around the fillers: where the chains are at every filler of every
  iteration, the jump that is meant never to be taken and exactly when it is, and stores that leave the chains
  alone; and the blocked emitter.
- `BranchHist*`: the branch-history loop on RISC-V, ARM and x86, with its three branchless wraps.
- `Btb*`, `Layout`: the ARM branch chain, its byte layout under alignment directives, and its direct and
  indirect loop.
- `Names`, `LabelNames`, `TestNames`: the printed label strings tell the structured labels apart.

**Pointer-chase patterns** (`Cycles`, `Shuffle`, `Patterns`, `Chase`, `Chains`, `PointerChase`, `Tlb`). The in-place
shuffle is one single cycle for every draw; which cycles it reaches, that draws can be decoded from the array,
and what the strided, pointer, page-skewed and parallel chases do on top of it.

**The compare-and-swap ping-pong** (`PingPong`). A transition system over every interleaving, with failed attempts.

**The wrap-around bandwidth kernels** (`Walk`, `Kernels`, `FlipKernel`, `CopyKernel`, `MeasureBw`). Order and number of
block visits, what the kernels leave in the array, and that the credited bytes are the bytes moved.

Where the code and its own words differ, the model follows the code. The comment at
`MemoryLatency/MemoryLatency.c:269` names Sattolo's algorithm, but the draw leaves out position i-1, so fewer cycles are
reached (`Shuffle.ShuffleImage`, `Shuffle.MissedCycle`). The `memset` at line 484 of that file is given a number of
elements where it counts bytes, so it covers a quarter of the array (`Tlb.LayOut`). The comment at line 604 of
`MemoryBandwidth/MemoryBandwidth.c` says that private mode divides the iteration count by the thread count;
line 586 multiplies it, and the extra factor credits what is moved (`MeasureBw.Measure`). The label
`jumpsched_reallybadthing` is reached for some data files (`JumpSched.RiscvTest`). The ping-pong does not end for every
iteration count its argument can give (`PingPong.FinishesIff`).

## Model

| member | source | states |
|---|---|---|
| ReturnStackText.GenerateRiscvAsm | AsmGen/tests/ReturnStackTest.cs:89-130 | the generator's two loops append exactly the listing the theorems are about |
| ReturnStackText.GenerateX86GccAsm | AsmGen/tests/ReturnStackTest.cs:17-47 | the same for x86 |
| ReturnStackText.TextUnique | AsmGen/tests/ReturnStackTest.cs:93-114 | for distinct depths no label is defined twice |
| ReturnStackRiscv.FnRuns | AsmGen/tests/ReturnStackTest.cs:110-128 | function i of a chain of depth d uses 32 bytes per call below it, adds a0 to t0 once per function, matches every call with its return, passes 11*(d-1-i) + 3 lines, and restores sp, s0 and every register outside the chain |
| ReturnStackRiscv.Descend | AsmGen/tests/ReturnStackTest.cs:110-128 | on reaching function j the j+1 live return addresses are on the stack 32 bytes apart or in ra, pairwise distinct, and the frames are linked through the saved frame pointers from s0 on |
| ReturnStackRiscv.ReturnStackTest | AsmGen/tests/ReturnStackTest.cs:89-130 | any call with n iterations passes 10 + n*(11*d - 4) lines and returns with every register but t0 and a0 as before, t0 = d*n*(n+1)/2 mod 2^64, n*d matched chain calls, deepest stack use 32*d bytes, nothing else written, and n*max(0, d-c) mispredictions of a return stack of capacity c; in every round the last function is reached with d live, pairwise distinct return addresses in linked frames |
| ReturnStackX86.ReturnStackTest | AsmGen/tests/ReturnStackTest.cs:17-47 | the same on x86, where the last function does not add: rax = (d-1)*n*(n+1)/2 mod 2^64, 8*d bytes of stack, 3 + n*(4*d + 2) lines, every register but rax, rdi and rsp as before |
| CallNest.NestPredicted | AsmGen/tests/ReturnStackTest.cs:31-45 | a nest of d calls costs a return stack of capacity c exactly max(0, d-c) mispredictions, and what survives below it |
| CallNest.RoundsPredicted | AsmGen/tests/ReturnStackTest.cs:19-46 | n rounds of the nest: n*d calls and n*max(0, d-c) mispredictions |
| LabelNames.NameInjective | AsmGen/tests/IndirectBranchTest.cs:35-43 | the label strings of the indirect-branch and return-stack tests determine every number in them |
| Names.DecReads | AsmGen/tests/IndirectBranchTest.cs:35-43 | a number in a label is its decimal numeral: it reads back as the number and has no leading zero |
| TestNames.NameInjective | AsmGen/UarchTestHelpers.cs:411-436 | within one structure or branch-target-buffer test the label strings determine the labels |
| TestNames.BranchNameInjective | AsmGen/tests/BranchHistoryTest.cs:37-68 | the same for the branch-history labels, whose blocks print the count twice on RISC-V and ARM and once on x86 |
| IndirectText.GenerateRiscvAsm | AsmGen/tests/IndirectBranchTest.cs:45-203 | the nested loops append exactly the listing the theorem is about |
| IndirectX86Text.GenerateX86GccAsm | AsmGen/tests/IndirectBranchTest.cs:313-417 | the same for x86 |
| IndirectFill.FillAllRuns | AsmGen/tests/IndirectBranchTest.cs:77-107 | the emitted fills store in entry t of table b the address of label (b, t), pass each of their lines once, and leave inputs and frame alone |
| IndirectX86Fill.FillAllRuns | AsmGen/tests/IndirectBranchTest.cs:337-358 | the same on x86 |
| IndirectBlock.BlockRuns | AsmGen/tests/IndirectBranchTest.cs:117-174 | one branch block takes exactly the branches for the ones among the four low bits of its selection, lowest first, then makes exactly one indirect jump, to the label its selection array names at the current position, and leaves at the block's end, having fallen through every target behind the selected one: 36 lines, less one per branch taken, and two per target from the selected one on |
| IndirectX86Block.BlockRuns | AsmGen/tests/IndirectBranchTest.cs:366-395 | the same on x86 with seven bits and 44 lines, and with rsi put back |
| IndirectRiscv.MaskWrap | AsmGen/tests/IndirectBranchTest.cs:176-182 | the mask arithmetic leaves a position unless it equals the length, and then gives zero |
| IndirectRiscv.IterationRuns | AsmGen/tests/IndirectBranchTest.cs:114-187 | one iteration runs every branch once, in order, at one position, which then moves on modulo the length; its branches are the bits of the selections at that position and the one that loops back |
| IndirectListing.TextUnique | AsmGen/tests/IndirectBranchTest.cs:45-203 | for distinct counts no label is defined twice |
| IndirectListing.IndirectBranchTest | AsmGen/tests/IndirectBranchTest.cs:45-203 | any call fills the tables with pairwise different addresses, makes exactly branches*n indirect jumps, those of iteration k to the labels the selections name at position k mod length, meets exactly the stated conditional branches in order, as many of them taken as the selections read have ones among their low bits (and one per iteration but the last), restores every register but a0, which gets s0, and passes exactly the stated number of lines |
| IndirectX86.IndirectBranchTest | AsmGen/tests/IndirectBranchTest.cs:313-417 | the x86 function fills its tables the same way, makes the same sequence of jumps, meets the branches for seven bits each, returns zero, restores the registers callers keep, and passes exactly the stated number of lines |
| JumpTables.JumpsCount | AsmGen/tests/IndirectBranchTest.cs:114-187 | n iterations of b branches are n*b indirect jumps |
| JumpTables.JumpsAt | AsmGen/tests/IndirectBranchTest.cs:114-187 | jump b of iteration i goes to the target that branch b's selection array names at position i modulo the length |
| BranchBits.BitsTaken | AsmGen/tests/IndirectBranchTest.cs:151-163 | of one block's history branches as many are taken as its selection has ones: pick%2 + pick/2%2 + pick/4%2 + pick/8%2, and three more bits on x86 |
| BranchBits.HistoryTaken | AsmGen/tests/IndirectBranchTest.cs:151-187 | over a whole call the branches taken are those ones, summed over the selections read, and one for every iteration but the last |
| Selections.FillSelections | AsmGen/DataFiles/GccIndirectBranchFunction.c:14-24 | in every mode the selection arrays hold what the mode says (the index, the random number modulo the targets, half the targets), so every entry names an existing target, as the emitted programs require |
| RiscvFrame.EnterRuns | AsmGen/UarchTestHelpers.cs:414-435 | the prologue saves nine registers in an 80-byte frame and clears them |
| RiscvFrame.LeaveRuns | AsmGen/UarchTestHelpers.cs:466-476 | the epilogue restores every register and returns |
| X86Frame.EntryRuns | AsmGen/UarchTestHelpers.cs:49-75 | the prologue pushes eleven registers, moves the three arguments and clears eight registers |
| X86Frame.ExitRuns | AsmGen/UarchTestHelpers.cs:96-107 | the pops restore every register and the function returns to its caller |
| ThroughputText.AppendFillers | AsmGen/UarchTestHelpers.cs:442-451 | the filler loop appends, as filler k, entry k mod L of the filler array |
| ThroughputText.FillerAt | AsmGen/UarchTestHelpers.cs:442-451 | filler k stands inside the loop, behind the fillers before it, and is entry k mod L of the array |
| ThroughputText.SlotRuns | AsmGen/UarchTestHelpers.cs:442-451 | when every line of the loop is passed m times, each line of slot s's text is executed m*ceil((n - s)/L) times in all over the n fillers |
| Tally.LoopOccurs | AsmGen/UarchTestHelpers.cs:438-465 | a loop holds each instruction as often as its texts, the fillers that the count asks for (two fewer where the chasing loads are counted), the fences and the counter hold it |
| Tally.FnPerforms | AsmGen/UarchTestHelpers.cs:411-477 | a call executes each instruction once for every place outside the loop and m times for every place in it |
| ThroughputListing.GenerateAsmThroughputTestFuncs | AsmGen/UarchTestHelpers.cs:396-478 | one function per count is appended: prologue, text before the loop, loop, epilogue |
| ThroughputListing.ListingUnique | AsmGen/UarchTestHelpers.cs:411-436 | for distinct counts no label is defined twice |
| ThroughputRun.IterationsRun | AsmGen/UarchTestHelpers.cs:438-465 | whatever its texts compute, m iterations of the loop each go straight through its lines, leave the counter at zero and control behind the loop, and change no register but the counter and those the texts write |
| ThroughputRiscv.FunctionRuns | AsmGen/UarchTestHelpers.cs:411-477 | a function whose texts do not write sp, a0 or ra and whose steps do not write the frame runs its loop exactly n times, every slot its share of them, in exactly as many steps as there are lines to pass, and executes every instruction as often as the text before the loop holds it once and one iteration of the stated fillers, fences and counter holds it n times; it returns with sp, every saved register and every register its texts do not write as before |
| ThroughputRiscv.OffsetsRun | AsmGen/UarchTestHelpers.cs:411-477 | stores at constant offsets from a1, apart from the frame, are such steps, and the call has written its frame and those places only |
| ThroughputRiscv.ListedRuns | AsmGen/UarchTestHelpers.cs:411-477 | the same for any function of a listing of distinct counts, called by its label |
| ThroughputX86.FunctionRuns | AsmGen/UarchTestHelpers.cs:33-109 | the x86 function: texts that do not write rsp or rcx, steps that do not write the pushed registers or the return address, every instruction counted, and every pushed register restored |
| BlockedRiscv.GenerateRiscvAsmBlockedStructureTestFuncs | AsmGen/UarchTestHelpers.cs:514-555 | the emitter appends the functions with the division blocker before the fillers |
| BlockedRiscv.FunctionRuns | AsmGen/UarchTestHelpers.cs:514-555 | in every iteration the blocker hands the fillers the address of the data, so fillers that store at constant offsets from that register write those places of the data only, and the call completes |
| ChainRiscv.GenerateRiscvAsmStructureTestFuncs | AsmGen/UarchTestHelpers.cs:479-512 | the throughput emitter is called with the two chains' starts and steps as text |
| ChainX86.GenerateX86AsmStructureTestFuncs | AsmGen/UarchTestHelpers.cs:114-147 | the same for x86 |
| ChainLoop.IterationRuns | AsmGen/UarchTestHelpers.cs:438-465 | for fillers that leave the chains alone, one iteration passes every line of the loop once and moves both chains one record on |
| ChainLoop.IterationsRun | AsmGen/UarchTestHelpers.cs:438-465 | iteration k of m begins with the counter at m-k and the chains at next^k of their starts, and reaches every filler with the first at next^(k+1) and the second at next^k; every line of the loop is passed m times, and only index fields of records are written |
| ChainLoop.GuardRuns | AsmGen/tests/JumpSchedTest.cs:38-47 | a compare filler jumps to the trap if and only if both chains are at the same record |
| ChainLoop.TripRuns | AsmGen/tests/JumpSchedTest.cs:38-47 | when the chains meet, the first compare filler ends the first iteration in the trap, the counter untouched |
| ChainTally.LoopTally | AsmGen/UarchTestHelpers.cs:479-512 | in a structure test an instruction of the loop is executed m times for every place it has in the chains' steps, the fillers, the fences and the counter |
| ChainRiscv.FunctionRuns | AsmGen/UarchTestHelpers.cs:411-512 | a RISC-V structure test called with n iterations over the records of a cycle: all of the above for its loop, every instruction counted, every register but the counter restored, and nothing written but its frame and index fields |
| ChainX86.FunctionRuns | AsmGen/UarchTestHelpers.cs:46-147 | the same on x86, with every register restored |
| DataFile.GenerateBinaryDataFile | AsmGen/Program.cs:519-563 | byte by byte, record i of the file holds the offset of its successor in the shuffled cycle, its index, a float and zeros; numbers stand with the least significant byte first |
| DataFile.FileHasRecords | AsmGen/Program.cs:542-559 | a file read into memory gives, at every record, a little-endian link along the cycle, its index as a little-endian number at offset 8, the bytes of its float and zeros |
| DataFile.RecordsKept | AsmGen/Program.cs:551-556 | memory that differs only in index fields still holds the same links |
| DataFile.IndexStore | AsmGen/tests/StoreSchedTest.cs:19-23 | an 8-byte store at offset 8 of a record writes its index field only |
| JumpSched.GenerateRiscvAsm | AsmGen/tests/JumpSchedTest.cs:38-47 | the generator appends the functions and the trap |
| JumpSched.GenerateX86GccAsm | AsmGen/tests/JumpSchedTest.cs:17-26 | the same for x86 |
| JumpSched.RiscvTest | AsmGen/tests/JumpSchedTest.cs:38-47 | over a data file made from any draws, a call ends in the trap if and only if there is a filler and the draws make record 0 lead to record 4, and then in its first iteration; otherwise it completes, each of its m iterations taking one step along each chain, comparing once per filler and fencing twice |
| JumpSched.X86Test | AsmGen/tests/JumpSchedTest.cs:17-26 | the same on x86, with one fence, under the same condition |
| StoreSched.GenerateRiscvAsm | AsmGen/tests/StqTest.cs:37-46 | the RISC-V generators of the store queue, mixed queue, store data and mixed scheduler tests append the functions with their four fillers in rotation |
| StoreSched.GenerateX86GccAsm | AsmGen/tests/StoreSchedTest.cs:17-32 | the same for x86, and for the store address test |
| StoreSched.RiscvTest | AsmGen/tests/StoreDataSchedTest.cs:50-64 | every call of any of the four tests completes in order, whatever cycle the records hold, executes each test's stores and loads by register, address and number, two fillers fewer where the chasing loads are counted, and leaves the records linking the same cycle |
| StoreSched.X86Test | AsmGen/tests/StoreSchedTest.cs:17-32 | the same on x86 for all five tests |
| StoreSched.RiscvAddrTest | AsmGen/tests/StoreSchedTest.cs:50-65 | the RISC-V store address test, whose fillers store at 8 bytes from the address its blocker loads: every call completes, divides four times, stores once per filler and fences twice in each iteration, writes the first record's index field and its frame only, and the records still link the same cycle |
| BranchHist.FillTestArray | AsmGen/DataFiles/GccBranchHistFunction.c:12-19 | the nested loops give every element its draw modulo 2, or zero |
| BranchHist.ArrayHoldsRows | AsmGen/DataFiles/GccBranchHistFunction.c:12-13 | the array in memory is rows of one element per branch, ending at the end pointer |
| BranchHistText.GenerateAsm | AsmGen/tests/BranchHistoryTest.cs:33-197 | the generators' two loops append exactly the listings the theorems are about |
| BranchHistText.TextUnique | AsmGen/tests/BranchHistoryTest.cs:33-197 | for distinct counts no label is defined twice |
| BranchHistLoop.BlockRuns | AsmGen/tests/BranchHistoryTest.cs:67-74 | one branch moves the pointer by four bytes and counts the element or not, is taken at a nonzero element on RISC-V and ARM and at a zero on x86, and passes four or five lines and one more if it counts |
| BranchHistLoop.MaskIsSelect | AsmGen/tests/BranchHistoryTest.cs:78-82 | on every pointer up to the end, the less-than mask with two exclusive ors equals compare and select |
| BranchHistLoop.WrapRuns | AsmGen/tests/BranchHistoryTest.cs:78-82 | the pointer at the end becomes the start and any other pointer stays, on all three instruction sets |
| BranchHistLoop.IterationsRun | AsmGen/tests/BranchHistoryTest.cs:61-85 | iteration k begins at row k mod H, the sum counts the rows visited, the branches go as their elements say, and the lines passed are counted |
| BranchHistLoop.HistoryAt | AsmGen/tests/BranchHistoryTest.cs:61-85 | conditional branch i*(count+1) + j of a call is taken or not as element j of row i modulo the rows says, and the one behind a row is taken unless the iteration is the last |
| BranchHist.RiscvTest | AsmGen/tests/BranchHistoryTest.cs:33-105 | any call follows the cyclic trajectory, takes its branches exactly at the nonzero elements in that order, returns the number of zeros seen mod 2^64 in 33 + n*(4*count + 8) lines and one per zero, with every other register restored and nothing written outside its 80-byte frame |
| BranchHist.ArmTest | AsmGen/tests/BranchHistoryTest.cs:107-152 | the ARM function follows the same trajectory and returns the same number, in 23 + n*(4*count + 5) lines and one per zero, writing only its 64-byte frame |
| BranchHist.X86Test | AsmGen/tests/BranchHistoryTest.cs:154-197 | the x86 function follows the same trajectory, takes its branches at the zeros, and returns the number of nonzero elements, in 13 + n*(5*count + 5) lines and one per nonzero element |
| BranchHist.ResultsComplete | AsmGen/tests/BranchHistoryTest.cs:66-85 | on the same rows the RISC-V and x86 results add up to n times the branch count |
| BtbText.GenerateArmAsm | AsmGen/tests/BtbTest.cs:105-161 | the generator appends exactly the items the theorems are about |
| BtbText.FunctionLayout | AsmGen/tests/BtbTest.cs:110-149 | for spacings that divide 64 label k lies exactly k spacings behind the aligned loop head, the function ends on a multiple of the spacing, the closing branch stands 4 bytes behind the last label, and where spacing*count + 20 < 2^20 its way back to the head fits a direct branch |
| BtbRun.DirectLoop | AsmGen/tests/BtbTest.cs:117-153 | m iterations of the direct loop take m*count - 1 branches |
| BtbRun.IndirectLoop | AsmGen/tests/BtbTest.cs:114-149 | m iterations of the indirect loop take m*(count-1) + 1 branches and m-1 jumps to the top of the function |
| BtbListing.ArmTest | AsmGen/tests/BtbTest.cs:105-161 | any call in the listing of any counts returns in order; if spacing*count + 20 < 2^20 it takes m*count - 1 branches and makes no indirect jump, and otherwise m*(count-1) + 1 branches and m-1 jumps to the top; which of its branches are conditional is fixed too |
| Patterns.FillPattern | MemoryLatency/MemoryLatency.c:270-302 | both fills leave, one element per stride, the shuffle of the identity for the drawn partners, in plain numbers: element k*stride holds stride times the k-th entry; nothing else is changed |
| Patterns.ShuffleSlots | MemoryLatency/MemoryLatency.c:277-284 | the while loop is the swaps in order |
| Shuffle.ShuffledIsBuilt | MemoryLatency/MemoryLatency.c:277-284 | swapping from the last position down is splicing elements one by one into a cycle from the first up |
| Shuffle.ShuffleIsCycle | MemoryLatency/MemoryLatency.c:270-285 | for every draw the result is one single cycle over all elements |
| Shuffle.DecodeShuffled | MemoryLatency/MemoryLatency.c:277-284 | the partners can be read back from the array |
| Shuffle.ReadBack | MemoryLatency/MemoryLatency.c:277-284 | for every list of random numbers the array gives back number i modulo i-1, for every position i from 2 on |
| Shuffle.ShuffleInjective | MemoryLatency/MemoryLatency.c:277-284 | runs that leave the same array drew the same random numbers modulo i-1 at every position i |
| Shuffle.ShuffleImage | MemoryLatency/MemoryLatency.c:277-284 | an array is reached if and only if it is a single cycle in which, with larger elements bypassed, no element m >= 2 leads to m-1 |
| Shuffle.MissedCycle | MemoryLatency/MemoryLatency.c:269-285 | for three or more elements a single cycle exists that is never reached |
| Shuffle.ZeroLeadsToFour | AsmGen/Program.cs:532-540 | exactly which draws make element 0 lead to element 4 |
| Shuffle.ZeroToFourHappens | AsmGen/Program.cs:532-540 | for every list of five or more elements there are such draws: a one at position 4 and zeros elsewhere |
| Chase.LapVisitsAll | MemoryLatency/MemoryLatency.c:327-331 | any n consecutive steps around a single cycle of n visit every element exactly once |
| Cycles.CycleTours | MemoryLatency/MemoryLatency.c:327-331 | from any element the cycle is toured and closes after n steps |
| Chase.ChaseIndices | MemoryLatency/MemoryLatency.c:327-331 | the timed loop ends at the element that many steps on, with the sum of the indices visited mod 2^32 |
| Chase.RunTest | MemoryLatency/MemoryLatency.c:304-331 | fill and chase together, for any array contents and draws: the last index is 16 times an element of the cycle, and the sum 16 times the sum of those visited, mod 2^32 |
| Chains.RunMlpTest | MemoryLatency/MemoryLatency.c:343-378 | nothing happens without chains; otherwise the array is filled and the chains end at as many different elements, each as many steps on as there were rounds |
| Chains.RunChains | MemoryLatency/MemoryLatency.c:360-370 | after k rounds chain j is k steps from element j |
| Chains.ChainsApart | MemoryLatency/MemoryLatency.c:365-370 | the chains are always at different elements and back at their starts after every n rounds |
| Chains.StartInBounds | MemoryLatency/MemoryLatency.c:360 | chain j starts inside the array if and only if the array has an element j |
| PointerChase.PrepLatencyArr | MemoryLatency/MemoryLatency_x86.s:16-29 | every entry becomes the address of the entry it named |
| PointerChase.LatencyTest | MemoryLatency/MemoryLatency_x86.s:35-45 | every chase address is the base plus eight times the index chase's value, and the sum is the wrapped sum of the addresses |
| PointerChase.LapSum | MemoryLatency/MemoryLatency_x86.s:35-45 | a full lap sums to n*base + 32*n*(n-1), whatever the shuffle |
| PointerChase.RunAsmTest | MemoryLatency/MemoryLatency.c:412-426 | fill, convert and chase together |
| Tlb.PlaceInPage | MemoryLatency/MemoryLatency.c:490 | the element of page i lies in page i, on line i mod 64 |
| Tlb.PlacesApart | MemoryLatency/MemoryLatency.c:490 | different pages have different elements, and any 64 consecutive pages different lines |
| Tlb.LayOut | MemoryLatency/MemoryLatency.c:484-493 | the laid-out array is the cycle carried over to the places, and which other entries hold the filler |
| Tlb.ChasePages | MemoryLatency/MemoryLatency.c:501-505 | the chase follows the cycle page by page and never reads the filler |
| Tlb.LapHitsEveryPage | MemoryLatency/MemoryLatency.c:501-505 | any `entries` consecutive accesses hit every page exactly once |
| Tlb.RunTlbTest | MemoryLatency/MemoryLatency.c:459-505 | shuffle, layout and chase together |
| PingPong.EveryInterleaving | CoherencyLatency/PThreadsCoherencyLatency.c:198-233 | in every reachable state the counter is the number of successes, which alternate strictly, the two values are the next two with fixed parity, exactly one thread can succeed unless finished, and at the end each has succeeded `iterations` times |
| PingPong.StepInvariant | CoherencyLatency/PThreadsCoherencyLatency.c:229-233 | a step raises the counter by one exactly when the thread whose turn it is finds its value and swaps: the value it expects is then in the shared word, its own next value is two higher and its success is logged; a failed attempt changes nothing but its place in the loop, and a thread leaves the loop when its value exceeds twice the iterations |
| PingPong.FairSchedulesFinish | CoherencyLatency/PThreadsCoherencyLatency.c:229-233 | any schedule giving each thread a turn in every k steps finishes within (4*iterations + 1)*k steps |
| PingPong.FinishesIff | CoherencyLatency/PThreadsCoherencyLatency.c:229-233 | for any 64-bit iteration count a fair schedule long enough finishes if and only if the count is not 2^63 - 1 modulo 2^63, and then each thread has succeeded count modulo 2^63 times |
| PingPong.TooManyNeverFinish | CoherencyLatency/PThreadsCoherencyLatency.c:229-233 | for 2^63 - 1 iterations no schedule finishes |
| PingPong.MinusOneNeverFinishes | CoherencyLatency/PThreadsCoherencyLatency.c:82 | with the argument -1, which becomes 2^64 - 1, no schedule finishes |
| Kernels.AsmRead | MemoryBandwidth/MemoryBandwidth_x86.s:22-59 | the loop ends, having loaded 512 bytes of every block once per pass from the start block around, visit j at block start + j modulo the blocks, for as many passes as the counter takes to reach zero |
| Kernels.AsmWrite | MemoryBandwidth/MemoryBandwidth_x86.s:73-111 | the same visits, and every vector becomes the first one |
| Walk.PassesInOrder | MemoryBandwidth/MemoryBandwidth_x86.s:22-59 | n passes are n times the number of blocks visits, visit j at block start + j modulo the number of blocks |
| CopyKernel.AsmCopy | MemoryBandwidth/MemoryBandwidth_x86.s:122-164 | the second half becomes the first, which is unchanged, and the bytes moved |
| FlipKernel.ExitsIffEven | MemoryBandwidth/MemoryBandwidth_x86.s:231-232 | a 64-bit counter lowered by two reaches zero if and only if it is even, and after how many passes |
| FlipKernel.AsmCflip | MemoryBandwidth/MemoryBandwidth_x86.s:180-232 | for an even counter the loop exits after half as many passes over the blocks in ring order, and leaves the array as it was if that is an even number, and every group of four vectors reversed if it is odd |
| FlipKernel.MirroredEven | MemoryBandwidth/MemoryBandwidth_x86.s:186-232 | an even number of passes restores the array |
| CopyKernel.AsmAdd | MemoryBandwidth/MemoryBandwidth_x86.s:246-298 | visits in ring order, as many passes as the signed test allows (half the iterations rounded up, at least one), and 1024 bytes moved per visit |
| CopyKernel.ScalarRead | MemoryBandwidth/MemoryBandwidth.c:621-647 | no visit for short arrays, otherwise whole groups of eight in ring order, `iterations` times around |
| MeasureBw.Settings.GetIterationCount | MemoryBandwidth/MemoryBandwidth.c:377-387 | the result is even, at least 8, 8 for a quotient below 8 and otherwise the quotient or one more, and the setting sticks at 64 |
| MeasureBw.StickyForever | MemoryBandwidth/MemoryBandwidth.c:379-381 | over any calls the setting is 64 as soon as one size exceeds 64 KB, and the initial one until then |
| MeasureBw.ElementsFit | MemoryBandwidth/MemoryBandwidth.c:532-542 | whatever the size and thread count the kernels get whole blocks, in shared and in private mode |
| MeasureBw.RunThread | MemoryBandwidth/MemoryBandwidth.c:649-654 | each kernel leaves the array as stated for it, goes through the blocks in ring order for the stated number of passes, and moves 4 bytes per float and iteration |
| MeasureBw.Measure | MemoryBandwidth/MemoryBandwidth.c:528-618 | for all five kernels the bytes credited equal the bytes loaded plus the bytes stored over all threads: 1024*KB*iterations*threads in shared mode; in private mode every thread's array is the least whole number of KB that covers the size together, which bounds the credit from both sides; too many threads are refused |

## Left out

- Timing, printing, argument parsing, affinity, memory mapping, file writing and thread creation: the model starts from the arrays, arguments and threads they provide.
- Floating point: the scaled iteration counts are any natural numbers, latencies and bandwidths are not computed, and the values of `asm_add`, `scalar_read` and the float fields of the data file are opaque.
- Code addresses are line numbers of the listing, and only the branch-target-buffer test has byte addresses; alignment directives elsewhere are not modelled. `adrp` with `add` is one label address.
- Machine limits are preconditions: listings below 2^64 lines, stack and arrays inside the address space and apart from each other, jump-table targets below 2^31, element counts inside a signed 32-bit `int`.
- A counter of zero stands for 2^64 iterations in the loops that decrement before they test; fewer iterations than one do not exist there.
- The ARM variants of the return-stack, indirect-branch and structure tests, the x86 and RISC-V branch-target-buffer tests, and the callback fillers other than the compare and jump.
- Fillers that transfer control, besides the compare that jumps to the trap: the throughput theorems are about texts that fall through.
- Floating-point and vector fillers and the texts behind the chains' loads that go with them, and multiplication: the machine has no such instructions.
- In the chain theorems the fillers' stores go to index fields, through the first chain or at constant offsets; stores elsewhere are covered by `ThroughputRiscv` and `ThroughputX86`, which say nothing about chains.
- Filler arrays with unassigned slots, as in three of the tests, would append empty lines; the round robin is stated for arrays whose slots are all assigned.
- Label strings of different tests in one file are not compared with each other; `LabelNames` and `TestNames` cover each test by itself.
- `avx512_copy`, the ARM copy kernel, `readbankconflict`, store forwarding, instruction rates and clock checks.
- The three branch-history generators are one method with the instruction set as a parameter, because their loops are the same; so are the RISC-V and x86 throughput emitters, which differ in prologue and epilogue.
- The threads of a bandwidth test run one after the other in the model, so two kernels that write a shared array at the same time are not modelled; the values the arrays are filled with are not either.
- The lines a call passes are counted with its labels, one line each; directives are not passed.
- In the bandwidth accounting thread counts times iterations stay below 2^63, and sizes below one KB and zero threads are not considered.
