# The Z80F core, modelled and proved

A Dafny model of the Z80F processor core and proofs about it.  `dafny verify dfyconfig.toml` checks everything.

The core is a deterministic machine: some 1,500 decoded instruction forms behind five dispatchers, an interrupt
state machine, and T-state accounting over a bus whose host answers every cycle with wait states.  The project has
three layers.

**The processor as the source writes it.**  `Z80.dfy` holds `Core.Z80`, an object that updates its fields in place,
with the switches of the dispatchers case by case (by fields only where the source decodes by fields), the flag tricks
of the ALU, the bus helpers, interrupt handlers, `Step` and `RunFor`; and `Core.Bus`, a host with flat memory that
remembers every callback.  `FlagTables.dfy` builds the flag tables with the source's loops, `Timing.dfy` is its
T-state table.

**What it should mean.**  `Words`, `Registers`, `Machine`, `Alu`, `Isa` and `Stepping` define the same machine a
second time, independently: instructions by the fields of their opcodes with one rule per field and a mode (HL, IX or
IY) for the register that stands in the place of HL; flags as carries, borrows and signed ranges; steps as functions
on states.  A state includes the complete bus history, so timing, order of accesses and port traffic are part of
what is compared.  Every method of the processor is proved to take the state its reference function says, and every
dispatcher to return exactly the T-states it surfaced to the bus.  Waits, port input and acknowledge bytes come from
a host that may answer as it likes, depending on everything it has seen.

**What follows, over all inputs and runs.**

- `IndexPrefix`: an index prefix exchanges HL with IX or IY and nothing else; runs of prefixes collapse to the last;
  memory operands and the DDCB and FDCB pages refine the (HL) forms; the prefix loop ends exactly when memory holds a
  byte that is no prefix.
- `Ledger`: the two accounts of time agree in every step and run, the refresh register follows the bus history, and
  `run_for` overshoots by less than one longest instruction.
- `BlockCopy`, `BlockSearch`, `BlockIo` (on `Blocks` and `Ports`): the repeating block instructions over whole runs,
  every repetition being a step of its own; and, with `Interrupted`, the same runs with NMIs taken between the
  repetitions, however many and however nested.
- `Branches`, `Operations`, `Moves`, `Controls`, `Operands` and `BlockSingles` (on `Steps`): one step on each kind of
  instruction, its operands and targets written out independently of the decoder; and what follows for two and more
  steps: a DJNZ delay, pairs and digits that come back, exchanges that undo themselves, single block instructions at
  the end of the repeating ones.
- `Subroutines`: calls, returns, pushes and pops nested in any way.
- `BitLaws`: logic, rotates, shifts, single bits and parity, bit by bit and as arithmetic.
- `Interrupts`: invariants from reset on under every interleaving of host calls and steps, the EI delay, conservation
  of edges and pulses, NMIs and RETNs in any well-nested order.
- `XorFlags` and `Arithmetic`: the exclusive-or flags are the arithmetic ones, and carry chains compute binary and
  packed decimal numbers of any length.

Conventions.  `byte` and `word` are bounded integers and every wrap-around is written out.  F is kept as its eight
named bits; `Registers.FlagsRoundTrip` says nothing is lost by that.  `Stepping.Step` is total: a step that would
never come back, which happens only when all 65536 bytes are index prefixes, is given its own starting state, and
results that need a step to come back say so with `Returns`; the method `Core.Z80.Step` requires it.  `Blocks.Quiet`
says that no interrupt is taken: no NMI is pending, and no INT is active while IFF1 is set.

Where the code and its comments differ the model follows the code: `include/z80f/z80.hpp` says a step executes one
instruction "including any pending interrupt acknowledge that completed first", while a step that services an
interrupt executes no instruction (`Interrupts.StepKinds`); the instruction follows in the next step.

## Model

| member | source | states |
|---|---|---|
| `IndexPrefix.PrefixConjugates` | src/decode.cpp:1208-1649 | For every opcode a DD or FD rewrites by substitution, the index decoder gives the same registers, memory, bus history and time as exchanging HL with the index register, running the unprefixed decoder and exchanging back |
| `IndexPrefix.PrefixedStep` | src/decode.cpp:1174-1191 | The same for a whole step on prefix and opcode, with the Q latch cleared between the two and four T-states more than the opcode alone |
| `IndexPrefix.PlainSwaps` | src/decode.cpp:46-762 | The two decoders commute with the exchange of HL and the index register |
| `IndexPrefix.PrefixIgnored` | src/decode.cpp:1644-1648 | EX DE,HL, EXX and the ED page mean the same behind a prefix as without one |
| `IndexPrefix.OperandRefines` | src/decode.cpp:1312-1440 | Prefixed loads, stores and arithmetic with a memory operand, and INC (IX+d) and DEC (IX+d), are the (HL) instructions at IX+d with WZ there and HL restored, eight T-states later |
| `IndexPrefix.StoreImmRefines` | src/decode.cpp:1301-1310 | LD (IX+d),n leaves the registers and memory of LD (HL),n with HL and WZ at IX+d, five T-states longer |
| `IndexPrefix.LoadHalfRefines` | src/decode.cpp:1313-1349 | LD H,(IX+d) and LD L,(IX+d) load the real H and L and leave the other half |
| `IndexPrefix.StoreHalfRefines` | src/decode.cpp:1350-1391 | LD (IX+d),H and LD (IX+d),L store the real H and L |
| `IndexPrefix.PrefixRunCollapses` | src/decode.cpp:1174-1191 | A run of k further prefixes behaves as the last of them alone, met after k opcode fetches |
| `IndexPrefix.FetchesKeep` | src/z80.cpp:77-84 | k opcode fetches advance PC by k, R by k modulo 128 and the charge by 4k, and nothing else |
| `IndexPrefix.PrefixLoopEnds` | src/decode.cpp:1182-1188 | The prefix loop reaches an opcode if and only if some byte of memory is neither DD nor FD |
| `Isa.PrefixRunStep` | src/decode.cpp:1182-1188 | The measure of the prefix loop: the cyclic distance to the next opcode shrinks by one with each prefix and is zero at an opcode |
| `IndexPrefix.IndexedBitRefines` | src/decode.cpp:1656-1785 | DDCB and FDCB are the (HL) forms of the CB page run with HL and WZ at IX+d and HL restored, and forms other than BIT also copy the result into the register named |
| `IndexPrefix.PrefixedCarryStep` | src/decode.cpp:1174-1191 | A step on SCF or CCF behind any run of prefixes takes bits 5 and 3 from F or A, whatever the Q latch held before, because the prefix clears it |
| `Ledger.StepTiming` | src/z80.cpp:239-243 | Every step that returns charges exactly the durations it surfaced to the bus, lets exactly that plus the waits pass, costs at least four, and begins each cycle where the one before ended |
| `Ledger.StepKept` | src/z80.cpp:207-244 | Exact cost of NMI (11), maskable acknowledge (13, or 19 in IM 2) and HALT (4), cost bounds of an instruction with k prefixes, and the exact effect on interrupt control and lines |
| `Ledger.RunTiming` | src/z80.cpp:45-56 | Over any run the cycle counter advances by what the bus history says, and the history stays contiguous |
| `Ledger.RunWaits` | src/z80.cpp:45-50 | The time that passes in a run is the base T-states charged plus the waits of the host |
| `Ledger.RunRefresh` | src/z80.cpp:40-43 | Over any run without LD R,A, bit 7 of R stays and its low seven bits advance modulo 128 by the refreshes in the bus history, operand fetches of DDCB and FDCB not among them |
| `Ledger.RunForWindow` | src/z80.cpp:246-252 | Without waits and with prefix runs of at most k the result of run_for lies in [t, t+21+4k) for positive t |
| `Ledger.RunForNothing` | src/z80.cpp:246-252 | run_for of zero or less runs no step |
| `Ledger.FetchedKept` | src/decode.cpp:46-1785 | Whatever opcode lies at PC, its execution keeps the time books and the refresh count, changes interrupt control only as its name says, and charges 4k+4 to 4k+21 behind k prefixes |
| `Ledger.ServiceIntKept` | src/z80.cpp:157-198 | A maskable acknowledge charges 13, or 19 in IM 2, refreshes once and clears IFF1 and IFF2 |
| `Ledger.ServiceNmiKept` | src/z80.cpp:138-155 | NMI service charges 11, refreshes once, clears IFF1 and keeps IFF2 |
| `Timing.MiddleTiming` | src/timing.cpp:80-215 | Between 0x40 and 0xBF the table charges seven for a memory operand and four otherwise, HALT included |
| `BlockCopy.CopyWhole` | src/instructions.cpp:410-437 | LDIR and LDDR: exactly BC repetitions (0 for 65536), PC after the instruction, destination byte i holding source byte i or i modulo the gap, every other byte untouched, 21(n-1)+16 T-states plus waits |
| `BlockCopy.CopiedBytes` | src/instructions.cpp:410-417 | Byte by byte copying in closed form: destination position i receives the original source byte at i, or at i modulo the gap once the copy runs over its source |
| `BlockCopy.CopyMoves` | src/instructions.cpp:410-437 | When the destination does not start inside the source ahead of it, every byte of the source arrives as it was and no other byte changes |
| `BlockCopy.CopyRun` | src/instructions.cpp:410-437 | All registers, flags, memory, lines and the charge after any number k of repetitions |
| `BlockCopy.CodeOutside` | src/instructions.cpp:430-435 | An instruction outside its own destination is still in place before each repetition |
| `Interrupted.Transparent` | src/z80.cpp:138-155 | Interruptions by NMIs and RETNs in any well-nested order leave a repeating instruction where its uninterrupted run would be, if each repetition treats similar states alike |
| `BlockCopy.CopyTransparent` | src/instructions.cpp:430-435 | However many NMIs are taken between repetitions, and in whatever nested order they return, A, F, BC, DE, HL, SP, PC, the port traffic and all memory but the handlers' stack bytes end as in the uninterrupted copy |
| `BlockCopy.CopyStep` | src/instructions.cpp:410-437 | One step on LDIR or LDDR: one byte, the pointers and BC moved, PC rewound unless BC ran out, 21 or 16 T-states |
| `BlockSearch.SearchWhole` | src/instructions.cpp:439-479 | CPIR and CPDR: a search bounded by BC that looks at bytes up to the first match, Z if and only if A occurs, P/V if and only if BC is left, carry and memory unchanged, 21(k-1)+16 T-states plus waits |
| `BlockSearch.Examined` | src/instructions.cpp:472-477 | The number of bytes looked at: up to the first match, or all n |
| `BlockSearch.SearchRun` | src/instructions.cpp:439-479 | All registers, memory, lines and the charge after any number k of comparisons without an earlier match |
| `BlockSearch.SearchTransparent` | src/instructions.cpp:472-477 | CPIR and CPDR end alike however NMIs interrupt them |
| `BlockIo.TransferWhole` | src/instructions.cpp:481-532 | INIR, INDR, OTIR and OTDR: exactly B transfers (0 for 256) in address order, input ports with B before and output ports with B after it is counted, memory changed only by input and only at the targets, 21(n-1)+16 T-states plus waits |
| `BlockIo.TransferRun` | src/instructions.cpp:481-532 | Registers, memory, port traffic and charge after any number k of transfers |
| `BlockIo.TransferStep` | src/instructions.cpp:481-532 | One step on a repeating port instruction: one port access, one byte, B counted, PC rewound unless B ran out |
| `BlockIo.TransferTransparent` | src/instructions.cpp:481-532 | OTIR and OTDR end alike, port traffic included, however NMIs interrupt them, and so do INIR and INDR when the answers of the host depend on the port traffic alone |
| `Operands.LoadStep` | src/decode.cpp:1313-1349 | LD r,(IX+d): the byte loaded is the one at IX+d, the displacement counting down from 80h on; WZ is that address; 19 T-states |
| `Operands.StoreStep` | src/decode.cpp:1350-1391 | LD (IX+d),r changes memory at IX+d and nowhere else; WZ is that address |
| `Operands.StoreImmStep` | src/decode.cpp:1301-1310 | LD (IX+d),n stores the byte behind the displacement at IX+d |
| `Operands.CountStep` | src/decode.cpp:1283-1300 | INC (IX+d) and DEC (IX+d) count the byte at IX+d; 23 T-states |
| `Operands.AccumulateStep` | src/decode.cpp:1392-1440 | Arithmetic with the byte at IX+d, operation by operation, leaves A and F as with any operand of that value |
| `Operands.BitStep` | src/decode.cpp:1656-1785 | DDCB and FDCB: the operand is at IX+d, BIT reads it, every other form replaces it and leaves it in the register named too |
| `Operands.TargetModulo` | src/decode.cpp:1200-1206 | IX+d is the index plus the signed displacement modulo 65536 |
| `BlockSingles.CopyOnce` | src/decode.cpp:1115-1120 | LDI counts HL and DE up and LDD counts them down, by one byte moved; PC goes on, 16 T-states |
| `BlockSingles.CopyLast` | src/instructions.cpp:410-437 | With BC at one, LDI and LDD leave what LDIR and LDDR leave |
| `BlockSingles.SearchOnce` | src/decode.cpp:1127-1132 | CPI and CPD: one comparison, HL up or down, PC goes on, 16 T-states |
| `BlockSingles.SearchLast` | src/instructions.cpp:439-479 | With BC at one or on a match, CPI and CPD leave what CPIR and CPDR leave |
| `BlockSingles.TransferOnce` | src/decode.cpp:1139-1156 | INI, IND, OUTI and OUTD: one transfer at the port the count of B makes, HL up or down, 16 T-states |
| `BlockSingles.TransferLast` | src/instructions.cpp:481-532 | With B at one, INI, IND, OUTI and OUTD leave what the repeating forms leave, port traffic included |
| `Branches.JumpStep` | src/instructions.cpp:544-550 | JP and JP cc: to the operand if the condition holds and to the next instruction if not, WZ the operand in both cases |
| `Branches.RelativeStep` | src/decode.cpp:184-195 | JR and JR cc: from the next instruction on by the signed displacement, 12 T-states taken and 7 not |
| `Branches.DjnzLoop` | src/decode.cpp:115-128 | DJNZ onto itself takes B steps (0 for 256), ends with B zero at the next instruction and charges 13(n-1)+8 |
| `Branches.DjnzStep` | src/decode.cpp:115-128 | DJNZ counts B, jumps unless it is zero, and changes no flag |
| `Branches.CallStep` | src/instructions.cpp:552-560 | CALL and a taken CALL cc push the address of the instruction behind them; one not taken pushes nothing |
| `Branches.RestartStep` | src/z80.cpp:200-205 | RST pushes the address behind it and goes to the opcode less C7h |
| `Branches.ReturnStep` | src/decode.cpp:415-423 | RET and RET cc take the word on the stack for PC if the condition holds |
| `Subroutines.CallReturns` | src/instructions.cpp:552-560 | However calls (CALL, taken CALL cc, RST), returns, pushes and pops are nested in it, a subroutine comes back to the instruction behind its call with SP as it was, and no memory changed but two bytes a level and what its other work writes elsewhere |
| `Subroutines.PlayBalances` | src/decode.cpp:461-464 | Any well-nested code leaves SP as it found it and the stack above alone |
| `Subroutines.PairSaved` | src/z80.cpp:108-121 | A pair pushed around any such code is the pair its matching POP takes, whatever pair that names |
| `BitLaws.LogicBits` | src/instructions.cpp:89-102 | Bit k of A after AND, XOR and OR is the and, exclusive or and or of bit k before and of the operand |
| `BitLaws.LogicFlags` | src/instructions.cpp:89-102 | Their flags are sign, zero, parity and bits 5 and 3 of the result, H only after AND, N and C clear |
| `BitLaws.XorAccumulates` | src/instructions.cpp:99-102 | XOR with the same operand twice gives A back; XOR A leaves zero with Z set |
| `BitLaws.LeftBits` | src/instructions.cpp:294-383 | RLC, RL, SLA and SLL move every bit one place up and bit 7 into carry, and take in bit 7, the carry, nothing, one |
| `BitLaws.RightBits` | src/instructions.cpp:294-383 | RRC, RR, SRA and SRL move every bit one place down and bit 0 into carry, and take in bit 0, the carry, bit 7 again, nothing |
| `BitLaws.RotatesUndo` | src/instructions.cpp:294-383 | RRC undoes RLC, and RR undoes RL, carry included |
| `BitLaws.ShiftsCompute` | src/instructions.cpp:294-383 | SLA doubles, SRL halves and SRA halves a signed byte, the carry being what does not fit |
| `BitLaws.ShiftFlags` | src/instructions.cpp:294-383 | The flags of a rotate or shift are those of its result, with the bit that fell out in carry |
| `BitLaws.SetResBits` | src/instructions.cpp:400-406 | SET and RES change the bit the opcode names and no other |
| `BitLaws.BitTests` | src/instructions.cpp:385-398 | BIT shows the complement of the bit in Z and P/V, bit 7 in S too, and leaves carry |
| `BitLaws.XorParity` | src/flags.cpp:12-24 | An exclusive or has even parity if and only if its operands agree in parity |
| `BitLaws.PortFlags` | src/instructions.cpp:481-532 | Flags of a port transfer: S, Z and bits 5 and 3 of B counted down, N the sign of the byte, H and C the overflow of the sum, P/V whether its low three bits and B agree in parity |
| `BitLaws.MoveFlags` | src/instructions.cpp:410-437 | Flags of a block move: P/V while BC is left, bits 5 and 3 from the byte plus A, H and N clear |
| `Operations.AluStep` | src/decode.cpp:391-411 | One step on 80h to BFh: the operation in bits 5 to 3 on A and the operand in bits 2 to 0, 7 T-states for memory and 4 otherwise |
| `Operations.AluImmStep` | src/decode.cpp:446-448 | The same with the byte behind the opcode |
| `Operations.AluComputes` | src/instructions.cpp:26-87 | ADD, ADC, SUB and SBC are exact once the carry is counted, and CP is SUB that keeps A, with Z for equal and C for less |
| `Operations.IncDecStep` | src/decode.cpp:69-74 | INC and DEC count the operand that bits 5 to 3 name, register or memory |
| `Operations.CountFlags` | src/instructions.cpp:104-130 | The flags of INC and DEC are those of ADD 1 and SUB 1, but carry stays |
| `Operations.RotateAStep` | src/instructions.cpp:238-290 | RLCA, RRCA, RLA and RRA leave A and carry as the CB forms of the same number, and S, Z and P/V as they were |
| `Operations.DaaStep` | src/decode.cpp:218-220 | DAA puts the corrected value into A and its flags into F |
| `Operations.CplStep` | src/decode.cpp:258-266 | CPL inverts every bit of A |
| `Operations.BitTestStep` | src/decode.cpp:766-844 | CB 40h to 7Fh: BIT on the operand in bits 2 to 0, which stays |
| `Operations.CbStep` | src/decode.cpp:766-844 | The other CB opcodes put their result where bits 2 to 0 say; SET and RES write no flag |
| `Moves.LoadByteStep` | src/decode.cpp:365-390 | LD between registers and (HL): from the operand in bits 2 to 0 to the one in bits 5 to 3, no flag changed |
| `Moves.LoadImmStep` | src/decode.cpp:75-77 | LD r,n and LD (HL),n |
| `Moves.HaltStops` | src/decode.cpp:368-371 | HALT stays on itself |
| `Moves.StoreAStep` | src/decode.cpp:62-65 | A to memory at BC, DE or the operand, with A above the low byte of the next address in WZ |
| `Moves.LoadAStep` | src/decode.cpp:95-98 | A from memory there, with the next address in WZ |
| `Moves.LoadWordStep` | src/decode.cpp:59-61 | LD rr,nn, low byte first |
| `Moves.CountWordStep` | src/decode.cpp:66-68 | INC rr and DEC rr modulo 65536, no flag changed |
| `Moves.AddWordStep` | src/decode.cpp:89-94 | ADD HL,rr: the sum in HL, the old HL plus one in WZ |
| `Moves.CarryWordStep` | src/decode.cpp:890-922 | SBC HL,rr and ADC HL,rr, each with the pair its opcode names |
| `Moves.StoreWordStep` | src/decode.cpp:924-955 | LD (nn),rr stores low byte first and changes no other memory |
| `Moves.FetchWordStep` | src/decode.cpp:956-988 | LD rr,(nn) takes the low byte first |
| `Moves.WordComesBack` | src/decode.cpp:924-988 | What LD (nn),rr stores, LD rr,(nn) loads back into any pair |
| `Moves.StoreHlStep` | src/decode.cpp:199-205 | LD (nn),HL |
| `Moves.FetchHlStep` | src/decode.cpp:239-245 | LD HL,(nn) |
| `Moves.LoadSpStep` | src/decode.cpp:728-730 | LD SP,HL |
| `Moves.PushPop` | src/z80.cpp:108-121 | What PUSH pushes, POP pops into any pair, F included, and SP comes back |
| `Moves.PushStep` | src/decode.cpp:443-445 | PUSH puts the pair below SP, high byte first |
| `Moves.PopStep` | src/decode.cpp:424-426 | POP takes the pair from SP up |
| `Moves.ExStackStep` | src/decode.cpp:609-620 | EX (SP),HL exchanges HL with the two bytes at SP and leaves the new HL in WZ |
| `Moves.ExchangeStep` | src/decode.cpp:81-88 | EX AF,AF', EX DE,HL and EXX |
| `Moves.ExchangeTwice` | src/decode.cpp:544-564 | Each exchange, EX (SP),HL included, undoes itself in registers and memory |
| `Controls.OutAStep` | src/decode.cpp:510-516 | OUT (n),A hands A to the port with A above n |
| `Controls.InAStep` | src/decode.cpp:568-574 | IN A,(n) takes what the host answers at that port |
| `Controls.OutRegStep` | src/decode.cpp:874-888 | OUT (C),r hands the register, or zero for 71h, to port BC |
| `Controls.InRegStep` | src/decode.cpp:854-872 | IN r,(C) takes the answer at port BC and its flags, carry kept; 70h only the flags |
| `Controls.ModeStep` | src/decode.cpp:1033-1046 | IM 0, 1 and 2 with their aliases |
| `Controls.EnableStep` | src/decode.cpp:697-738 | DI clears both enables; EI sets them and starts the delay |
| `Controls.StoreControlStep` | src/decode.cpp:1049-1058 | LD I,A and LD R,A, all eight bits |
| `Controls.LoadControlStep` | src/decode.cpp:1059-1084 | LD A,I and LD A,R: P/V is IFF2, and R counts the fetches of this instruction |
| `Controls.HandlerSeesEnable` | src/decode.cpp:1018-1030 | In an NMI handler P/V after LD A,I is the IFF2 of the interrupted program, which is what RETN puts into IFF1 |
| `Controls.NegStep` | src/decode.cpp:991-1015 | NEG is SUB from zero |
| `Controls.DigitStep` | src/decode.cpp:1085-1112 | RRD and RLD turn three digits, the high digit of A staying |
| `Controls.DigitsBack` | src/decode.cpp:1085-1112 | RRD undoes RLD and RLD undoes RRD, on A and on (HL) |
| `Controls.NothingStep` | src/decode.cpp:1163-1170 | NOP and the unassigned ED opcodes do nothing but take 4 or 8 T-states |
| `Interrupts.TraceSound` | src/z80.cpp:157-198 | Over every interleaving of steps and line changes IFF1 implies IFF2, a pending EI implies IFF2, IM is at most 2 (so the handler's default case is never taken) and Q is zero or F |
| `Interrupts.ResetSound` | src/z80.cpp:15-38 | The state after reset satisfies that invariant, with PC zero, AF, HL and SP all ones, IM 0 and both enables clear |
| `Interrupts.StepLatches` | src/z80.cpp:242-242 | After a step Q is F if the instruction wrote the flags and zero otherwise |
| `Interrupts.CarryOpsUseQ` | src/decode.cpp:310-364 | SCF and CCF take bits 5 and 3 from A alone after an instruction that wrote the flags, and from F or A after one that did not; H is the old carry for CCF and clear for SCF |
| `Interrupts.DelayPending` | src/z80.cpp:224-228 | The EI delay is pending after a step if and only if the step was an EI or an NMI service that found it pending |
| `Interrupts.NoAcknowledgeAfterEi` | src/decode.cpp:724-728 | After an EI, whatever the host does and however many NMIs come first, the next other step is not a maskable acknowledge |
| `Interrupts.EdgesAndPulses` | src/z80.cpp:123-136 | Over any trace, NMI services plus the one pending are the edges seen while none was pending; pulses are latched, survive NMI services, are consumed once, and never feed more acknowledges than there were pulses |
| `Interrupts.CallConserves` | src/z80.cpp:212-226 | The same balance for one host call or step |
| `Interrupts.VisitsUnwind` | src/z80.cpp:138-155 | NMIs and RETNs in any well-nested order give back PC (or the address after the HALT they ended), SP, every other register and IFF2, leave IFF1 equal to IFF2, touch no port, and change no memory but two bytes for each level of nesting |
| `Interrupts.NestedNmis` | src/z80.cpp:138-155 | In particular n nested NMIs and then n RETNs, with no memory changed but the 2n bytes pushed |
| `Interrupts.StepKinds` | src/z80.cpp:207-244 | A step executes the instruction at PC if it services no interrupt and the processor is not halted; any other step changes only PC, SP, WZ, R, the interrupt state and two bytes below SP |
| `Interrupts.NmiEntry` | src/z80.cpp:138-155 | An NMI pushes the return address and vectors to 0066h with IFF2 kept |
| `Interrupts.IntEntry` | src/z80.cpp:157-198 | A maskable acknowledge pushes the return address, past a HALT if halted, and vectors: in IM 0 to the byte less C7h if it is an RST opcode and to 38h otherwise, in IM 1 to 38h, in IM 2 through the table at I |
| `Interrupts.RestartTargets` | src/z80.cpp:173-181 | Exactly the eight RST opcodes are obeyed in IM 0 |
| `Interrupts.RstAlike` | src/z80.cpp:173-181 | An IM 0 acknowledge of an RST opcode ends like that instruction executed at the address to return to with interrupts disabled, in every register but R and in memory |
| `Interrupts.RetnStep` | src/decode.cpp:1018-1030 | RETN and its aliases return, copy IFF2 to IFF1 and take 14 T-states |
| `Interrupts.HaltWaits` | src/z80.cpp:230-237 | A halted processor keeps its registers and memory, four T-states a step, until an interrupt is taken |
| `XorFlags.AddByXor` | src/instructions.cpp:26-43 | The exclusive-or flags of ADD and ADC are nibble carry, signed out-of-range and carry of the sum |
| `XorFlags.SubByXor` | src/instructions.cpp:45-62 | Those of SUB and SBC are nibble borrow, signed out-of-range and borrow |
| `XorFlags.CpByXor` | src/instructions.cpp:64-87 | CP has the flags of SUB but bits 5 and 3 of the operand |
| `XorFlags.CompareByXor` | src/instructions.cpp:439-470 | The comparison of CPI and CPD sets Z if and only if the byte is A, with the nibble borrow in H |
| `XorFlags.AddByXor16` | src/instructions.cpp:132-148 | H and C of ADD HL,rr are the carries out of bits 11 and 15 |
| `XorFlags.AdcByXor` | src/instructions.cpp:150-176 | The flags of ADC HL,rr are carries and signed out-of-range of the 16-bit sum |
| `XorFlags.SbcByXor` | src/instructions.cpp:178-204 | The flags of SBC HL,rr are borrows and signed out-of-range of the 16-bit difference |
| `XorFlags.DaaByXor` | src/instructions.cpp:206-236 | H after DAA is the carry or borrow out of the low digit's correction |
| `Arithmetic.ChainComputes` | src/instructions.cpp:206-236 | ADC and SBC chains over numbers of any length, binary or with DAA packed decimal, leave valid digits that with the carry are exactly the sum or difference |
| `Arithmetic.ChainCarries` | src/instructions.cpp:26-62 | The final carry of a chain is set if and only if the sum overflows its bytes or the difference is negative |
| `Arithmetic.AdcByBytes` | src/instructions.cpp:150-176 | ADC HL,rr is the low and then the high bytes added with carry, in result and every flag but Z, which is zero of the whole word |
| `Arithmetic.SbcByBytes` | src/instructions.cpp:178-204 | SBC HL,rr is the low and then the high bytes subtracted with borrow, in result and every flag but Z |
| `FlagTables.BuildParityTable` | src/flags.cpp:12-24 | The parity table holds P exactly for the bytes with an even number of ones |
| `FlagTables.BuildSzTable` | src/flags.cpp:26-40 | The sign and zero table holds the S, Z, Y and X flags of every byte |
| `FlagTables.Lookups` | src/flags.cpp:47-57 | The lookups give the flags every operation is specified with |
| `Words.WordModulo` | src/z80.cpp:81-81 | The cast to uint16_t, as written turn by turn, is the remainder modulo 65536 |
| `BlockCopy.OriginModulo` | src/instructions.cpp:410-417 | The origin of destination byte i is i modulo the gap, when there is one |
| `Registers.FlagsRoundTrip` | include/z80f/registers.hpp:51-61 | F as a byte and as eight flags determine each other |
| `Registers.PairRoundTrips` | include/z80f/registers.hpp:51-73 | Each register pair reads back as written, and writing back what was read changes nothing |
| `Core.Z80.Step` | src/z80.cpp:207-244 | The new state is that of the reference step; the result is the elapsed time |
| `Core.Z80.RunFor` | src/z80.cpp:246-252 | Runs the fewest steps that take t T-states, terminates when they return, and results in the exact change of the cycle counter |
| `Core.Z80.DispatchUnprefixed` | src/decode.cpp:46-762 | The switch means what the opcode fields say, and returns what it surfaced to the bus |
| `Core.Z80.DispatchCb` | src/decode.cpp:766-844 | The same for the CB page |
| `Core.Z80.DispatchEd` | src/decode.cpp:848-1170 | The same for the ED page |
| `Core.Z80.DispatchIndex` | src/decode.cpp:1174-1652 | The prefix loop ends, the last prefix decides, and the index decoder or its fallback does what the instruction means for that register |
| `Core.Z80.DispatchIndexCb` | src/decode.cpp:1656-1785 | The DDCB and FDCB page |
| `Core.Z80.HandleNmi` | src/z80.cpp:138-155 | Services a pending NMI and otherwise changes nothing |
| `Core.Z80.HandleInt` | src/z80.cpp:157-198 | Acknowledges an enabled interrupt and otherwise changes nothing |
| `Core.Z80.SetNmiLine` | src/z80.cpp:123-128 | A rising edge makes an NMI pending |
| `Core.Z80.SetIntLine` | src/z80.cpp:130-132 | The level of the line is kept |
| `Core.Z80.PulseIntLine` | src/z80.cpp:134-136 | The pulse is latched |
| `Core.Z80.Reset` | src/z80.cpp:15-38 | Registers, counter and latches as after reset, the line levels kept |
| `Core.Z80.constructor` | src/z80.cpp:11-13 | A new processor is in its reset state with all lines low |
| `Core.Z80.MachineCycle` | src/z80.cpp:45-50 | The host is told of the cycle at its start, and the counter advances by duration and waits |
| `Core.Z80.Idle` | src/z80.cpp:52-56 | One host callback for each internal T-state |
| `Core.Z80.WriteFlags` | src/z80.cpp:62-65 | F is replaced and the write remembered for the Q latch |
| `Core.Z80.IncR` | src/z80.cpp:40-43 | R counts in seven bits |
| `Core.Z80.Read8` | src/z80.cpp:67-70 | A three T-state cycle and the byte |
| `Core.Z80.Write8` | src/z80.cpp:72-75 | A three T-state cycle and the store |
| `Core.Z80.FetchOpcode` | src/z80.cpp:77-84 | A four T-state cycle, PC past the opcode, one refresh |
| `Core.Z80.FetchImmediate` | src/z80.cpp:86-90 | An operand byte without a refresh |
| `Core.Z80.FetchImmediate16` | src/z80.cpp:92-96 | Two operand bytes, low first |
| `Core.Z80.IoIn` | src/z80.cpp:98-101 | A four T-state cycle and the answer of the host |
| `Core.Z80.IoOut` | src/z80.cpp:103-106 | A four T-state cycle and the byte to the port |
| `Core.Z80.Push16` | src/z80.cpp:108-113 | High byte first, below SP |
| `Core.Z80.Pop16` | src/z80.cpp:115-121 | Low byte first, from SP up |
| `Core.Z80.AluAdd` | src/instructions.cpp:26-43 | ADD and ADC as sum, carries and signed range |
| `Core.Z80.AluSub` | src/instructions.cpp:45-62 | SUB and SBC as difference, borrows and signed range |
| `Core.Z80.AluCp` | src/instructions.cpp:64-87 | CP leaves A |
| `Core.Z80.AluAnd` | src/instructions.cpp:89-92 | AND bit by bit, H set |
| `Core.Z80.AluOr` | src/instructions.cpp:94-97 | OR bit by bit |
| `Core.Z80.AluXor` | src/instructions.cpp:99-102 | XOR bit by bit |
| `Core.Z80.AluInc` | src/instructions.cpp:104-116 | INC keeps carry; H and P/V are nibble carry and signed overflow |
| `Core.Z80.AluDec` | src/instructions.cpp:118-130 | DEC keeps carry; H and P/V are nibble borrow and signed overflow |
| `Core.Z80.AluAdd16` | src/instructions.cpp:132-148 | ADD on pairs keeps S, Z and P/V, and WZ is the old destination plus one |
| `Core.Z80.AluAdc16` | src/instructions.cpp:150-176 | ADC HL,rr as a 16-bit sum |
| `Core.Z80.AluSbc16` | src/instructions.cpp:178-204 | SBC HL,rr as a 16-bit difference |
| `Core.Z80.AluDaa` | src/instructions.cpp:206-236 | DAA by digits |
| `Core.Z80.AluRlca` | src/instructions.cpp:238-249 | RLCA as a rotation that leaves S, Z and P/V |
| `Core.Z80.AluRrca` | src/instructions.cpp:251-262 | RRCA likewise |
| `Core.Z80.AluRla` | src/instructions.cpp:264-276 | RLA likewise, through carry |
| `Core.Z80.AluRra` | src/instructions.cpp:278-290 | RRA likewise, through carry |
| `Core.Z80.CbShift` | src/instructions.cpp:294-383 | The eight rotates and shifts by the bit shifted in and the bit shifted out |
| `Core.Z80.CbBit` | src/instructions.cpp:385-398 | BIT tests a bit and takes bits 5 and 3 from the given source |
| `Core.Z80.BlockLd` | src/instructions.cpp:410-437 | One iteration of LDI, LDD, LDIR or LDDR |
| `Core.Z80.BlockCp` | src/instructions.cpp:439-479 | One iteration of CPI, CPD, CPIR or CPDR |
| `Core.Z80.BlockIn` | src/instructions.cpp:481-506 | One iteration of INI, IND, INIR or INDR |
| `Core.Z80.BlockOut` | src/instructions.cpp:508-532 | One iteration of OUTI, OUTD, OTIR or OTDR |
| `Core.Z80.JpCond` | src/instructions.cpp:544-550 | The operand is fetched and WZ set whether or not the jump is taken |
| `Core.Z80.CallCond` | src/instructions.cpp:552-560 | The same for calls, with a push when taken |
| `Core.Z80.Rst` | src/z80.cpp:200-205 | One idle T-state, a push and the jump |
| `Core.Bus.OnMCycle` | include/z80f/bus.hpp:17-21 | The host answers a cycle with waits, on the strength of everything it has seen |
| `Core.Bus.ReadMemory` | include/z80f/bus.hpp:11-11 | The byte of the flat memory, remembered in the history |
| `Core.Bus.WriteMemory` | include/z80f/bus.hpp:12-12 | One byte of the flat memory replaced |
| `Core.Bus.ReadIo` | include/z80f/bus.hpp:14-14 | The answer of the host |
| `Core.Bus.WriteIo` | include/z80f/bus.hpp:15-15 | The byte handed to the host |
| `Core.Bus.AcknowledgeInterrupt` | include/z80f/bus.hpp:23-28 | The byte the host puts on the data bus |

## Left out

- Hosts and examples: banking, ROM protection and contention are illustrations; a flat memory and arbitrary waits, input and acknowledge bytes stand for every host.
- Virtual dispatch on `Bus`, and hosts whose callbacks call back into the processor or change memory behind its back.
- The ROM exercisers and their harness: file and console I/O.
- Snapshots, version and build files: field copying only.
- `jr_cond` and `ret_cond`: the dispatchers never call them.
- `reset_cycle_counter` and `cycles_since_reset`: one subtraction.
- 64-bit wrap-around of the cycle counter and the `int` results of `step` and `run_for`: counts are unbounded.
- Aliasing of registers: `reg8_ptr` and the `uint16_t&` index reference become reads and writes by register number and by mode, and the register struct is one field holding a value that each method replaces.
- The shape of the switches: the four large ones are cut into methods of a few opcodes each, and repeated case bodies are helper methods.
- IndexPrefix.StoreImmRefines: says nothing of the bus cycles, which differ from those of LD (HL),n; `Core.Z80.DispatchIndex` proves them.
- BlockIo.TransferTransparent: for INIR and INDR asks that the host's answers depend on port traffic alone; a host that answers by the time or by memory traffic sees the interruptions.
- NMI handlers other than a bare RETN: a handler that does work has its own effects.
- Core.Z80.RunFor: requires that the steps it takes come back, because with a memory of nothing but index prefixes the source's `run_for` never does.
- Core.Z80.Step: requires the same of its one step.
