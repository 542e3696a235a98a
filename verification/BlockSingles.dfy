/**
 The block instructions that do not repeat: one step each, and at the last turn of the counter
 the same as the repeating form.
 */
module BlockSingles {
  import opened Words
  import opened Registers
  import opened Machine
  import opened Isa
  import opened Stepping
  import opened Ports
  import opened Blocks
  import opened BlockCopy
  import opened BlockSearch
  import opened BlockIo
  import Alu

  // The registers after ED op, f being the flags it leaves.
  function PastBlock(r: Registers, f: Flags): Registers {
    r.(f := f, q := f, eiPending := false, r := AdvanceR(r.r, 2), pc := Word(r.pc + 2))
  }

  // LDI and LDD move one byte and both pointers, up or down, and go on.
  lemma CopyOnce(host: Host, s: State, op: byte)
    requires Executes(s) && CodeAt(s.mem, s.r.pc, op) && op in {0xA0, 0xA8}
    ensures var u, v, left := Step(host, s), s.mem[s.r.Hl()], Word(s.r.Bc() - 1);
      var r := PastBlock(s.r, Alu.BlockLdFlags(v, s.r.a, left, s.r.f)).SetBc(left);
      && u.r == (if op == 0xA0 then r.SetHl(Word(s.r.Hl() + 1)).SetDe(Word(s.r.De() + 1))
                 else r.SetHl(Word(s.r.Hl() - 1)).SetDe(Word(s.r.De() - 1)))
      && u.mem == s.mem[s.r.De() := v] && u.lines == s.lines.(intPulse := false)
      && u.spent == 16 && Traffic(u.log) == Traffic(s.log)
  {
    hide Step, Entered, BlockLd, ExtendedPage, Alu.BlockLdFlags, Word, Pair, Hi, Lo, AdvanceR, Traffic;
    StepEnters(host, s, op);
    EnteredKeeps(host, s);
    EnteredSilent(host, s);
    CopyOncePage(host, Entered(host, s), op);
    BlockLdEffect(host, Entered(host, s), if op == 0xA0 then 1 else -1, false);
    BlockLdSilent(host, Entered(host, s), if op == 0xA0 then 1 else -1, false);
  }

  lemma CopyOncePage(host: Host, s: State, op: byte)
    requires op in {0xA0, 0xA8}
    ensures ExtendedPage(host, s, op) == BlockLd(host, s, if op == 0xA0 then 1 else -1, false)
  {
    hide BlockLd, BlockCp, BlockIn, BlockOut, Extended;
  }

  // The same code with the repeating opcode.
  function Repeating(s: State, op: byte): State
    requires op < 0xF0
  {
    s.(mem := s.mem[Word(s.r.pc + 1) := op + 0x10])
  }

  // u and v differ in that one opcode byte only, and in the bus history.
  ghost predicate Alike(s: State, u: State, v: State) {
    && u.r == v.r && u.lines == v.lines && u.spent == v.spent && Traffic(u.log) == Traffic(v.log)
    && (forall a: word :: a != Word(s.r.pc + 1) ==> u.mem[a] == v.mem[a])
  }

  lemma CodeRepeats(s: State, op: byte)
    requires CodeAt(s.mem, s.r.pc, op) && op < 0xF0
    ensures CodeAt(Repeating(s, op).mem, s.r.pc, op + 0x10)
  {
    hide Word;
    assert Word(s.r.pc + 1) != s.r.pc by { WordMoves(s.r.pc); }
  }

  lemma WordMoves(pc: word)
    ensures Word(pc + 1) != pc
  {
  }

  // With BC = 1, LDI is LDIR and LDD is LDDR.
  lemma CopyLast(host: Host, s: State, op: byte)
    requires Executes(s) && CodeAt(s.mem, s.r.pc, op) && op in {0xA0, 0xA8}
    requires s.r.Bc() == 1 && s.r.Hl() != Word(s.r.pc + 1)
    ensures Alike(s, Step(host, s), Step(host, Repeating(s, op)))
  {
    hide Step, Alu.BlockLdFlags, Word, Pair, Hi, Lo, AdvanceR, Traffic;
    CodeRepeats(s, op);
    CopyOnce(host, s, op);
    CopyStep(host, Repeating(s, op), op + 0x10);
    CopySilent(host, Repeating(s, op), op + 0x10);
    assert Word(1 - 1) == 0 by { WordPlus(0, 0); }
  }

  // CPI and CPD
  lemma SearchOnce(host: Host, s: State, op: byte)
    requires Executes(s) && CodeAt(s.mem, s.r.pc, op) && op in {0xA1, 0xA9}
    ensures var u, v, left := Step(host, s), s.mem[s.r.Hl()], Word(s.r.Bc() - 1);
      var r := PastBlock(s.r, Alu.BlockCpFlags(v, s.r.a, left, s.r.f)).SetBc(left);
      && u.r == (if op == 0xA1 then r.SetHl(Word(s.r.Hl() + 1)).(wz := Word(s.r.wz + 1))
                 else r.SetHl(Word(s.r.Hl() - 1)).(wz := Word(s.r.wz - 1)))
      && u.mem == s.mem && u.lines == s.lines.(intPulse := false)
      && u.spent == 16 && Traffic(u.log) == Traffic(s.log)
  {
    hide Step, Entered, BlockCp, ExtendedPage, Alu.BlockCpFlags, Word, Pair, Hi, Lo, AdvanceR, Traffic;
    StepEnters(host, s, op);
    EnteredKeeps(host, s);
    EnteredSilent(host, s);
    SearchOncePage(host, Entered(host, s), op);
    BlockCpEffect(host, Entered(host, s), if op == 0xA1 then 1 else -1, false);
    BlockCpSilent(host, Entered(host, s), if op == 0xA1 then 1 else -1, false);
  }

  lemma SearchOncePage(host: Host, s: State, op: byte)
    requires op in {0xA1, 0xA9}
    ensures ExtendedPage(host, s, op) == BlockCp(host, s, if op == 0xA1 then 1 else -1, false)
  {
    hide BlockLd, BlockCp, BlockIn, BlockOut, Extended;
  }

  // With BC = 1 or a match, CPI is CPIR and CPD is CPDR.
  lemma SearchLast(host: Host, s: State, op: byte)
    requires Executes(s) && CodeAt(s.mem, s.r.pc, op) && op in {0xA1, 0xA9}
    requires (s.r.Bc() == 1 || s.mem[s.r.Hl()] == s.r.a) && s.r.Hl() != Word(s.r.pc + 1)
    ensures Alike(s, Step(host, s), Step(host, Repeating(s, op)))
  {
    hide Step, Alu.BlockCpFlags, Word, Pair, Hi, Lo, AdvanceR, Traffic;
    CodeRepeats(s, op);
    SearchOnce(host, s, op);
    SearchStep(host, Repeating(s, op), op + 0x10);
    SearchSilent(host, Repeating(s, op), op + 0x10);
    assert Word(1 - 1) == 0 by { WordPlus(0, 0); }
  }

  // INI, IND, OUTI and OUTD.  Input meets port BC with B as it was, output with B counted down.
  lemma TransferOnce(host: Host, s: State, op: byte)
    requires Executes(s) && CodeAt(s.mem, s.r.pc, op) && op in {0xA2, 0xAA, 0xA3, 0xAB}
    ensures var u, v, b := Step(host, s), Moved(host, s, op), Byte(s.r.b - 1);
      var up, input := op == 0xA2 || op == 0xA3, op == 0xA2 || op == 0xAA;
      var hl := if up then Word(s.r.Hl() + 1) else Word(s.r.Hl() - 1);
      var port := if input then s.r.Bc() else Pair(b, s.r.c);
      var sum := v + if !input then Lo(hl) else if up then Byte(s.r.c + 1) else Byte(s.r.c - 1);
      && u.r == PastBlock(s.r, Alu.BlockIoFlags(v, sum, b)).SetHl(hl).(
           b := b, wz := if up then Word(port + 1) else Word(port - 1))
      && u.mem == (if input then s.mem[s.r.Hl() := v] else s.mem) && u.lines == s.lines.(intPulse := false)
      && u.spent == 16
      && Traffic(u.log) == Traffic(s.log) + [if input then IoRead(port, v) else IoWrite(port, v)]
  {
    hide Step, Entered, BlockIn, BlockOut, ExtendedPage, Alu.BlockIoFlags, Machine.Idle, Machine.InValue, Word,
      Byte, Pair, Hi, Lo, AdvanceR, Traffic;
    var delta := if op == 0xA2 || op == 0xA3 then 1 else -1;
    StepEnters(host, s, op);
    EnteredKeeps(host, s);
    EnteredSilent(host, s);
    TransferOncePage(host, Entered(host, s), op);
    if op == 0xA2 || op == 0xAA {
      BlockInEffect(host, Entered(host, s), delta, false);
    } else {
      BlockOutEffect(host, Entered(host, s), delta, false);
    }
  }

  lemma TransferOncePage(host: Host, s: State, op: byte)
    requires op in {0xA2, 0xAA, 0xA3, 0xAB}
    ensures var delta := if op == 0xA2 || op == 0xA3 then 1 else -1;
      ExtendedPage(host, s, op) ==
        if op == 0xA2 || op == 0xAA then BlockIn(host, s, delta, false) else BlockOut(host, s, delta, false)
  {
    hide BlockLd, BlockCp, BlockIn, BlockOut, Extended;
  }

  // With B = 1 and the same byte moved, they are INIR, INDR, OTIR and OTDR.
  lemma TransferLast(host: Host, s: State, op: byte)
    requires Executes(s) && CodeAt(s.mem, s.r.pc, op) && op in {0xA2, 0xAA, 0xA3, 0xAB}
    requires s.r.b == 1 && Moved(host, s, op) == Moved(host, Repeating(s, op), op + 0x10)
    ensures Alike(s, Step(host, s), Step(host, Repeating(s, op)))
  {
    hide Step, Moved, Alu.BlockIoFlags, Word, Pair, Hi, Lo, AdvanceR, Traffic;
    CodeRepeats(s, op);
    TransferOnce(host, s, op);
    TransferStep(host, Repeating(s, op), op + 0x10);
  }
}
