/** Jumps, calls and returns: where one step of each goes, what it pushes and what it costs. */
module Branches {
  import opened Words
  import opened Registers
  import opened Machine
  import opened Isa
  import opened Stepping
  import opened Interrupts
  import opened Blocks
  import opened Steps
  import BlockIo
  import Ledger

  // The step executes an unprefixed op.
  predicate Runs(s: State, op: byte) { Executes(s) && s.mem[s.r.pc] == op }

  // The branch op is taken under the flags f.
  predicate Met(f: Flags, op: byte) {
    match op
    case 0x20 | 0xC0 | 0xC2 | 0xC4 => !f.z
    case 0x28 | 0xC8 | 0xCA | 0xCC => f.z
    case 0x30 | 0xD0 | 0xD2 | 0xD4 => !f.c
    case 0x38 | 0xD8 | 0xDA | 0xDC => f.c
    case 0xE0 | 0xE2 | 0xE4 => !f.p
    case 0xE8 | 0xEA | 0xEC => f.p
    case 0xF0 | 0xF2 | 0xF4 => !f.s
    case 0xF8 | 0xFA | 0xFC => f.s
    case _ => true
  }

  predicate IsJump(op: byte) { op in {0xC3, 0xC2, 0xCA, 0xD2, 0xDA, 0xE2, 0xEA, 0xF2, 0xFA} }

  predicate IsCall(op: byte) { op in {0xCD, 0xC4, 0xCC, 0xD4, 0xDC, 0xE4, 0xEC, 0xF4, 0xFC} }

  predicate IsReturn(op: byte) { op in {0xC9, 0xC0, 0xC8, 0xD0, 0xD8, 0xE0, 0xE8, 0xF0, 0xF8} }

  predicate IsRelative(op: byte) { op in {0x18, 0x20, 0x28, 0x30, 0x38} }

  // The little-endian operand behind the opcode.
  function Operand16(s: State): word { Pair(Code(s, 2), Code(s, 1)) }

  // A relative target: the displacement counts from the next instruction, down from 80h on.
  function Displaced(s: State): word {
    if Code(s, 1) < 0x80 then Word(s.r.pc + 2 + Code(s, 1)) else Word(s.r.pc + 2 + Code(s, 1) - 0x100)
  }

  // ---- JP ----

  lemma JumpForm(host: Host, s: State, op: byte)
    requires IsJump(op)
    ensures Plain(host, HL, s, op) == JumpIf(host, s, Met(s.r.f, op))
  {
    hide JumpIf, Block0, Block1, Block2, PopPair, Transfer, CallIf, PushPair, Accumulate, Restart, ReturnIf, OutA, InA,
      ExStack, SetInterrupts, Machine.Imm, Machine.ImmValue;
  }

  lemma JumpStep(host: Host, s: State, op: byte)
    requires Runs(s, op) && IsJump(op)
    ensures var u, target := Step(host, s), Operand16(s);
      && u.r == Past(s.r, 3, 1).(pc := if Met(s.r.f, op) then target else Word(s.r.pc + 3), wz := target)
      && u.mem == s.mem && u.spent == 10
  {
    hide Step, Plain, Opened, Machine.Imm16, Met, Word, Pair, AdvanceR, Executes;
    StepPlain(host, s);
    OpenedKeeps(host, s);
    JumpForm(host, Opened(host, s), op);
    Behind(s.r.pc);
  }

  lemma Behind(pc: word)
    ensures Word(Word(pc + 1) + 1) == Word(pc + 2) && Word(Word(pc + 1) + 2) == Word(pc + 3)
  {
    hide Word;
    WordPlus(pc + 1, 1);
    WordPlus(pc + 1, 2);
  }

  // JP (HL) jumps to HL itself.
  lemma JumpHlStep(host: Host, s: State)
    requires Runs(s, 0xE9)
    ensures var u := Step(host, s);
      u.r == Past(s.r, 1, 1).(pc := s.r.Hl()) && u.mem == s.mem && u.spent == 4
  {
    hide Step, Plain, Opened, Word, Pair, AdvanceR, Executes;
    StepPlain(host, s);
    OpenedKeeps(host, s);
    JumpHlForm(host, Opened(host, s));
  }

  lemma JumpHlForm(host: Host, s: State)
    ensures Plain(host, HL, s, 0xE9) == Jump(s, s.r.Hl())
  {
    hide Block0, Block1, Block2, Jump;
    IndexMoves(host, HL, s);
  }

  // ---- JR and DJNZ ----

  lemma RelativeForm(host: Host, s: State, op: byte)
    requires IsRelative(op)
    ensures Plain(host, HL, s, op) == RelativeJump(host, s, Met(s.r.f, op))
  {
    hide RelativeJump, Djnz, ExAf, LoadPair, AddPair, Indirect, StepPair, StepReg, StepMem, LoadImm, StoreImm,
      AccumulatorOp, Block1, Block2, Block3;
  }

  lemma RelativeStep(host: Host, s: State, op: byte)
    requires Runs(s, op) && IsRelative(op)
    ensures var u := Step(host, s);
      && u.r == (if Met(s.r.f, op) then Past(s.r, 2, 1).(pc := Displaced(s), wz := Displaced(s)) else Past(s.r, 2, 1))
      && u.mem == s.mem && u.spent == if Met(s.r.f, op) then 12 else 7
  {
    hide Step, Plain, Opened, Machine.Imm, Branch, Met, Word, AdvanceR, Displaced, Executes;
    StepPlain(host, s);
    OpenedKeeps(host, s);
    RelativeForm(host, Opened(host, s), op);
    Behind(s.r.pc);
    BranchLands(host, Imm(host, Opened(host, s)), s);
  }

  lemma BranchLands(host: Host, s: State, s0: State)
    requires s.r.pc == Word(s0.r.pc + 2)
    ensures var u := Branch(host, s, Code(s0, 1));
      && u == s.(r := s.r.(pc := Displaced(s0), wz := Displaced(s0)), log := u.log, cycles := u.cycles,
                 spent := s.spent + 5)
  {
    hide Machine.Idle, Word;
    WordPlus(s0.r.pc + 2, Signed8(Code(s0, 1)));
  }

  // DJNZ counts B down and branches until it is zero.
  lemma DjnzStep(host: Host, s: State)
    requires Runs(s, 0x10)
    ensures var u, b := Step(host, s), Byte(s.r.b - 1);
      && u.r == (if b != 0 then Past(s.r, 2, 1).(b := b, pc := Displaced(s), wz := Displaced(s))
                 else Past(s.r, 2, 1).(b := b))
      && u.mem == s.mem && u.lines == s.lines.(intPulse := false)
      && u.spent == if b != 0 then 13 else 8
  {
    hide Step, Plain, Opened, Djnz, Word, Byte, AdvanceR, Displaced, Executes;
    StepPlain(host, s);
    OpenedKeeps(host, s);
    DjnzForm(host, Opened(host, s));
    Behind(s.r.pc);
    DjnzEffect(host, Opened(host, s), s);
  }

  lemma DjnzForm(host: Host, s: State)
    ensures Plain(host, HL, s, 0x10) == Djnz(host, s)
  {
    hide RelativeJump, Djnz, ExAf, LoadPair, AddPair, Indirect, StepPair, StepReg, StepMem, LoadImm, StoreImm,
      AccumulatorOp, Block1, Block2, Block3;
  }

  lemma DjnzEffect(host: Host, s: State, s0: State)
    requires s.r.pc == Word(s0.r.pc + 1) && s.mem == s0.mem
    ensures var u, b := Djnz(host, s), Byte(s.r.b - 1);
      && u.r == (if b != 0 then s.r.(b := b, pc := Displaced(s0), wz := Displaced(s0))
                 else s.r.(b := b, pc := Word(s0.r.pc + 2)))
      && u.mem == s.mem && u.touched == s.touched && u.lines == s.lines
      && u.spent == s.spent + if b != 0 then 9 else 4
  {
    hide Machine.Idle, Machine.Imm, Branch, Word, Byte, Displaced;
    Behind(s0.r.pc);
    var s1 := Imm(host, Idle(host, s, s.r.Ir(), 1));
    BranchLands(host, s1.(r := s1.r.(b := Byte(s.r.b - 1))), s0);
  }

  // A DJNZ onto itself is a delay: B steps (0 for 256), then the next instruction with B = 0,
  // 13 T-states a turn and 8 for the last.
  lemma {:induction false} DjnzLoop(host: Host, s: State, k: nat)
    requires Quiet(s) && s.mem[s.r.pc] == 0x10 && Code(s, 1) == 0xFE && k <= Count8(s.r.b)
    ensures var u := Run(host, s, k);
      && u.r.b == Byte(s.r.b - k) && u.mem == s.mem && Quiet(u)
      && u.r.pc == (if k == Count8(s.r.b) then Word(s.r.pc + 2) else s.r.pc)
      && Ledger.Charged(u.log) - Ledger.Charged(s.log) == 13 * k - if k == Count8(s.r.b) then 5 else 0
    decreases k
  {
    hide Step, Run, Ledger.Charged, Ledger.Elapsed, Ledger.WellTimed, Ledger.NoWaits, Word, Byte, AdvanceR, Count8,
      Displaced;
    Ledger.RunZero(host, s);
    BlockIo.ByteDown(s.r.b, if k == 0 then 0 else k - 1);
    if k > 0 {
      var t := Run(host, s, k - 1);
      DjnzLoop(host, s, k - 1);
      Ledger.RunNext(host, s, k - 1);
      DjnzStep(host, t);
      OntoItself(t);
      assert !IsPrefix(t.mem[t.r.pc]);
      Ledger.StepTiming(host, t);
    }
  }

  lemma OntoItself(s: State)
    requires Code(s, 1) == 0xFE
    ensures Displaced(s) == s.r.pc
  {
    hide Word;
    WordPlus(s.r.pc, 0);
    assert s.r.pc + 2 + 0xFE - 0x100 == s.r.pc;
  }

  // ---- CALL, RST and RET ----

  // w pushed below sp, high byte first.
  function Pushed(mem: Memory, sp: word, w: word): Memory { mem[Word(sp - 1) := Hi(w)][Word(sp - 2) := Lo(w)] }

  lemma CallForm(host: Host, s: State, op: byte)
    requires IsCall(op)
    ensures Plain(host, HL, s, op) == CallIf(host, s, Met(s.r.f, op))
  {
    hide JumpIf, Block0, Block1, Block2, PopPair, Transfer, CallIf, PushPair, Accumulate, Restart, ReturnIf,
      Miscellany, Machine.Imm, Machine.ImmValue;
  }

  // A call pushes the address behind it; one not taken goes on there.
  lemma CallStep(host: Host, s: State, op: byte)
    requires Runs(s, op) && IsCall(op)
    ensures var u, target, next := Step(host, s), Operand16(s), Word(s.r.pc + 3);
      && u.lines == s.lines.(intPulse := false)
      && if Met(s.r.f, op) then
           && u.r == Past(s.r, 3, 1).(pc := target, wz := target, sp := Word(s.r.sp - 2))
           && u.mem == Pushed(s.mem, s.r.sp, next) && u.spent == 17
         else
           u.r == Past(s.r, 3, 1).(wz := target) && u.mem == s.mem && u.spent == 10
  {
    hide Step, Plain, Opened, Machine.Imm16, Machine.Idle, Machine.Push, Met, Word, Pair, Hi, Lo, AdvanceR, Executes;
    StepPlain(host, s);
    OpenedKeeps(host, s);
    CallForm(host, Opened(host, s), op);
    Behind(s.r.pc);
  }

  lemma RestartStep(host: Host, s: State, op: byte)
    requires Runs(s, op) && IsRst(op)
    ensures var u := Step(host, s);
      && u.r == Past(s.r, 1, 1).(pc := op - 0xC7, wz := op - 0xC7, sp := Word(s.r.sp - 2))
      && u.mem == Pushed(s.mem, s.r.sp, Word(s.r.pc + 1)) && u.lines == s.lines.(intPulse := false) && u.spent == 11
  {
    hide Step, Plain, Opened, Machine.Idle, Machine.Push, Word, Hi, Lo, Pair, AdvanceR, Executes;
    StepPlain(host, s);
    OpenedKeeps(host, s);
    RstForm(host, Opened(host, s), op);
  }

  lemma ReturnForm(host: Host, s: State, op: byte)
    requires IsReturn(op)
    ensures Plain(host, HL, s, op) == if op == 0xC9 then Return(host, s) else ReturnIf(host, s, Met(s.r.f, op))
  {
    hide JumpIf, Block0, Block1, Block2, PopPair, Return, LoadSp, CallIf, PushPair, Accumulate, Restart, ReturnIf,
      Miscellany, Machine.Imm, Machine.ImmValue;
  }

  lemma ReturnStep(host: Host, s: State, op: byte)
    requires Runs(s, op) && IsReturn(op)
    ensures var u, top := Step(host, s), WordAt(s.mem, s.r.sp);
      && u.r == (if Met(s.r.f, op) then Past(s.r, 1, 1).(pc := top, wz := top, sp := Word(s.r.sp + 2))
                 else Past(s.r, 1, 1))
      && u.mem == s.mem && u.lines == s.lines.(intPulse := false)
      && u.spent == if op == 0xC9 then 10 else if Met(s.r.f, op) then 11 else 5
  {
    hide Step, Plain, Opened, Machine.Idle, Machine.Pop, Met, Word, Pair, AdvanceR, Executes;
    StepPlain(host, s);
    OpenedKeeps(host, s);
    ReturnForm(host, Opened(host, s), op);
    assert op == 0xC9 ==> Met(s.r.f, op) by { Always(s.r.f); }
  }

  lemma Always(f: Flags)
    ensures Met(f, 0xC9) && Met(f, 0xCD) && Met(f, 0xC3) && Met(f, 0x18)
  {
  }
}
