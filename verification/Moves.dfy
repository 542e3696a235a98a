/**
 Loads, exchanges, the stack and the 16-bit operations, one step each, and what two of them do in
 succession: a pair stored or pushed comes back, an exchange undoes itself.
 */
module Moves {
  import opened Words
  import opened Registers
  import opened Machine
  import opened Isa
  import opened Stepping
  import opened Interrupts
  import opened Blocks
  import opened Steps
  import opened Branches
  import opened Operations
  import Alu

  // ---- Bytes ----

  lemma LoadByteForm(host: Host, s: State, op: byte)
    requires 0x40 <= op < 0x80 && op != 0x76
    ensures var u, k, v := Plain(host, HL, s, op), op / 8 - 8, Source(s, op);
      && u == s.(r := Placed(s.r, k, v), mem := PlacedIn(s, k, v), log := u.log, cycles := u.cycles, spent := u.spent)
      && u.spent == s.spent + if k == 6 || op % 8 == 6 then 3 else 0
  {
    hide Block0, Block2, Block3, Machine.Read, Machine.Write, Source, Placed, PlacedIn, GetReg, SetReg, Pair;
    var k, z, v := op / 8 - 8, op % 8, Source(s, op);
    if k == 6 {
      Slots(s, op, z, v);
      MemorySlot(s, k, v);
      assert PlacedIn(s, k, v) == s.mem[s.r.Hl() := v] by { Memories(s, k, v); }
    } else {
      assert PlacedIn(s, k, v) == s.mem by { Memories(s, k, v); }
      Slots(s, op, k, v);
      if z == 6 {
        MemorySlot(s, op, v);
        var s1 := Read(host, s, s.r.Hl());
        Slots(s1, op, k, v);
      } else {
        Slots(s, op, z, v);
      }
    }
  }

  lemma Memories(s: State, k: nat, v: byte)
    ensures PlacedIn(s, k, v) == if k == 6 then s.mem[s.r.Hl() := v] else s.mem
  {
  }

  // LD r,r', LD r,(HL) and LD (HL),r: from the operand in bits 2 to 0 to the one in bits 5 to 3.
  lemma LoadByteStep(host: Host, s: State, op: byte)
    requires Runs(s, op) && 0x40 <= op < 0x80 && op != 0x76
    ensures var u, k, v := Step(host, s), op / 8 - 8, Source(s, op);
      && u.r == Placed(Past(s.r, 1, 1), k, v) && u.mem == PlacedIn(s, k, v)
      && u.spent == if k == 6 || op % 8 == 6 then 7 else 4
  {
    hide Step, Plain, Opened, Word, Pair, AdvanceR, Executes, Source, Placed, PlacedIn;
    StepPlain(host, s);
    OpenedKeeps(host, s);
    LoadByteForm(host, Opened(host, s), op);
    SourceApart(s, Opened(host, s), op);
    assert Opened(host, s).r == Past(s.r, 1, 1).(q := s.r.q);
    PlacedApart(Past(s.r, 1, 1), op / 8 - 8, Source(s, op), s.r.q);
  }

  // HALT stops on itself.
  lemma HaltStops(host: Host, s: State)
    requires Runs(s, 0x76)
    ensures var u := Step(host, s);
      u.r == Past(s.r, 0, 1).(halted := true) && u.mem == s.mem && u.spent == 4
  {
    hide Step, Plain, Opened, Word, AdvanceR, Executes;
    StepPlain(host, s);
    OpenedKeeps(host, s);
    HaltForm(host, Opened(host, s));
    WordPlus(s.r.pc + 1, -1);
  }

  lemma HaltForm(host: Host, s: State)
    ensures Plain(host, HL, s, 0x76) == s.(r := s.r.(halted := true, pc := Word(s.r.pc - 1)))
  {
    hide Block0, Block2, Block3, Word, GetReg, SetReg;
  }

  // LD r,n and LD (HL),n
  lemma LoadImmForm(host: Host, s: State, op: byte)
    requires op < 0x40 && op % 8 == 6
    ensures var u, k, v := Plain(host, HL, s, op), op / 8, ImmValue(s);
      && u == s.(r := Placed(s.r, k, v).(pc := Word(s.r.pc + 1)), mem := PlacedIn(s, k, v), log := u.log,
                 cycles := u.cycles, spent := u.spent)
      && u.spent == s.spent + if k == 6 then 6 else 3
  {
    hide Relative, LoadPair, AddPair, Indirect, StepPair, StepReg, StepMem, AccumulatorOp, Block1, Block2, Block3,
      Machine.Imm, Machine.Write, SetReg, Pair, Word, Placed, PlacedIn;
    var k, v, s1 := op / 8, ImmValue(s), Imm(host, s);
    Memories(s, k, v);
    if k == 6 {
      MemorySlot(s, k, v);
    } else {
      Slots(s1, op, k, v);
      PlacedPc(s.r, k, v, s1.r.pc);
    }
  }

  lemma PlacedPc(r: Registers, k: nat, v: byte, pc: word)
    ensures Placed(r.(pc := pc), k, v) == Placed(r, k, v).(pc := pc) && Placed(r, k, v).pc == r.pc
  {
  }

  lemma LoadImmStep(host: Host, s: State, op: byte)
    requires Runs(s, op) && op < 0x40 && op % 8 == 6
    ensures var u, k, v := Step(host, s), op / 8, Code(s, 1);
      && u.r == Placed(Past(s.r, 2, 1), k, v) && u.mem == PlacedIn(s, k, v) && u.spent == if k == 6 then 10 else 7
  {
    hide Step, Plain, Opened, Word, Pair, AdvanceR, Executes, Source, Placed, PlacedIn;
    StepPlain(host, s);
    OpenedKeeps(host, s);
    LoadImmForm(host, Opened(host, s), op);
    SourceApart(s, Opened(host, s), op);
    Behind(s.r.pc);
    var r := Past(s.r, 2, 1).(pc := Word(s.r.pc + 1));
    assert Opened(host, s).r == r.(q := s.r.q);
    PlacedApart(r, op / 8, Code(s, 1), s.r.q);
    PlacedPc(Past(s.r, 2, 1), op / 8, Code(s, 1), Word(s.r.pc + 1));
  }

  // A to and from memory at BC, DE or the operand.  A store leaves A above the low byte of the
  // next address in WZ, a load the next address.
  lemma PointerForm(host: Host, s: State, op: byte)
    requires op in {0x02, 0x12, 0x32, 0x0A, 0x1A, 0x3A}
    ensures var u := Plain(host, HL, s, op); var s1 := if op >= 0x30 then Imm16(host, s) else s;
      var a := match op case 0x02 => s.r.Bc() case 0x0A => s.r.Bc() case 0x12 => s.r.De() case 0x1A => s.r.De()
               case _ => Imm16Value(s);
      u == if op % 0x10 == 2 then StoreA(host, s1, a) else LoadA(host, s1, a)
  {
    hide Relative, LoadPair, AddPair, StepPair, StepReg, StepMem, LoadImm, StoreImm, AccumulatorOp, Block1, Block2,
      Block3, StoreA, LoadA, StorePair, AtPair, WordAt, Machine.Imm16, Machine.Imm16Value, Pair;
  }

  // The address that the opcode names: BC, DE, or the operand.
  function PointedBy(s: State, op: byte): word {
    if op < 0x10 then s.r.Bc() else if op < 0x20 then s.r.De() else Operand16(s)
  }

  lemma StoreAStep(host: Host, s: State, op: byte)
    requires Runs(s, op) && op in {0x02, 0x12, 0x32}
    ensures var u, a := Step(host, s), PointedBy(s, op); var n := if op == 0x32 then 3 else 1;
      && u.r == Past(s.r, n, 1).(wz := Pair(s.r.a, Lo(Word(a + 1)))) && u.mem == s.mem[a := s.r.a]
      && u.spent == if op == 0x32 then 13 else 7
  {
    hide Step, Plain, Opened, Word, Pair, Lo, AdvanceR, Executes, Machine.Imm16, StoreA;
    StepPlain(host, s);
    OpenedKeeps(host, s);
    PointerForm(host, Opened(host, s), op);
    Behind(s.r.pc);
    StoreAEffect(host, if op == 0x32 then Imm16(host, Opened(host, s)) else Opened(host, s), PointedBy(s, op));
  }

  lemma StoreAEffect(host: Host, s: State, a: word)
    ensures var u := StoreA(host, s, a);
      && u == s.(r := s.r.(wz := Pair(s.r.a, Lo(Word(a + 1)))), mem := s.mem[a := s.r.a], log := u.log,
                 cycles := u.cycles, spent := s.spent + 3)
  {
    hide Machine.Write, Word, Pair, Lo;
  }

  lemma LoadAStep(host: Host, s: State, op: byte)
    requires Runs(s, op) && op in {0x0A, 0x1A, 0x3A}
    ensures var u, a := Step(host, s), PointedBy(s, op); var n := if op == 0x3A then 3 else 1;
      && u.r == Past(s.r, n, 1).(a := s.mem[a], wz := Word(a + 1)) && u.mem == s.mem
      && u.spent == if op == 0x3A then 13 else 7
  {
    hide Step, Plain, Opened, Word, Pair, AdvanceR, Executes, Machine.Read, Machine.Imm16;
    StepPlain(host, s);
    OpenedKeeps(host, s);
    PointerForm(host, Opened(host, s), op);
    Behind(s.r.pc);
  }

  // ---- Words ----

  // The pair that bits 5 and 4 of an opcode name: BC, DE, HL, SP.
  function PairNamed(r: Registers, op: byte): word {
    match op / 0x10 % 4 case 0 => Pair(r.b, r.c) case 1 => Pair(r.d, r.e) case 2 => Pair(r.h, r.l) case _ => r.sp
  }

  // The same registers with w in that pair.
  function WithPair(r: Registers, op: byte, w: word): Registers {
    var p := op / 0x10 % 4;
    r.(b := if p == 0 then Hi(w) else r.b, c := if p == 0 then Lo(w) else r.c,
       d := if p == 1 then Hi(w) else r.d, e := if p == 1 then Lo(w) else r.e,
       h := if p == 2 then Hi(w) else r.h, l := if p == 2 then Lo(w) else r.l,
       sp := if p == 3 then w else r.sp)
  }

  lemma Pairs(r: Registers, op: byte, w: word)
    ensures GetPair(HL, r, op / 0x10 % 4) == PairNamed(r, op)
    ensures SetPair(HL, r, op / 0x10 % 4, w) == WithPair(r, op, w)
  {
    hide Pair, Hi, Lo;
  }

  // LD rr,nn
  lemma LoadWordStep(host: Host, s: State, op: byte)
    requires Runs(s, op) && op in {0x01, 0x11, 0x21, 0x31}
    ensures var u := Step(host, s);
      u.r == WithPair(Past(s.r, 3, 1), op, Operand16(s)) && u.mem == s.mem && u.spent == 10
  {
    hide Step, Plain, Opened, Word, Pair, Hi, Lo, AdvanceR, Executes, Machine.Imm16, SetPair;
    StepPlain(host, s);
    OpenedKeeps(host, s);
    PairForms(host, Opened(host, s), op);
    var s1 := Imm16(host, Opened(host, s));
    Behind(s.r.pc);
    Pairs(s1.r, op, Operand16(s));
  }

  lemma PairForms(host: Host, s: State, op: byte)
    requires op < 0x40
    ensures op % 0x10 == 1 ==> Plain(host, HL, s, op) == LoadPair(host, HL, s, op / 0x10 % 4)
    ensures op % 0x10 == 9 ==> Plain(host, HL, s, op) == AddPair(host, HL, s, op / 0x10 % 4)
    ensures op % 0x10 == 3 ==> Plain(host, HL, s, op) == StepPair(host, HL, s, op / 0x10 % 4, 1)
    ensures op % 0x10 == 0xB ==> Plain(host, HL, s, op) == StepPair(host, HL, s, op / 0x10 % 4, -1)
  {
    hide Relative, LoadPair, AddPair, Indirect, StepPair, StepReg, StepMem, LoadImm, StoreImm, AccumulatorOp, Block1,
      Block2, Block3;
  }

  // INC rr and DEC rr touch no flag.
  lemma CountWordStep(host: Host, s: State, op: byte)
    requires Runs(s, op) && op < 0x40 && (op % 0x10 == 3 || op % 0x10 == 0xB)
    ensures var u := Step(host, s);
      && u.r == WithPair(Past(s.r, 1, 1), op, Word(PairNamed(s.r, op) + if op % 0x10 == 3 then 1 else -1))
      && u.mem == s.mem && u.spent == 6
  {
    hide Step, Plain, Opened, Word, Pair, Hi, Lo, AdvanceR, Executes, Machine.Idle, GetPair, SetPair;
    StepPlain(host, s);
    OpenedKeeps(host, s);
    PairForms(host, Opened(host, s), op);
    var r := Opened(host, s).r;
    Pairs(r, op, Word(PairNamed(s.r, op) + if op % 0x10 == 3 then 1 else -1));
  }

  // ADD HL,rr
  lemma AddWordStep(host: Host, s: State, op: byte)
    requires Runs(s, op) && op < 0x40 && op % 0x10 == 9
    ensures var u, v := Step(host, s), PairNamed(s.r, op); var f := Alu.Add16Flags(s.r.Hl(), v, s.r.f);
      && u.r == Past(s.r, 1, 1).SetHl(Word(s.r.Hl() + v)).(f := f, q := f, wz := Word(s.r.Hl() + 1))
      && u.mem == s.mem && u.spent == 11
  {
    hide Step, Plain, Opened, Word, Pair, Hi, Lo, AdvanceR, Executes, Machine.Idle, GetPair, SetPair,
      Alu.Add16Flags;
    StepPlain(host, s);
    OpenedKeeps(host, s);
    PairForms(host, Opened(host, s), op);
    Pairs(Opened(host, s).r, op, 0);
  }

  // ED 42, 52, 62, 72: SBC HL,rr; ED 4A, 5A, 6A, 7A: ADC HL,rr.
  lemma CarryWordStep(host: Host, s: State, op: byte)
    requires Executes(s) && CodeAt(s.mem, s.r.pc, op) && 0x40 <= op < 0x80 && op % 8 == 2
    ensures var u, a, v := Step(host, s), s.r.Hl(), PairNamed(s.r, op); var c, sub := s.r.f.c, op % 0x10 == 2;
      var w := if sub then Alu.Sbc16Result(a, v, c) else Alu.Adc16Result(a, v, c);
      var f := if sub then Alu.Sbc16Flags(a, v, c) else Alu.Adc16Flags(a, v, c);
      && u.r == Past(s.r, 2, 2).SetHl(w).(f := f, q := f, wz := Word(a + 1)) && u.mem == s.mem && u.spent == 15
  {
    hide Step, ExtendedPage, Entered, Word, Pair, Hi, Lo, AdvanceR, Executes, Machine.Idle, PairNamed, CodeAt,
      Alu.Sbc16Flags, Alu.Adc16Flags, Alu.Adc16Result, Alu.Sbc16Result;
    StepEnters(host, s, op);
    EnteredKeeps(host, s);
    CarryWordForm(host, Entered(host, s), op);
    PairsApart(s.r, Entered(host, s).r, op);
  }

  lemma PairsApart(r: Registers, u: Registers, op: byte)
    requires u == r.(eiPending := u.eiPending, pc := u.pc, r := u.r, q := u.q)
    ensures PairNamed(u, op) == PairNamed(r, op)
  {
  }

  lemma CarryWordForm(host: Host, s: State, op: byte)
    requires 0x40 <= op < 0x80 && op % 8 == 2
    ensures var v := PairNamed(s.r, op);
      ExtendedPage(host, s, op) == if op % 0x10 == 2 then SbcHl(host, s, v) else AdcHl(host, s, v)
  {
    hide Extended, SbcHl, AdcHl, GetPair, PairNamed;
    WideColumn(host, s, op);
    Pairs(s.r, op, 0);
    assert op / 8 % 8 / 2 == op / 0x10 % 4;
    assert op / 8 % 8 % 2 == op / 8 % 2;
  }

  // ---- Words to and from memory ----

  lemma StoreWordForm(host: Host, s: State, op: byte)
    requires 0x40 <= op < 0x80 && op % 8 == 3
    ensures ExtendedPage(host, s, op) ==
      if op % 0x10 == 3 then StorePair(host, s, PairNamed(s.r, op))
      else var s1 := AtPair(host, s); WithR(s1, WithPair(s1.r, op, WordAt(s.mem, Imm16Value(s))))
  {
    hide Extended, StorePair, AtPair, GetPair, SetPair, PairNamed, WithPair, WordAt, Machine.Imm16Value;
    WordColumn(host, s, op);
    Pairs(s.r, op, 0);
    Pairs(AtPair(host, s).r, op, WordAt(s.mem, Imm16Value(s)));
    assert op / 8 % 8 / 2 == op / 0x10 % 4;
    assert op / 8 % 8 % 2 == op / 8 % 2;
  }

  // The operand behind two opcode bytes.
  function FarOperand(s: State): word { Pair(Code(s, 3), Code(s, 2)) }

  // ED 43, 53, 63, 73: LD (nn),rr, low byte first.
  lemma StoreWordStep(host: Host, s: State, op: byte)
    requires Executes(s) && CodeAt(s.mem, s.r.pc, op) && 0x40 <= op < 0x80 && op % 0x10 == 3
    ensures var u, a, w := Step(host, s), FarOperand(s), PairNamed(s.r, op);
      && u.r == Past(s.r, 4, 2).(wz := Word(a + 1)) && u.mem == s.mem[a := Lo(w)][Word(a + 1) := Hi(w)]
      && u.lines == s.lines.(intPulse := false) && u.spent == 20
  {
    hide Step, ExtendedPage, Entered, Word, Pair, Hi, Lo, AdvanceR, Executes, Machine.Imm16, Machine.Write, PairNamed,
      CodeAt;
    StepEnters(host, s, op);
    EnteredKeeps(host, s);
    StoreWordForm(host, Entered(host, s), op);
    PairsApart(s.r, Entered(host, s).r, op);
    FarBehind(s.r.pc);
  }

  lemma FarBehind(pc: word)
    ensures Word(Word(pc + 2) + 1) == Word(pc + 3) && Word(Word(pc + 2) + 2) == Word(pc + 4)
  {
    hide Word;
    WordPlus(pc + 2, 1);
    WordPlus(pc + 2, 2);
  }

  // ED 4B, 5B, 6B, 7B: LD rr,(nn).
  lemma FetchWordStep(host: Host, s: State, op: byte)
    requires Executes(s) && CodeAt(s.mem, s.r.pc, op) && 0x40 <= op < 0x80 && op % 0x10 == 0xB
    ensures var u, a := Step(host, s), FarOperand(s);
      && u.r == WithPair(Past(s.r, 4, 2).(wz := Word(a + 1)), op, Pair(s.mem[Word(a + 1)], s.mem[a]))
      && u.mem == s.mem && u.lines == s.lines.(intPulse := false) && u.spent == 20
  {
    hide Step, ExtendedPage, Entered, Word, Pair, Hi, Lo, AdvanceR, Executes, Machine.Imm16, Machine.Read, CodeAt,
      PairNamed;
    StepEnters(host, s, op);
    EnteredKeeps(host, s);
    StoreWordForm(host, Entered(host, s), op);
    FarBehind(s.r.pc);
  }

  // A pair stored is the pair loaded back.
  lemma WordComesBack(host: Host, s: State, op: byte, t: State, op': byte)
    requires Executes(s) && CodeAt(s.mem, s.r.pc, op) && 0x40 <= op < 0x80 && op % 0x10 == 3
    requires Executes(t) && CodeAt(t.mem, t.r.pc, op') && 0x40 <= op' < 0x80 && op' % 0x10 == 0xB
    requires t.mem == Step(host, s).mem && FarOperand(t) == FarOperand(s)
    ensures PairNamed(Step(host, t).r, op') == PairNamed(s.r, op)
  {
    hide Step, Word, Pair, Hi, Lo, AdvanceR, Executes, PairNamed, WithPair, CodeAt, FarOperand;
    var a, w := FarOperand(s), PairNamed(s.r, op);
    StoreWordStep(host, s, op);
    FetchWordStep(host, t, op');
    Apart(a);
    SplitWord(w);
    PairBack(Past(t.r, 4, 2).(wz := Word(a as int + 1)), op', w);
  }

  lemma Apart(a: word)
    ensures Word(a + 1) != a
  {
  }

  lemma PairBack(r: Registers, op: byte, w: word)
    ensures PairNamed(WithPair(r, op, w), op) == w
  {
    hide Pair, Hi, Lo;
    SplitWord(w);
  }

  // ---- PUSH and POP ----

  // AF in the place of SP.
  function Stacked(r: Registers, op: byte): word {
    if op / 0x10 % 4 == 3 then Pair(r.a, r.f.Bits()) else PairNamed(r, op)
  }

  function Unstacked(r: Registers, op: byte, w: word): Registers {
    if op / 0x10 % 4 == 3 then r.(a := Hi(w), f := FlagsOf(Lo(w))) else WithPair(r, op, w)
  }

  lemma StackForms(host: Host, s: State, op: byte)
    requires op >= 0xC0
    ensures op % 0x10 == 5 ==> Plain(host, HL, s, op) == PushPair(host, HL, s, op / 0x10 % 4)
    ensures op % 0x10 == 1 ==> Plain(host, HL, s, op) == PopPair(host, HL, s, op / 0x10 % 4)
  {
    hide JumpIf, Block0, Block1, Block2, PopPair, Transfer, CallIf, PushPair, Accumulate, Restart, ReturnIf,
      Miscellany, Machine.Imm, Machine.ImmValue, Condition;
  }

  lemma StackPairs(r: Registers, op: byte, w: word)
    ensures GetStackPair(HL, r, op / 0x10 % 4) == Stacked(r, op)
    ensures SetStackPair(HL, r, op / 0x10 % 4, w) == Unstacked(r, op, w)
  {
    hide Pair, Hi, Lo, GetPair, SetPair, PairNamed, WithPair, FlagsOf;
    Pairs(r, op, w);
  }

  lemma PushStep(host: Host, s: State, op: byte)
    requires Runs(s, op) && op >= 0xC0 && op % 0x10 == 5
    ensures var u := Step(host, s);
      && u.r == Past(s.r, 1, 1).(sp := Word(s.r.sp - 2)) && u.mem == Pushed(s.mem, s.r.sp, Stacked(s.r, op))
      && u.lines == s.lines.(intPulse := false) && u.spent == 11
  {
    hide Step, Plain, Opened, Word, Pair, Hi, Lo, AdvanceR, Executes, Machine.Idle, Machine.Push, GetStackPair,
      Stacked;
    StepPlain(host, s);
    OpenedKeeps(host, s);
    StackForms(host, Opened(host, s), op);
    StackPairs(Opened(host, s).r, op, 0);
    StackedApart(s.r, Opened(host, s).r, op);
  }

  lemma StackedApart(r: Registers, u: Registers, op: byte)
    requires u == r.(eiPending := u.eiPending, pc := u.pc, r := u.r, q := u.q)
    ensures Stacked(u, op) == Stacked(r, op)
  {
    hide Pair, FromBits;
  }

  lemma PopStep(host: Host, s: State, op: byte)
    requires Runs(s, op) && op >= 0xC0 && op % 0x10 == 1
    ensures var u := Step(host, s);
      && u.r == Unstacked(Past(s.r, 1, 1).(sp := Word(s.r.sp + 2)), op, WordAt(s.mem, s.r.sp))
      && u.mem == s.mem && u.lines == s.lines.(intPulse := false) && u.spent == 10
  {
    hide Step, Plain, Opened, Word, Pair, Hi, Lo, AdvanceR, Executes, Machine.Pop, SetStackPair, FlagsOf;
    StepPlain(host, s);
    OpenedKeeps(host, s);
    StackForms(host, Opened(host, s), op);
    var s1 := Pop(host, Opened(host, s));
    StackPairs(s1.r, op, WordAt(s.mem, s.r.sp));
  }

  // What is pushed is popped, whatever the pairs, and SP comes back.
  lemma PushPop(host: Host, s: State, op: byte, t: State, op': byte)
    requires Runs(s, op) && op >= 0xC0 && op % 0x10 == 5 && Runs(t, op') && op' >= 0xC0 && op' % 0x10 == 1
    requires t.mem == Step(host, s).mem && t.r.sp == Step(host, s).r.sp
    ensures var u := Step(host, t); Stacked(u.r, op') == Stacked(s.r, op) && u.r.sp == s.r.sp
  {
    hide Step, Word, Pair, Hi, Lo, AdvanceR, Executes, Stacked, Unstacked, WordAt;
    PushStep(host, s, op);
    PopStep(host, t, op');
    PushedBytes(s.mem, s.r.sp, Stacked(s.r, op));
    UnstackedBack(Past(t.r, 1, 1).(sp := Word(t.r.sp + 2)), op', Stacked(s.r, op));
    WordPlus(s.r.sp - 2, 2);
    WordPlus(s.r.sp, 0);
  }

  lemma UnstackedBack(r: Registers, op: byte, w: word)
    requires op >= 0xC0
    ensures Stacked(Unstacked(r, op, w), op) == w && Unstacked(r, op, w).sp == r.sp
  {
    hide Pair, Hi, Lo, FlagsOf, FromBits;
    SplitWord(w);
    FlagsRoundTrip(Lo(w), r.f);
  }

  // ---- HL to and from memory, and to SP ----

  lemma StoreHlStep(host: Host, s: State)
    requires Runs(s, 0x22)
    ensures var u, a := Step(host, s), Operand16(s);
      && u.r == Past(s.r, 3, 1).(wz := Word(a + 1)) && u.mem == s.mem[a := s.r.l][Word(a + 1) := s.r.h]
      && u.spent == 16
  {
    hide Step, Plain, Opened, Word, Pair, Hi, Lo, AdvanceR, Executes, Machine.Imm16, Machine.Write;
    StepPlain(host, s);
    OpenedKeeps(host, s);
    HlForms(host, Opened(host, s));
    Behind(s.r.pc);
    JoinBytes(s.r.h, s.r.l);
  }

  lemma FetchHlStep(host: Host, s: State)
    requires Runs(s, 0x2A)
    ensures var u, a := Step(host, s), Operand16(s);
      && u.r == Past(s.r, 3, 1).(wz := Word(a + 1), l := s.mem[a], h := s.mem[Word(a + 1)])
      && u.mem == s.mem && u.spent == 16
  {
    hide Step, Plain, Opened, Word, Pair, Hi, Lo, AdvanceR, Executes, Machine.Imm16, Machine.Read;
    StepPlain(host, s);
    OpenedKeeps(host, s);
    HlForms(host, Opened(host, s));
    Behind(s.r.pc);
    JoinBytes(s.mem[Word(Operand16(s) + 1)], s.mem[Operand16(s)]);
  }

  lemma HlForms(host: Host, s: State)
    ensures Plain(host, HL, s, 0x22) == StorePair(host, s, s.r.Hl())
    ensures var s1 := AtPair(host, s);
      Plain(host, HL, s, 0x2A) == WithR(s1, s1.r.SetHl(WordAt(s.mem, Imm16Value(s))))
  {
    hide Relative, LoadPair, AddPair, StepPair, StepReg, StepMem, LoadImm, StoreImm, AccumulatorOp, Block1, Block2,
      Block3, StoreA, LoadA, StorePair, AtPair, WordAt, Machine.Imm16, Machine.Imm16Value, Pair, Hi, Lo;
  }

  lemma LoadSpStep(host: Host, s: State)
    requires Runs(s, 0xF9)
    ensures var u := Step(host, s); u.r == Past(s.r, 1, 1).(sp := s.r.Hl()) && u.mem == s.mem && u.spent == 6
  {
    hide Step, Plain, Opened, Block3, Word, Pair, AdvanceR, Executes, Machine.Idle;
    StepPlain(host, s);
    OpenedKeeps(host, s);
    IndexMoves(host, HL, Opened(host, s));
    ThirdBlock(host, Opened(host, s), 0xF9);
  }

  lemma ThirdBlock(host: Host, s: State, op: byte)
    requires op >= 0xC0 && IsPlain(op)
    ensures Plain(host, HL, s, op) == Block3(host, HL, s, op)
  {
    hide Block3;
  }

  // ---- Exchanges ----

  // EX (SP),HL leaves L and H where the two bytes at SP were, and takes those.
  lemma ExStackStep(host: Host, s: State)
    requires Runs(s, 0xE3)
    ensures var u, top := Step(host, s), Word(s.r.sp + 1); var w := Pair(s.mem[top], s.mem[s.r.sp]);
      && u.r == Past(s.r, 1, 1).(l := s.mem[s.r.sp], h := s.mem[top], wz := w)
      && u.mem == s.mem[top := s.r.h][s.r.sp := s.r.l] && u.spent == 19
  {
    hide Step, Plain, Opened, Block3, Word, Pair, Hi, Lo, AdvanceR, Executes, ExStack;
    StepPlain(host, s);
    OpenedKeeps(host, s);
    IndexMoves(host, HL, Opened(host, s));
    ThirdBlock(host, Opened(host, s), 0xE3);
    ExStackEffect(host, Opened(host, s));
  }

  lemma ExStackEffect(host: Host, s: State)
    ensures var u, top := ExStack(host, HL, s), Word(s.r.sp + 1); var w := Pair(s.mem[top], s.mem[s.r.sp]);
      && u == s.(r := s.r.(l := s.mem[s.r.sp], h := s.mem[top], wz := w),
                 mem := s.mem[top := s.r.h][s.r.sp := s.r.l], log := u.log, cycles := u.cycles, spent := u.spent)
      && u.spent == s.spent + 15
  {
    hide Machine.Read, Machine.Write, Machine.Idle, Word, Pair, Hi, Lo;
    JoinBytes(s.r.h, s.r.l);
    JoinBytes(s.mem[Word(s.r.sp + 1)], s.mem[s.r.sp]);
  }

  lemma ExchangeForms(host: Host, s: State)
    ensures Plain(host, HL, s, 0x08) == ExAf(s)
    ensures Plain(host, HL, s, 0xEB) == WithR(s, ExDeHl(s.r))
    ensures Plain(host, HL, s, 0xD9) == WithR(s, Exx(s.r))
  {
    hide Djnz, RelativeJump, LoadPair, AddPair, StepPair, StepReg, StepMem, LoadImm, StoreImm, AccumulatorOp, Block1,
      Block2, ReturnIf, PopPair, JumpIf, CallIf, PushPair, Accumulate, Restart, Machine.Imm, Machine.ImmValue,
      Condition, ExAf, ExDeHl, Exx, Return, LoadSp, OutA, InA, ExStack, SetInterrupts, Indirect;
  }

  // EX AF,AF', EX DE,HL and EXX
  lemma ExchangeStep(host: Host, s: State, op: byte)
    requires Runs(s, op) && (op == 0x08 || op == 0xEB || op == 0xD9)
    ensures var u, r := Step(host, s), s.r; var p := Past(r, 1, 1);
      && u.mem == s.mem && u.spent == 4
      && u.r == match op
                case 0x08 => p.(a := r.aAlt, f := r.fAlt, aAlt := r.a, fAlt := r.f)
                case 0xEB => p.(d := r.h, e := r.l, h := r.d, l := r.e)
                case _ => p.(b := r.bAlt, c := r.cAlt, d := r.dAlt, e := r.eAlt, h := r.hAlt, l := r.lAlt,
                             bAlt := r.b, cAlt := r.c, dAlt := r.d, eAlt := r.e, hAlt := r.h, lAlt := r.l)
  {
    hide Step, Plain, Opened, Word, AdvanceR, Executes;
    StepPlain(host, s);
    OpenedKeeps(host, s);
    ExchangeForms(host, Opened(host, s));
  }

  // Each exchange undoes itself: the same one again gives every register back but PC, R, Q and, for
  // EX (SP),HL, WZ; and the stack.
  lemma ExchangeTwice(host: Host, s: State, t: State, op: byte)
    requires Runs(s, op) && Runs(t, op) && (op == 0x08 || op == 0xEB || op == 0xD9 || op == 0xE3)
    requires t.r == Step(host, s).r.(pc := t.r.pc) && t.mem == Step(host, s).mem
    ensures var u := Step(host, t);
      && u.r == s.r.(pc := Word(t.r.pc + 1), r := u.r.r, q := NO_FLAGS, wz := u.r.wz, eiPending := false)
      && u.mem == s.mem
  {
    hide Step, Word, Pair, AdvanceR, Executes;
    if op == 0xE3 {
      ExStackStep(host, s);
      ExStackStep(host, t);
      Apart(s.r.sp);
      assert Step(host, t).mem == s.mem;
    } else {
      ExchangeStep(host, s, op);
      ExchangeStep(host, t, op);
    }
  }
}
