/**
 The memory operand of a prefixed instruction: one step on prefix, opcode and displacement, for
 every form that has one.  IX+d is written out here, not taken from the decoder.
 */
module Operands {
  import opened Words
  import opened Registers
  import opened Machine
  import opened Isa
  import opened Stepping
  import opened Blocks
  import opened IndexPrefix
  import opened Steps
  import Alu

  // IX or IY, as the prefix says.
  function Index(s: State): word { if s.mem[s.r.pc] == 0xDD then s.r.ix else s.r.iy }

  // IX+d: the displacement counts up below 80h and down from there on.
  function Target(s: State): word {
    if Code(s, 2) < 0x80 then Word(Index(s) + Code(s, 2)) else Word(Index(s) + Code(s, 2) - 0x100)
  }

  lemma TargetModulo(s: State)
    ensures Target(s) == (Index(s) + Code(s, 2) - if Code(s, 2) < 0x80 then 0 else 0x100) % 0x1_0000
  {
    hide Word, Index;
    WordModulo(Index(s) + Code(s, 2));
    WordModulo(Index(s) + Code(s, 2) - 0x100);
  }

  // A prefix and an opcode at PC, about to be executed.
  predicate At(s: State, op: byte) { Executes(s) && IsPrefix(s.mem[s.r.pc]) && Code(s, 1) == op }

  lemma OperandIs(host: Host, s: State)
    requires IsPrefix(s.mem[s.r.pc])
    ensures var m, s2 := ModeOf(s.mem[s.r.pc]), Prefixed(host, s);
      OperandAddress(m, s2) == Target(s) && Code(s, 2) == ImmValue(s2)
  {
    hide Prefixed, Word, AdvanceR;
    PrefixedKeeps(host, s);
  }

  // The state the operand is reached in, displacement fetched and five T-states idled.
  lemma OperandReached(host: Host, s: State)
    requires IsPrefix(s.mem[s.r.pc])
    ensures var u := AtOperand(host, ModeOf(s.mem[s.r.pc]), Prefixed(host, s));
      && u == s.(r := Past(s.r, 3, 2).(wz := Target(s)), touched := false, log := u.log, cycles := u.cycles,
                 spent := 16, lines := s.lines.(intPulse := false))
  {
    hide Prefixed, OperandAddress, Machine.Imm, Machine.Idle, Word, AdvanceR, Target;
    PrefixedKeeps(host, s);
    OperandIs(host, s);
    WordThrice(s.r.pc);
  }

  lemma WordThrice(pc: word)
    ensures Word(Word(pc + 2) + 1) == Word(pc + 3) && Word(Word(pc + 2) + 2) == Word(pc + 4)
    ensures Word(Word(Word(pc + 2) + 1) + 1) == Word(pc + 4)
  {
    hide Word;
    WordPlus(pc + 2, 1);
    WordPlus(pc + 3, 1);
    WordPlus(pc + 2, 2);
  }

  lemma LoadForm(host: Host, m: Mode, s: State, op: byte)
    requires !m.HL? && 0x40 <= op < 0x80 && op % 8 == 6 && op / 8 % 8 != 6
    ensures var a := OperandAddress(m, s); var s1 := Read(host, AtOperand(host, m, s), a);
      Indexed(host, m, s, op) == WithR(s1, SetReg(HL, s1.r, op / 8 % 8, s.mem[a]))
  {
    hide AtOperand, OperandAddress, Machine.Read, GetReg, SetReg, Block0, Block2, Block3, IndexBitPage, ExtendedPage;
  }

  // LD r,(IX+d) loads the byte at IX+d, and WZ with its address.
  lemma LoadStep(host: Host, s: State, op: byte)
    requires At(s, op) && op in {0x46, 0x4E, 0x56, 0x5E, 0x66, 0x6E, 0x7E}
    ensures var u, v := Step(host, s), s.mem[Target(s)]; var r := Past(s.r, 3, 2).(wz := Target(s));
      && u.r == (match op
                 case 0x46 => r.(b := v)
                 case 0x4E => r.(c := v)
                 case 0x56 => r.(d := v)
                 case 0x5E => r.(e := v)
                 case 0x66 => r.(h := v)
                 case 0x6E => r.(l := v)
                 case _ => r.(a := v))
      && u.mem == s.mem && u.spent == 19
  {
    hide Step, Prefixed, Indexed, AtOperand, OperandAddress, Machine.Read, Word, AdvanceR, Target, Executes;
    StepIndexed(host, s);
    OperandIs(host, s);
    OperandReached(host, s);
    PrefixedKeeps(host, s);
    LoadForm(host, ModeOf(s.mem[s.r.pc]), Prefixed(host, s), op);
  }

  lemma StoreForm(host: Host, m: Mode, s: State, op: byte)
    requires !m.HL? && 0x40 <= op < 0x80 && op % 8 != 6 && op / 8 % 8 == 6
    ensures var s1 := AtOperand(host, m, s);
      Indexed(host, m, s, op) == Write(host, s1, OperandAddress(m, s), GetReg(HL, s1.r, op % 8))
  {
    hide AtOperand, OperandAddress, Machine.Write, GetReg, SetReg, Block0, Block2, Block3, IndexBitPage, ExtendedPage;
  }

  // LD (IX+d),r changes memory there and nowhere else.
  lemma StoreStep(host: Host, s: State, op: byte)
    requires At(s, op) && op in {0x70, 0x71, 0x72, 0x73, 0x74, 0x75, 0x77}
    ensures var u := Step(host, s);
      var v := match op case 0x70 => s.r.b case 0x71 => s.r.c case 0x72 => s.r.d case 0x73 => s.r.e
               case 0x74 => s.r.h case 0x75 => s.r.l case _ => s.r.a;
      && u.r == Past(s.r, 3, 2).(wz := Target(s))
      && u.mem == s.mem[Target(s) := v] && u.spent == 19
  {
    hide Step, Prefixed, Indexed, AtOperand, OperandAddress, Machine.Write, Word, AdvanceR, Target, Executes;
    StepIndexed(host, s);
    OperandIs(host, s);
    OperandReached(host, s);
    PrefixedKeeps(host, s);
    StoreForm(host, ModeOf(s.mem[s.r.pc]), Prefixed(host, s), op);
  }

  // LD (IX+d),n takes the byte behind the displacement.
  lemma StoreImmStep(host: Host, s: State)
    requires At(s, 0x36)
    ensures var u := Step(host, s);
      && u.r == Past(s.r, 4, 2).(wz := Target(s))
      && u.mem == s.mem[Target(s) := Code(s, 3)] && u.spent == 19
  {
    hide Step, Prefixed, Indexed, OperandAddress, StoreImm, Machine.Write, Word, AdvanceR, Target, Executes;
    StepIndexed(host, s);
    OperandIs(host, s);
    PrefixedKeeps(host, s);
    StoreImmForm(host, ModeOf(s.mem[s.r.pc]), Prefixed(host, s));
    WordThrice(s.r.pc);
  }

  lemma StoreImmForm(host: Host, m: Mode, s: State)
    requires !m.HL?
    ensures var u, a := Indexed(host, m, s, 0x36), OperandAddress(m, s);
      u == s.(r := s.r.(pc := Word(Word(s.r.pc + 1) + 1), wz := a), mem := s.mem[a := s.mem[Word(s.r.pc + 1)]],
              log := u.log, cycles := u.cycles, spent := s.spent + 11)
  {
    hide OperandAddress, Machine.Imm, Machine.Write, Machine.Idle, Word, Block1, Block2, Block3, IndexBitPage,
      ExtendedPage, Relative, LoadPair, AddPair, Indirect, StepPair, StepReg, StepMem, LoadImm, AccumulatorOp;
  }

  // INC (IX+d) and DEC (IX+d)
  lemma CountStep(host: Host, s: State, op: byte)
    requires At(s, op) && op in {0x34, 0x35}
    ensures var u, v := Step(host, s), s.mem[Target(s)];
      var f := if op == 0x34 then Alu.IncFlags(v, s.r.f) else Alu.DecFlags(v, s.r.f);
      && u.r == Past(s.r, 3, 2).(wz := Target(s), f := f, q := f)
      && u.mem == s.mem[Target(s) := Byte(if op == 0x34 then v as int + 1 else v as int - 1)] && u.spent == 23
  {
    hide Step, Prefixed, Indexed, AtOperand, OperandAddress, Machine.Read, Machine.Idle, Machine.Write, Word, Byte,
      AdvanceR, Target, Executes, Alu.IncFlags, Alu.DecFlags, StepMem;
    StepIndexed(host, s);
    OperandIs(host, s);
    OperandReached(host, s);
    PrefixedKeeps(host, s);
    CountForm(host, ModeOf(s.mem[s.r.pc]), Prefixed(host, s), op);
  }

  lemma CountForm(host: Host, m: Mode, s: State, op: byte)
    requires !m.HL? && (op == 0x34 || op == 0x35)
    ensures var u, s1, a := Indexed(host, m, s, op), AtOperand(host, m, s), OperandAddress(m, s);
      var v := s.mem[a];
      var f := if op == 0x34 then Alu.IncFlags(v, s.r.f) else Alu.DecFlags(v, s.r.f);
      && u == s1.(r := s1.r.(f := f), touched := true,
                  mem := s1.mem[a := Byte(if op == 0x34 then v as int + 1 else v as int - 1)],
                  log := u.log, cycles := u.cycles, spent := s1.spent + 7)
  {
    hide AtOperand, OperandAddress, Machine.Read, Machine.Write, Machine.Idle, Byte, Alu.IncFlags, Alu.DecFlags, Block1,
      Block2, Block3, IndexBitPage, ExtendedPage, Relative, LoadPair, AddPair, Indirect, StepPair, StepReg, LoadImm,
      StoreImm, AccumulatorOp;
  }

  lemma AccumulateForm(host: Host, m: Mode, s: State, op: byte)
    requires !m.HL? && 0x80 <= op < 0xC0 && op % 8 == 6
    ensures var a := OperandAddress(m, s);
      Indexed(host, m, s, op) == Accumulate(Read(host, AtOperand(host, m, s), a), op / 8 % 8, s.mem[a])
  {
    hide AtOperand, OperandAddress, Machine.Read, Accumulate, Block0, Block1, Block3, IndexBitPage, ExtendedPage;
  }

  // Arithmetic with the byte at IX+d.
  lemma AccumulateStep(host: Host, s: State, op: byte)
    requires At(s, op) && op in {0x86, 0x8E, 0x96, 0x9E, 0xA6, 0xAE, 0xB6, 0xBE}
    ensures var u := Step(host, s);
      var k := match op case 0x86 => 0 case 0x8E => 1 case 0x96 => 2 case 0x9E => 3 case 0xA6 => 4 case 0xAE => 5
               case 0xB6 => 6 case _ => 7;
      var w := Accumulate(s, k, s.mem[Target(s)]).r;
      && u.r == Past(s.r, 3, 2).(wz := Target(s), a := w.a, f := w.f, q := w.f)
      && u.mem == s.mem && u.spent == 19
  {
    hide Step, Prefixed, Indexed, AtOperand, OperandAddress, Machine.Read, Word, AdvanceR, Target, Executes,
      Accumulate;
    StepIndexed(host, s);
    OperandIs(host, s);
    OperandReached(host, s);
    PrefixedKeeps(host, s);
    var m, s2 := ModeOf(s.mem[s.r.pc]), Prefixed(host, s);
    AccumulateForm(host, m, s2, op);
    AccumulateAlike(s, Read(host, AtOperand(host, m, s2), Target(s)), op / 8 % 8, s.mem[Target(s)]);
  }

  // Arithmetic sees and touches A and F alone.
  lemma AccumulateAlike(s: State, u: State, k: nat, v: byte)
    requires k < 8 && u.r.a == s.r.a && u.r.f == s.r.f
    ensures var w, x := Accumulate(s, k, v).r, Accumulate(u, k, v);
      x == u.(r := u.r.(a := w.a, f := w.f), touched := true)
  {
    hide And, Or, Xor, Alu.AddResult, Alu.AddFlags, Alu.SubResult, Alu.SubFlags, Alu.CpFlags, Alu.AndFlags,
      Alu.Sz53p;
    match k
    case 0 =>
    case 1 =>
    case 2 =>
    case 3 =>
    case 4 =>
    case 5 =>
    case 6 =>
    case _ =>
  }

  // DDCB d op: WZ is IX+d; BIT reads the byte there, the other forms replace it and, unless the
  // opcode names (HL), leave it in the register named too.
  lemma BitStep(host: Host, s: State)
    requires At(s, 0xCB)
    ensures var u, op, a := Step(host, s), Code(s, 3), Target(s);
      var v := s.mem[a]; var w := BitResult(op, v, s.r.f.c); var r := Past(s.r, 4, 2).(wz := a);
      if 0x40 <= op < 0x80 then
        var f := Alu.BitFlags(op / 8 % 8, v, Hi(a), s.r.f);
        u.r == r.(f := f, q := f) && u.mem == s.mem && u.spent == 20
      else
        var f := if op < 0x40 then Alu.RotateFlags(op / 8 % 8, v, s.r.f.c) else s.r.f;
        var r' := r.(f := f, q := if op < 0x40 then f else NO_FLAGS);
        && u.r == (match op % 8
                   case 0 => r'.(b := w)
                   case 1 => r'.(c := w)
                   case 2 => r'.(d := w)
                   case 3 => r'.(e := w)
                   case 4 => r'.(h := w)
                   case 5 => r'.(l := w)
                   case 6 => r'
                   case _ => r'.(a := w))
        && u.mem == s.mem[a := w] && u.spent == 23
  {
    hide Step, Prefixed, Indexed, IndexBitPage, OperandAddress, Word, AdvanceR, Target, Executes, BitResult,
      Alu.BitFlags, Alu.RotateFlags, Hi;
    StepIndexed(host, s);
    OperandIs(host, s);
    PrefixedKeeps(host, s);
    WordThrice(s.r.pc);
    BitForm(host, ModeOf(s.mem[s.r.pc]), Prefixed(host, s));
  }

  lemma BitForm(host: Host, m: Mode, s: State)
    requires !m.HL?
    ensures var u, op, a := Indexed(host, m, s, 0xCB), s.mem[Word(s.r.pc + 1)], OperandAddress(m, s);
      var v := s.mem[a]; var w := BitResult(op, v, s.r.f.c);
      var r := s.r.(pc := Word(s.r.pc + 2), wz := a);
      && u == s.(r := u.r, touched := u.touched, mem := u.mem, log := u.log, cycles := u.cycles, spent := u.spent)
      && if 0x40 <= op < 0x80 then
           && u.r == r.(f := Alu.BitFlags(op / 8 % 8, v, Hi(a), s.r.f)) && u.touched
           && u.mem == s.mem && u.spent == s.spent + 12
         else
           var r' := r.(f := if op < 0x40 then Alu.RotateFlags(op / 8 % 8, v, s.r.f.c) else s.r.f);
           && u.r == (if op % 8 == 6 then r' else SetReg(HL, r', op % 8, w)) && u.touched == (op < 0x40 || s.touched)
           && u.mem == s.mem[a := w] && u.spent == s.spent + 15
  {
    hide OperandAddress, IndexBitStart, Machine.Read, Machine.Idle, Machine.Write, Word, BitResult, Alu.BitFlags,
      Alu.RotateFlags, Hi, SetReg, Plain, ExtendedPage;
    IndexBitStartKeeps(host, m, s);
  }
}
