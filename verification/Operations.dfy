/**
 Arithmetic, logic, rotates and bit operations, one step each: which operand an opcode takes,
 where its result goes, and what the result is in terms of numbers and bits.
 */
module Operations {
  import opened Words
  import opened Registers
  import opened Machine
  import opened Isa
  import opened Stepping
  import opened Interrupts
  import opened Blocks
  import opened Steps
  import opened Branches
  import opened Operands
  import opened BitLaws
  import Alu
  import Arithmetic

  // The operand an opcode names in its low three bits.
  function Source(s: State, op: byte): byte {
    match op % 8
    case 0 => s.r.b case 1 => s.r.c case 2 => s.r.d case 3 => s.r.e
    case 4 => s.r.h case 5 => s.r.l case 6 => s.mem[s.r.Hl()] case _ => s.r.a
  }

  // The same registers with v in the place that k names; in memory for k = 6.
  function Placed(r: Registers, k: nat, v: byte): Registers {
    r.(b := if k == 0 then v else r.b, c := if k == 1 then v else r.c, d := if k == 2 then v else r.d,
       e := if k == 3 then v else r.e, h := if k == 4 then v else r.h, l := if k == 5 then v else r.l,
       a := if k == 7 then v else r.a)
  }

  lemma PlacedApart(r: Registers, k: nat, v: byte, q: Flags)
    requires k < 8
    ensures Placed(r.(q := q), k, v) == Placed(r, k, v).(q := q) && Placed(r, k, v).q == r.q
  {
  }

  lemma Slots(s: State, op: byte, k: nat, v: byte)
    requires k < 8 && k != 6
    ensures SetReg(HL, s.r, k, v) == Placed(s.r, k, v)
    ensures op % 8 == k ==> GetReg(HL, s.r, k) == Source(s, op)
  {
  }

  lemma SourceApart(s: State, u: State, op: byte)
    requires u.mem == s.mem
    requires u.r == s.r.(eiPending := u.r.eiPending, pc := u.r.pc, r := u.r.r, q := u.r.q, f := u.r.f)
    ensures Source(u, op) == Source(s, op)
    ensures forall k: nat, v: byte :: PlacedIn(u, k, v) == PlacedIn(s, k, v)
  {
  }

  function PlacedIn(s: State, k: nat, v: byte): Memory { if k == 6 then s.mem[s.r.Hl() := v] else s.mem }

  // ---- Arithmetic and logic ----

  lemma AluForm(host: Host, s: State, op: byte)
    requires 0x80 <= op < 0xC0
    ensures var u := if op % 8 == 6 then Read(host, s, s.r.Hl()) else s;
      Plain(host, HL, s, op) == Accumulate(u, op / 8 % 8, Source(s, op))
  {
    hide Accumulate, Machine.Read, Block0, Block1, Block3, Pair;
  }

  // ADD, ADC, SUB, SBC, AND, XOR, OR, CP, eight opcodes each.
  lemma AluStep(host: Host, s: State, op: byte)
    requires Runs(s, op) && 0x80 <= op < 0xC0
    ensures var u, w := Step(host, s), Accumulate(s, op / 8 - 0x10, Source(s, op)).r;
      && u.r == Past(s.r, 1, 1).(a := w.a, f := w.f, q := w.f)
      && u.mem == s.mem && u.spent == if op % 8 == 6 then 7 else 4
  {
    hide Step, Plain, Opened, Machine.Read, Accumulate, Word, Pair, AdvanceR, Executes;
    StepPlain(host, s);
    OpenedKeeps(host, s);
    var s1 := Opened(host, s);
    AluForm(host, s1, op);
    assert op / 8 - 0x10 == op / 8 % 8;
    AccumulateAlike(s, if op % 8 == 6 then Read(host, s1, s1.r.Hl()) else s1, op / 8 % 8, Source(s, op));
  }

  lemma AluImmForm(host: Host, s: State, op: byte)
    requires op >= 0xC0 && op % 8 == 6
    ensures Plain(host, HL, s, op) == Accumulate(Imm(host, s), op / 8 % 8, ImmValue(s))
  {
    hide Accumulate, Machine.Imm, Machine.ImmValue, Block0, Block1, Block2, ReturnIf, PopPair, Transfer, JumpIf,
      Miscellany, CallIf, PushPair, Restart, Condition;
  }

  lemma AluImmStep(host: Host, s: State, op: byte)
    requires Runs(s, op) && op >= 0xC0 && op % 8 == 6
    ensures var u, w := Step(host, s), Accumulate(s, op / 8 - 0x18, Code(s, 1)).r;
      && u.r == Past(s.r, 2, 1).(a := w.a, f := w.f, q := w.f) && u.mem == s.mem && u.spent == 7
  {
    hide Step, Plain, Opened, Machine.Imm, Accumulate, Word, AdvanceR, Executes;
    StepPlain(host, s);
    OpenedKeeps(host, s);
    AluImmForm(host, Opened(host, s), op);
    assert op / 8 - 0x18 == op / 8 % 8;
    Behind(s.r.pc);
    AccumulateAlike(s, Imm(host, Opened(host, s)), op / 8 % 8, Code(s, 1));
  }

  // The four sums are exact with the carry out counted, and CP is SUB that keeps A.
  lemma AluComputes(s: State, v: byte)
    ensures var a, c := s.r.a, Num(s.r.f.c);
      var add, adc := Accumulate(s, 0, v).r, Accumulate(s, 1, v).r;
      var sub, sbc, cp := Accumulate(s, 2, v).r, Accumulate(s, 3, v).r, Accumulate(s, 7, v).r;
      && add.a + 0x100 * Num(add.f.c) == a + v && adc.a + 0x100 * Num(adc.f.c) == a + v + c
      && sub.a - 0x100 * Num(sub.f.c) == a - v && sbc.a - 0x100 * Num(sbc.f.c) == a - v - c
      && cp.a == a && cp.f.z == (a == v) && cp.f.c == (a < v) && cp.f.(y := sub.f.y, x := sub.f.x) == sub.f
  {
    hide Bit, Alu.AddResult, Alu.AddFlags, Alu.SubResult, Alu.SubFlags;
    Arithmetic.AddCarries(s.r.a, v, false);
    Arithmetic.AddCarries(s.r.a, v, s.r.f.c);
    Arithmetic.SubBorrows(s.r.a, v, false);
    Arithmetic.SubBorrows(s.r.a, v, s.r.f.c);
    CompareExact(s.r.a, v);
  }

  lemma CompareExact(a: byte, v: byte)
    ensures var f := Alu.SubFlags(a, v, false); f.z == (a == v) && f.c == (a < v)
  {
    hide Bit, Signed8, Alu.Fits8;
    assert Alu.SubResult(a, v, false) == if a < v then a - v + 0x100 else a - v;
  }

  // ---- INC and DEC ----

  lemma CountForm8(host: Host, s: State, op: byte)
    requires op < 0x40 && (op % 8 == 4 || op % 8 == 5)
    ensures var k, d := op / 8, if op % 8 == 4 then 1 else -1;
      Plain(host, HL, s, op) == if k == 6 then StepMem(host, HL, s, d) else StepReg(HL, s, k, d)
  {
    hide StepMem, StepReg, Relative, LoadPair, AddPair, Indirect, StepPair, LoadImm, StoreImm, AccumulatorOp, Block1,
      Block2, Block3;
  }

  lemma CountEffect(host: Host, s: State, k: nat, d: int)
    requires k < 8 && (d == 1 || d == -1)
    ensures var v := Source(s, k); var u := if k == 6 then StepMem(host, HL, s, d) else StepReg(HL, s, k, d);
      && u.r == Placed(s.r, k, Byte(v + d)).(f := if d == 1 then Alu.IncFlags(v, s.r.f) else Alu.DecFlags(v, s.r.f))
      && u.touched && u.mem == PlacedIn(s, k, Byte(v + d)) && u.spent == s.spent + if k == 6 then 7 else 0
  {
    hide Byte, Pair, StepFlags, StepMem, StepReg, Source, Placed, Alu.IncFlags, Alu.DecFlags;
    CountedFlags(Source(s, k), s.r.f, d);
    if k == 6 {
      CountMemory(host, s, d);
      MemorySlot(s, k, Byte(Source(s, k) + d));
    } else {
      CountRegister(s, k, d);
    }
  }

  lemma MemorySlot(s: State, op: byte, v: byte)
    requires op % 8 == 6
    ensures Source(s, op) == s.mem[s.r.Hl()] && Placed(s.r, 6, v) == s.r
  {
  }

  lemma CountRegister(s: State, k: nat, d: int)
    requires k < 8 && k != 6
    ensures var u, v := StepReg(HL, s, k, d), Source(s, k);
      u == s.(r := Placed(s.r, k, Byte(v + d)).(f := StepFlags(v, s.r.f, d)), touched := true)
  {
    hide GetReg, SetReg, Source, Placed, Byte, StepFlags;
    var v, f := Source(s, k), StepFlags(Source(s, k), s.r.f, d);
    Slots(s, k, k, Byte(v + d));
    Slots(s.(r := s.r.(f := f)), k, k, Byte(v + d));
    PlacedFlags(s.r, k, Byte(v + d), f);
  }

  lemma PlacedFlags(r: Registers, k: nat, v: byte, f: Flags)
    requires k < 8
    ensures Placed(r.(f := f), k, v) == Placed(r, k, v).(f := f)
  {
  }

  lemma CountedFlags(v: byte, f: Flags, d: int)
    ensures StepFlags(v, f, d) == if d == 1 then Alu.IncFlags(v, f) else Alu.DecFlags(v, f)
  {
    hide Alu.IncFlags, Alu.DecFlags;
  }

  lemma CountMemory(host: Host, s: State, d: int)
    ensures var u, v := StepMem(host, HL, s, d), s.mem[s.r.Hl()];
      && u.r == s.r.(f := StepFlags(v, s.r.f, d)) && u.touched && u.mem == s.mem[s.r.Hl() := Byte(v + d)]
      && u.spent == s.spent + 7
  {
    hide Machine.Read, Machine.Idle, Machine.Write, Byte, Pair, StepFlags;
  }

  // INC and DEC count the operand the opcode names in bits 5 to 3.
  lemma IncDecStep(host: Host, s: State, op: byte)
    requires Runs(s, op) && op < 0x40 && (op % 8 == 4 || op % 8 == 5)
    ensures var u, v := Step(host, s), Source(s, op / 8); var w := Byte(v + if op % 8 == 4 then 1 else -1);
      var f := if op % 8 == 4 then Alu.IncFlags(v, s.r.f) else Alu.DecFlags(v, s.r.f);
      && u.r == Placed(Past(s.r, 1, 1), op / 8, w).(f := f, q := f)
      && u.mem == PlacedIn(s, op / 8, w) && u.spent == if op / 8 == 6 then 11 else 4
  {
    hide Step, Plain, Opened, Word, Byte, Pair, AdvanceR, Executes, Alu.IncFlags, Alu.DecFlags, StepMem, StepReg,
      Source, Placed;
    StepPlain(host, s);
    OpenedKeeps(host, s);
    SourceApart(s, Opened(host, s), op / 8);
    PlacedApart(Past(s.r, 1, 1), op / 8, Byte(Source(s, op / 8) + if op % 8 == 4 then 1 else -1), s.r.q);
    assert Opened(host, s).r == Past(s.r, 1, 1).(q := s.r.q);
    CountForm8(host, Opened(host, s), op);
    CountEffect(host, Opened(host, s), op / 8, if op % 8 == 4 then 1 else -1);
  }

  // They are ADD 1 and SUB 1 but for the carry, which they leave.
  lemma CountFlags(v: byte, f: Flags)
    ensures Alu.IncFlags(v, f) == Alu.AddFlags(v, 1, false).(c := f.c)
    ensures Alu.DecFlags(v, f) == Alu.SubFlags(v, 1, false).(c := f.c)
  {
    hide Alu.Sz53, Byte, Alu.Fits8;
    CountLimits(v);
  }

  lemma CountLimits(v: byte)
    ensures v == 0x7F <==> !Alu.Fits8(Signed8(v) + 1)
    ensures v == 0x80 <==> !Alu.Fits8(Signed8(v) - 1)
  {
  }

  // ---- Operations on A ----

  lemma AccumulatorForm(host: Host, s: State, op: byte)
    requires op < 0x40 && op % 8 == 7
    ensures Plain(host, HL, s, op) == AccumulatorOp(s, op / 8)
  {
    hide StepMem, StepReg, Relative, LoadPair, AddPair, Indirect, StepPair, LoadImm, StoreImm, AccumulatorOp, Block1,
      Block2, Block3;
  }

  // RLCA, RRCA, RLA and RRA leave in A and carry what the CB form of the same number leaves, and
  // S, Z and P/V as they were.
  lemma RotateAStep(host: Host, s: State, op: byte)
    requires Runs(s, op) && op in {0x07, 0x0F, 0x17, 0x1F}
    ensures var u, w := Step(host, s), BitResult(op, s.r.a, s.r.f.c);
      var f := s.r.f.(y := Bit(w, 5), h := false, x := Bit(w, 3), n := false,
                      c := if op == 0x07 || op == 0x17 then Bit(s.r.a, 7) else Bit(s.r.a, 0));
      && u.r == Past(s.r, 1, 1).(a := w, f := f, q := f) && u.mem == s.mem && u.spent == 4
  {
    hide Step, Plain, Opened, Word, AdvanceR, Executes, BitResult, Bit, Alu.RotateFlags, AccumulatorOp;
    StepPlain(host, s);
    OpenedKeeps(host, s);
    AccumulatorForm(host, Opened(host, s), op);
    RotateAEffect(Opened(host, s), op);
  }

  lemma RotateAEffect(s: State, op: byte)
    requires op in {0x07, 0x0F, 0x17, 0x1F}
    ensures var w := BitResult(op, s.r.a, s.r.f.c);
      AccumulatorOp(s, op / 8) ==
        WithA(s, w, s.r.f.(y := Bit(w, 5), h := false, x := Bit(w, 3), n := false,
                           c := if op == 0x07 || op == 0x17 then Bit(s.r.a, 7) else Bit(s.r.a, 0)))
  {
    hide Alu.Rotate, Bit;
    ShiftUp(s.r.a, false);
    ShiftDown(s.r.a, false);
  }

  // DAA; its result is what decimal chains are made of.
  lemma DaaStep(host: Host, s: State)
    requires Runs(s, 0x27)
    ensures var u, f := Step(host, s), Alu.DaaFlags(s.r.a, s.r.f);
      && u.r == Past(s.r, 1, 1).(a := Alu.DaaResult(s.r.a, s.r.f), f := f, q := f)
      && u.mem == s.mem && u.spent == 4
  {
    hide Step, Plain, Opened, Word, AdvanceR, Executes, Alu.DaaResult, Alu.DaaFlags;
    StepPlain(host, s);
    OpenedKeeps(host, s);
    AccumulatorForm(host, Opened(host, s), 0x27);
  }

  // CPL inverts A bit by bit.
  lemma CplStep(host: Host, s: State, k: nat)
    requires Runs(s, 0x2F) && k < 8
    ensures var u := Step(host, s);
      var f := s.r.f.(y := Bit(u.r.a, 5), h := true, x := Bit(u.r.a, 3), n := true);
      && u.r == Past(s.r, 1, 1).(a := u.r.a, f := f, q := f) && u.mem == s.mem && u.spent == 4
      && Bit(u.r.a, k) == !Bit(s.r.a, k)
  {
    hide Step, Plain, Opened, Word, AdvanceR, Executes, Bit, AccumulatorOp;
    StepPlain(host, s);
    OpenedKeeps(host, s);
    AccumulatorForm(host, Opened(host, s), 0x2F);
    Inverted(s.r.a, k);
    Inverted(s.r.a, 5);
    Inverted(s.r.a, 3);
    CplEffect(Opened(host, s));
  }

  lemma CplEffect(s: State)
    ensures AccumulatorOp(s, 5) == WithA(s, 0xFF - s.r.a, Alu.CplFlags(s.r.a, s.r.f))
  {
    hide Alu.CplFlags;
  }

  lemma Inverted(v: byte, k: nat)
    requires k < 8
    ensures Bit(0xFF - v, k) == !Bit(v, k)
  {
    hide Bit, FromBits;
    Rebuild(v);
    Complements(Bit(v, 7), Bit(v, 6), Bit(v, 5), Bit(v, 4), Bit(v, 3), Bit(v, 2), Bit(v, 1), Bit(v, 0));
    BitsOf(!Bit(v, 7), !Bit(v, 6), !Bit(v, 5), !Bit(v, 4), !Bit(v, 3), !Bit(v, 2), !Bit(v, 1), !Bit(v, 0));
  }

  lemma Complements(b7: bool, b6: bool, b5: bool, b4: bool, b3: bool, b2: bool, b1: bool, b0: bool)
    ensures FromBits(!b7, !b6, !b5, !b4, !b3, !b2, !b1, !b0) == 0xFF - FromBits(b7, b6, b5, b4, b3, b2, b1, b0)
  {
  }

  // ---- The CB page ----

  lemma StepBits(host: Host, s: State)
    requires Runs(s, 0xCB)
    ensures Step(host, s) == Latch(BitPage(host, Entered(host, s), Code(s, 1)))
  {
    hide Step, BitPage, Machine.Fetch, Word;
    assert HasOpcode(s.mem);
    StepExecutes(host, s);
  }

  lemma BitPageEffect(host: Host, s: State, op: byte)
    ensures var u, k, v := BitPage(host, s, op), op % 8, Source(s, op);
      var w := BitResult(op, v, s.r.f.c);
      && u == s.(r := u.r, touched := u.touched, mem := u.mem, log := u.log, cycles := u.cycles, spent := u.spent)
      && u.touched == (s.touched || op < 0x80)
      && if 0x40 <= op < 0x80 then
           && u.r == s.r.(f := Alu.BitFlags(op / 8 % 8, v, if k == 6 then Hi(s.r.wz) else v, s.r.f))
           && u.mem == s.mem && u.spent == s.spent + if k == 6 then 4 else 0
         else
           && u.r == Placed(s.r, k, w).(f := if op < 0x40 then Alu.RotateFlags(op / 8, v, s.r.f.c) else s.r.f)
           && u.mem == PlacedIn(s, k, w) && u.spent == s.spent + if k == 6 then 7 else 0
  {
    hide BitPage, BitResult, Alu.BitFlags, Alu.RotateFlags, Hi, Pair;
    if op % 8 == 6 {
      BitMemory(host, s, op);
    } else {
      BitRegister(host, s, op);
    }
  }

  lemma BitMemory(host: Host, s: State, op: byte)
    requires op % 8 == 6
    ensures var u, v := BitPage(host, s, op), s.mem[s.r.Hl()];
      && u == s.(r := u.r, touched := u.touched, mem := u.mem, log := u.log, cycles := u.cycles, spent := u.spent)
      && u.touched == (s.touched || op < 0x80)
      && if 0x40 <= op < 0x80 then
           && u.r == s.r.(f := Alu.BitFlags(op / 8 % 8, v, Hi(s.r.wz), s.r.f)) && u.mem == s.mem
           && u.spent == s.spent + 4
         else
           && u.r == s.r.(f := if op < 0x40 then Alu.RotateFlags(op / 8, v, s.r.f.c) else s.r.f)
           && u.mem == s.mem[s.r.Hl() := BitResult(op, v, s.r.f.c)] && u.spent == s.spent + 7
  {
    hide Machine.Read, Machine.Idle, Machine.Write, BitResult, Pair, Hi, Alu.BitFlags, Alu.RotateFlags;
  }

  lemma BitRegister(host: Host, s: State, op: byte)
    requires op % 8 != 6
    ensures var k, v := op % 8, Source(s, op);
      BitPage(host, s, op) ==
        if 0x40 <= op < 0x80 then s.(r := s.r.(f := Alu.BitFlags(op / 8 % 8, v, v, s.r.f)), touched := true)
        else s.(r := Placed(s.r, k, BitResult(op, v, s.r.f.c)).(
                       f := if op < 0x40 then Alu.RotateFlags(op / 8, v, s.r.f.c) else s.r.f),
                touched := s.touched || op < 0x40)
  {
    hide BitResult, Pair, Hi, Alu.BitFlags, Alu.RotateFlags, BitEffect, GetReg, SetReg, Source, Placed;
    var k, v := op % 8, Source(s, op);
    var w, s1 := BitResult(op, v, s.r.f.c), BitEffect(s, op, v, v);
    BitTestKeeps(op, v, s.r.f.c);
    BitEffects(s, op, v, v);
    Slots(s, op, k, w);
    Slots(s1, op, k, w);
    PlacedFlags(s.r, k, w, s1.r.f);
    if 0x40 <= op < 0x80 {
      PlacedBack(s, op, k);
    }
  }

  lemma PlacedBack(s: State, op: byte, k: nat)
    requires k == op % 8 && k != 6
    ensures Placed(s.r, k, Source(s, op)) == s.r
  {
  }

  lemma BitEffects(s: State, op: byte, v: byte, source: byte)
    ensures BitEffect(s, op, v, source) ==
      if op < 0x40 then WithFlags(s, Alu.RotateFlags(op / 8, v, s.r.f.c))
      else if op < 0x80 then WithFlags(s, Alu.BitFlags(op / 8 % 8, v, source, s.r.f))
      else s
  {
    hide Alu.BitFlags, Alu.RotateFlags;
  }

  lemma BitTestKeeps(op: byte, v: byte, c: bool)
    ensures 0x40 <= op < 0x80 ==> BitResult(op, v, c) == v
  {
  }

  // Bits 2 to 0 name the operand.  BIT tests it ...
  lemma BitTestStep(host: Host, s: State)
    requires Runs(s, 0xCB) && 0x40 <= Code(s, 1) < 0x80
    ensures var u, op := Step(host, s), Code(s, 1); var k, v := op % 8, Source(s, op);
      var f := Alu.BitFlags(op / 8 - 8, v, if k == 6 then Hi(s.r.wz) else v, s.r.f);
      u.r == Past(s.r, 2, 2).(f := f, q := f) && u.mem == s.mem && u.spent == if k == 6 then 12 else 8
  {
    hide Step, BitPage, Entered, BitResult, Word, Pair, Hi, AdvanceR, Executes, Alu.BitFlags, Alu.RotateFlags, Source,
      Placed, PlacedIn;
    StepBits(host, s);
    EnteredKeeps(host, s);
    SourceApart(s, Entered(host, s), Code(s, 1));
    BitPageEffect(host, Entered(host, s), Code(s, 1));
  }

  // ... and every other one puts its result there.
  lemma CbStep(host: Host, s: State)
    requires Runs(s, 0xCB) && !(0x40 <= Code(s, 1) < 0x80)
    ensures var u, op := Step(host, s), Code(s, 1); var k, v := op % 8, Source(s, op);
      var w := BitResult(op, v, s.r.f.c);
      var f := if op < 0x40 then Alu.RotateFlags(op / 8, v, s.r.f.c) else s.r.f;
      && u.r == Placed(Past(s.r, 2, 2), k, w).(f := f, q := if op < 0x40 then f else NO_FLAGS)
      && u.mem == PlacedIn(s, k, w) && u.spent == if k == 6 then 15 else 8
  {
    hide Step, BitPage, Entered, BitResult, Word, Pair, Hi, AdvanceR, Executes, Alu.BitFlags, Alu.RotateFlags, Source,
      Placed, PlacedIn;
    StepBits(host, s);
    EnteredKeeps(host, s);
    var op := Code(s, 1);
    SourceApart(s, Entered(host, s), op);
    PlacedApart(Past(s.r, 2, 2), op % 8, BitResult(op, Source(s, op), s.r.f.c), s.r.q);
    assert Entered(host, s).r == Past(s.r, 2, 2).(q := s.r.q);
    BitPageEffect(host, Entered(host, s), op);
  }
}
