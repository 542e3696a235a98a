/**
 Reference semantics of the instruction set.  An opcode is decoded through its fields
 x = op[7:6], y = op[5:3], z = op[2:0], p = y[2:1], q = y[0], and every rule is written once,
 for a Mode that says which register pair stands in the place of HL.
 */
module Isa {
  import opened Words
  import opened Registers
  import opened Machine
  import opened Alu

  datatype Mode = HL | IX | IY

  predicate IsPrefix(op: byte) { op == 0xDD || op == 0xFD }

  // ---- Operands ----

  function GetIndex(m: Mode, r: Registers): word {
    match m case HL => r.Hl() case IX => r.ix case IY => r.iy
  }

  function SetIndex(m: Mode, r: Registers, w: word): Registers {
    match m case HL => r.SetHl(w) case IX => r.(ix := w) case IY => r.(iy := w)
  }

  // 0=B 1=C 2=D 3=E 4=H 5=L 7=A, with the halves of the index register for H and L.
  function GetReg(m: Mode, r: Registers, k: nat): byte
    requires k < 8 && k != 6
  {
    match k
    case 0 => r.b case 1 => r.c case 2 => r.d case 3 => r.e
    case 4 => if m.HL? then r.h else Hi(GetIndex(m, r))
    case 5 => if m.HL? then r.l else Lo(GetIndex(m, r))
    case _ => r.a
  }

  function SetReg(m: Mode, r: Registers, k: nat, v: byte): Registers
    requires k < 8 && k != 6
  {
    match k
    case 0 => r.(b := v) case 1 => r.(c := v) case 2 => r.(d := v) case 3 => r.(e := v)
    case 4 => if m.HL? then r.(h := v) else SetIndex(m, r, Pair(v, Lo(GetIndex(m, r))))
    case 5 => if m.HL? then r.(l := v) else SetIndex(m, r, Pair(Hi(GetIndex(m, r)), v))
    case _ => r.(a := v)
  }

  lemma SetSame(r: Registers, k: nat)
    requires k < 8 && k != 6
    ensures SetReg(HL, r, k, GetReg(HL, r, k)) == r
  {
  }

  // Register operands do not depend on F, PC or WZ.
  lemma FlagsApart(r: Registers, f: Flags, k: nat)
    requires k < 8 && k != 6
    ensures GetReg(HL, r.(f := f), k) == GetReg(HL, r, k)
  {
  }

  lemma IndexApart(m: Mode, r: Registers, pc: word, wz: word)
    ensures GetIndex(m, r.(pc := pc)) == GetIndex(m, r)
    ensures GetIndex(m, r.(pc := pc, wz := wz)) == GetIndex(m, r)
  {
  }

  // 0=BC 1=DE 2=HL 3=SP
  function GetPair(m: Mode, r: Registers, p: nat): word
    requires p < 4
  {
    match p case 0 => r.Bc() case 1 => r.De() case 2 => GetIndex(m, r) case _ => r.sp
  }

  function SetPair(m: Mode, r: Registers, p: nat, w: word): Registers
    requires p < 4
  {
    match p case 0 => r.SetBc(w) case 1 => r.SetDe(w) case 2 => SetIndex(m, r, w) case _ => r.(sp := w)
  }

  // The pairs of PUSH and POP: AF in the place of SP.
  function GetStackPair(m: Mode, r: Registers, p: nat): word
    requires p < 4
  {
    if p == 3 then r.Af() else GetPair(m, r, p)
  }

  function SetStackPair(m: Mode, r: Registers, p: nat, w: word): Registers
    requires p < 4
  {
    if p == 3 then r.SetAf(w) else SetPair(m, r, p, w)
  }

  // NZ Z NC C PO PE P M
  predicate Condition(f: Flags, y: nat)
    requires y < 8
  {
    match y
    case 0 => !f.z case 1 => f.z case 2 => !f.c case 3 => f.c
    case 4 => !f.p case 5 => f.p case 6 => !f.s case _ => f.s
  }

  // The memory operand: (HL), or (IX+d) with d fetched, WZ set and five idle T-states.
  function OperandAddress(m: Mode, s: State): word {
    if m.HL? then s.r.Hl() else Word(GetIndex(m, s.r) + Signed8(ImmValue(s)))
  }

  function AtOperand(host: Host, m: Mode, s: State): (u: State)
    ensures u.spent == s.spent + if m.HL? then 0 else 8
  {
    if m.HL? then s else
      var s1 := SetWz(Imm(host, s), OperandAddress(m, s));
      Idle(host, s1, Word(s1.r.pc - 1), 5)
  }

  // Finding the operand moves only PC and WZ.
  lemma AtOperandKeeps(host: Host, m: Mode, s: State)
    ensures var u := AtOperand(host, m, s);
      u == s.(r := s.r.(pc := u.r.pc, wz := u.r.wz), log := u.log, cycles := u.cycles, spent := u.spent)
  {
  }

  // ---- Accumulator operations ----

  function WithA(s: State, a: byte, f: Flags): State { s.(r := s.r.(a := a, f := f), touched := true) }

  // ADD ADC SUB SBC AND XOR OR CP
  function Accumulate(s: State, k: nat, v: byte): (u: State)
    ensures u.spent == s.spent + 0
  {
    var a, f := s.r.a, s.r.f;
    match k
    case 0 => WithA(s, AddResult(a, v, false), AddFlags(a, v, false))
    case 1 => WithA(s, AddResult(a, v, f.c), AddFlags(a, v, f.c))
    case 2 => WithA(s, SubResult(a, v, false), SubFlags(a, v, false))
    case 3 => WithA(s, SubResult(a, v, f.c), SubFlags(a, v, f.c))
    case 4 => WithA(s, And(a, v), AndFlags(And(a, v)))
    case 5 => WithA(s, Xor(a, v), Sz53p(Xor(a, v)))
    case 6 => WithA(s, Or(a, v), Sz53p(Or(a, v)))
    case _ => WithFlags(s, CpFlags(a, v))
  }

  // RLCA RRCA RLA RRA DAA CPL SCF CCF
  function AccumulatorOp(s: State, y: nat): (u: State)
    ensures u.spent == s.spent + 0
  {
    var a, f, q := s.r.a, s.r.f, s.r.q;
    match y
    case 4 => WithA(s, DaaResult(a, f), DaaFlags(a, f))
    case 5 => WithA(s, 0xFF - a, CplFlags(a, f))
    case 6 => WithFlags(s, ScfFlags(a, f, q))
    case 7 => WithFlags(s, CcfFlags(a, f, q))
    case k => WithA(s, Rotate(k, a, f.c), RotateAFlags(k, a, f))
  }

  // ---- x = 0 ----

  function Branch(host: Host, s: State, d: byte): (u: State)
    ensures u.spent == s.spent + 5
  {
    var s1 := Idle(host, s, Word(s.r.pc - 1), 5);
    var target := Word(s1.r.pc + Signed8(d));
    SetWz(Jump(s1, target), target)
  }

  function RelativeJump(host: Host, s: State, taken: bool): (u: State)
    ensures u.spent == s.spent + if taken then 8 else 3
  {
    var s1 := Imm(host, s);
    if taken then Branch(host, s1, ImmValue(s)) else s1
  }

  function ExAf(s: State): State {
    WithR(s, s.r.(a := s.r.aAlt, f := s.r.fAlt, aAlt := s.r.a, fAlt := s.r.f))
  }

  function Djnz(host: Host, s: State): State {
    var s1 := Idle(host, s, s.r.Ir(), 1);
    var s2 := Imm(host, s1);
    var s3 := s2.(r := s2.r.(b := Byte(s.r.b - 1)));
    if s3.r.b != 0 then Branch(host, s3, ImmValue(s1)) else s3
  }

  function Relative(host: Host, s: State, y: nat): State
    requires y < 8
  {
    match y
    case 0 => s
    case 1 => ExAf(s)
    case 2 => Djnz(host, s)
    case 3 => RelativeJump(host, s, true)
    case _ => RelativeJump(host, s, Condition(s.r.f, y - 4))
  }

  function LoadPair(host: Host, m: Mode, s: State, p: nat): (u: State)
    requires p < 4
    ensures u.spent == s.spent + 6
  {
    var s1 := Imm16(host, s);
    WithR(s1, SetPair(m, s1.r, p, Imm16Value(s)))
  }

  function AddPair(host: Host, m: Mode, s: State, p: nat): (u: State)
    requires p < 4
    ensures u.spent == s.spent + 7
  {
    var s1 := Idle(host, s, s.r.Ir(), 7);
    var a := GetIndex(m, s.r);
    var v := GetPair(m, s.r, p);
    var s2 := SetWz(WithFlags(s1, Add16Flags(a, v, s.r.f)), Word(a + 1));
    WithR(s2, SetIndex(m, s2.r, Word(a + v)))
  }

  // LD (nn),lo hi  and its inverse
  function StorePair(host: Host, s: State, w: word): (u: State)
    ensures u.spent == s.spent + 12
  {
    var s1 := Imm16(host, s);
    var a := Imm16Value(s);
    SetWz(Write(host, Write(host, s1, a, Lo(w)), Word(a + 1), Hi(w)), Word(a + 1))
  }

  function AtPair(host: Host, s: State): (u: State)
    ensures u.spent == s.spent + 12
  {
    var s1 := Imm16(host, s);
    var a := Imm16Value(s);
    SetWz(Read(host, Read(host, s1, a), Word(a + 1)), Word(a + 1))
  }

  function WordAt(mem: Memory, a: word): word { Pair(mem[Word(a + 1)], mem[a]) }

  // The A <-> memory moves leave A in the high byte of WZ after a store.
  function StoreA(host: Host, s: State, a: word): (u: State)
    ensures u.spent == s.spent + 3
  {
    SetWz(Write(host, s, a, s.r.a), Pair(s.r.a, Lo(Word(a + 1))))
  }

  function LoadA(host: Host, s: State, a: word): (u: State)
    ensures u.spent == s.spent + 3
  {
    var s1 := Read(host, s, a);
    SetWz(s1.(r := s1.r.(a := s.mem[a])), Word(a + 1))
  }

  function Indirect(host: Host, m: Mode, s: State, y: nat): State
    requires y < 8
  {
    match y
    case 0 => StoreA(host, s, s.r.Bc())
    case 1 => LoadA(host, s, s.r.Bc())
    case 2 => StoreA(host, s, s.r.De())
    case 3 => LoadA(host, s, s.r.De())
    case 4 => StorePair(host, s, GetIndex(m, s.r))
    case 5 => var s1 := AtPair(host, s); WithR(s1, SetIndex(m, s1.r, WordAt(s.mem, Imm16Value(s))))
    case 6 => StoreA(host, Imm16(host, s), Imm16Value(s))
    case _ => LoadA(host, Imm16(host, s), Imm16Value(s))
  }

  function StepPair(host: Host, m: Mode, s: State, p: nat, delta: int): (u: State)
    requires p < 4
    ensures u.spent == s.spent + 2
  {
    var s1 := Idle(host, s, s.r.Ir(), 2);
    WithR(s1, SetPair(m, s1.r, p, Word(GetPair(m, s1.r, p) + delta)))
  }

  // INC and DEC, on a register or on memory
  function StepFlags(v: byte, f: Flags, delta: int): Flags {
    if delta == 1 then IncFlags(v, f) else DecFlags(v, f)
  }

  function StepReg(m: Mode, s: State, y: nat, delta: int): (u: State)
    requires y < 8 && y != 6
    ensures u.spent == s.spent + 0
  {
    var v := GetReg(m, s.r, y);
    var s1 := WithFlags(s, StepFlags(v, s.r.f, delta));
    WithR(s1, SetReg(m, s1.r, y, Byte(v + delta)))
  }

  function StepMem(host: Host, m: Mode, s: State, delta: int): (u: State)
    ensures u.spent == s.spent + if m.HL? then 7 else 15
  {
    var s1 := AtOperand(host, m, s);
    var a := OperandAddress(m, s);
    var v := s.mem[a];
    var s2 := Read(host, s1, a);
    var s3 := WithFlags(s2, StepFlags(v, s.r.f, delta));
    Write(host, Idle(host, s3, a, 1), a, Byte(v + delta))
  }

  function LoadImm(host: Host, m: Mode, s: State, y: nat): (u: State)
    requires y < 8 && y != 6
    ensures u.spent == s.spent + 3
  {
    var s1 := Imm(host, s);
    WithR(s1, SetReg(m, s1.r, y, ImmValue(s)))
  }

  // LD (HL),n; in LD (IX+d),n the displacement overlaps the operand fetch, leaving two idle T-states.
  function StoreImm(host: Host, m: Mode, s: State): (u: State)
    ensures u.spent == s.spent + if m.HL? then 6 else 11
  {
    if m.HL? then
      Write(host, Imm(host, s), s.r.Hl(), ImmValue(s))
    else
      var s1 := Imm(host, s);
      var s2 := SetWz(Imm(host, s1), OperandAddress(m, s));
      Write(host, Idle(host, s2, Word(s2.r.pc - 1), 2), OperandAddress(m, s), ImmValue(s1))
  }

  function Block0(host: Host, m: Mode, s: State, op: byte): State
    requires op < 0x40
  {
    var y, z := op / 8, op % 8;
    var delta := if z == 4 || (z == 3 && y % 2 == 0) then 1 else -1;
    match z
    case 0 => Relative(host, s, y)
    case 1 => if y % 2 == 0 then LoadPair(host, m, s, y / 2) else AddPair(host, m, s, y / 2)
    case 2 => Indirect(host, m, s, y)
    case 3 => StepPair(host, m, s, y / 2, delta)
    case 4 => if y == 6 then StepMem(host, m, s, delta) else StepReg(m, s, y, delta)
    case 5 => if y == 6 then StepMem(host, m, s, delta) else StepReg(m, s, y, delta)
    case 6 => if y == 6 then StoreImm(host, m, s) else LoadImm(host, m, s, y)
    case _ => AccumulatorOp(s, y)
  }

  // ---- x = 1: LD r,r' and HALT.  Next to a memory operand H and L are always H and L. ----

  function Halt(s: State): State { s.(r := s.r.(halted := true, pc := Word(s.r.pc - 1))) }

  function Block1(host: Host, m: Mode, s: State, op: byte): State
    requires 0x40 <= op < 0x80
  {
    var y, z := op / 8 % 8, op % 8;
    if y == 6 && z == 6 then
      Halt(s)
    else if z == 6 then
      var s1 := Read(host, AtOperand(host, m, s), OperandAddress(m, s));
      WithR(s1, SetReg(HL, s1.r, y, s.mem[OperandAddress(m, s)]))
    else if y == 6 then
      var s1 := AtOperand(host, m, s);
      Write(host, s1, OperandAddress(m, s), GetReg(HL, s1.r, z))
    else
      WithR(s, SetReg(m, s.r, y, GetReg(m, s.r, z)))
  }

  // ---- x = 2: arithmetic with a register or memory operand ----

  function Block2(host: Host, m: Mode, s: State, op: byte): State
    requires 0x80 <= op < 0xC0
  {
    var y, z := op / 8 % 8, op % 8;
    if z == 6 then
      Accumulate(Read(host, AtOperand(host, m, s), OperandAddress(m, s)), y, s.mem[OperandAddress(m, s)])
    else
      Accumulate(s, y, GetReg(m, s.r, z))
  }

  // ---- x = 3 ----

  function Return(host: Host, s: State): (u: State)
    ensures u.spent == s.spent + 6
  {
    SetWz(Jump(Pop(host, s), PopValue(s)), PopValue(s))
  }

  function ReturnIf(host: Host, s: State, taken: bool): State {
    var s1 := Idle(host, s, s.r.Ir(), 1);
    if taken then Return(host, s1) else s1
  }

  function JumpIf(host: Host, s: State, taken: bool): (u: State)
    ensures u.spent == s.spent + 6
  {
    var s1 := SetWz(Imm16(host, s), Imm16Value(s));
    if taken then Jump(s1, Imm16Value(s)) else s1
  }

  function CallIf(host: Host, s: State, taken: bool): (u: State)
    ensures u.spent == s.spent + if taken then 13 else 6
  {
    var s1 := SetWz(Imm16(host, s), Imm16Value(s));
    if !taken then s1 else
      var s2 := Idle(host, s1, Word(s1.r.pc - 1), 1);
      Jump(Push(host, s2, s2.r.pc), Imm16Value(s))
  }

  function Restart(host: Host, s: State, target: word): (u: State)
    ensures u.spent == s.spent + 7
  {
    var s1 := Idle(host, s, s.r.Ir(), 1);
    SetWz(Jump(Push(host, s1, s1.r.pc), target), target)
  }

  function PushPair(host: Host, m: Mode, s: State, p: nat): State
    requires p < 4
  {
    var s1 := Idle(host, s, s.r.Ir(), 1);
    Push(host, s1, GetStackPair(m, s1.r, p))
  }

  function PopPair(host: Host, m: Mode, s: State, p: nat): State
    requires p < 4
  {
    var s1 := Pop(host, s);
    WithR(s1, SetStackPair(m, s1.r, p, PopValue(s)))
  }

  function Exx(r: Registers): Registers {
    r.(b := r.bAlt, c := r.cAlt, d := r.dAlt, e := r.eAlt, h := r.hAlt, l := r.lAlt,
       bAlt := r.b, cAlt := r.c, dAlt := r.d, eAlt := r.e, hAlt := r.h, lAlt := r.l)
  }

  function OutA(host: Host, s: State): (u: State)
    ensures u.spent == s.spent + 7
  {
    var s1 := Imm(host, s);
    var port := Pair(s.r.a, ImmValue(s));
    SetWz(Out(host, s1, port, s.r.a), Pair(s.r.a, Lo(Word(port + 1))))
  }

  function InA(host: Host, s: State): (u: State)
    ensures u.spent == s.spent + 7
  {
    var s1 := Imm(host, s);
    var port := Pair(s.r.a, ImmValue(s));
    var s2 := In(host, s1, port);
    SetWz(s2.(r := s2.r.(a := InValue(host, s1, port))), Word(port + 1))
  }

  // EX (SP),HL: the bus cycles, which put w on the stack.
  function Exchange(host: Host, s: State, w: word): (u: State)
    ensures u.spent == s.spent + 15
  {
    var sp, top := s.r.sp, Word(s.r.sp + 1);
    var s1 := Idle(host, Read(host, Read(host, s, sp), top), top, 1);
    Idle(host, Write(host, Write(host, s1, top, Hi(w)), sp, Lo(w)), sp, 2)
  }

  function ExStack(host: Host, m: Mode, s: State): (u: State)
    ensures u.spent == s.spent + 15
  {
    var w := WordAt(s.mem, s.r.sp);
    var s1 := Exchange(host, s, GetIndex(m, s.r));
    SetWz(WithR(s1, SetIndex(m, s1.r, w)), w)
  }

  lemma ExchangeKeeps(host: Host, s: State, w: word)
    ensures Exchange(host, s, w).r == s.r
  {
  }

  function LoadSp(host: Host, m: Mode, s: State): State {
    var s1 := Idle(host, s, s.r.Ir(), 2);
    WithR(s1, s1.r.(sp := GetIndex(m, s1.r)))
  }

  function ExDeHl(r: Registers): Registers { r.(d := r.h, e := r.l, h := r.d, l := r.e) }

  function SetInterrupts(s: State, enabled: bool): State {
    if enabled then s.(r := s.r.(iff1 := true, iff2 := true, eiPending := true))
    else s.(r := s.r.(iff1 := false, iff2 := false))
  }

  // z = 1, odd y: RET EXX JP(HL) LD SP,HL
  function Transfer(host: Host, m: Mode, s: State, p: nat): State
    requires p < 4
  {
    match p
    case 0 => Return(host, s)
    case 1 => WithR(s, Exx(s.r))
    case 2 => Jump(s, GetIndex(m, s.r))
    case _ => LoadSp(host, m, s)
  }

  // z = 3: JP nn, (CB), OUT, IN, EX (SP),HL, EX DE,HL, DI, EI
  function Miscellany(host: Host, m: Mode, s: State, y: nat): State
    requires y < 8 && y != 1
  {
    match y
    case 0 => JumpIf(host, s, true)
    case 2 => OutA(host, s)
    case 3 => InA(host, s)
    case 4 => ExStack(host, m, s)
    case 5 => WithR(s, ExDeHl(s.r))
    case _ => SetInterrupts(s, y == 7)
  }

  predicate IsPlain(op: byte) { op != 0xCB && op != 0xDD && op != 0xED && op != 0xFD }

  function Block3(host: Host, m: Mode, s: State, op: byte): State
    requires 0xC0 <= op && IsPlain(op)
  {
    var y, z := op / 8 % 8, op % 8;
    match z
    case 0 => ReturnIf(host, s, Condition(s.r.f, y))
    case 1 => if y % 2 == 0 then PopPair(host, m, s, y / 2) else Transfer(host, m, s, y / 2)
    case 2 => JumpIf(host, s, Condition(s.r.f, y))
    case 3 => Miscellany(host, m, s, y)
    case 4 => CallIf(host, s, Condition(s.r.f, y))
    case 5 => if y % 2 == 0 then PushPair(host, m, s, y / 2) else CallIf(host, s, true)
    case 6 => Accumulate(Imm(host, s), y, ImmValue(s))
    case _ => Restart(host, s, 8 * y)
  }

  // An instruction outside the CB, DD, ED and FD pages, after its opcode fetch.
  function Plain(host: Host, m: Mode, s: State, op: byte): State
    requires IsPlain(op)
  {
    if op < 0x40 then Block0(host, m, s, op)
    else if op < 0x80 then Block1(host, m, s, op)
    else if op < 0xC0 then Block2(host, m, s, op)
    else Block3(host, m, s, op)
  }

  // LD r,r' without a memory operand
  lemma RegisterLoad(host: Host, m: Mode, s: State, op: byte)
    requires 0x40 <= op < 0x80 && op % 8 != 6 && op / 8 % 8 != 6
    ensures Block1(host, m, s, op) == WithR(s, SetReg(m, s.r, op / 8 % 8, GetReg(m, s.r, op % 8)))
  {
    hide GetReg, SetReg;
  }

  // SCF and CCF
  lemma CarryFlags(s: State)
    ensures AccumulatorOp(s, 6) == WithFlags(s, ScfFlags(s.r.a, s.r.f, s.r.q))
    ensures AccumulatorOp(s, 7) == WithFlags(s, CcfFlags(s.r.a, s.r.f, s.r.q))
  {
    hide ScfFlags, CcfFlags;
  }

  lemma CarryOps(host: Host, m: Mode, s: State)
    ensures Plain(host, m, s, 0x37) == AccumulatorOp(s, 6)
    ensures Plain(host, m, s, 0x3F) == AccumulatorOp(s, 7)
  {
    hide AccumulatorOp, Relative, LoadPair, AddPair, Indirect, StepPair, StepReg, StepMem, LoadImm, StoreImm,
      Block1, Block2, Block3;
  }

  // What an index register is moved by: POP, EX (SP), PUSH, JP and LD SP.
  lemma IndexStack(host: Host, m: Mode, s: State)
    ensures Block3(host, m, s, 0xE1) == PopPair(host, m, s, 2)
    ensures Block3(host, m, s, 0xE5) == PushPair(host, m, s, 2)
  {
    hide ReturnIf, JumpIf, CallIf, Restart, PopPair, PushPair, Transfer, Miscellany, Accumulate, Machine.Imm,
      Machine.ImmValue, Condition;
  }

  lemma IndexMoves(host: Host, m: Mode, s: State)
    ensures Block3(host, m, s, 0xE3) == ExStack(host, m, s)
    ensures Block3(host, m, s, 0xE9) == Jump(s, GetIndex(m, s.r))
    ensures Block3(host, m, s, 0xF9) == LoadSp(host, m, s)
  {
    hide ReturnIf, JumpIf, CallIf, Restart, PopPair, PushPair, Accumulate, Machine.Imm, Machine.ImmValue, Condition,
      Return, LoadSp, ExStack, OutA, InA, SetInterrupts, GetIndex, Jump;
  }

  // An opcode that names neither HL, H, L nor (HL) means the same in every mode.
  lemma PlainSameLow(host: Host, m: Mode, s: State, op: byte)
    requires op < 0x40 && op % 0x10 != 9
    requires op !in {0x21, 0x22, 0x23, 0x24, 0x25, 0x26, 0x2A, 0x2B, 0x2C, 0x2D, 0x2E, 0x34, 0x35, 0x36}
    ensures Block0(host, m, s, op) == Plain(host, HL, s, op)
  {
    hide Block0;
    if op % 8 < 4 {
      SameColumns0To3(host, m, s, op);
    } else {
      SameColumns4To7(host, m, s, op);
    }
  }

  lemma SameColumns0To3(host: Host, m: Mode, s: State, op: byte)
    requires op < 0x40 && op % 8 < 4 && op % 0x10 != 9 && op !in {0x21, 0x22, 0x23, 0x2A, 0x2B}
    ensures Block0(host, m, s, op) == Block0(host, HL, s, op)
  {
    hide Relative, StorePair, AtPair, WordAt, StoreA, LoadA, AddPair, StepReg, StepMem, LoadImm, StoreImm,
      AccumulatorOp, Machine.Imm16, Machine.Imm16Value, Machine.Idle, Word, Pair, Hi, Lo;
    assert op == 8 * (op / 8) + op % 8;
  }

  lemma SameColumns4To7(host: Host, m: Mode, s: State, op: byte)
    requires op < 0x40 && op % 8 >= 4
    requires op !in {0x24, 0x25, 0x26, 0x2C, 0x2D, 0x2E, 0x34, 0x35, 0x36}
    ensures Block0(host, m, s, op) == Block0(host, HL, s, op)
  {
    hide Relative, Indirect, LoadPair, AddPair, StepPair, StepMem, StoreImm, AccumulatorOp, Machine.Imm,
      Machine.ImmValue, Alu.IncFlags, Alu.DecFlags, Byte, Pair, Hi, Lo;
    assert op == 8 * (op / 8) + op % 8;
  }

  lemma PlainSameLoad(host: Host, m: Mode, s: State, op: byte)
    requires 0x40 <= op < 0x80
    requires op == 0x76 || (!(0x60 <= op < 0x78) && op % 8 !in {4, 5, 6})
    ensures Block1(host, m, s, op) == Plain(host, HL, s, op)
  {
    hide AtOperand, OperandAddress, Machine.Read, Machine.Write, Hi, Lo, Pair, Word, Halt, Block0, Block2, Block3;
  }

  lemma PlainSameAlu(host: Host, m: Mode, s: State, op: byte)
    requires 0x80 <= op < 0xC0 && op % 8 !in {4, 5, 6}
    ensures Block2(host, m, s, op) == Plain(host, HL, s, op)
  {
    hide Accumulate, AtOperand, OperandAddress, Machine.Read;
  }

  lemma PlainSameHigh(host: Host, m: Mode, s: State, op: byte)
    requires 0xC0 <= op && IsPlain(op) && op !in {0xE1, 0xE3, 0xE5, 0xE9, 0xF9}
    ensures Block3(host, m, s, op) == Plain(host, HL, s, op)
  {
    hide ReturnIf, JumpIf, CallIf, Accumulate, Restart, PushPair, PopPair, Transfer, Miscellany, Machine.Imm,
      Machine.ImmValue, Condition;
    var y, z := op / 8 % 8, op % 8;
    assert op == 0xC0 + 8 * y + z;
    if y / 2 != 2 {
      SameStack(host, m, s, y / 2);
    }
    if y / 2 < 2 {
      SameTransfer(host, m, s, y / 2);
    }
    if y != 1 && y != 4 {
      SameMiscellany(host, m, s, y);
    }
  }

  lemma SameStack(host: Host, m: Mode, s: State, p: nat)
    requires p < 4 && p != 2
    ensures PushPair(host, m, s, p) == PushPair(host, HL, s, p) && PopPair(host, m, s, p) == PopPair(host, HL, s, p)
  {
    hide Machine.Idle, Machine.Push, Machine.Pop, Machine.PopValue, GetIndex, SetIndex, FlagsOf, Hi, Lo, Pair;
  }

  lemma SameTransfer(host: Host, m: Mode, s: State, p: nat)
    requires p < 2
    ensures Transfer(host, m, s, p) == Transfer(host, HL, s, p)
  {
    hide Return;
  }

  lemma SameMiscellany(host: Host, m: Mode, s: State, y: nat)
    requires y < 8 && y != 1 && y != 4
    ensures Miscellany(host, m, s, y) == Miscellany(host, HL, s, y)
  {
    hide JumpIf, OutA, InA, SetInterrupts;
  }

  // ---- The CB page ----

  // The value a CB opcode leaves in its operand, and the flags.
  function BitResult(op: byte, v: byte, c: bool): byte {
    var y := op / 8 % 8;
    match op / 0x40
    case 0 => Rotate(y, v, c)
    case 1 => v
    case 2 => ResetBit(v, y)
    case _ => SetBit(v, y)
  }

  // source supplies bits 5 and 3 of BIT.
  function BitEffect(s: State, op: byte, v: byte, source: byte): (u: State)
    ensures u.spent == s.spent + 0
  {
    match op / 0x40
    case 0 => WithFlags(s, RotateFlags(op / 8 % 8, v, s.r.f.c))
    case 1 => WithFlags(s, BitFlags(op / 8 % 8, v, source, s.r.f))
    case _ => s
  }

  predicate IsBitTest(op: byte) { op / 0x40 == 1 }

  // After the second opcode fetch.
  function BitPage(host: Host, s: State, op: byte): State {
    var z := op % 8;
    if z == 6 then
      var a := s.r.Hl();
      var s1 := BitEffect(Idle(host, Read(host, s, a), a, 1), op, s.mem[a], Hi(s.r.wz));
      if IsBitTest(op) then s1 else Write(host, s1, a, BitResult(op, s.mem[a], s.r.f.c))
    else
      var v := GetReg(HL, s.r, z);
      var s1 := BitEffect(s, op, v, v);
      WithR(s1, SetReg(HL, s1.r, z, BitResult(op, v, s.r.f.c)))
  }

  // DDCB / FDCB, after the CB byte: displacement and opcode are operand fetches.  The rest is
  // the (HL) form of the plain CB instruction at IX+d, whose result also goes to register z.
  function IndexBitStart(host: Host, m: Mode, s: State): (u: State)
    ensures u.spent == s.spent + 8
  {
    var s1 := SetWz(Imm(host, Imm(host, s)), OperandAddress(m, s));
    Idle(host, s1, Word(s1.r.pc - 1), 2)
  }

  lemma IndexBitStartKeeps(host: Host, m: Mode, s: State)
    ensures var u := IndexBitStart(host, m, s);
      u == s.(r := s.r.(pc := Word(s.r.pc + 2), wz := OperandAddress(m, s)),
              log := u.log, cycles := u.cycles, spent := u.spent)
  {
  }

  function IndexBitPage(host: Host, m: Mode, s: State): State
    requires !m.HL?
  {
    var op := s.mem[Word(s.r.pc + 1)];
    var a := OperandAddress(m, s);
    var s1 := IndexBitStart(host, m, s);
    var s2 := BitEffect(Idle(host, Read(host, s1, a), a, 1), op, s.mem[a], Hi(a));
    if IsBitTest(op) then s2 else
      var v := BitResult(op, s.mem[a], s.r.f.c);
      var s3 := Write(host, s2, a, v);
      if op % 8 == 6 then s3 else WithR(s3, SetReg(HL, s3.r, op % 8, v))
  }

  // ---- The ED page ----

  function InReg(host: Host, s: State, y: nat): (u: State)
    requires y < 8
    ensures u.spent == s.spent + 4
  {
    var v := InValue(host, s, s.r.Bc());
    var s1 := SetWz(In(host, s, s.r.Bc()), Word(s.r.Bc() + 1));
    var s2 := WithFlags(s1, Sz53p(v).(c := s.r.f.c));
    if y == 6 then s2 else WithR(s2, SetReg(HL, s2.r, y, v))
  }

  function OutReg(host: Host, s: State, y: nat): (u: State)
    requires y < 8
    ensures u.spent == s.spent + 4
  {
    var v := if y == 6 then 0 else GetReg(HL, s.r, y);
    SetWz(Out(host, s, s.r.Bc(), v), Word(s.r.Bc() + 1))
  }

  function Wide(host: Host, s: State, w: word, f: Flags): (u: State)
    ensures u.spent == s.spent + 7
  {
    var s1 := Idle(host, s, s.r.Ir(), 7);
    var s2 := SetWz(WithFlags(s1, f), Word(s.r.Hl() + 1));
    WithR(s2, s2.r.SetHl(w))
  }

  function AdcHl(host: Host, s: State, v: word): (u: State)
    ensures u.spent == s.spent + 7
  {
    Wide(host, s, Adc16Result(s.r.Hl(), v, s.r.f.c), Adc16Flags(s.r.Hl(), v, s.r.f.c))
  }

  function SbcHl(host: Host, s: State, v: word): (u: State)
    ensures u.spent == s.spent + 7
  {
    Wide(host, s, Sbc16Result(s.r.Hl(), v, s.r.f.c), Sbc16Flags(s.r.Hl(), v, s.r.f.c))
  }

  function ReturnFromNmi(host: Host, s: State): (u: State)
    ensures u.spent == s.spent + 6
  {
    var s1 := Return(host, s);
    s1.(r := s1.r.(iff1 := s1.r.iff2))
  }

  function InterruptMode(y: nat): byte { match y % 4 case 2 => 1 case 3 => 2 case _ => 0 }

  // LD A,I and LD A,R: P/V shows IFF2.
  function LoadAFrom(host: Host, s: State, v: byte): (u: State)
    ensures u.spent == s.spent + 1
  {
    var s1 := WithA(s, v, Sz53(v).(p := s.r.iff2, c := s.r.f.c));
    Idle(host, s1, s1.r.Ir(), 1)
  }

  // RRD and RLD rotate a decimal digit between A and (HL).
  function RotateDigit(host: Host, s: State, mem: byte, a: byte): (u: State)
    ensures u.spent == s.spent + 10
  {
    var s1 := Write(host, Idle(host, Read(host, s, s.r.Hl()), s.r.Hl(), 4), s.r.Hl(), mem);
    SetWz(WithA(s1, a, Sz53p(a).(c := s.r.f.c)), Word(s.r.Hl() + 1))
  }

  function InterruptRegister(host: Host, s: State, y: nat): State
    requires y < 8
  {
    var a, v := s.r.a, s.mem[s.r.Hl()];
    match y
    case 0 => var s1 := Idle(host, s, s.r.Ir(), 1); s1.(r := s1.r.(i := a))
    case 1 => var s1 := Idle(host, s, s.r.Ir(), 1); s1.(r := s1.r.(r := a))
    case 2 => LoadAFrom(host, s, s.r.i)
    case 3 => LoadAFrom(host, s, s.r.r)
    case 4 => RotateDigit(host, s, a % 0x10 * 0x10 + v / 0x10, a / 0x10 * 0x10 + v % 0x10)
    case 5 => RotateDigit(host, s, v % 0x10 * 0x10 + a % 0x10, a / 0x10 * 0x10 + v / 0x10)
    case _ => s
  }

  function Extended(host: Host, s: State, op: byte): State
    requires 0x40 <= op < 0x80
  {
    var y, z := op / 8 % 8, op % 8;
    match z
    case 0 => InReg(host, s, y)
    case 1 => OutReg(host, s, y)
    case 2 => if y % 2 == 0 then SbcHl(host, s, GetPair(HL, s.r, y / 2)) else AdcHl(host, s, GetPair(HL, s.r, y / 2))
    case 3 =>
      if y % 2 == 0 then StorePair(host, s, GetPair(HL, s.r, y / 2))
      else var s1 := AtPair(host, s); WithR(s1, SetPair(HL, s1.r, y / 2, WordAt(s.mem, Imm16Value(s))))
    case 4 => WithA(s, SubResult(0, s.r.a, false), NegFlags(s.r.a))
    case 5 => ReturnFromNmi(host, s)
    case 6 => s.(r := s.r.(im := InterruptMode(y)))
    case _ => InterruptRegister(host, s, y)
  }

  // The columns of the page.
  lemma PortColumns(host: Host, s: State, op: byte)
    requires 0x40 <= op < 0x80
    ensures op % 8 == 0 ==> Extended(host, s, op) == InReg(host, s, op / 8 % 8)
    ensures op % 8 == 1 ==> Extended(host, s, op) == OutReg(host, s, op / 8 % 8)
  {
    hide InReg, OutReg;
  }

  lemma WideColumn(host: Host, s: State, op: byte)
    requires 0x40 <= op < 0x80 && op % 8 == 2
    ensures var y := op / 8 % 8; var v := GetPair(HL, s.r, y / 2);
      Extended(host, s, op) == if y % 2 == 0 then SbcHl(host, s, v) else AdcHl(host, s, v)
  {
    hide SbcHl, AdcHl, GetPair;
  }

  lemma WordColumn(host: Host, s: State, op: byte)
    requires 0x40 <= op < 0x80 && op % 8 == 3
    ensures var y := op / 8 % 8;
      Extended(host, s, op) ==
        if y % 2 == 0 then StorePair(host, s, GetPair(HL, s.r, y / 2))
        else var s1 := AtPair(host, s); WithR(s1, SetPair(HL, s1.r, y / 2, WordAt(s.mem, Imm16Value(s))))
  {
    hide StorePair, AtPair, GetPair, SetPair, WordAt, Machine.Imm16Value;
  }

  lemma ControlColumns(host: Host, s: State, op: byte)
    requires 0x40 <= op < 0x80
    ensures op % 8 == 4 ==> Extended(host, s, op) == WithA(s, SubResult(0, s.r.a, false), NegFlags(s.r.a))
    ensures op % 8 == 5 ==> Extended(host, s, op) == ReturnFromNmi(host, s)
    ensures op % 8 == 6 ==> Extended(host, s, op) == s.(r := s.r.(im := InterruptMode(op / 8 % 8)))
    ensures op % 8 == 7 ==> Extended(host, s, op) == InterruptRegister(host, s, op / 8 % 8)
  {
    hide ReturnFromNmi, InterruptRegister, NegFlags, SubResult, WithA;
  }

  // ---- Block instructions: one iteration; again means PC goes back onto the instruction ----

  function Rewind(host: Host, s: State, address: word): (u: State)
    ensures u.spent == s.spent + 5
  {
    Idle(host, Jump(s, Word(s.r.pc - 2)), address, 5)
  }

  // Also leaves WZ on the second instruction byte.
  function RewindWz(host: Host, s: State, address: word): (u: State)
    ensures u.spent == s.spent + 5
  {
    var pc := Word(s.r.pc - 2);
    Idle(host, SetWz(Jump(s, pc), Word(pc + 1)), address, 5)
  }

  function BlockLd(host: Host, s: State, delta: int, repeating: bool): State {
    var hl, de, left := s.r.Hl(), s.r.De(), Word(s.r.Bc() - 1);
    var v := s.mem[hl];
    var s1 := Idle(host, Write(host, Read(host, s, hl), de, v), de, 2);
    var s2 := WithR(s1, s1.r.SetHl(Word(hl + delta)).SetDe(Word(de + delta)).SetBc(left));
    var s3 := WithFlags(s2, BlockLdFlags(v, s.r.a, left, s.r.f));
    if repeating && left != 0 then RewindWz(host, s3, de) else s3
  }

  function BlockCp(host: Host, s: State, delta: int, repeating: bool): State {
    var hl, left := s.r.Hl(), Word(s.r.Bc() - 1);
    var v := s.mem[hl];
    var s1 := SetWz(Idle(host, Read(host, s, hl), hl, 5), Word(s.r.wz + delta));
    var s2 := WithR(s1, s1.r.SetHl(Word(hl + delta)).SetBc(left));
    var s3 := WithFlags(s2, BlockCpFlags(v, s.r.a, left, s.r.f));
    if repeating && left != 0 && v != s.r.a then RewindWz(host, s3, hl) else s3
  }

  // The end of an I/O iteration, B counted already.
  function BlockIoEnd(host: Host, s: State, hl: word, f: Flags, address: word, repeating: bool): (u: State)
    ensures u.spent == s.spent + if repeating && s.r.b != 0 then 5 else 0
  {
    var s1 := WithFlags(WithR(s, s.r.SetHl(hl)), f);
    if repeating && s.r.b != 0 then Rewind(host, s1, address) else s1
  }

  function BlockIn(host: Host, s: State, delta: int, repeating: bool): State {
    var port, hl, b := s.r.Bc(), s.r.Hl(), Byte(s.r.b - 1);
    var s1 := Idle(host, s, s.r.Ir(), 1);
    var v := InValue(host, s1, port);
    var s2 := In(host, s1, port);
    var s3 := Write(host, WithR(s2, s2.r.(wz := Word(port + delta), b := b)), hl, v);
    BlockIoEnd(host, s3, Word(hl + delta), BlockIoFlags(v, v + Byte(s.r.c + delta), b), hl, repeating)
  }

  function BlockOut(host: Host, s: State, delta: int, repeating: bool): State {
    var hl, b := s.r.Hl(), Byte(s.r.b - 1);
    var port := Pair(b, s.r.c);
    var v := s.mem[hl];
    var s1 := Read(host, Idle(host, s, s.r.Ir(), 1), hl);
    var s2 := SetWz(Out(host, WithR(s1, s1.r.(b := b)), port, v), Word(port + delta));
    BlockIoEnd(host, s2, Word(hl + delta), BlockIoFlags(v, v + Lo(Word(hl + delta)), b), port, repeating)
  }

  function BlockPage(host: Host, s: State, op: byte): State
    requires 0xA0 <= op < 0xC0
  {
    var y, z := op / 8 % 8, op % 8;
    var delta := if y % 2 == 0 then 1 else -1;
    var repeating := y >= 6;
    match z
    case 0 => BlockLd(host, s, delta, repeating)
    case 1 => BlockCp(host, s, delta, repeating)
    case 2 => BlockIn(host, s, delta, repeating)
    case 3 => BlockOut(host, s, delta, repeating)
    case _ => s
  }

  // After the second opcode fetch; unassigned opcodes do nothing.
  function ExtendedPage(host: Host, s: State, op: byte): State {
    if 0x40 <= op < 0x80 then Extended(host, s, op)
    else if 0xA0 <= op < 0xC0 then BlockPage(host, s, op)
    else s
  }

  // ---- Prefixes ----

  // Some byte ends every run of index prefixes.
  ghost predicate HasOpcode(mem: Memory) { exists a: word :: !IsPrefix(mem[a]) }

  // The byte k places after pc, around the end of memory.
  function Ahead(mem: Memory, pc: word, k: nat): byte { mem[Word(pc + k)] }

  // Exactly k index prefixes lie at pc.
  ghost predicate IsPrefixRun(mem: Memory, pc: word, k: nat) {
    && k < 0x1_0000
    && !IsPrefix(Ahead(mem, pc, k))
    && forall j: nat :: j < k ==> IsPrefix(Ahead(mem, pc, j))
  }

  // The number of index prefixes from pc on: the cyclic distance to the next other byte.
  ghost function PrefixRun(mem: Memory, pc: word): (k: nat)
    requires HasOpcode(mem)
    ensures IsPrefixRun(mem, pc, k)
  {
    PrefixRunExists(mem, pc);
    var k: nat :| IsPrefixRun(mem, pc, k);
    k
  }

  lemma PrefixRunExists(mem: Memory, pc: word)
    requires HasOpcode(mem)
    ensures exists k: nat :: IsPrefixRun(mem, pc, k)
  {
    var a: word :| !IsPrefix(mem[a]);
    var k: nat := 0;
    while IsPrefix(Ahead(mem, pc, k))
      invariant k <= (a - pc) % 0x1_0000
      invariant forall j: nat :: j < k ==> IsPrefix(Ahead(mem, pc, j))
      decreases 0x1_0000 - k
    {
      assert Word(pc + (a - pc) % 0x1_0000) == a;
      k := k + 1;
    }
    assert IsPrefixRun(mem, pc, k);
  }

  // Past a prefix the run is one shorter.
  lemma PrefixRunStep(mem: Memory, pc: word)
    requires HasOpcode(mem)
    ensures IsPrefix(mem[pc]) ==> PrefixRun(mem, pc) == PrefixRun(mem, Word(pc + 1)) + 1
    ensures !IsPrefix(mem[pc]) ==> PrefixRun(mem, pc) == 0
  {
    var k, n := PrefixRun(mem, pc), PrefixRun(mem, Word(pc + 1));
    assert mem[pc] == Ahead(mem, pc, 0);
    if IsPrefix(mem[pc]) {
      assert Ahead(mem, Word(pc + 1), n) == Ahead(mem, pc, n + 1);
      assert Ahead(mem, Word(pc + 1), k - 1) == Ahead(mem, pc, k);
    }
  }

  // The instruction named by op once the index prefix in force is m.
  function Indexed(host: Host, m: Mode, s: State, op: byte): State
    requires !IsPrefix(op) && !m.HL?
  {
    if op == 0xCB then IndexBitPage(host, m, s)
    else if op == 0xED then ExtendedPage(host, Fetch(host, s), s.mem[s.r.pc])
    else Plain(host, m, s, op)
  }

  // After a DD or FD: the last prefix of the run decides the mode.
  ghost function PrefixChain(host: Host, m: Mode, s: State): State
    requires HasOpcode(s.mem) && !m.HL?
    decreases PrefixRun(s.mem, s.r.pc)
  {
    PrefixRunStep(s.mem, s.r.pc);
    var op := s.mem[s.r.pc];
    var s1 := Fetch(host, s);
    if op == 0xDD then PrefixChain(host, IX, s1)
    else if op == 0xFD then PrefixChain(host, IY, s1)
    else Indexed(host, m, s1, op)
  }

  // One more byte of the chain.
  lemma ChainOpens(host: Host, m: Mode, s: State)
    requires HasOpcode(s.mem) && !m.HL?
    ensures var op := s.mem[s.r.pc];
      PrefixChain(host, m, s) ==
        if op == 0xDD then PrefixChain(host, IX, Fetch(host, s))
        else if op == 0xFD then PrefixChain(host, IY, Fetch(host, s))
        else Indexed(host, m, Fetch(host, s), op)
  {
    hide Machine.Fetch, HasOpcode, Indexed;
  }

  // An instruction whose first byte op has been fetched.  A prefix breaks the flag history.
  ghost function Instruction(host: Host, s: State, op: byte): State
    requires HasOpcode(s.mem) || !IsPrefix(op)
  {
    if op == 0xCB then BitPage(host, Fetch(host, s), s.mem[s.r.pc])
    else if op == 0xED then ExtendedPage(host, Fetch(host, s), s.mem[s.r.pc])
    else if op == 0xDD then PrefixChain(host, IX, s.(r := s.r.(q := NO_FLAGS)))
    else if op == 0xFD then PrefixChain(host, IY, s.(r := s.r.(q := NO_FLAGS)))
    else Plain(host, HL, s, op)
  }
}
