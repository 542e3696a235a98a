/**
 What a DD or FD prefix means: the same instruction with IX or IY in the place of HL, a run of
 prefixes as its last one, and the DDCB / FDCB page as the (HL) forms of the CB page.
 */
module IndexPrefix {
  import opened Words
  import opened Registers
  import opened Machine
  import opened Isa
  import opened Stepping
  import opened Interrupts

  // ---- Conjugation ----

  // HL and the index register exchanged.
  function Swap(m: Mode, r: Registers): Registers {
    SetIndex(m, r.(h := Hi(GetIndex(m, r)), l := Lo(GetIndex(m, r))), r.Hl())
  }

  function Swapped(m: Mode, s: State): State { s.(r := Swap(m, s.r)) }

  lemma SwapTwice(m: Mode, r: Registers)
    requires !m.HL?
    ensures Swap(m, Swap(m, r)) == r
  {
    hide Hi, Lo, Pair;
    SplitWord(GetIndex(m, r));
    JoinBytes(r.h, r.l);
    match m
    case IX =>
    case IY =>
  }

  // The opcodes a prefix rewrites by plain substitution: not the prefixes themselves, nor EXX
  // and EX DE,HL, which keep HL, nor those with a memory operand, which take a displacement.
  predicate Substitutes(op: byte) {
    && IsPlain(op) && op != 0xD9 && op != 0xEB
    && op != 0x34 && op != 0x35 && op != 0x36
    && (0x40 <= op < 0x80 && op != 0x76 ==> op % 8 != 6 && op / 8 % 8 != 6)
    && (0x80 <= op < 0xC0 ==> op % 8 != 6)
  }

  // Operands of the exchanged machine are the operands of the prefixed one.
  lemma SwapGets(m: Mode, r: Registers, k: nat, p: nat)
    requires !m.HL? && k < 8 && k != 6 && p < 4
    ensures GetIndex(HL, Swap(m, r)) == GetIndex(m, r)
    ensures GetReg(HL, Swap(m, r), k) == GetReg(m, r, k)
    ensures GetPair(HL, Swap(m, r), p) == GetPair(m, r, p)
    ensures GetStackPair(HL, Swap(m, r), p) == GetStackPair(m, r, p)
  {
    hide Hi, Lo, Pair;
    SplitWord(GetIndex(m, r));
  }

  lemma SwapSetsReg(m: Mode, r: Registers, k: nat, v: byte)
    requires !m.HL? && k < 8 && k != 6
    ensures SetReg(HL, Swap(m, r), k, v) == Swap(m, SetReg(m, r, k, v))
  {
    if k == 4 || k == 5 {
      SwapSetsHalf(m, r, k, v);
    } else {
      SwapSetsWhole(m, r, k, v);
    }
  }

  lemma SwapSetsHalf(m: Mode, r: Registers, k: nat, v: byte)
    requires !m.HL? && (k == 4 || k == 5)
    ensures SetReg(HL, Swap(m, r), k, v) == Swap(m, SetReg(m, r, k, v))
  {
    hide Hi, Lo, Pair;
    match m
    case IX => SwapSetsHalfIx(r, k, v);
    case IY => SwapSetsHalfIy(r, k, v);
  }

  lemma SwapSetsHalfIx(r: Registers, k: nat, v: byte)
    requires k == 4 || k == 5
    ensures SetReg(HL, Swap(IX, r), k, v) == Swap(IX, SetReg(IX, r, k, v))
  {
    hide Hi, Lo, Pair;
    JoinBytes(v, Lo(r.ix));
    JoinBytes(Hi(r.ix), v);
  }

  lemma SwapSetsHalfIy(r: Registers, k: nat, v: byte)
    requires k == 4 || k == 5
    ensures SetReg(HL, Swap(IY, r), k, v) == Swap(IY, SetReg(IY, r, k, v))
  {
    hide Hi, Lo, Pair;
    JoinBytes(v, Lo(r.iy));
    JoinBytes(Hi(r.iy), v);
  }

  lemma SwapSetsWhole(m: Mode, r: Registers, k: nat, v: byte)
    requires !m.HL? && (k < 4 || k == 7)
    ensures SetReg(HL, Swap(m, r), k, v) == Swap(m, SetReg(m, r, k, v))
  {
    hide Hi, Lo, Pair;
    match k
    case 0 =>
    case 1 =>
    case 2 =>
    case 3 =>
    case _ =>
  }

  lemma SwapSetsIndex(m: Mode, r: Registers, w: word)
    requires !m.HL?
    ensures SetIndex(HL, Swap(m, r), w) == Swap(m, SetIndex(m, r, w))
  {
    hide Hi, Lo, Pair;
    match m
    case IX =>
    case IY =>
  }

  lemma SwapSetsPair(m: Mode, r: Registers, p: nat, w: word)
    requires !m.HL? && p < 4
    ensures SetPair(HL, Swap(m, r), p, w) == Swap(m, SetPair(m, r, p, w))
  {
    hide Hi, Lo, Pair;
    match p
    case 0 =>
    case 1 =>
    case 2 => SwapSetsIndex(m, r, w);
    case _ =>
  }

  lemma SwapSetsStackPair(m: Mode, r: Registers, p: nat, w: word)
    requires !m.HL? && p < 4
    ensures SetStackPair(HL, Swap(m, r), p, w) == Swap(m, SetStackPair(m, r, p, w))
  {
    hide Hi, Lo, Pair, FlagsOf, SetPair, Swap;
    SwapSetsPair(m, r, p, w);
    SwapA(m, r, Hi(w), FlagsOf(Lo(w)));
  }

  // ---- Bus accesses are blind to the registers, but for address and value ----

  // What a bus access sees and moves.
  datatype Clock = Clock(log: seq<Event>, cycles: nat, spent: nat)

  ghost function ClockOf(s: State): Clock { Clock(s.log, s.cycles, s.spent) }

  // A state with nothing but a memory and a clock.
  ghost function Bare(mem: Memory, k: Clock): State {
    State(RESET_REGISTERS, false, mem, k.log, k.cycles, k.spent, Lines(false, false, false, false))
  }

  ghost function Timed(s: State, k: Clock): State { s.(log := k.log, cycles := k.cycles, spent := k.spent) }

  ghost function IdleClock(host: Host, mem: Memory, k: Clock, a: word, t: nat): Clock {
    ClockOf(Idle(host, Bare(mem, k), a, t))
  }

  ghost function ReadClock(host: Host, mem: Memory, k: Clock, a: word): Clock { ClockOf(Read(host, Bare(mem, k), a)) }

  ghost function WriteClock(host: Host, mem: Memory, k: Clock, a: word, v: byte): Clock {
    ClockOf(Write(host, Bare(mem, k), a, v))
  }

  ghost function InClock(host: Host, mem: Memory, k: Clock, port: word): Clock { ClockOf(In(host, Bare(mem, k), port)) }

  ghost function InByte(host: Host, mem: Memory, k: Clock, port: word): byte { InValue(host, Bare(mem, k), port) }

  ghost function OutClock(host: Host, mem: Memory, k: Clock, port: word, v: byte): Clock {
    ClockOf(Out(host, Bare(mem, k), port, v))
  }

  lemma {:induction false} IdleBlind(host: Host, s: State, u: State, a: word, t: nat)
    requires ClockOf(s) == ClockOf(u)
    ensures ClockOf(Idle(host, s, a, t)) == ClockOf(Idle(host, u, a, t))
    decreases t
  {
    if t > 0 {
      IdleBlind(host, MachineCycle(host, s, a, 1), MachineCycle(host, u, a, 1), a, t - 1);
    }
  }

  lemma BusBlind(host: Host)
    ensures forall s: State, a: word, t: nat ::
      Idle(host, s, a, t) == Timed(s, IdleClock(host, s.mem, ClockOf(s), a, t))
    ensures forall s: State, a: word ::
      Read(host, s, a) == Timed(s, ReadClock(host, s.mem, ClockOf(s), a))
    ensures forall s: State, a: word, v: byte ::
      Write(host, s, a, v) == Timed(s, WriteClock(host, s.mem, ClockOf(s), a, v)).(mem := s.mem[a := v])
    ensures forall s: State, port: word ::
      In(host, s, port) == Timed(s, InClock(host, s.mem, ClockOf(s), port))
    ensures forall s: State, port: word ::
      InValue(host, s, port) == InByte(host, s.mem, ClockOf(s), port)
    ensures forall s: State, port: word, v: byte ::
      Out(host, s, port, v) == Timed(s, OutClock(host, s.mem, ClockOf(s), port, v))
  {
    forall s: State, a: word, t: nat
      ensures Idle(host, s, a, t) == Timed(s, IdleClock(host, s.mem, ClockOf(s), a, t))
    {
      IdleBlind(host, s, Bare(s.mem, ClockOf(s)), a, t);
    }
  }

  // ---- The instructions, by block ----

  lemma BranchSwaps(host: Host, m: Mode, s: State, d: byte)
    requires !m.HL?
    ensures Branch(host, Swapped(m, s), d) == Swapped(m, Branch(host, s, d))
  {
    hide Machine.Idle, Machine.Read, Machine.Write, Machine.In, Machine.InValue, Machine.Out, IdleClock, ReadClock,
      WriteClock, InClock, InByte, OutClock, Word, Byte, Hi, Lo, Pair, Signed8;
    BusBlind(host);
  }

  lemma SwapB(m: Mode, r: Registers, b: byte)
    ensures Swap(m, r.(b := b)) == Swap(m, r).(b := b) && Swap(m, r).b == r.b
  {
    hide Hi, Lo, Pair;
    match m
    case HL =>
    case IX =>
    case IY =>
  }

  lemma DjnzSwaps(host: Host, m: Mode, s: State)
    requires !m.HL?
    ensures Djnz(host, Swapped(m, s)) == Swapped(m, Djnz(host, s))
  {
    hide Swap, Machine.Idle, Machine.Imm, Machine.ImmValue, Byte, Branch, Pair;
    var s1 := Idle(host, s, s.r.Ir(), 1);
    var s2 := Imm(host, s1);
    SwapSp(m, s.r, 0);
    IdleSwaps(host, m, s, s.r.Ir(), 1);
    ImmSwaps(host, m, s1);
    SwapB(m, s.r, s.r.b);
    SwapB(m, s2.r, Byte(s.r.b - 1));
    BranchSwaps(host, m, s2.(r := s2.r.(b := Byte(s.r.b - 1))), ImmValue(s1));
  }

  lemma JumpSwaps(host: Host, m: Mode, s: State, taken: bool)
    requires !m.HL?
    ensures RelativeJump(host, Swapped(m, s), taken) == Swapped(m, RelativeJump(host, s, taken))
  {
    hide Machine.Idle, Machine.Read, Machine.Write, Machine.In, Machine.InValue, Machine.Out, IdleClock, ReadClock,
      WriteClock, InClock, InByte, OutClock, Word, Byte, Hi, Lo, Pair, Signed8;
    BusBlind(host);
  }

  lemma RelativeSwaps(host: Host, m: Mode, s: State, y: nat)
    requires !m.HL? && y < 8
    ensures Relative(host, Swapped(m, s), y) == Swapped(m, Relative(host, s, y))
  {
    hide Djnz, RelativeJump, Hi, Lo, Pair;
    DjnzSwaps(host, m, s);
    JumpSwaps(host, m, s, true);
    if y >= 4 {
      JumpSwaps(host, m, s, Condition(s.r.f, y - 4));
    }
  }

  lemma LoadPairSwaps(host: Host, m: Mode, s: State, p: nat)
    requires !m.HL? && p < 4
    ensures LoadPair(host, HL, Swapped(m, s), p) == Swapped(m, LoadPair(host, m, s, p))
  {
    hide Machine.Idle, Machine.Read, Machine.Write, Machine.In, Machine.InValue, Machine.Out, IdleClock, ReadClock,
      WriteClock, InClock, InByte, OutClock, Word, Byte, Hi, Lo, Pair, SetPair;
    BusBlind(host);
    SwapSetsPair(m, Imm16(host, s).r, p, Imm16Value(s));
  }

  lemma StepPairSwaps(host: Host, m: Mode, s: State, p: nat, delta: int)
    requires !m.HL? && p < 4
    ensures StepPair(host, HL, Swapped(m, s), p, delta) == Swapped(m, StepPair(host, m, s, p, delta))
  {
    hide Machine.Idle, Machine.Read, Machine.Write, Machine.In, Machine.InValue, Machine.Out, IdleClock, ReadClock,
      WriteClock, InClock, InByte, OutClock, Word, Byte, Hi, Lo, Pair, GetPair, SetPair;
    BusBlind(host);
    SwapGets(m, s.r, 0, p);
    SwapSetsPair(m, s.r, p, Word(GetPair(m, s.r, p) + delta));
  }

  lemma AddPairSwaps(host: Host, m: Mode, s: State, p: nat)
    requires !m.HL? && p < 4
    ensures AddPair(host, HL, Swapped(m, s), p) == Swapped(m, AddPair(host, m, s, p))
  {
    hide Machine.Idle, Machine.Read, Machine.Write, Machine.In, Machine.InValue, Machine.Out, IdleClock, ReadClock,
      WriteClock, InClock, InByte, OutClock, Word, Byte, Hi, Lo, Pair, GetPair, GetIndex, SetIndex, Alu.Add16Flags;
    BusBlind(host);
    SwapGets(m, s.r, 0, p);
    var a: int, v: int := GetIndex(m, s.r), GetPair(m, s.r, p);
    var r := s.r.(f := Alu.Add16Flags(GetIndex(m, s.r), GetPair(m, s.r, p), s.r.f), wz := Word(a + 1));
    SwapSetsIndex(m, r, Word(a + v));
    SwapSetter(m, s.r, r.f, r.wz);
    SwapApart(m, s.r);
  }

  // The exchange touches four registers only.
  lemma SwapApart(m: Mode, r: Registers)
    ensures var x := Swap(m, r); x == r.(h := x.h, l := x.l, ix := x.ix, iy := x.iy)
  {
    hide Hi, Lo, Pair;
    match m
    case HL =>
    case IX =>
    case IY =>
  }

  lemma SwapSetter(m: Mode, r: Registers, f: Flags, wz: word)
    ensures Swap(m, r.(f := f, wz := wz)) == Swap(m, r).(f := f, wz := wz)
  {
    hide Hi, Lo, Pair;
    match m
    case HL =>
    case IX =>
    case IY =>
  }

  lemma MoveASwaps(host: Host, m: Mode, s: State, a: word)
    requires !m.HL?
    ensures StoreA(host, Swapped(m, s), a) == Swapped(m, StoreA(host, s, a))
    ensures LoadA(host, Swapped(m, s), a) == Swapped(m, LoadA(host, s, a))
  {
    hide Machine.Idle, Machine.Read, Machine.Write, Machine.In, Machine.InValue, Machine.Out, IdleClock, ReadClock,
      WriteClock, InClock, InByte, OutClock, Word, Byte, Hi, Lo, Pair;
    BusBlind(host);
  }

  lemma StorePairSwaps(host: Host, m: Mode, s: State, w: word)
    requires !m.HL?
    ensures StorePair(host, Swapped(m, s), w) == Swapped(m, StorePair(host, s, w))
  {
    hide Machine.Idle, Machine.Read, Machine.Write, Machine.In, Machine.InValue, Machine.Out, IdleClock, ReadClock,
      WriteClock, InClock, InByte, OutClock, Word, Byte, Hi, Lo, Pair;
    BusBlind(host);
  }

  lemma AtPairSwaps(host: Host, m: Mode, s: State)
    requires !m.HL?
    ensures AtPair(host, Swapped(m, s)) == Swapped(m, AtPair(host, s))
  {
    hide Machine.Idle, Machine.Read, Machine.Write, Machine.In, Machine.InValue, Machine.Out, IdleClock, ReadClock,
      WriteClock, InClock, InByte, OutClock, Word, Byte, Hi, Lo, Pair;
    BusBlind(host);
  }

  lemma Imm16Swaps(host: Host, m: Mode, s: State)
    requires !m.HL?
    ensures Imm16(host, Swapped(m, s)) == Swapped(m, Imm16(host, s))
    ensures Imm16Value(Swapped(m, s)) == Imm16Value(s)
  {
    hide Machine.Idle, Machine.Read, Machine.Write, Machine.In, Machine.InValue, Machine.Out, IdleClock, ReadClock,
      WriteClock, InClock, InByte, OutClock, Word, Byte, Hi, Lo, Pair;
    BusBlind(host);
  }

  lemma ImmSwaps(host: Host, m: Mode, s: State)
    requires !m.HL?
    ensures Imm(host, Swapped(m, s)) == Swapped(m, Imm(host, s))
    ensures ImmValue(Swapped(m, s)) == ImmValue(s)
  {
    hide Machine.Idle, Machine.Read, Machine.Write, Machine.In, Machine.InValue, Machine.Out, IdleClock, ReadClock,
      WriteClock, InClock, InByte, OutClock, Word, Byte, Hi, Lo, Pair;
    BusBlind(host);
  }

  lemma IndirectSwaps(host: Host, m: Mode, s: State, y: nat)
    requires !m.HL? && y < 8
    ensures Indirect(host, HL, Swapped(m, s), y) == Swapped(m, Indirect(host, m, s, y))
  {
    hide StoreA, LoadA, StorePair, AtPair, Machine.Imm16, Machine.Imm16Value, SetIndex, Hi, Lo, Pair, WordAt;
    SwapApart(m, s.r);
    SwapApart(m, Imm16(host, s).r);
    if y < 4 {
      MoveASwaps(host, m, s, if y < 2 then s.r.Bc() else s.r.De());
    } else if y < 6 {
      IndirectIndexSwaps(host, m, s, y);
    } else {
      Imm16Swaps(host, m, s);
      MoveASwaps(host, m, Imm16(host, s), Imm16Value(s));
    }
  }

  lemma IndirectIndexSwaps(host: Host, m: Mode, s: State, y: nat)
    requires !m.HL? && 4 <= y < 6
    ensures Indirect(host, HL, Swapped(m, s), y) == Swapped(m, Indirect(host, m, s, y))
  {
    hide StoreA, LoadA, StorePair, AtPair, Machine.Imm16, Machine.Imm16Value, GetIndex, SetIndex, Swap, WordAt;
    SwapGets(m, s.r, 0, 0);
    Imm16Swaps(host, m, s);
    StorePairSwaps(host, m, s, GetIndex(m, s.r));
    AtPairSwaps(host, m, s);
    SwapSetsIndex(m, AtPair(host, s).r, WordAt(s.mem, Imm16Value(s)));
  }

  lemma StepRegSwaps(host: Host, m: Mode, s: State, y: nat, delta: int)
    requires !m.HL? && y < 8 && y != 6
    ensures StepReg(HL, Swapped(m, s), y, delta) == Swapped(m, StepReg(m, s, y, delta))
  {
    hide GetReg, SetReg, StepFlags, Byte, Swap;
    SwapGets(m, s.r, y, 0);
    var v := GetReg(m, s.r, y);
    var f := StepFlags(v, s.r.f, delta);
    SwapFlags(m, s.r, f);
    SwapSetsReg(m, s.r.(f := f), y, Byte(v + delta));
  }

  lemma SwapFlags(m: Mode, r: Registers, f: Flags)
    ensures Swap(m, r.(f := f)) == Swap(m, r).(f := f)
    ensures Swap(m, r).f == r.f && Swap(m, r).a == r.a && Swap(m, r).q == r.q
  {
    hide Hi, Lo, Pair;
    match m
    case HL =>
    case IX =>
    case IY =>
  }

  lemma LoadImmSwaps(host: Host, m: Mode, s: State, y: nat)
    requires !m.HL? && y < 8 && y != 6
    ensures LoadImm(host, HL, Swapped(m, s), y) == Swapped(m, LoadImm(host, m, s, y))
  {
    hide SetReg, Machine.Imm, Machine.ImmValue, Swap;
    ImmSwaps(host, m, s);
    SwapSetsReg(m, Imm(host, s).r, y, ImmValue(s));
  }

  lemma SwapA(m: Mode, r: Registers, a: byte, f: Flags)
    ensures Swap(m, r.(a := a, f := f)) == Swap(m, r).(a := a, f := f)
  {
    hide Hi, Lo, Pair;
    match m
    case HL =>
    case IX =>
    case IY =>
  }

  lemma WithASwaps(m: Mode, s: State, a: byte, f: Flags)
    ensures WithA(Swapped(m, s), a, f) == Swapped(m, WithA(s, a, f))
    ensures WithFlags(Swapped(m, s), f) == Swapped(m, WithFlags(s, f))
  {
    hide Swap;
    SwapA(m, s.r, a, f);
    SwapFlags(m, s.r, f);
  }

  lemma AccumulatorSwaps(m: Mode, s: State, y: nat)
    requires !m.HL? && y < 8
    ensures AccumulatorOp(Swapped(m, s), y) == Swapped(m, AccumulatorOp(s, y))
  {
    hide WithA, WithFlags, Swap, Alu.Rotate, Alu.RotateAFlags, Alu.DaaResult, Alu.DaaFlags, Alu.CplFlags,
      Alu.ScfFlags, Alu.CcfFlags;
    var a, f, q := s.r.a, s.r.f, s.r.q;
    SwapFlags(m, s.r, f);
    match y
    case 4 => WithASwaps(m, s, Alu.DaaResult(a, f), Alu.DaaFlags(a, f));
    case 5 => WithASwaps(m, s, 0xFF - a, Alu.CplFlags(a, f));
    case 6 => WithASwaps(m, s, a, Alu.ScfFlags(a, f, q));
    case 7 => WithASwaps(m, s, a, Alu.CcfFlags(a, f, q));
    case k => WithASwaps(m, s, Alu.Rotate(k, a, f.c), Alu.RotateAFlags(k, a, f));
  }

  lemma AccumulateSwaps(m: Mode, s: State, k: nat, v: byte)
    requires !m.HL? && k < 8
    ensures Accumulate(Swapped(m, s), k, v) == Swapped(m, Accumulate(s, k, v))
  {
    hide WithA, WithFlags, Swap, And, Or, Xor, Alu.AddResult, Alu.AddFlags, Alu.SubResult, Alu.SubFlags,
      Alu.CpFlags, Alu.AndFlags, Alu.Sz53p;
    var a, f := s.r.a, s.r.f;
    SwapFlags(m, s.r, f);
    match k
    case 0 => WithASwaps(m, s, Alu.AddResult(a, v, false), Alu.AddFlags(a, v, false));
    case 1 => WithASwaps(m, s, Alu.AddResult(a, v, f.c), Alu.AddFlags(a, v, f.c));
    case 2 => WithASwaps(m, s, Alu.SubResult(a, v, false), Alu.SubFlags(a, v, false));
    case 3 => WithASwaps(m, s, Alu.SubResult(a, v, f.c), Alu.SubFlags(a, v, f.c));
    case 4 => WithASwaps(m, s, And(a, v), Alu.AndFlags(And(a, v)));
    case 5 => WithASwaps(m, s, Xor(a, v), Alu.Sz53p(Xor(a, v)));
    case 6 => WithASwaps(m, s, Or(a, v), Alu.Sz53p(Or(a, v)));
    case _ => WithASwaps(m, s, a, Alu.CpFlags(a, v));
  }

  lemma Block0Swaps(host: Host, m: Mode, s: State, op: byte)
    requires !m.HL? && op < 0x40 && Substitutes(op)
    ensures Block0(host, HL, Swapped(m, s), op) == Swapped(m, Block0(host, m, s, op))
  {
    hide Swapped, Relative, LoadPair, AddPair, Indirect, StepPair, StepReg, LoadImm, AccumulatorOp;
    var y, z := op / 8, op % 8;
    assert op == 8 * y + z;
    match z
    case 0 => RelativeSwaps(host, m, s, y);
    case 1 => LoadPairSwaps(host, m, s, y / 2); AddPairSwaps(host, m, s, y / 2);
    case 2 => IndirectSwaps(host, m, s, y);
    case 3 => StepPairSwaps(host, m, s, y / 2, if y % 2 == 0 then 1 else -1);
    case 4 => StepRegSwaps(host, m, s, y, 1);
    case 5 => StepRegSwaps(host, m, s, y, -1);
    case 6 => LoadImmSwaps(host, m, s, y);
    case _ => AccumulatorSwaps(m, s, y);
  }

  lemma Block1Swaps(host: Host, m: Mode, s: State, op: byte)
    requires !m.HL? && 0x40 <= op < 0x80 && Substitutes(op)
    ensures Block1(host, HL, Swapped(m, s), op) == Swapped(m, Block1(host, m, s, op))
  {
    hide GetReg, SetReg, AtOperand, OperandAddress, Word, Hi, Lo, Pair;
    if op != 0x76 {
      var y, z := op / 8 % 8, op % 8;
      SwapGets(m, s.r, z, 0);
      SwapSetsReg(m, s.r, y, GetReg(m, s.r, z));
    }
  }

  lemma Block2Swaps(host: Host, m: Mode, s: State, op: byte)
    requires !m.HL? && 0x80 <= op < 0xC0 && Substitutes(op)
    ensures Block2(host, HL, Swapped(m, s), op) == Swapped(m, Block2(host, m, s, op))
  {
    hide Swap, GetReg, Accumulate, AtOperand, OperandAddress;
    SwapGets(m, s.r, op % 8, 0);
    AccumulateSwaps(m, s, op / 8 % 8, GetReg(m, s.r, op % 8));
  }

  lemma ReturnSwaps(host: Host, m: Mode, s: State)
    requires !m.HL?
    ensures Return(host, Swapped(m, s)) == Swapped(m, Return(host, s))
  {
    hide Machine.Idle, Machine.Read, Machine.Write, Machine.In, Machine.InValue, Machine.Out, IdleClock, ReadClock,
      WriteClock, InClock, InByte, OutClock, Word, Byte, Hi, Lo, Pair;
    BusBlind(host);
  }

  lemma ReturnIfSwaps(host: Host, m: Mode, s: State, taken: bool)
    requires !m.HL?
    ensures ReturnIf(host, Swapped(m, s), taken) == Swapped(m, ReturnIf(host, s, taken))
  {
    hide Machine.Idle, Machine.Read, Machine.Write, Machine.In, Machine.InValue, Machine.Out, IdleClock, ReadClock,
      WriteClock, InClock, InByte, OutClock, Word, Byte, Hi, Lo, Pair, Return;
    BusBlind(host);
    ReturnSwaps(host, m, Idle(host, s, s.r.Ir(), 1));
  }

  lemma JumpIfSwaps(host: Host, m: Mode, s: State, taken: bool)
    requires !m.HL?
    ensures JumpIf(host, Swapped(m, s), taken) == Swapped(m, JumpIf(host, s, taken))
  {
    hide Machine.Idle, Machine.Read, Machine.Write, Machine.In, Machine.InValue, Machine.Out, IdleClock, ReadClock,
      WriteClock, InClock, InByte, OutClock, Word, Byte, Hi, Lo, Pair;
    BusBlind(host);
  }

  lemma PushSwaps(host: Host, m: Mode, s: State, w: word)
    requires !m.HL?
    ensures Push(host, Swapped(m, s), w) == Swapped(m, Push(host, s, w))
  {
    hide Machine.Idle, Machine.Read, Machine.Write, Machine.In, Machine.InValue, Machine.Out, IdleClock, ReadClock,
      WriteClock, InClock, InByte, OutClock, Word, Byte, Hi, Lo, Pair;
    BusBlind(host);
  }

  lemma CallSwaps(host: Host, m: Mode, s: State, taken: bool)
    requires !m.HL?
    ensures CallIf(host, Swapped(m, s), taken) == Swapped(m, CallIf(host, s, taken))
  {
    hide Swap, Machine.Imm16, Machine.Imm16Value, Machine.Idle, Machine.Push, Word;
    Imm16Swaps(host, m, s);
    SwapSp(m, Imm16(host, s).r, Imm16Value(s));
    var s1 := SetWz(Imm16(host, s), Imm16Value(s));
    var s2 := Idle(host, s1, Word(s1.r.pc - 1), 1);
    SwapApart(m, s1.r);
    IdleSwaps(host, m, s1, Word(s1.r.pc - 1), 1);
    PushSwaps(host, m, s2, s2.r.pc);
    SwapSp(m, Push(host, s2, s2.r.pc).r, Imm16Value(s));
  }

  lemma IdleSwaps(host: Host, m: Mode, s: State, a: word, t: nat)
    ensures Idle(host, Swapped(m, s), a, t) == Swapped(m, Idle(host, s, a, t))
  {
    hide Machine.Idle, Machine.Read, Machine.Write, Machine.In, Machine.InValue, Machine.Out, IdleClock, ReadClock,
      WriteClock, InClock, InByte, OutClock, Word, Byte, Hi, Lo, Pair, Swap;
    BusBlind(host);
  }

  lemma RestartSwaps(host: Host, m: Mode, s: State, target: word)
    requires !m.HL?
    ensures Restart(host, Swapped(m, s), target) == Swapped(m, Restart(host, s, target))
  {
    hide Machine.Idle, Machine.Read, Machine.Write, Machine.In, Machine.InValue, Machine.Out, IdleClock, ReadClock,
      WriteClock, InClock, InByte, OutClock, Word, Byte, Hi, Lo, Pair, Machine.Push;
    BusBlind(host);
    var s1 := Idle(host, s, s.r.Ir(), 1);
    PushSwaps(host, m, s1, s1.r.pc);
  }

  lemma PushPairSwaps(host: Host, m: Mode, s: State, p: nat)
    requires !m.HL? && p < 4
    ensures PushPair(host, HL, Swapped(m, s), p) == Swapped(m, PushPair(host, m, s, p))
  {
    hide Machine.Idle, Machine.Read, Machine.Write, Machine.In, Machine.InValue, Machine.Out, IdleClock, ReadClock,
      WriteClock, InClock, InByte, OutClock, Word, Byte, Hi, Lo, Pair, Machine.Push, GetStackPair;
    BusBlind(host);
    var s1 := Idle(host, s, s.r.Ir(), 1);
    SwapGets(m, s1.r, 0, p);
    PushSwaps(host, m, s1, GetStackPair(m, s1.r, p));
  }

  lemma PopSwaps(host: Host, m: Mode, s: State)
    requires !m.HL?
    ensures Pop(host, Swapped(m, s)) == Swapped(m, Pop(host, s))
    ensures PopValue(Swapped(m, s)) == PopValue(s)
  {
    hide Machine.Idle, Machine.Read, Machine.Write, Machine.In, Machine.InValue, Machine.Out, IdleClock, ReadClock,
      WriteClock, InClock, InByte, OutClock, Word, Byte, Hi, Lo, Pair;
    BusBlind(host);
  }

  lemma PopPairSwaps(host: Host, m: Mode, s: State, p: nat)
    requires !m.HL? && p < 4
    ensures PopPair(host, HL, Swapped(m, s), p) == Swapped(m, PopPair(host, m, s, p))
  {
    hide Swap, SetStackPair, Machine.Pop, Machine.PopValue;
    PopSwaps(host, m, s);
    SwapSetsStackPair(m, Pop(host, s).r, p, PopValue(s));
  }

  lemma PortSwaps(host: Host, m: Mode, s: State)
    requires !m.HL?
    ensures OutA(host, Swapped(m, s)) == Swapped(m, OutA(host, s))
    ensures InA(host, Swapped(m, s)) == Swapped(m, InA(host, s))
  {
    hide Machine.Idle, Machine.Read, Machine.Write, Machine.In, Machine.InValue, Machine.Out, IdleClock, ReadClock,
      WriteClock, InClock, InByte, OutClock, Word, Byte, Hi, Lo, Pair;
    BusBlind(host);
  }

  lemma LoadSpSwaps(host: Host, m: Mode, s: State)
    requires !m.HL?
    ensures LoadSp(host, HL, Swapped(m, s)) == Swapped(m, LoadSp(host, m, s))
  {
    hide Machine.Idle, Machine.Read, Machine.Write, Machine.In, Machine.InValue, Machine.Out, IdleClock, ReadClock,
      WriteClock, InClock, InByte, OutClock, Word, Byte, Hi, Lo, Pair, GetIndex;
    BusBlind(host);
    SwapGets(m, s.r, 0, 0);
    SwapSp(m, s.r, GetIndex(m, s.r));
  }

  lemma SwapSp(m: Mode, r: Registers, w: word)
    ensures Swap(m, r.(sp := w)) == Swap(m, r).(sp := w) && Swap(m, r.(pc := w)) == Swap(m, r).(pc := w)
    ensures Swap(m, r.(wz := w)) == Swap(m, r).(wz := w)
    ensures Swap(m, r).sp == r.sp && Swap(m, r).i == r.i && Swap(m, r).r == r.r
  {
    hide Hi, Lo, Pair;
    match m
    case HL =>
    case IX =>
    case IY =>
  }

  lemma ExchangeSwaps(host: Host, m: Mode, s: State, w: word)
    requires !m.HL?
    ensures Exchange(host, Swapped(m, s), w) == Swapped(m, Exchange(host, s, w))
  {
    hide Machine.Idle, Machine.Read, Machine.Write, Machine.In, Machine.InValue, Machine.Out, IdleClock, ReadClock,
      WriteClock, InClock, InByte, OutClock, Word, Byte, Hi, Lo, Pair;
    BusBlind(host);
  }

  lemma ExStackSwaps(host: Host, m: Mode, s: State)
    requires !m.HL?
    ensures ExStack(host, HL, Swapped(m, s)) == Swapped(m, ExStack(host, m, s))
  {
    hide Swap, Exchange, GetIndex, SetIndex, WordAt;
    var w := WordAt(s.mem, s.r.sp);
    SwapGets(m, s.r, 0, 0);
    SwapSp(m, s.r, 0);
    ExchangeSwaps(host, m, s, GetIndex(m, s.r));
    SwapSetsIndex(m, Exchange(host, s, GetIndex(m, s.r)).r, w);
    SwapSp(m, SetIndex(m, Exchange(host, s, GetIndex(m, s.r)).r, w), w);
  }

  lemma JumpHlSwaps(m: Mode, s: State)
    requires !m.HL?
    ensures Jump(Swapped(m, s), GetIndex(HL, Swapped(m, s).r)) == Swapped(m, Jump(s, GetIndex(m, s.r)))
  {
    hide Swap, GetIndex;
    SwapGets(m, s.r, 0, 0);
    SwapSp(m, s.r, GetIndex(m, s.r));
  }

  lemma ControlSwaps(m: Mode, s: State, enabled: bool)
    ensures SetInterrupts(Swapped(m, s), enabled) == Swapped(m, SetInterrupts(s, enabled))
  {
    hide Hi, Lo, Pair;
  }

  lemma Block3Swaps(host: Host, m: Mode, s: State, op: byte)
    requires !m.HL? && 0xC0 <= op && Substitutes(op)
    ensures Block3(host, HL, Swapped(m, s), op) == Swapped(m, Block3(host, m, s, op))
  {
    hide Swap, ReturnIf, Return, JumpIf, CallIf, Restart, PushPair, PopPair, Transfer, Miscellany, Accumulate,
      Machine.Imm, Machine.ImmValue;
    var y, z := op / 8 % 8, op % 8;
    assert op == 0xC0 + 8 * y + z;
    SwapFlags(m, s.r, s.r.f);
    match z
    case 0 => ReturnIfSwaps(host, m, s, Condition(s.r.f, y));
    case 1 => PopPairSwaps(host, m, s, y / 2); if y % 2 == 1 && y != 3 { TransferSwaps(host, m, s, y / 2); }
    case 2 => JumpIfSwaps(host, m, s, Condition(s.r.f, y));
    case 3 => MiscellanySwaps(host, m, s, y);
    case 4 => CallSwaps(host, m, s, Condition(s.r.f, y));
    case 5 => PushPairSwaps(host, m, s, y / 2); CallSwaps(host, m, s, true);
    case 6 => ImmSwaps(host, m, s); AccumulateSwaps(m, Imm(host, s), y, ImmValue(s));
    case _ => RestartSwaps(host, m, s, 8 * y);
  }

  lemma TransferSwaps(host: Host, m: Mode, s: State, p: nat)
    requires !m.HL? && p < 4 && p != 1
    ensures Transfer(host, HL, Swapped(m, s), p) == Swapped(m, Transfer(host, m, s, p))
  {
    hide Swapped, Return, LoadSp, Jump, GetIndex;
    ReturnSwaps(host, m, s);
    JumpHlSwaps(m, s);
    LoadSpSwaps(host, m, s);
  }

  lemma MiscellanySwaps(host: Host, m: Mode, s: State, y: nat)
    requires !m.HL? && y < 8 && y != 1 && y != 5
    ensures Miscellany(host, HL, Swapped(m, s), y) == Swapped(m, Miscellany(host, m, s, y))
  {
    hide Swapped, JumpIf, OutA, InA, ExStack, SetInterrupts;
    JumpIfSwaps(host, m, s, true);
    PortSwaps(host, m, s);
    ExStackSwaps(host, m, s);
    ControlSwaps(m, s, y == 7);
  }

  // ---- The prefix theorem ----

  lemma PlainSwaps(host: Host, m: Mode, s: State, op: byte)
    requires !m.HL? && Substitutes(op)
    ensures Plain(host, HL, Swapped(m, s), op) == Swapped(m, Plain(host, m, s, op))
  {
    hide Swapped, Block0, Block1, Block2, Block3;
    if op < 0x40 {
      Block0Swaps(host, m, s, op);
    } else if op < 0x80 {
      Block1Swaps(host, m, s, op);
    } else if op < 0xC0 {
      Block2Swaps(host, m, s, op);
    } else {
      Block3Swaps(host, m, s, op);
    }
  }

  // For every opcode it rewrites, the index decoder does what exchanging HL with the index
  // register, running the unprefixed decoder and exchanging back does: same registers, memory,
  // bus history and time.  s is the state after the opcode fetch.
  lemma PrefixConjugates(host: Host, m: Mode, s: State, op: byte)
    requires !m.HL? && Substitutes(op)
    ensures Indexed(host, m, s, op) == Swapped(m, Instruction(host, Swapped(m, s), op))
  {
    hide Plain, Swap, HasOpcode;
    PlainSwaps(host, m, s, op);
    SwapTwice(m, Plain(host, m, s, op).r);
  }

  function ModeOf(prefix: byte): Mode { if prefix == 0xDD then IX else IY }

  // EX DE,HL, EXX and the ED page ignore the prefix.
  lemma PrefixIgnored(host: Host, m: Mode, s: State, op: byte)
    requires !m.HL? && op in {0xEB, 0xD9, 0xED}
    ensures Indexed(host, m, s, op) == Instruction(host, s, op)
  {
    hide ExtendedPage, Machine.Fetch, HasOpcode, BitPage, IndexBitPage, PrefixChain, Block0, Block1, Block2,
      ReturnIf, Return, JumpIf, CallIf, Restart, PushPair, PopPair, OutA, InA, ExStack, LoadSp, SetInterrupts,
      Accumulate, Machine.Imm, Machine.ImmValue;
  }

  // A step on prefix and opcode, the Q latch cleared in between: both bytes have been fetched
  // in eight T-states, four more than the opcode alone takes, when the exchange begins.
  lemma PrefixedStep(host: Host, s: State)
    requires Executes(s) && IsPrefix(s.mem[s.r.pc]) && Substitutes(s.mem[Word(s.r.pc + 1)])
    ensures var m, op := ModeOf(s.mem[s.r.pc]), s.mem[Word(s.r.pc + 1)];
      var s1 := Fetch(host, Ready(s)); var s2 := Fetch(host, s1.(r := s1.r.(q := NO_FLAGS)));
      && Step(host, s) == Latch(Swapped(m, Instruction(host, Swapped(m, s2), op)))
      && s2.spent == Fetch(host, Ready(s)).spent + 4 == 8
  {
    hide Machine.Fetch, Instruction, PrefixChain, Swapped, Substitutes, HasOpcode, Indexed, Step, Word;
    var m, op := ModeOf(s.mem[s.r.pc]), s.mem[Word(s.r.pc + 1)];
    var s1 := Fetch(host, Ready(s));
    var s2 := Fetch(host, s1.(r := s1.r.(q := NO_FLAGS)));
    SubstitutesPlain(op);
    PrefixEnds(s.mem, Word(s.r.pc + 1));
    StepOnPrefix(host, s);
    ChainOpens(host, m, s1.(r := s1.r.(q := NO_FLAGS)));
    PrefixConjugates(host, m, s2, op);
  }

  lemma SubstitutesPlain(op: byte)
    ensures Substitutes(op) ==> IsPlain(op) && !IsPrefix(op)
  {
  }

  lemma PrefixEnds(mem: Memory, a: word)
    ensures !IsPrefix(mem[a]) ==> HasOpcode(mem)
  {
  }

  lemma StepOnPrefix(host: Host, s: State)
    requires Executes(s) && IsPrefix(s.mem[s.r.pc]) && HasOpcode(s.mem)
    ensures var s1 := Fetch(host, Ready(s));
      Step(host, s) == Latch(PrefixChain(host, ModeOf(s.mem[s.r.pc]), s1.(r := s1.r.(q := NO_FLAGS))))
  {
    hide Machine.Fetch, PrefixChain, HasOpcode;
  }

  // ---- Memory operands ----

  // LD r,(HL), LD (HL),r, arithmetic on (HL), INC (HL) and DEC (HL); not the loads and
  // stores of H and L, which follow, nor LD (HL),n, whose displacement overlaps its operand.
  predicate HasOperand(op: byte) {
    || op == 0x34 || op == 0x35
    || (0x40 <= op < 0x80 && op != 0x76 && op % 8 == 6 && op / 8 % 8 !in {4, 5})
    || (0x70 <= op < 0x78 && op % 8 !in {4, 5, 6})
    || (0x80 <= op < 0xC0 && op % 8 == 6)
  }

  function WithHl(s: State, h: byte, l: byte): State { s.(r := s.r.(h := h, l := l)) }

  // A prefixed instruction with a memory operand is the plain one with HL at IX+d, HL restored,
  // after the displacement fetch and five idle T-states.
  lemma OperandRefines(host: Host, m: Mode, s: State, op: byte)
    requires !m.HL? && HasOperand(op)
    ensures var a, s1 := OperandAddress(m, s), AtOperand(host, m, s);
      && s1.spent == s.spent + 8 && s1.r.wz == a
      && Plain(host, m, s, op) == WithHl(Plain(host, HL, WithHl(s1, Hi(a), Lo(a)), op), s.r.h, s.r.l)
  {
    hide OperandAddress, AtOperand, Block0, Block1, Block2, Block3, Hi, Lo, WithHl;
    OperandWz(host, m, s);
    if op < 0x40 {
      StepMemRefines(host, m, s, op);
    } else if op < 0x80 {
      LoadRefines(host, m, s, op);
    } else {
      AccumulateRefines(host, m, s, op);
    }
  }

  // Next to a memory operand H and L stay H and L, so a load restores only the other half ...
  lemma LoadHalfRefines(host: Host, m: Mode, s: State, op: byte)
    requires !m.HL? && (op == 0x66 || op == 0x6E)
    ensures var a, s1 := OperandAddress(m, s), AtOperand(host, m, s);
      var u := Block1(host, HL, WithHl(s1, Hi(a), Lo(a)), op);
      Plain(host, m, s, op) == if op == 0x66 then WithHl(u, u.r.h, s.r.l) else WithHl(u, s.r.h, u.r.l)
  {
    var a, s1 := OperandAddress(m, s), AtOperand(host, m, s);
    hide AtOperand, OperandAddress, Block0, Block2, Block3, Machine.Read, ReadClock, Hi, Lo, Pair;
    AtOperandKeeps(host, m, s);
    SplitWord(a);
    BusBlind(host);
    OperandOfHl(host, WithHl(s1, Hi(a), Lo(a)));
  }

  // ... and a store is the store of B at IX+d with the half in B.
  lemma StoreHalfRefines(host: Host, m: Mode, s: State, op: byte)
    requires !m.HL? && (op == 0x74 || op == 0x75)
    ensures var a, s1 := OperandAddress(m, s), AtOperand(host, m, s);
      var s2 := WithR(s1, s1.r.(b := if op == 0x74 then s.r.h else s.r.l));
      var u := Block1(host, HL, WithHl(s2, Hi(a), Lo(a)), 0x70);
      Plain(host, m, s, op) == WithHl(WithR(u, u.r.(b := s.r.b)), s.r.h, s.r.l)
  {
    var a, s1 := OperandAddress(m, s), AtOperand(host, m, s);
    hide AtOperand, OperandAddress, Block0, Block2, Block3, Machine.Write, WriteClock, Hi, Lo, Pair;
    AtOperandKeeps(host, m, s);
    SplitWord(a);
    BusBlind(host);
    OperandOfHl(host, WithHl(WithR(s1, s1.r.(b := if op == 0x74 then s.r.h else s.r.l)), Hi(a), Lo(a)));
  }

  // LD (IX+d),n has the operand fetched under the displacement's idle states: the effect of
  // LD (HL),n with HL and WZ at IX+d, five T-states longer, its bus cycles apart.
  lemma StoreImmRefines(host: Host, m: Mode, s: State)
    requires !m.HL?
    ensures var a, s1 := OperandAddress(m, s), Imm(host, s);
      var u, v := Plain(host, m, s, 0x36), Plain(host, HL, WithHl(SetWz(s1, a), Hi(a), Lo(a)), 0x36);
      && u == WithHl(v, s.r.h, s.r.l).(log := u.log, cycles := u.cycles, spent := u.spent)
      && u.spent - s.spent == (v.spent - s1.spent) + 5
  {
    hide StoreImm, OperandAddress, Machine.Imm, Hi, Lo, WithHl, Relative, LoadPair, AddPair, Indirect, StepPair,
      StepReg, StepMem, LoadImm, AccumulatorOp;
    StoreImmAt(host, m, s);
  }

  lemma StoreImmAt(host: Host, m: Mode, s: State)
    requires !m.HL?
    ensures var a, s1 := OperandAddress(m, s), Imm(host, s);
      var u, v := StoreImm(host, m, s), StoreImm(host, HL, WithHl(SetWz(s1, a), Hi(a), Lo(a)));
      && u == WithHl(v, s.r.h, s.r.l).(log := u.log, cycles := u.cycles, spent := u.spent)
      && u.spent - s.spent == (v.spent - s1.spent) + 5
  {
    hide OperandAddress, Machine.Imm, Machine.Idle, Machine.Write, Hi, Lo, Pair, Word;
    SplitWord(OperandAddress(m, s));
  }

  lemma OperandWz(host: Host, m: Mode, s: State)
    requires !m.HL?
    ensures AtOperand(host, m, s).r.wz == OperandAddress(m, s)
  {
    hide OperandAddress, Machine.Imm, Word;
  }

  lemma StepMemRefines(host: Host, m: Mode, s: State, op: byte)
    requires !m.HL? && op in {0x34, 0x35}
    ensures var a, s1 := OperandAddress(m, s), AtOperand(host, m, s);
      Block0(host, m, s, op) == WithHl(Block0(host, HL, WithHl(s1, Hi(a), Lo(a)), op), s.r.h, s.r.l)
  {
    hide StepMem, OperandAddress, AtOperand, Hi, Lo, WithHl, Relative, LoadPair, AddPair, Indirect, StepPair,
      StepReg, LoadImm, StoreImm, AccumulatorOp;
    StepMemAt(host, m, s, if op == 0x34 then 1 else -1);
  }

  lemma StepMemAt(host: Host, m: Mode, s: State, delta: int)
    requires !m.HL?
    ensures var a, s1 := OperandAddress(m, s), AtOperand(host, m, s);
      StepMem(host, m, s, delta) == WithHl(StepMem(host, HL, WithHl(s1, Hi(a), Lo(a)), delta), s.r.h, s.r.l)
  {
    var a, s1 := OperandAddress(m, s), AtOperand(host, m, s);
    hide GetIndex, Machine.Imm, Machine.ImmValue, Machine.Idle, Machine.Read, Machine.Write, IdleClock, ReadClock,
      WriteClock, Signed8, Hi, Lo, Pair, StepFlags, Word, Byte;
    AtOperandKeeps(host, m, s);
    SplitWord(a);
    BusBlind(host);
  }

  lemma LoadRefines(host: Host, m: Mode, s: State, op: byte)
    requires !m.HL? && HasOperand(op) && 0x40 <= op < 0x80
    ensures var a, s1 := OperandAddress(m, s), AtOperand(host, m, s);
      Block1(host, m, s, op) == WithHl(Block1(host, HL, WithHl(s1, Hi(a), Lo(a)), op), s.r.h, s.r.l)
  {
    var a, s1 := OperandAddress(m, s), AtOperand(host, m, s);
    hide AtOperand, OperandAddress, Machine.Read, Machine.Write, ReadClock, WriteClock, Hi, Lo, Pair, GetReg, SetReg;
    AtOperandKeeps(host, m, s);
    OperandOfHl(host, WithHl(s1, Hi(a), Lo(a)));
    SplitWord(a);
    BusBlind(host);
    if op % 8 == 6 {
      HalvesApart(Read(host, s1, a).r, op / 8 % 8, s.mem[a], Hi(a), Lo(a));
    } else {
      HalvesApart(s1.r, op % 8, 0, Hi(a), Lo(a));
    }
  }

  lemma OperandOfHl(host: Host, s: State)
    ensures AtOperand(host, HL, s) == s && OperandAddress(HL, s) == s.r.Hl()
  {
  }

  // The other registers are apart from H and L.
  lemma HalvesApart(r: Registers, k: nat, v: byte, h: byte, l: byte)
    requires k < 4 || k == 7
    ensures GetReg(HL, r.(h := h, l := l), k) == GetReg(HL, r, k)
    ensures SetReg(HL, r.(h := h, l := l), k, v) == SetReg(HL, r, k, v).(h := h, l := l)
    ensures SetReg(HL, r, k, v).h == r.h && SetReg(HL, r, k, v).l == r.l
  {
    match k
    case 0 =>
    case 1 =>
    case 2 =>
    case 3 =>
    case _ =>
  }

  lemma AccumulateRefines(host: Host, m: Mode, s: State, op: byte)
    requires !m.HL? && 0x80 <= op < 0xC0 && op % 8 == 6
    ensures var a, s1 := OperandAddress(m, s), AtOperand(host, m, s);
      Block2(host, m, s, op) == WithHl(Block2(host, HL, WithHl(s1, Hi(a), Lo(a)), op), s.r.h, s.r.l)
  {
    var a, s1 := OperandAddress(m, s), AtOperand(host, m, s);
    hide GetIndex, Machine.Imm, Machine.ImmValue, Machine.Idle, Machine.Read, IdleClock, ReadClock, Signed8, Hi, Lo,
      Pair, Word, Byte, Accumulate;
    AtOperandKeeps(host, m, s);
    SplitWord(a);
    BusBlind(host);
    AccumulateApart(Read(host, s1, a), op / 8 % 8, s.mem[a], Hi(a), Lo(a));
  }

  // Accumulator operations ignore H and L.
  lemma AccumulateApart(s: State, k: nat, v: byte, h: byte, l: byte)
    requires k < 8
    ensures Accumulate(WithHl(s, h, l), k, v) == WithHl(Accumulate(s, k, v), h, l)
    ensures Accumulate(s, k, v).r.h == s.r.h && Accumulate(s, k, v).r.l == s.r.l
  {
    hide And, Or, Xor, Alu.AddResult, Alu.AddFlags, Alu.SubResult, Alu.SubFlags, Alu.CpFlags, Alu.AndFlags, Alu.Sz53p;
    match k
    case 0 =>
    case 1 =>
    case 2 =>
    case 3 =>
    case 4 =>
    case 5 =>
    case 6 =>
    case _ =>
  }

  // ---- Runs of prefixes ----

  // k opcode fetches.
  ghost function Fetches(host: Host, s: State, k: nat): State
    decreases k
  {
    if k == 0 then s else Fetches(host, Fetch(host, s), k - 1)
  }

  // They move PC and R, take four T-states each, and touch nothing else.
  lemma {:induction false} FetchesKeep(host: Host, s: State, k: nat)
    ensures var u := Fetches(host, s, k);
      && u == s.(r := s.r.(pc := Word(s.r.pc + k), r := u.r.r),
                 log := u.log, cycles := u.cycles, spent := s.spent + 4 * k)
      && u.r.r == s.r.r / 0x80 * 0x80 + (s.r.r + k) % 0x80
    decreases k
  {
    hide Machine.Fetch, Word;
    if k == 0 {
      Steps(s.r.pc, 0);
      assert s.r.r == s.r.r / 0x80 * 0x80 + s.r.r % 0x80;
    } else {
      FetchesKeep(host, Fetch(host, s), k - 1);
      Steps(s.r.pc, k);
      Increment(s.r.r, k);
    }
  }

  lemma Steps(pc: word, k: nat)
    ensures k == 0 ==> Word(pc + k) == pc
    ensures k > 0 ==> Word(Word(pc + 1) + (k - 1)) == Word(pc + k)
  {
    hide Word;
    WordPlus(pc, 0);
    WordPlus(pc + 1, k - 1);
  }

  lemma Increment(r: byte, k: nat)
    requires k > 0
    ensures var r' := r / 0x80 * 0x80 + (r + 1) % 0x80;
      r' / 0x80 == r / 0x80 && (r' + (k - 1)) % 0x80 == (r + k) % 0x80
  {
    var r' := r / 0x80 * 0x80 + (r + 1) % 0x80;
    assert r' + (k - 1) == r + k || r' + (k - 1) == r + k - 0x80;
  }

  // A run of k more prefixes is the last of them alone, met with PC and R k further on and
  // 4k T-states later.
  lemma {:induction false} PrefixRunCollapses(host: Host, m: Mode, s: State, k: nat)
    requires !m.HL? && HasOpcode(s.mem) && IsPrefixRun(s.mem, s.r.pc, k)
    ensures var last := if k == 0 then m else ModeOf(Ahead(s.mem, s.r.pc, k - 1));
      var u := Fetches(host, s, k);
      && HasOpcode(u.mem)
      && PrefixChain(host, m, s) == PrefixChain(host, last, u)
      && PrefixChain(host, last, u) == Indexed(host, last, Fetch(host, u), Ahead(s.mem, s.r.pc, k))
    decreases k
  {
    hide Machine.Fetch, HasOpcode, Indexed, Word, Ahead, IsPrefixRun;
    FetchesKeep(host, s, k);
    AtOnce(s.mem, s.r.pc, k);
    if k > 0 {
      var s1 := Fetch(host, s);
      RunBehind(s.mem, s.r.pc, k);
      PrefixRunCollapses(host, ModeOf(s.mem[s.r.pc]), s1, k - 1);
    }
  }

  lemma RunBehind(mem: Memory, pc: word, k: nat)
    requires k > 0 && IsPrefixRun(mem, pc, k)
    ensures IsPrefix(mem[pc]) && IsPrefixRun(mem, Word(pc + 1), k - 1)
    ensures Ahead(mem, Word(pc + 1), k - 1) == Ahead(mem, pc, k)
    ensures k > 1 ==> Ahead(mem, Word(pc + 1), k - 2) == Ahead(mem, pc, k - 1)
    ensures Ahead(mem, pc, 0) == mem[pc]
  {
    hide Word, Ahead, IsPrefix;
    AheadHere(mem, pc);
    AheadMoves(mem, pc, k - 1);
    if k > 1 {
      AheadMoves(mem, pc, k - 2);
    }
    forall j: nat {:trigger Ahead(mem, Word(pc + 1), j)} | j < k - 1 ensures IsPrefix(Ahead(mem, Word(pc + 1), j)) {
      AheadMoves(mem, pc, j);
    }
  }

  lemma AheadMoves(mem: Memory, pc: word, j: nat)
    ensures Ahead(mem, Word(pc + 1), j) == Ahead(mem, pc, j + 1)
  {
    hide Word;
    WordNext(pc, j);
  }

  lemma AheadHere(mem: Memory, pc: word)
    ensures Ahead(mem, pc, 0) == mem[pc]
  {
    hide IsPrefix;
  }

  lemma WordNext(x: int, j: nat)
    ensures Word(Word(x + 1) + j) == Word(x + (j + 1))
  {
    hide Word;
    WordPlus(x + 1, j);
    assert x + 1 + j == x + (j + 1);
  }

  lemma AtOnce(mem: Memory, pc: word, k: nat)
    requires IsPrefixRun(mem, pc, k)
    ensures k == 0 ==> !IsPrefix(mem[pc]) && Ahead(mem, pc, k) == mem[pc]
  {
  }

  // The prefix loop ends exactly when memory holds some byte that is not an index prefix.
  lemma PrefixLoopEnds(mem: Memory, pc: word)
    ensures (exists k: nat :: IsPrefixRun(mem, pc, k)) <==> HasOpcode(mem)
  {
    if HasOpcode(mem) {
      PrefixRunExists(mem, pc);
    } else {
      forall k: nat ensures !IsPrefixRun(mem, pc, k) {
        assert IsPrefix(mem[Word(pc + k)]);
      }
    }
  }

  // ---- DDCB and FDCB ----

  // The opcode with its register field set to (HL).
  function MemoryForm(op: byte): byte { op - op % 8 + 6 }

  // The indexed bit operations are the plain ones on (HL), run with HL and WZ at IX+d and HL
  // restored; forms other than BIT also copy the result into the register the field names.
  lemma IndexedBitRefines(host: Host, m: Mode, s: State)
    requires !m.HL?
    ensures var op := s.mem[Word(s.r.pc + 1)]; var a := OperandAddress(m, s);
      var s1 := IndexBitStart(host, m, s);
      var u := BitPage(host, WithHl(s1, Hi(a), Lo(a)), MemoryForm(op));
      var v := WithHl(u, s.r.h, s.r.l);
      && s1.r.wz == a
      && IndexBitPage(host, m, s) ==
           if IsBitTest(op) || op % 8 == 6 then v else WithR(v, SetReg(HL, v.r, op % 8, u.mem[a]))
  {
    hide OperandAddress, IndexBitStart, Machine.Idle, Machine.Read, Machine.Write, Hi, Lo, Pair, BitEffect,
      BitResult, SetReg, GetReg, Word, BitPage, WithHl, IsBitTest, MemoryForm;
    var op := s.mem[Word(s.r.pc + 1)];
    var a := OperandAddress(m, s);
    var s1 := IndexBitStart(host, m, s);
    IndexBitStartKeeps(host, m, s);
    SplitWord(a);
    HlOnly(s1, Hi(a), Lo(a));
    BitPageAt(host, WithHl(s1, Hi(a), Lo(a)), MemoryForm(op), a);
    AccessApart(host, s1, a, Hi(a), Lo(a));
    var at := Idle(host, Read(host, s1, a), a, 1);
    EffectByFields(at, op, s.mem[a], Hi(a), s.r.f.c);
    EffectApart(at, op, s.mem[a], Hi(a), Hi(a), Lo(a));
    var s2 := BitEffect(at, op, s.mem[a], Hi(a));
    var s3 := Write(host, s2, a, BitResult(op, s.mem[a], s.r.f.c));
    WriteApart(host, s2, a, BitResult(op, s.mem[a], s.r.f.c), Hi(a), Lo(a));
    HlBack(s2, Hi(a), Lo(a));
    HlBack(s3, Hi(a), Lo(a));
  }

  lemma HlOnly(s: State, h: byte, l: byte)
    ensures var u := WithHl(s, h, l);
      u.r.Hl() == Pair(h, l) && u.mem == s.mem && u.r.wz == s.r.wz && u.r.f == s.r.f
  {
  }

  lemma HlBack(s: State, h: byte, l: byte)
    ensures WithHl(WithHl(s, h, l), s.r.h, s.r.l) == s
    ensures WithHl(s, h, l).mem == s.mem
  {
  }

  lemma BitPageAt(host: Host, s: State, op: byte, a: word)
    requires s.r.Hl() == a
    ensures MemoryForm(op) == op ==>
      BitPage(host, s, op) ==
        (var s1 := BitEffect(Idle(host, Read(host, s, a), a, 1), op, s.mem[a], Hi(s.r.wz));
         if IsBitTest(op) then s1 else Write(host, s1, a, BitResult(op, s.mem[a], s.r.f.c)))
  {
    hide Machine.Idle, Machine.Read, Machine.Write, BitEffect, BitResult, Hi, IsBitTest;
  }

  lemma AccessApart(host: Host, s: State, a: word, h: byte, l: byte)
    ensures Idle(host, Read(host, WithHl(s, h, l), a), a, 1) == WithHl(Idle(host, Read(host, s, a), a, 1), h, l)
  {
    hide Machine.Idle, Machine.Read, IdleClock, ReadClock;
    BusBlind(host);
  }

  lemma WriteApart(host: Host, s: State, a: word, v: byte, h: byte, l: byte)
    ensures Write(host, WithHl(s, h, l), a, v) == WithHl(Write(host, s, a, v), h, l)
  {
    hide Machine.Write, WriteClock;
    BusBlind(host);
  }

  // The register field plays no part in what a CB opcode does to its operand.
  lemma EffectByFields(s: State, op: byte, v: byte, source: byte, c: bool)
    ensures BitEffect(s, MemoryForm(op), v, source) == BitEffect(s, op, v, source)
    ensures BitResult(MemoryForm(op), v, c) == BitResult(op, v, c)
    ensures IsBitTest(MemoryForm(op)) == IsBitTest(op) && MemoryForm(MemoryForm(op)) == MemoryForm(op)
  {
    hide Alu.RotateFlags, Alu.Rotate, Alu.BitFlags, SetBit, ResetBit;
    FieldOnly(op);
  }

  // Nor do H and L.
  lemma EffectApart(s: State, op: byte, v: byte, source: byte, h: byte, l: byte)
    ensures BitEffect(WithHl(s, h, l), MemoryForm(op), v, source) == WithHl(BitEffect(s, op, v, source), h, l)
    ensures var u := BitEffect(s, op, v, source); u == s.(r := s.r.(f := u.r.f), touched := u.touched)
  {
    hide Alu.RotateFlags, Alu.BitFlags;
    FieldOnly(op);
  }

  lemma FieldOnly(op: byte)
    ensures var q := MemoryForm(op); q % 8 == 6 && q / 0x40 == op / 0x40 && q / 8 == op / 8
  {
  }

  // ---- SCF and CCF behind a prefix ----

  // The prefix has cleared the Q latch, so bits 5 and 3 come from F | A.
  lemma PrefixedCarryOps(host: Host, m: Mode, s: State, k: nat)
    requires !m.HL? && HasOpcode(s.mem) && IsPrefixRun(s.mem, s.r.pc, k)
    requires s.r.q == NO_FLAGS && Ahead(s.mem, s.r.pc, k) in {0x37, 0x3F}
    ensures var f := PrefixChain(host, m, s).r.f;
      && f.y == (s.r.f.y || Bit(s.r.a, 5)) && f.x == (s.r.f.x || Bit(s.r.a, 3))
      && f.c == (Ahead(s.mem, s.r.pc, k) == 0x37 || !s.r.f.c)
  {
    hide HasOpcode, IsPrefixRun, Machine.Fetch, Bit, Fetches, Plain, IndexBitPage, ExtendedPage, PrefixChain, Ahead;
    var last := if k == 0 then m else ModeOf(Ahead(s.mem, s.r.pc, k - 1));
    CarryOps(host, last, Fetch(host, Fetches(host, s, k)));
    PrefixRunCollapses(host, m, s, k);
    FetchesKeep(host, s, k);
  }

  // A step on SCF or CCF behind k + 1 prefixes, whatever the Q latch held before.
  lemma PrefixedCarryStep(host: Host, s: State, k: nat)
    requires Executes(s) && IsPrefix(s.mem[s.r.pc])
    requires IsPrefixRun(s.mem, Word(s.r.pc + 1), k) && Ahead(s.mem, Word(s.r.pc + 1), k) in {0x37, 0x3F}
    ensures var f := Step(host, s).r.f;
      && f.y == (s.r.f.y || Bit(s.r.a, 5)) && f.x == (s.r.f.x || Bit(s.r.a, 3))
      && f.c == (Ahead(s.mem, Word(s.r.pc + 1), k) == 0x37 || !s.r.f.c)
  {
    hide HasOpcode, IsPrefixRun, Machine.Fetch, Bit, PrefixChain, Step, Ahead, Word;
    PrefixLoopEnds(s.mem, Word(s.r.pc + 1));
    StepOnPrefix(host, s);
    var s1 := Fetch(host, Ready(s));
    PrefixedCarryOps(host, ModeOf(s.mem[s.r.pc]), s1.(r := s1.r.(q := NO_FLAGS)), k);
  }
}
