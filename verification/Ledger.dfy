/**
 The time ledger.  The bus history fixes how much time has passed, how much of it the CPU
 charged, when each cycle began and how often memory was refreshed; every instruction and
 every step keeps the counters in agreement with it.
 */
module Ledger {
  import opened Words
  import opened Registers
  import opened Machine
  import opened Isa
  import opened Stepping

  // ---- What a bus history says ----

  function Duration(e: Event): nat { if e.Cycle? then e.duration else 0 }

  function Wait(e: Event): nat { if e.Cycle? then e.wait else 0 }

  // The base T-states of all cycles.
  ghost function Charged(log: seq<Event>): nat {
    if |log| == 0 then 0 else Charged(log[..|log| - 1]) + Duration(log[|log| - 1])
  }

  // Base T-states and waits together.
  ghost function Elapsed(log: seq<Event>): nat {
    if |log| == 0 then 0 else Elapsed(log[..|log| - 1]) + Duration(log[|log| - 1]) + Wait(log[|log| - 1])
  }

  // The wait states alone.
  ghost function Waited(log: seq<Event>): nat {
    if |log| == 0 then 0 else Waited(log[..|log| - 1]) + Wait(log[|log| - 1])
  }

  lemma {:induction false} ElapsedParts(log: seq<Event>)
    ensures Elapsed(log) == Charged(log) + Waited(log)
    decreases |log|
  {
    if |log| > 0 {
      ElapsedParts(log[..|log| - 1]);
    }
  }

  // Each cycle starts when the previous one, with its waits, ended.
  ghost predicate WellTimed(log: seq<Event>, start: int) {
    |log| == 0 ||
    (var before, e := log[..|log| - 1], log[|log| - 1];
     WellTimed(before, start) && (e.Cycle? ==> e.start == start + Elapsed(before)))
  }

  // A refresh follows a memory read of four T-states (opcode fetch or HALT) and happens in an
  // interrupt's own first cycle (five or seven T-states).
  predicate EndsInFetch(log: seq<Event>, e: Event) {
    e.MemRead? && |log| > 0 && log[|log| - 1].Cycle? && log[|log| - 1].duration == 4
  }

  predicate IsService(e: Event) { e.Cycle? && (e.duration == 5 || e.duration == 7) }

  ghost function Refreshes(log: seq<Event>): nat {
    if |log| == 0 then 0 else
      var before, e := log[..|log| - 1], log[|log| - 1];
      Refreshes(before) + if EndsInFetch(before, e) || IsService(e) then 1 else 0
  }

  // ---- What the counters must agree on ----

  datatype Times = Times(offset: int, charge: int, timed: bool)

  ghost function TimesOf(cycles: nat, spent: nat, log: seq<Event>): Times {
    Times(cycles - Elapsed(log), spent - Charged(log), WellTimed(log, cycles - Elapsed(log)))
  }

  // Bit 7 of R, and R's distance from the number of refreshes modulo 128.
  datatype RefreshBook = RefreshBook(bit7: int, lead: int)

  ghost function RefreshOf(r: byte, log: seq<Event>): RefreshBook {
    RefreshBook(r / 0x80, (r - Refreshes(log)) % 0x80)
  }

  // The host never inserts wait states.
  ghost predicate NoWaits(host: Host) { forall log, a, t :: host.wait(log, a, t) == 0 }

  // Nothing is lost between s and u: same time books, and the time that passes is what is
  // charged plus waits.
  ghost predicate Timely(host: Host, s: State, u: State) {
    && TimesOf(u.cycles, u.spent, u.log) == TimesOf(s.cycles, s.spent, s.log)
    && u.spent >= s.spent && u.cycles - u.spent >= s.cycles - s.spent
    && (NoWaits(host) ==> u.cycles - u.spent == s.cycles - s.spent)
  }

  ghost predicate Refreshed(s: State, u: State) { RefreshOf(u.r.r, u.log) == RefreshOf(s.r.r, s.log) }

  // The interrupt control state.
  datatype Control = Control(iff1: bool, iff2: bool, im: byte, eiPending: bool)

  function ControlOf(s: State): Control { Control(s.r.iff1, s.r.iff2, s.r.im, s.r.eiPending) }

  ghost predicate Kept(host: Host, s: State, u: State) {
    Timely(host, s, u) && Refreshed(s, u) && u.lines == s.lines && ControlOf(u) == ControlOf(s)
  }

  // DI and EI are the plain instructions that touch it ...
  function PlainControl(op: byte, c: Control): Control {
    if op == 0xF3 then c.(iff1 := false, iff2 := false)
    else if op == 0xFB then c.(iff1 := true, iff2 := true, eiPending := true)
    else c
  }

  // ... and RETN, RETI and IM the extended ones.
  function ExtendedControl(op: byte, c: Control): Control {
    if 0x40 <= op < 0x80 && op % 8 == 5 then c.(iff1 := c.iff2)
    else if 0x40 <= op < 0x80 && op % 8 == 6 then c.(im := InterruptMode(op / 8 % 8))
    else c
  }

  // ---- One more event ----

  lemma OneMore(log: seq<Event>, e: Event)
    ensures Charged(log + [e]) == Charged(log) + Duration(e)
    ensures Elapsed(log + [e]) == Elapsed(log) + Duration(e) + Wait(e)
    ensures forall start: int {:trigger WellTimed(log + [e], start)} ::
      WellTimed(log + [e], start) == (WellTimed(log, start) && (e.Cycle? ==> e.start == start + Elapsed(log)))
    ensures Refreshes(log + [e]) == Refreshes(log) + if EndsInFetch(log, e) || IsService(e) then 1 else 0
  {
    assert (log + [e])[..|log|] == log;
  }

  lemma CycleKept(host: Host, s: State, a: word, t: nat)
    ensures Timely(host, s, MachineCycle(host, s, a, t))
    ensures t != 5 && t != 7 ==> Refreshed(s, MachineCycle(host, s, a, t))
    ensures t == 5 || t == 7 ==> RefreshOf(IncR(s).r.r, MachineCycle(host, s, a, t).log) == RefreshOf(s.r.r, s.log)
  {
    OneMore(s.log, Cycle(s.cycles, a, t, host.wait(s.log, a, t)));
    Counted(s.r.r, Refreshes(s.log));
  }

  // inc_r() keeps bit 7 and follows the count of refreshes.
  lemma Counted(r: byte, n: nat)
    ensures var r' := r / 0x80 * 0x80 + (r + 1) % 0x80;
      r' / 0x80 == r / 0x80 && (r' - (n + 1)) % 0x80 == (r - n) % 0x80
  {
    var d := (r + 1) % 0x80;
    var r' := r / 0x80 * 0x80 + d;
    assert r' - (n + 1) == r - n + 0x80 * ((r' - (r + 1)) / 0x80);
  }

  lemma {:induction false} IdleKept(host: Host, s: State, a: word, t: nat)
    ensures Kept(host, s, Idle(host, s, a, t))
    decreases t
  {
    if t > 0 {
      CycleKept(host, s, a, 1);
      IdleKept(host, MachineCycle(host, s, a, 1), a, t - 1);
    }
  }

  lemma ReadKept(host: Host, s: State, a: word)
    ensures Kept(host, s, Read(host, s, a))
  {
    CycleKept(host, s, a, 3);
    OneMore(MachineCycle(host, s, a, 3).log, MemRead(a, s.mem[a]));
  }

  lemma WriteKept(host: Host, s: State, a: word, v: byte)
    ensures Kept(host, s, Write(host, s, a, v))
  {
    CycleKept(host, s, a, 3);
    OneMore(MachineCycle(host, s, a, 3).log, MemWrite(a, v));
  }

  lemma FetchKept(host: Host, s: State)
    ensures Kept(host, s, Fetch(host, s))
  {
    var s1 := MachineCycle(host, s, s.r.pc, 4);
    CycleKept(host, s, s.r.pc, 4);
    OneMore(s1.log, MemRead(s.r.pc, s.mem[s.r.pc]));
    Counted(s.r.r, Refreshes(s1.log));
  }

  lemma InKept(host: Host, s: State, port: word)
    ensures Kept(host, s, In(host, s, port))
  {
    var s1 := MachineCycle(host, s, port, 4);
    CycleKept(host, s, port, 4);
    OneMore(s1.log, IoRead(port, host.input(s1.log, port)));
  }

  lemma OutKept(host: Host, s: State, port: word, v: byte)
    ensures Kept(host, s, Out(host, s, port, v))
  {
    CycleKept(host, s, port, 4);
    OneMore(MachineCycle(host, s, port, 4).log, IoWrite(port, v));
  }

  lemma ImmKept(host: Host, s: State)
    ensures Kept(host, s, Imm(host, s)) && Kept(host, s, Imm16(host, s))
  {
    hide NoWaits, TimesOf, RefreshOf, Read;
    ReadKept(host, s, s.r.pc);
    ReadKept(host, Imm(host, s), Imm(host, s).r.pc);
  }

  lemma PushKept(host: Host, s: State, w: word)
    ensures Kept(host, s, Push(host, s, w))
  {
    hide NoWaits, TimesOf, RefreshOf, Write;
    var s1 := s.(r := s.r.(sp := Word(s.r.sp - 1)));
    var s2 := Write(host, s1, s1.r.sp, Hi(w));
    var s3 := s2.(r := s2.r.(sp := Word(s2.r.sp - 1)));
    WriteKept(host, s1, s1.r.sp, Hi(w));
    WriteKept(host, s3, s3.r.sp, Lo(w));
  }

  lemma PopKept(host: Host, s: State)
    ensures Kept(host, s, Pop(host, s))
  {
    hide NoWaits, TimesOf, RefreshOf, Read;
    var s1 := Read(host, s, s.r.sp);
    var s2 := s1.(r := s1.r.(sp := Word(s1.r.sp + 1)));
    ReadKept(host, s, s.r.sp);
    ReadKept(host, s2, s2.r.sp);
  }

  // Every bus access of an instruction keeps the books.
  lemma BusKept(host: Host)
    ensures forall s: State, a: word, t: nat :: Kept(host, s, Idle(host, s, a, t))
    ensures forall s: State, a: word :: Kept(host, s, Read(host, s, a))
    ensures forall s: State, a: word, v: byte :: Kept(host, s, Write(host, s, a, v))
    ensures forall s: State :: Kept(host, s, Imm(host, s)) && Kept(host, s, Imm16(host, s))
    ensures forall s: State, port: word :: Kept(host, s, In(host, s, port))
    ensures forall s: State, port: word, v: byte :: Kept(host, s, Out(host, s, port, v))
    ensures forall s: State, w: word :: Kept(host, s, Push(host, s, w))
    ensures forall s: State :: Kept(host, s, Pop(host, s))
  {
    hide Kept;
    forall s: State, a: word, t: nat { IdleKept(host, s, a, t); }
    forall s: State, a: word { ReadKept(host, s, a); }
    forall s: State, a: word, v: byte { WriteKept(host, s, a, v); }
    forall s: State { ImmKept(host, s); }
    forall s: State, port: word { InKept(host, s, port); }
    forall s: State, port: word, v: byte { OutKept(host, s, port, v); }
    forall s: State, w: word { PushKept(host, s, w); }
    forall s: State { PopKept(host, s); }
  }

  // The registers no operand names.
  datatype Private = Private(r: byte, iff1: bool, iff2: bool, im: byte, eiPending: bool)

  function PrivateOf(r: Registers): Private { Private(r.r, r.iff1, r.iff2, r.im, r.eiPending) }

  lemma OperandsApart()
    ensures forall m: Mode, r: Registers, w: word :: PrivateOf(SetIndex(m, r, w)) == PrivateOf(r)
    ensures forall m: Mode, r: Registers, k: nat, v: byte :: k < 8 && k != 6 ==>
      PrivateOf(SetReg(m, r, k, v)) == PrivateOf(r)
    ensures forall m: Mode, r: Registers, p: nat, w: word :: p < 4 ==> PrivateOf(SetPair(m, r, p, w)) == PrivateOf(r)
    ensures forall m: Mode, r: Registers, p: nat, w: word :: p < 4 ==>
      PrivateOf(SetStackPair(m, r, p, w)) == PrivateOf(r)
  {
    hide Hi, Lo, Pair, FlagsOf;
  }

  // ---- The instructions, by block ----

  lemma RelativeKept(host: Host, s: State, y: nat)
    requires y < 8
    ensures Kept(host, s, Relative(host, s, y)) && Relative(host, s, y).spent <= s.spent + 9
  {
    hide NoWaits, TimesOf, RefreshOf, Machine.Idle, Machine.Read, Machine.Write, Machine.Imm, Machine.Imm16,
      Machine.In, Machine.Out, Machine.Push, Machine.Pop, Word, Byte, Hi, Lo, Pair, Signed8;
    BusKept(host);
  }

  lemma PairsKept(host: Host, m: Mode, s: State, p: nat, delta: int)
    requires p < 4
    ensures Kept(host, s, LoadPair(host, m, s, p)) && Kept(host, s, AddPair(host, m, s, p))
    ensures Kept(host, s, StepPair(host, m, s, p, delta))
  {
    hide NoWaits, TimesOf, RefreshOf, Machine.Idle, Machine.Read, Machine.Write, Machine.Imm, Machine.Imm16,
      Machine.In, Machine.Out, Machine.Push, Machine.Pop, Word, Byte, Hi, Lo, Pair, Alu.Add16Flags, SetIndex,
      SetReg, SetPair, SetStackPair, GetIndex, GetReg, GetPair, GetStackPair;
    OperandsApart();
    BusKept(host);
  }

  lemma MoveAKept(host: Host, s: State, u: State, a: word)
    requires Kept(host, s, u)
    ensures Kept(host, s, StoreA(host, u, a)) && Kept(host, s, LoadA(host, u, a))
  {
    hide NoWaits, TimesOf, RefreshOf, Machine.Idle, Machine.Read, Machine.Write, Machine.Imm, Machine.Imm16,
      Machine.In, Machine.Out, Machine.Push, Machine.Pop, Word, Lo, Pair;
    BusKept(host);
  }

  lemma MovePairKept(host: Host, s: State, w: word)
    ensures Kept(host, s, StorePair(host, s, w)) && Kept(host, s, AtPair(host, s))
  {
    hide NoWaits, TimesOf, RefreshOf, Machine.Idle, Machine.Read, Machine.Write, Machine.Imm, Machine.Imm16,
      Machine.In, Machine.Out, Machine.Push, Machine.Pop, Word, Hi, Lo, Pair;
    BusKept(host);
  }

  lemma IndirectKept(host: Host, m: Mode, s: State, y: nat)
    requires y < 8
    ensures Kept(host, s, Indirect(host, m, s, y)) && Indirect(host, m, s, y).spent <= s.spent + 12
  {
    hide NoWaits, TimesOf, RefreshOf, StoreA, LoadA, StorePair, AtPair, WordAt, Machine.Imm16, Machine.Imm16Value,
      Pair, GetIndex, SetIndex;
    OperandsApart();
    var a := if y < 2 then s.r.Bc() else s.r.De();
    MoveAKept(host, s, s, a);
    ImmKept(host, s);
    MoveAKept(host, s, Imm16(host, s), Imm16Value(s));
    MovePairKept(host, s, GetIndex(m, s.r));
  }

  lemma OperandKept(host: Host, m: Mode, s: State)
    ensures Kept(host, s, AtOperand(host, m, s))
  {
    hide NoWaits, TimesOf, RefreshOf, Machine.Idle, Machine.Read, Machine.Write, Machine.Imm, Machine.Imm16,
      Machine.In, Machine.Out, Machine.Push, Machine.Pop, Word, Byte, Hi, Lo, Pair, OperandAddress;
    BusKept(host);
  }

  lemma MemoryKept(host: Host, m: Mode, s: State, delta: int)
    ensures Kept(host, s, StepMem(host, m, s, delta)) && Kept(host, s, StoreImm(host, m, s))
  {
    hide NoWaits, TimesOf, RefreshOf, Machine.Idle, Machine.Read, Machine.Write, Machine.Imm, Machine.Imm16,
      Machine.In, Machine.Out, Machine.Push, Machine.Pop, Word, Byte, Hi, Lo, Pair, Signed8, AtOperand, StepFlags;
    BusKept(host);
    OperandKept(host, m, s);
  }

  lemma RegisterKept(host: Host, m: Mode, s: State, y: nat, delta: int)
    requires y < 8
    ensures y != 6 ==> Kept(host, s, StepReg(m, s, y, delta)) && Kept(host, s, LoadImm(host, m, s, y))
    ensures Kept(host, s, AccumulatorOp(s, y))
  {
    hide NoWaits, TimesOf, RefreshOf, Machine.Idle, Machine.Read, Machine.Write, Machine.Imm, Machine.Imm16,
      Machine.In, Machine.Out, Machine.Push, Machine.Pop, Word, Byte, Hi, Lo, Pair, StepFlags, GetReg, Alu.Rotate,
      Alu.RotateAFlags, Alu.DaaResult, Alu.DaaFlags, Alu.CplFlags, Alu.ScfFlags, Alu.CcfFlags, SetIndex, SetReg,
      SetPair, SetStackPair, GetIndex, GetPair, GetStackPair;
    OperandsApart();
    BusKept(host);
  }

  lemma Block0Kept(host: Host, m: Mode, s: State, op: byte)
    requires op < 0x40
    ensures Kept(host, s, Block0(host, m, s, op)) && Block0(host, m, s, op).spent <= s.spent + 15
  {
    hide Kept, Relative, LoadPair, AddPair, StepPair, Indirect, StepMem, StoreImm, StepReg, LoadImm, AccumulatorOp;
    var y := op / 8;
    RelativeKept(host, s, y);
    PairsKept(host, m, s, y / 2, 1);
    PairsKept(host, m, s, y / 2, -1);
    IndirectKept(host, m, s, y);
    MemoryKept(host, m, s, 1);
    MemoryKept(host, m, s, -1);
    RegisterKept(host, m, s, y, 1);
    RegisterKept(host, m, s, y, -1);
  }

  lemma Block1Kept(host: Host, m: Mode, s: State, op: byte)
    requires 0x40 <= op < 0x80
    ensures Kept(host, s, Block1(host, m, s, op)) && Block1(host, m, s, op).spent <= s.spent + 15
  {
    hide NoWaits, TimesOf, RefreshOf, Machine.Idle, Machine.Read, Machine.Write, Machine.Imm, Machine.Imm16,
      Machine.In, Machine.Out, Machine.Push, Machine.Pop, Word, Byte, Hi, Lo, Pair, AtOperand, OperandAddress,
      GetReg, SetIndex, SetReg, SetPair, SetStackPair, GetIndex, GetPair, GetStackPair;
    OperandsApart();
    BusKept(host);
    OperandKept(host, m, s);
  }

  lemma AccumulateKept(host: Host, s: State, u: State, k: nat, v: byte)
    requires Kept(host, s, u)
    ensures Kept(host, s, Accumulate(u, k, v))
  {
    hide NoWaits, TimesOf, RefreshOf, And, Or, Xor, Alu.AddResult, Alu.AddFlags, Alu.SubResult, Alu.SubFlags,
      Alu.CpFlags, Alu.AndFlags, Alu.Sz53p;
  }

  lemma Block2Kept(host: Host, m: Mode, s: State, op: byte)
    requires 0x80 <= op < 0xC0
    ensures Kept(host, s, Block2(host, m, s, op)) && Block2(host, m, s, op).spent <= s.spent + 15
  {
    hide Machine.Read, Word, Byte, Hi, Lo, Pair, AtOperand, OperandAddress, GetReg, Accumulate, TimesOf, RefreshOf;
    var y, z := op / 8 % 8, op % 8;
    OperandKept(host, m, s);
    var s1 := AtOperand(host, m, s);
    ReadKept(host, s1, OperandAddress(m, s));
    if z == 6 {
      AccumulateKept(host, s, Read(host, s1, OperandAddress(m, s)), y, s.mem[OperandAddress(m, s)]);
    } else {
      AccumulateKept(host, s, s, y, GetReg(m, s.r, z));
    }
  }

  lemma FlowKept(host: Host, s: State, taken: bool, target: word)
    ensures Kept(host, s, Return(host, s)) && Kept(host, s, ReturnIf(host, s, taken))
    ensures Kept(host, s, JumpIf(host, s, taken))
    ensures Kept(host, s, CallIf(host, s, taken)) && Kept(host, s, Restart(host, s, target))
    ensures ReturnIf(host, s, taken).spent <= s.spent + 7
  {
    hide NoWaits, TimesOf, RefreshOf, Machine.Idle, Machine.Read, Machine.Write, Machine.Imm, Machine.Imm16,
      Machine.In, Machine.Out, Machine.Push, Machine.Pop, Word, Byte, Hi, Lo, Pair;
    BusKept(host);
  }

  lemma StackKept(host: Host, m: Mode, s: State, p: nat)
    requires p < 4
    ensures Kept(host, s, PushPair(host, m, s, p)) && Kept(host, s, PopPair(host, m, s, p))
    ensures Kept(host, s, LoadSp(host, m, s))
    ensures PushPair(host, m, s, p).spent == s.spent + 7
    ensures PopPair(host, m, s, p).spent == s.spent + 6
    ensures LoadSp(host, m, s).spent == s.spent + 2
  {
    hide NoWaits, TimesOf, RefreshOf, Machine.Idle, Machine.Read, Machine.Write, Machine.Imm, Machine.Imm16,
      Machine.In, Machine.Out, Machine.Push, Machine.Pop, Word, Byte, Hi, Lo, Pair, FlagsOf, SetIndex, SetReg,
      SetPair, SetStackPair, GetIndex, GetReg, GetPair, GetStackPair;
    OperandsApart();
    BusKept(host);
  }

  lemma ExchangeKept(host: Host, s: State, w: word)
    ensures Kept(host, s, Exchange(host, s, w))
  {
    hide NoWaits, TimesOf, RefreshOf, Machine.Idle, Machine.Read, Machine.Write, Word, Hi, Lo;
    BusKept(host);
  }

  lemma AccumulatorPortKept(host: Host, s: State)
    ensures Kept(host, s, OutA(host, s)) && Kept(host, s, InA(host, s))
  {
    hide NoWaits, TimesOf, RefreshOf, Machine.Idle, Machine.Read, Machine.Write, Machine.Imm, Machine.Imm16,
      Machine.In, Machine.Out, Machine.Push, Machine.Pop, Word, Byte, Hi, Lo, Pair;
    BusKept(host);
  }

  lemma TransferKept(host: Host, m: Mode, s: State, p: nat)
    requires p < 4
    ensures Kept(host, s, Transfer(host, m, s, p)) && Transfer(host, m, s, p).spent <= s.spent + 6
  {
    hide NoWaits, TimesOf, RefreshOf, Return, ReturnIf, JumpIf, CallIf, Restart, PushPair, PopPair, LoadSp, GetIndex;
    FlowKept(host, s, true, 0);
    StackKept(host, m, s, p);
  }

  // The controls are set by y = 6 and y = 7: DI and EI.
  lemma MiscellanyKept(host: Host, m: Mode, s: State, y: nat)
    requires y < 8 && y != 1
    ensures var u := Miscellany(host, m, s, y);
      && Timely(host, s, u) && Refreshed(s, u) && u.lines == s.lines
      && ControlOf(u) == PlainControl(0xC3 + 8 * y, ControlOf(s))
      && u.spent <= s.spent + 15
  {
    hide NoWaits, TimesOf, RefreshOf, Return, ReturnIf, JumpIf, CallIf, Restart, Exchange, OutA, InA, GetIndex,
      SetIndex, SetReg, SetPair, SetStackPair, WordAt;
    OperandsApart();
    FlowKept(host, s, true, 0);
    ExchangeKept(host, s, GetIndex(m, s.r));
    AccumulatorPortKept(host, s);
  }

  lemma Block3Kept(host: Host, m: Mode, s: State, op: byte)
    requires 0xC0 <= op && IsPlain(op)
    ensures var u := Block3(host, m, s, op);
      && Timely(host, s, u) && Refreshed(s, u) && u.lines == s.lines && ControlOf(u) == PlainControl(op, ControlOf(s))
      && u.spent <= s.spent + 15
  {
    hide NoWaits, TimesOf, RefreshOf, Machine.Imm, Machine.Imm16, Accumulate, Return, ReturnIf, JumpIf, CallIf,
      Restart, PushPair, PopPair, LoadSp, Transfer, Miscellany;
    var y := op / 8 % 8;
    assert op == 0xC0 + 8 * y + op % 8;
    match op % 8
    case 1 => StackKept(host, m, s, y / 2); TransferKept(host, m, s, y / 2);
    case 3 => MiscellanyKept(host, m, s, y);
    case 5 => StackKept(host, m, s, y / 2); FlowKept(host, s, true, 8 * y);
    case 6 => ImmKept(host, s); AccumulateKept(host, s, Imm(host, s), y, ImmValue(s));
    case _ => FlowKept(host, s, Condition(s.r.f, y), 8 * y);
  }

  lemma PlainKept(host: Host, m: Mode, s: State, op: byte)
    requires IsPlain(op)
    ensures var u := Plain(host, m, s, op);
      && Timely(host, s, u) && Refreshed(s, u) && u.lines == s.lines && ControlOf(u) == PlainControl(op, ControlOf(s))
      && u.spent <= s.spent + 15
  {
    hide NoWaits, TimesOf, RefreshOf, Block0, Block1, Block2, Block3;
    if op < 0x40 {
      Block0Kept(host, m, s, op);
    } else if op < 0x80 {
      Block1Kept(host, m, s, op);
    } else if op < 0xC0 {
      Block2Kept(host, m, s, op);
    } else {
      Block3Kept(host, m, s, op);
    }
  }

  // ---- The prefixed pages ----

  lemma EffectKept(host: Host, s: State, u: State, op: byte, v: byte, source: byte)
    requires Kept(host, s, u)
    ensures Kept(host, s, BitEffect(u, op, v, source))
  {
    hide NoWaits, TimesOf, RefreshOf, Alu.RotateFlags, Alu.BitFlags;
  }

  lemma BitPageKept(host: Host, s: State, op: byte)
    ensures Kept(host, s, BitPage(host, s, op)) && BitPage(host, s, op).spent <= s.spent + 7
  {
    hide NoWaits, TimesOf, RefreshOf, Machine.Idle, Machine.Read, Machine.Write, Machine.Imm, Machine.Imm16,
      Machine.In, Machine.Out, Machine.Push, Machine.Pop, Pair, Hi, GetReg, BitEffect, BitResult, SetIndex, SetReg,
      SetPair, SetStackPair, GetIndex, GetPair, GetStackPair;
    OperandsApart();
    BusKept(host);
    var a := s.r.Hl();
    EffectKept(host, s, Idle(host, Read(host, s, a), a, 1), op, s.mem[a], Hi(s.r.wz));
    if op % 8 != 6 {
      EffectKept(host, s, s, op, GetReg(HL, s.r, op % 8), GetReg(HL, s.r, op % 8));
    }
  }

  lemma IndexBitStartKept(host: Host, m: Mode, s: State)
    ensures Kept(host, s, IndexBitStart(host, m, s))
  {
    hide NoWaits, TimesOf, RefreshOf, Machine.Idle, Machine.Read, Machine.Write, Machine.Imm, Machine.Imm16,
      Machine.In, Machine.Out, Machine.Push, Machine.Pop, Word, OperandAddress;
    BusKept(host);
  }

  lemma IndexBitPageKept(host: Host, m: Mode, s: State)
    requires !m.HL?
    ensures Kept(host, s, IndexBitPage(host, m, s)) && IndexBitPage(host, m, s).spent <= s.spent + 15
  {
    hide NoWaits, TimesOf, RefreshOf, Machine.Idle, Machine.Read, Machine.Write, Machine.Imm, Machine.Imm16,
      Machine.In, Machine.Out, Machine.Push, Machine.Pop, Word, Hi, OperandAddress, IndexBitStart, BitEffect,
      BitResult, SetIndex, SetReg, SetPair, SetStackPair, GetIndex, GetReg, GetPair, GetStackPair;
    OperandsApart();
    BusKept(host);
    IndexBitStartKept(host, m, s);
    var a := OperandAddress(m, s);
    var at := Idle(host, Read(host, IndexBitStart(host, m, s), a), a, 1);
    EffectKept(host, s, at, s.mem[Word(s.r.pc + 1)], s.mem[a], Hi(a));
  }

  lemma ExtendedIoKept(host: Host, s: State, y: nat)
    requires y < 8
    ensures Kept(host, s, InReg(host, s, y)) && Kept(host, s, OutReg(host, s, y))
  {
    hide NoWaits, TimesOf, RefreshOf, Machine.Idle, Machine.Read, Machine.Write, Machine.Imm, Machine.Imm16,
      Machine.In, Machine.Out, Machine.Push, Machine.Pop, Machine.InValue, Word, Byte, Hi, Lo, Pair, GetReg,
      Alu.Sz53p, SetIndex, SetReg, SetPair, SetStackPair, GetIndex, GetPair, GetStackPair;
    OperandsApart();
    BusKept(host);
  }

  lemma WideKept(host: Host, s: State, v: word)
    ensures Kept(host, s, AdcHl(host, s, v)) && Kept(host, s, SbcHl(host, s, v))
  {
    hide NoWaits, TimesOf, RefreshOf, Machine.Idle, Machine.Read, Machine.Write, Machine.Imm, Machine.Imm16,
      Machine.In, Machine.Out, Machine.Push, Machine.Pop, Word, Byte, Hi, Lo, Pair, Alu.Adc16Flags, Alu.Sbc16Flags,
      Alu.Adc16Result, Alu.Sbc16Result;
    BusKept(host);
  }

  // LD R,A is the one instruction that takes R off the count.
  lemma InterruptRegisterKept(host: Host, s: State, y: nat)
    requires y < 8
    ensures var u := InterruptRegister(host, s, y);
      && Timely(host, s, u) && (y != 1 ==> Refreshed(s, u)) && u.lines == s.lines && ControlOf(u) == ControlOf(s)
      && u.spent <= s.spent + 10
  {
    hide NoWaits, TimesOf, RefreshOf, Machine.Idle, LoadAFrom, RotateDigit;
    IdleKept(host, s, s.r.Ir(), 1);
    LoadAFromKept(host, s, if y == 2 then s.r.i else s.r.r);
    var a, v := s.r.a, s.mem[s.r.Hl()];
    RotateDigitKept(host, s, a % 0x10 * 0x10 + v / 0x10, a / 0x10 * 0x10 + v % 0x10);
    RotateDigitKept(host, s, v % 0x10 * 0x10 + a % 0x10, a / 0x10 * 0x10 + v / 0x10);
  }

  lemma LoadAFromKept(host: Host, s: State, v: byte)
    ensures Kept(host, s, LoadAFrom(host, s, v))
  {
    hide NoWaits, TimesOf, RefreshOf, Machine.Idle, Alu.Sz53;
    BusKept(host);
  }

  lemma RotateDigitKept(host: Host, s: State, v: byte, a: byte)
    ensures Kept(host, s, RotateDigit(host, s, v, a))
  {
    hide NoWaits, TimesOf, RefreshOf, Machine.Idle, Machine.Read, Machine.Write, Word, Pair, Alu.Sz53p;
    BusKept(host);
  }

  lemma ExtendedLoadKept(host: Host, s: State, p: nat, w: word)
    requires p < 4
    ensures var s1 := AtPair(host, s); Kept(host, s, WithR(s1, SetPair(HL, s1.r, p, w)))
  {
    hide NoWaits, TimesOf, RefreshOf, AtPair, SetPair, SetIndex, SetReg, SetStackPair, GetIndex, GetReg, GetPair,
      GetStackPair;
    OperandsApart();
    MovePairKept(host, s, w);
  }

  lemma ReturnFromNmiKept(host: Host, s: State)
    ensures var u := ReturnFromNmi(host, s);
      && Timely(host, s, u) && Refreshed(s, u) && u.lines == s.lines && ControlOf(u) == ControlOf(s).(iff1 := s.r.iff2)
  {
    hide NoWaits, TimesOf, RefreshOf, Return, ReturnIf, JumpIf, CallIf, Restart;
    FlowKept(host, s, true, 0);
  }

  lemma ExtendedKept(host: Host, s: State, op: byte)
    requires 0x40 <= op < 0x80
    ensures var u := Extended(host, s, op);
      && Timely(host, s, u) && (op != 0x4F ==> Refreshed(s, u)) && u.lines == s.lines
      && ControlOf(u) == ExtendedControl(op, ControlOf(s)) && u.spent <= s.spent + 12
  {
    hide NoWaits, TimesOf, RefreshOf, InReg, OutReg, AdcHl, SbcHl, StorePair, AtPair, ReturnFromNmi,
      InterruptRegister, SetPair, GetPair, WordAt, Machine.Imm16Value, Alu.NegFlags, Alu.SubResult, SetIndex,
      SetReg, SetStackPair, GetIndex, GetReg, GetStackPair;
    OperandsApart();
    var y := op / 8 % 8;
    ExtendedIoKept(host, s, y);
    WideKept(host, s, GetPair(HL, s.r, y / 2));
    MovePairKept(host, s, GetPair(HL, s.r, y / 2));
    ExtendedLoadKept(host, s, y / 2, WordAt(s.mem, Imm16Value(s)));
    ReturnFromNmiKept(host, s);
    InterruptRegisterKept(host, s, y);
  }

  lemma BlockLdKept(host: Host, s: State, delta: int, repeating: bool)
    requires delta == 1 || delta == -1
    ensures Kept(host, s, BlockLd(host, s, delta, repeating))
    ensures BlockLd(host, s, delta, repeating).spent <= s.spent + 13
  {
    hide NoWaits, TimesOf, RefreshOf, Machine.Idle, Machine.Read, Machine.Write, Machine.Imm, Machine.Imm16,
      Machine.In, Machine.Out, Machine.Push, Machine.Pop, Word, Byte, Hi, Lo, Pair, Alu.BlockLdFlags;
    BusKept(host);
  }

  lemma BlockCpKept(host: Host, s: State, delta: int, repeating: bool)
    requires delta == 1 || delta == -1
    ensures Kept(host, s, BlockCp(host, s, delta, repeating))
    ensures BlockCp(host, s, delta, repeating).spent <= s.spent + 13
  {
    hide NoWaits, TimesOf, RefreshOf, Machine.Idle, Machine.Read, Machine.Write, Machine.Imm, Machine.Imm16,
      Machine.In, Machine.Out, Machine.Push, Machine.Pop, Word, Byte, Hi, Lo, Pair, Alu.BlockCpFlags;
    BusKept(host);
  }

  lemma BlockInKept(host: Host, s: State, delta: int, repeating: bool)
    requires delta == 1 || delta == -1
    ensures Kept(host, s, BlockIn(host, s, delta, repeating))
    ensures BlockIn(host, s, delta, repeating).spent <= s.spent + 13
  {
    hide NoWaits, TimesOf, RefreshOf, Machine.Idle, Machine.Read, Machine.Write, Machine.Imm, Machine.Imm16,
      Machine.In, Machine.Out, Machine.Push, Machine.Pop, Machine.InValue, Word, Byte, Hi, Lo, Pair,
      Alu.BlockIoFlags;
    BusKept(host);
  }

  lemma BlockOutKept(host: Host, s: State, delta: int, repeating: bool)
    requires delta == 1 || delta == -1
    ensures Kept(host, s, BlockOut(host, s, delta, repeating))
    ensures BlockOut(host, s, delta, repeating).spent <= s.spent + 13
  {
    hide NoWaits, TimesOf, RefreshOf, Machine.Idle, Machine.Read, Machine.Write, Machine.Imm, Machine.Imm16,
      Machine.In, Machine.Out, Machine.Push, Machine.Pop, Word, Byte, Hi, Lo, Pair, Alu.BlockIoFlags;
    BusKept(host);
  }

  lemma ExtendedPageKept(host: Host, s: State, op: byte)
    ensures var u := ExtendedPage(host, s, op);
      && Timely(host, s, u) && (op != 0x4F ==> Refreshed(s, u)) && u.lines == s.lines
      && ControlOf(u) == ExtendedControl(op, ControlOf(s)) && u.spent <= s.spent + 13
  {
    hide NoWaits, TimesOf, RefreshOf, Extended, BlockLd, BlockCp, BlockIn, BlockOut;
    if 0x40 <= op < 0x80 {
      ExtendedKept(host, s, op);
    } else if 0xA0 <= op < 0xC0 {
      var delta := if op / 8 % 8 % 2 == 0 then 1 else -1;
      var repeating := op / 8 % 8 >= 6;
      BlockLdKept(host, s, delta, repeating);
      BlockCpKept(host, s, delta, repeating);
      BlockInKept(host, s, delta, repeating);
      BlockOutKept(host, s, delta, repeating);
    }
  }

  // ---- Instructions ----

  // The opcode at pc after any index prefixes, and the byte behind it.
  ghost function Named(mem: Memory, pc: word): (byte, byte)
    requires HasOpcode(mem)
  {
    var at := Word(pc + PrefixRun(mem, pc));
    (mem[at], mem[Word(at + 1)])
  }

  lemma NamedStep(mem: Memory, pc: word)
    requires HasOpcode(mem)
    ensures if IsPrefix(mem[pc]) then Named(mem, pc) == Named(mem, Word(pc + 1))
            else Named(mem, pc) == (mem[pc], mem[Word(pc + 1)])
  {
    PrefixRunStep(mem, pc);
    if IsPrefix(mem[pc]) {
      assert Word(Word(pc + 1) + PrefixRun(mem, Word(pc + 1))) == Word(pc + PrefixRun(mem, pc));
    }
  }

  function NamedControl(op: (byte, byte), c: Control): Control {
    if op.0 == 0xED then ExtendedControl(op.1, c) else PlainControl(op.0, c)
  }

  // What an instruction named op does to the books and to interrupt control.
  ghost predicate Obeys(host: Host, s: State, u: State, op: (byte, byte)) {
    && Timely(host, s, u) && (op != (0xED, 0x4F) ==> Refreshed(s, u)) && u.lines == s.lines
    && ControlOf(u) == NamedControl(op, ControlOf(s))
  }

  lemma IndexedKept(host: Host, m: Mode, s: State, op: byte)
    requires !IsPrefix(op) && !m.HL?
    ensures var u := Indexed(host, m, s, op);
      Obeys(host, s, u, (op, s.mem[s.r.pc])) && s.spent <= u.spent <= s.spent + 17
  {
    hide NoWaits, TimesOf, RefreshOf, IndexBitPage, ExtendedPage, Plain, ExtendedControl, Machine.Fetch;
    if op == 0xCB {
      IndexBitPageKept(host, m, s);
    } else if op == 0xED {
      FetchKept(host, s);
      ExtendedPageKept(host, Fetch(host, s), s.mem[s.r.pc]);
    } else {
      PlainKept(host, m, s, op);
    }
  }

  lemma {:induction false} PrefixChainKept(host: Host, m: Mode, s: State)
    requires HasOpcode(s.mem) && !m.HL?
    ensures var u := PrefixChain(host, m, s); var k := PrefixRun(s.mem, s.r.pc);
      Obeys(host, s, u, Named(s.mem, s.r.pc)) && s.spent + 4 * k + 4 <= u.spent <= s.spent + 4 * k + 21
    decreases PrefixRun(s.mem, s.r.pc)
  {
    hide NoWaits, TimesOf, RefreshOf, Indexed, Machine.Fetch, HasOpcode, IsPrefixRun, PrefixRun, Named, NamedControl;
    PrefixRunStep(s.mem, s.r.pc);
    NamedStep(s.mem, s.r.pc);
    var op := s.mem[s.r.pc];
    var s1 := Fetch(host, s);
    FetchKept(host, s);
    if IsPrefix(op) {
      PrefixChainKept(host, if op == 0xDD then IX else IY, s1);
    } else {
      IndexedKept(host, m, s1, op);
    }
  }

  // The instruction at s.r.pc, opcode fetch included: k index prefixes cost four T-states each,
  // the rest between 4 and 21.
  lemma FetchedKept(host: Host, s: State)
    requires HasOpcode(s.mem)
    ensures var u := Instruction(host, Fetch(host, s), s.mem[s.r.pc]); var k := PrefixRun(s.mem, s.r.pc);
      Obeys(host, s, u, Named(s.mem, s.r.pc)) && s.spent + 4 * k + 4 <= u.spent <= s.spent + 4 * k + 21
  {
    hide NoWaits, TimesOf, RefreshOf, BitPage, ExtendedPage, Plain, PrefixChain, Machine.Fetch, HasOpcode,
      IsPrefixRun, PrefixRun, Named, ExtendedControl;
    PrefixRunStep(s.mem, s.r.pc);
    NamedStep(s.mem, s.r.pc);
    var op := s.mem[s.r.pc];
    var s1 := Fetch(host, s);
    FetchKept(host, s);
    if IsPrefix(op) {
      PrefixChainKept(host, if op == 0xDD then IX else IY, s1.(r := s1.r.(q := NO_FLAGS)));
    } else if op == 0xCB {
      FetchKept(host, s1);
      BitPageKept(host, Fetch(host, s1), s1.mem[s1.r.pc]);
    } else if op == 0xED {
      FetchKept(host, s1);
      ExtendedPageKept(host, Fetch(host, s1), s1.mem[s1.r.pc]);
    } else {
      PlainKept(host, HL, s1, op);
    }
  }

  // ---- Interrupt service and HALT ----

  lemma ServiceNmiKept(host: Host, s: State)
    ensures var u := ServiceNmi(host, s);
      && Timely(host, s, u) && Refreshed(s, u) && u.spent == s.spent + 11
      && u.lines == s.lines.(nmiPending := false) && ControlOf(u) == ControlOf(s).(iff1 := false)
  {
    hide NoWaits, TimesOf, RefreshOf, Machine.MachineCycle, Machine.Push, Word;
    var r := Wake(s.r).(q := NO_FLAGS, iff1 := false);
    var s0 := s.(r := r, lines := s.lines.(nmiPending := false));
    CycleKept(host, s0, r.pc, 5);
    CycleReadsLog(host, s0, IncR(s0), r.pc, 5);
    PushKept(host, MachineCycle(host, IncR(s0), r.pc, 5), r.pc);
  }

  // A cycle depends on the registers only through the address.
  lemma CycleReadsLog(host: Host, s: State, u: State, a: word, t: nat)
    requires u.log == s.log && u.cycles == s.cycles && u.spent == s.spent
    ensures var s1, u1 := MachineCycle(host, s, a, t), MachineCycle(host, u, a, t);
      s1.log == u1.log && s1.cycles == u1.cycles && s1.spent == u1.spent
  {
  }

  lemma AcknowledgedKept(host: Host, s: State)
    ensures var u := Acknowledged(host, s);
      && Timely(host, s, u) && Refreshed(s, u) && u.spent == s.spent + 7
      && u.lines == s.lines && ControlOf(u) == ControlOf(s).(iff1 := false, iff2 := false)
  {
    hide NoWaits, TimesOf, RefreshOf, Machine.MachineCycle, Word;
    var r := Wake(s.r).(q := NO_FLAGS, iff1 := false, iff2 := false);
    var s0 := WithR(s, r);
    CycleKept(host, s0, r.pc, 7);
    CycleReadsLog(host, s0, IncR(s0), r.pc, 7);
    AppendAck(host, AcknowledgeCycle(host, s), AckByte(host, s));
  }

  lemma AppendAck(host: Host, s: State, v: byte)
    ensures Kept(host, s, s.(log := s.log + [Acknowledge(v)]))
  {
    OneMore(s.log, Acknowledge(v));
  }

  lemma ServiceIntKept(host: Host, s: State)
    ensures var u := ServiceInt(host, s);
      && Timely(host, s, u) && Refreshed(s, u) && u.spent == s.spent + (if s.r.im == 2 then 19 else 13)
      && u.lines == s.lines && ControlOf(u) == ControlOf(s).(iff1 := false, iff2 := false)
  {
    hide NoWaits, TimesOf, RefreshOf, Acknowledged, AckByte, Machine.Push, Machine.Read, Word, Pair, WordAt,
      RestartTarget;
    BusKept(host);
    AcknowledgedKept(host, s);
  }

  lemma HaltCycleKept(host: Host, s: State)
    ensures Kept(host, s, HaltCycle(host, s)) && HaltCycle(host, s).spent == s.spent + 4
  {
    var s1 := MachineCycle(host, s, s.r.pc, 4);
    CycleKept(host, s, s.r.pc, 4);
    OneMore(s1.log, MemRead(s.r.pc, s.mem[s.r.pc]));
    Counted(s.r.r, Refreshes(s1.log));
  }

  // ---- Steps ----

  // The step executes LD R,A.
  ghost predicate StepLoadsR(s: State) { Executes(s) && HasOpcode(s.mem) && Named(s.mem, s.r.pc) == (0xED, 0x4F) }

  // What a step does to interrupt control.  An executing step ends the delay of an earlier EI.
  ghost function StepControl(s: State): Control {
    var c := ControlOf(s);
    if s.lines.nmiPending then c.(iff1 := false)
    else if AcceptsInt(s) then c.(iff1 := false, iff2 := false)
    else if s.r.halted || !HasOpcode(s.mem) then c.(eiPending := false)
    else NamedControl(Named(s.mem, s.r.pc), c.(eiPending := false))
  }

  // The T-states a step charges: exact for interrupts and HALT; an instruction with k index
  // prefixes charges from 4k+4 to 4k+21.
  ghost predicate Costs(s: State, spent: nat) {
    if s.lines.nmiPending then spent == 11
    else if AcceptsInt(s) then spent == if s.r.im == 2 then 19 else 13
    else if s.r.halted then spent == 4
    else HasOpcode(s.mem) && 4 * PrefixRun(s.mem, s.r.pc) + 4 <= spent <= 4 * PrefixRun(s.mem, s.r.pc) + 21
  }

  lemma StepKept(host: Host, s: State)
    requires Returns(s)
    ensures var u := Step(host, s);
      && Timely(host, Begin(s), u) && (!StepLoadsR(s) ==> Refreshed(s, u)) && Costs(s, u.spent)
      && ControlOf(u) == StepControl(s)
      && u.lines == (if s.lines.nmiPending then s.lines.(nmiPending := false) else s.lines.(intPulse := false))
  {
    hide NoWaits, TimesOf, RefreshOf, ServiceNmi, ServiceInt, HaltCycle, Instruction, Machine.Fetch, HasOpcode,
      Named, NamedControl, PrefixRun, IsPrefixRun;
    var s0 := Begin(s);
    ServiceNmiKept(host, s0);
    ServiceIntKept(host, Sampled(s0));
    var s1 := Sampled(s0).(r := s.r.(eiPending := false));
    HaltCycleKept(host, s1);
    if Executes(s) {
      FetchedKept(host, s1);
    }
  }

  // Timing agreement of one step: what it charged is the sum of the durations surfaced to the
  // bus, what passed is that sum plus the host's waits, and the bus history stays contiguous.
  lemma StepTiming(host: Host, s: State)
    requires Returns(s)
    ensures var u := Step(host, s);
      && u.spent == Charged(u.log) - Charged(s.log)
      && u.cycles - s.cycles == Elapsed(u.log) - Elapsed(s.log)
      && u.cycles - s.cycles >= u.spent >= 4
      && (NoWaits(host) ==> u.cycles - s.cycles == u.spent)
      && (WellTimed(s.log, s.cycles - Elapsed(s.log)) ==> WellTimed(u.log, u.cycles - Elapsed(u.log)))
  {
    hide Step, Returns, RefreshOf, StepLoadsR, HasOpcode, PrefixRun, Charged, Elapsed, WellTimed, NoWaits;
    StepKept(host, s);
  }

  // ... and of any run.
  lemma {:induction false} RunTiming(host: Host, s: State, n: nat)
    ensures var u := Run(host, s, n);
      && u.cycles - s.cycles == Elapsed(u.log) - Elapsed(s.log)
      && (WellTimed(s.log, s.cycles - Elapsed(s.log)) ==> WellTimed(u.log, u.cycles - Elapsed(u.log)))
    decreases n
  {
    hide Step, Returns, Elapsed, Charged, WellTimed;
    if n > 0 {
      if Returns(s) {
        StepTiming(host, s);
      } else {
        Stuck(host, s);
      }
      RunTiming(host, Step(host, s), n - 1);
    }
  }

  // The base T-states charged in a run and the host's waits are all the time that passes.
  lemma RunWaits(host: Host, s: State, n: nat)
    ensures var u := Run(host, s, n);
      u.cycles - s.cycles == (Charged(u.log) - Charged(s.log)) + (Waited(u.log) - Waited(s.log))
  {
    hide Run, Elapsed, Charged, Waited, WellTimed;
    RunTiming(host, s, n);
    ElapsedParts(s.log);
    ElapsedParts(Run(host, s, n).log);
  }

  lemma Stuck(host: Host, s: State)
    requires !Returns(s)
    ensures Step(host, s) == s
  {
  }

  // R follows the refreshes: its low seven bits advance by their number, its top bit stays,
  // through any run in which no step executes LD R,A.
  lemma {:induction false} RunRefresh(host: Host, s: State, n: nat)
    requires forall k: nat :: k < n ==> !StepLoadsR(Run(host, s, k))
    ensures var u := Run(host, s, n);
      && u.r.r / 0x80 == s.r.r / 0x80
      && u.r.r % 0x80 == (s.r.r + Refreshes(u.log) - Refreshes(s.log)) % 0x80
    decreases n
  {
    RunKeepsR(host, s, n);
    var u := Run(host, s, n);
    SevenBits(s.r.r, u.r.r, Refreshes(s.log), Refreshes(u.log));
  }

  lemma {:induction false} RunKeepsR(host: Host, s: State, n: nat)
    requires forall k: nat :: k < n ==> !StepLoadsR(Run(host, s, k))
    ensures Refreshed(s, Run(host, s, n))
    decreases n
  {
    hide NoWaits, Step, Returns, RefreshOf, StepLoadsR, TimesOf;
    if n > 0 {
      assert Run(host, s, 0) == s;
      if Returns(s) {
        StepKept(host, s);
      } else {
        Stuck(host, s);
      }
      forall k: nat | k < n - 1 ensures !StepLoadsR(Run(host, Step(host, s), k)) {
        assert Run(host, s, k + 1) == Run(host, Step(host, s), k);
      }
      RunKeepsR(host, Step(host, s), n - 1);
    }
  }

  lemma SevenBits(r: byte, r': byte, m: nat, n: nat)
    requires (r - m) % 0x80 == (r' - n) % 0x80
    ensures r' % 0x80 == (r + n - m) % 0x80
  {
  }

  // ---- run_for(t) ----

  // n steps are the fewest that take t T-states, and each of them returns.
  ghost predicate IsBudget(host: Host, s: State, t: int, n: nat) {
    && Run(host, s, n).cycles - s.cycles >= t
    && forall k: nat :: k < n ==> Run(host, s, k).cycles - s.cycles < t && Returns(Run(host, s, k))
  }

  lemma {:induction false} RunSplit(host: Host, s: State, m: nat, n: nat)
    ensures Run(host, s, m + n) == Run(host, Run(host, s, m), n)
    decreases m
  {
    if m > 0 {
      RunSplit(host, Step(host, s), m - 1, n);
    }
  }

  lemma RunNext(host: Host, s: State, n: nat)
    ensures Run(host, s, n + 1) == Step(host, Run(host, s, n))
  {
    RunSplit(host, s, n, 1);
    assert Run(host, Run(host, s, n), 1) == Run(host, Step(host, Run(host, s, n)), 0);
  }

  // No step of the run meets more than k index prefixes in a row.
  ghost predicate PrefixesWithin(s: State, k: nat) {
    Executes(s) && HasOpcode(s.mem) ==> PrefixRun(s.mem, s.r.pc) <= k
  }

  // Without waits run_for overshoots by less than one longest instruction.
  lemma RunForWindow(host: Host, s: State, t: int, n: nat, k: nat)
    requires t > 0 && IsBudget(host, s, t, n) && NoWaits(host)
    requires n > 0 ==> PrefixesWithin(Run(host, s, n - 1), k)
    ensures t <= Run(host, s, n).cycles - s.cycles < t + 21 + 4 * k
  {
    hide Step, Run, Returns, StepLoadsR, NoWaits;
    RunZero(host, s);
    var u := Run(host, s, n - 1);
    RunNext(host, s, n - 1);
    StepTiming(host, u);
    StepKept(host, u);
  }

  lemma RunZero(host: Host, s: State)
    ensures Run(host, s, 0) == s
  {
  }

  // ... and t <= 0 runs nothing.
  lemma RunForNothing(host: Host, s: State, t: int, n: nat)
    requires t <= 0 && IsBudget(host, s, t, n)
    ensures n == 0
  {
    RunZero(host, s);
  }
}
