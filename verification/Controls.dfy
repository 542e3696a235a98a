/**
 Ports, interrupt control and decimal digits, one step each: what reaches the port, what the
 interrupt registers show, and how a digit rotation is undone.
 */
module Controls {
  import opened Words
  import opened Registers
  import opened Machine
  import opened Isa
  import opened Stepping
  import opened Interrupts
  import opened Ports
  import opened Blocks
  import opened Steps
  import opened Branches
  import opened Operations
  import Alu

  // ---- Ports ----

  lemma OpenedSilent(host: Host, s: State)
    ensures Traffic(Opened(host, s).log) == Traffic(s.log)
    ensures Traffic(Imm(host, Opened(host, s)).log) == Traffic(s.log)
  {
    hide Traffic, Machine.Fetch;
    FetchSilent(host, Ready(s));
    var s1 := Opened(host, s);
    AccessTraffic(host, s1, s1.r.pc, 0);
  }

  lemma PortForms(host: Host, s: State)
    ensures Plain(host, HL, s, 0xD3) == OutA(host, s) && Plain(host, HL, s, 0xDB) == InA(host, s)
  {
    hide Block0, Block1, Block2, ReturnIf, PopPair, Transfer, JumpIf, CallIf, PushPair, Accumulate, Restart, ExStack,
      Machine.Imm, Machine.ImmValue, Condition, OutA, InA, SetInterrupts;
  }

  // OUT (n),A and IN A,(n): A is the high byte of the port.
  lemma OutAStep(host: Host, s: State)
    requires Runs(s, 0xD3)
    ensures var u, port := Step(host, s), Pair(s.r.a, Code(s, 1));
      && u.r == Past(s.r, 2, 1).(wz := Pair(s.r.a, Lo(Word(port + 1)))) && u.mem == s.mem && u.spent == 11
      && Traffic(u.log) == Traffic(s.log) + [IoWrite(port, s.r.a)]
  {
    hide Step, Plain, Opened, Word, Pair, Lo, AdvanceR, Executes, Traffic, Machine.Out, Machine.Imm;
    StepPlain(host, s);
    OpenedKeeps(host, s);
    OpenedSilent(host, s);
    PortForms(host, Opened(host, s));
    Behind(s.r.pc);
    AccessTraffic(host, Imm(host, Opened(host, s)), Pair(s.r.a, Code(s, 1)), s.r.a);
  }

  lemma InAStep(host: Host, s: State)
    requires Runs(s, 0xDB)
    ensures var u, port := Step(host, s), Pair(s.r.a, Code(s, 1));
      && u.r == Past(s.r, 2, 1).(a := u.r.a, wz := Word(port + 1)) && u.mem == s.mem && u.spent == 11
      && Traffic(u.log) == Traffic(s.log) + [IoRead(port, u.r.a)]
  {
    hide Step, Plain, Opened, Word, Pair, AdvanceR, Executes, Traffic, Machine.In, Machine.InValue, Machine.Imm;
    StepPlain(host, s);
    OpenedKeeps(host, s);
    OpenedSilent(host, s);
    PortForms(host, Opened(host, s));
    Behind(s.r.pc);
    AccessTraffic(host, Imm(host, Opened(host, s)), Pair(s.r.a, Code(s, 1)), 0);
  }

  lemma PortRegForms(host: Host, s: State, op: byte)
    requires 0x40 <= op < 0x80
    ensures op % 8 == 0 ==> ExtendedPage(host, s, op) == InReg(host, s, op / 8 - 8)
    ensures op % 8 == 1 ==> ExtendedPage(host, s, op) == OutReg(host, s, op / 8 - 8)
  {
    hide InReg, OutReg, Extended;
    PortColumns(host, s, op);
  }

  // OUT (C),r; in the place of (HL) a zero goes out.
  lemma OutRegStep(host: Host, s: State, op: byte)
    requires Executes(s) && CodeAt(s.mem, s.r.pc, op) && 0x40 <= op < 0x80 && op % 8 == 1
    ensures var u, v := Step(host, s), if op == 0x71 then 0 else Source(s, op / 8);
      && u.r == Past(s.r, 2, 2).(wz := Word(s.r.Bc() + 1)) && u.mem == s.mem && u.spent == 12
      && Traffic(u.log) == Traffic(s.log) + [IoWrite(s.r.Bc(), v)]
  {
    hide Step, ExtendedPage, Entered, Word, Pair, AdvanceR, Executes, CodeAt, Source, GetReg, Traffic, Machine.Out;
    StepEnters(host, s, op);
    EnteredKeeps(host, s);
    EnteredSilent(host, s);
    var s1 := Entered(host, s);
    PortRegForms(host, s1, op);
    SourceApart(s, s1, op / 8);
    if op != 0x71 {
      Slots(s1, op / 8, op / 8 - 8, 0);
    }
    AccessTraffic(host, s1, s.r.Bc(), if op == 0x71 then 0 else Source(s, op / 8));
  }

  // IN r,(C) takes the flags of the byte and leaves carry; in the place of (HL) only the flags.
  lemma InRegStep(host: Host, s: State, op: byte)
    requires Executes(s) && CodeAt(s.mem, s.r.pc, op) && 0x40 <= op < 0x80 && op % 8 == 0
    ensures var u, v := Step(host, s), InValue(host, Entered(host, s), s.r.Bc());
      var f := Flags(v >= 0x80, v == 0, Bit(v, 5), false, Bit(v, 3), EvenParity(v), false, s.r.f.c);
      && u.r == Placed(Past(s.r, 2, 2), op / 8 - 8, v).(f := f, q := f, wz := Word(s.r.Bc() + 1))
      && u.mem == s.mem && u.spent == 12
      && Traffic(u.log) == Traffic(s.log) + [IoRead(s.r.Bc(), v)]
  {
    hide Step, ExtendedPage, Entered, Word, Pair, AdvanceR, Executes, CodeAt, InReg, Traffic, Machine.InValue, Bit,
      EvenParity, Placed;
    StepEnters(host, s, op);
    EnteredKeeps(host, s);
    EnteredSilent(host, s);
    var s1 := Entered(host, s);
    PortRegForms(host, s1, op);
    InRegEffect(host, s1, op / 8 - 8);
    var v := InValue(host, s1, s.r.Bc());
    assert s1.r == Past(s.r, 2, 2).(q := s.r.q);
    PlacedApart(Past(s.r, 2, 2), op / 8 - 8, v, s.r.q);
  }

  lemma InRegEffect(host: Host, s: State, k: nat)
    requires k < 8
    ensures var u, v := InReg(host, s, k), InValue(host, s, s.r.Bc());
      var f := Flags(v >= 0x80, v == 0, Bit(v, 5), false, Bit(v, 3), EvenParity(v), false, s.r.f.c);
      && u.r == Placed(s.r, k, v).(f := f, wz := Word(s.r.Bc() + 1)) && u.touched && u.mem == s.mem
      && u.spent == s.spent + 4 && u.lines == s.lines
      && Traffic(u.log) == Traffic(s.log) + [IoRead(s.r.Bc(), v)]
  {
    hide Word, Pair, Traffic, Machine.In, Machine.InValue, Bit, EvenParity, SetReg, Placed;
    AccessTraffic(host, s, s.r.Bc(), 0);
    var v := InValue(host, s, s.r.Bc());
    var s1 := SetWz(In(host, s, s.r.Bc()), Word(s.r.Bc() + 1));
    var s2 := WithFlags(s1, Alu.Sz53p(v).(c := s.r.f.c));
    if k == 6 {
      MemorySlot(s2, k, v);
      MemorySlot(s, k, v);
    } else {
      Slots(s2, k, k, v);
      PlacedFlags(s1.r, k, v, s2.r.f);
      PlacedWz(s.r, k, v, Word(s.r.Bc() + 1));
    }
  }

  lemma PlacedWz(r: Registers, k: nat, v: byte, wz: word)
    ensures Placed(r.(wz := wz), k, v) == Placed(r, k, v).(wz := wz)
  {
  }

  // ---- Interrupt control ----

  lemma ControlForms(host: Host, s: State, op: byte)
    requires 0x40 <= op < 0x80
    ensures op % 8 == 4 ==>
      ExtendedPage(host, s, op) == WithA(s, Alu.SubResult(0, s.r.a, false), Alu.NegFlags(s.r.a))
    ensures op % 8 == 6 ==> ExtendedPage(host, s, op) == s.(r := s.r.(im := InterruptMode(op / 8 % 8)))
    ensures op % 8 == 7 ==> ExtendedPage(host, s, op) == InterruptRegister(host, s, op / 8 - 8)
  {
    hide Extended, InterruptRegister, Alu.NegFlags, Alu.SubResult, InterruptMode;
    ControlColumns(host, s, op);
  }

  // IM 0, 1 and 2 with their aliases
  lemma ModeStep(host: Host, s: State, op: byte)
    requires Executes(s) && CodeAt(s.mem, s.r.pc, op) && 0x40 <= op < 0x80 && op % 8 == 6
    ensures var u := Step(host, s);
      && u.r == Past(s.r, 2, 2).(
           im := if op == 0x56 || op == 0x76 then 1 else if op == 0x5E || op == 0x7E then 2 else 0)
      && u.mem == s.mem && u.spent == 8
  {
    hide Step, ExtendedPage, Entered, Word, AdvanceR, Executes, CodeAt;
    StepEnters(host, s, op);
    EnteredKeeps(host, s);
    ControlForms(host, Entered(host, s), op);
  }

  // DI and EI
  lemma EnableStep(host: Host, s: State, op: byte)
    requires Runs(s, op) && (op == 0xF3 || op == 0xFB)
    ensures var u := Step(host, s);
      && u.r == Past(s.r, 1, 1).(iff1 := op == 0xFB, iff2 := op == 0xFB, eiPending := op == 0xFB)
      && u.mem == s.mem && u.spent == 4
  {
    hide Step, Plain, Opened, Word, AdvanceR, Executes;
    StepPlain(host, s);
    OpenedKeeps(host, s);
    EnableForm(host, Opened(host, s), op);
  }

  lemma EnableForm(host: Host, s: State, op: byte)
    requires op == 0xF3 || op == 0xFB
    ensures Plain(host, HL, s, op) == SetInterrupts(s, op == 0xFB)
  {
    hide Block0, Block1, Block2, ReturnIf, PopPair, Transfer, JumpIf, CallIf, PushPair, Accumulate, Restart, ExStack,
      Machine.Imm, Machine.ImmValue, Condition, OutA, InA, SetInterrupts;
  }

  // LD I,A and LD R,A; A sets all eight bits of R.
  lemma StoreControlStep(host: Host, s: State, op: byte)
    requires Executes(s) && CodeAt(s.mem, s.r.pc, op) && (op == 0x47 || op == 0x4F)
    ensures var u := Step(host, s);
      && u.r == (if op == 0x47 then Past(s.r, 2, 2).(i := s.r.a) else Past(s.r, 2, 2).(r := s.r.a))
      && u.mem == s.mem && u.spent == 9
  {
    hide Step, ExtendedPage, Entered, Word, Pair, AdvanceR, Executes, CodeAt, Machine.Idle, LoadAFrom, RotateDigit;
    StepEnters(host, s, op);
    EnteredKeeps(host, s);
    ControlForms(host, Entered(host, s), op);
  }

  // LD A,I and LD A,R: P/V shows IFF2.  R has counted this instruction's two fetches.
  lemma LoadControlStep(host: Host, s: State, op: byte)
    requires Executes(s) && CodeAt(s.mem, s.r.pc, op) && (op == 0x57 || op == 0x5F)
    ensures var u, v := Step(host, s), if op == 0x57 then s.r.i else AdvanceR(s.r.r, 2);
      var f := Flags(v >= 0x80, v == 0, Bit(v, 5), false, Bit(v, 3), s.r.iff2, false, s.r.f.c);
      && u.r == Past(s.r, 2, 2).(a := v, f := f, q := f) && u.mem == s.mem
      && u.lines == s.lines.(intPulse := false) && u.spent == 9
  {
    hide Step, ExtendedPage, Entered, Word, Pair, AdvanceR, Executes, CodeAt, Machine.Idle, RotateDigit, Bit;
    StepEnters(host, s, op);
    EnteredKeeps(host, s);
    ControlForms(host, Entered(host, s), op);
  }

  // In an NMI handler P/V after LD A,I is IFF2 as it was when the NMI came, and that is what the
  // RETN at the handler's end puts into IFF1.
  lemma HandlerSeesEnable(host: Host, s: State, t: State, v: State)
    requires t.r.iff2 == TakeNmi(host, s).r.iff2
    requires Executes(t) && (CodeAt(t.mem, t.r.pc, 0x57) || CodeAt(t.mem, t.r.pc, 0x5F))
    requires v.r.iff2 == Step(host, t).r.iff2
    requires Executes(v) && v.mem[v.r.pc] == 0xED && IsRetn(v.mem[Word(v.r.pc + 1)])
    ensures Step(host, t).r.f.p == s.r.iff2 == Step(host, v).r.iff1
  {
    hide Step, TakeNmi, Word, Pair, AdvanceR, Executes, Bit, IsRetn, WordAt;
    NmiEntry(host, s);
    LoadControlStep(host, t, if CodeAt(t.mem, t.r.pc, 0x57) then 0x57 else 0x5F);
    RetnStep(host, v);
  }

  // ---- NEG and the digit rotations ----

  // NEG is SUB from zero.
  lemma NegStep(host: Host, s: State, op: byte)
    requires Executes(s) && CodeAt(s.mem, s.r.pc, op) && 0x40 <= op < 0x80 && op % 8 == 4
    ensures var u, f := Step(host, s), Alu.SubFlags(0, s.r.a, false);
      && u.r == Past(s.r, 2, 2).(a := if s.r.a == 0 then 0 else 0x100 - s.r.a, f := f, q := f)
      && u.mem == s.mem && u.spent == 8
  {
    hide Step, ExtendedPage, Entered, Word, AdvanceR, Executes, CodeAt, Alu.SubFlags;
    StepEnters(host, s, op);
    EnteredKeeps(host, s);
    ControlForms(host, Entered(host, s), op);
  }

  // RRD turns the low digit of A and the two of (HL) to the right, RLD to the left; the high
  // digit of A stays.  S, Z and P/V are those of A.
  lemma DigitStep(host: Host, s: State, op: byte)
    requires Executes(s) && CodeAt(s.mem, s.r.pc, op) && (op == 0x67 || op == 0x6F)
    ensures var u, v, a := Step(host, s), s.mem[s.r.Hl()], s.r.a; var w := u.mem[s.r.Hl()];
      var f := Flags(u.r.a >= 0x80, u.r.a == 0, Bit(u.r.a, 5), false, Bit(u.r.a, 3), EvenParity(u.r.a), false, s.r.f.c);
      && u.r == Past(s.r, 2, 2).(a := u.r.a, f := f, q := f, wz := Word(s.r.Hl() + 1))
      && u.mem == s.mem[s.r.Hl() := w] && u.spent == 18 && u.r.a / 0x10 == a / 0x10
      && if op == 0x67 then w / 0x10 == a % 0x10 && w % 0x10 == v / 0x10 && u.r.a % 0x10 == v % 0x10
         else w / 0x10 == v % 0x10 && w % 0x10 == a % 0x10 && u.r.a % 0x10 == v / 0x10
  {
    hide Step, ExtendedPage, Entered, Word, Pair, AdvanceR, Executes, CodeAt, Machine.Read, Machine.Idle,
      Machine.Write, LoadAFrom, Bit, EvenParity, InterruptRegister;
    StepEnters(host, s, op);
    EnteredKeeps(host, s);
    ControlForms(host, Entered(host, s), op);
    DigitEffect(host, Entered(host, s), op);
  }

  lemma DigitEffect(host: Host, s: State, op: byte)
    requires op == 0x67 || op == 0x6F
    ensures var u, v, a := InterruptRegister(host, s, op / 8 - 8), s.mem[s.r.Hl()], s.r.a; var w := u.mem[s.r.Hl()];
      && u == s.(r := s.r.(a := u.r.a, f := Alu.Sz53p(u.r.a).(c := s.r.f.c), wz := Word(s.r.Hl() + 1)), touched := true,
                 mem := s.mem[s.r.Hl() := w], log := u.log, cycles := u.cycles, spent := s.spent + 10)
      && u.r.a / 0x10 == a / 0x10
      && if op == 0x67 then w / 0x10 == a % 0x10 && w % 0x10 == v / 0x10 && u.r.a % 0x10 == v % 0x10
         else w / 0x10 == v % 0x10 && w % 0x10 == a % 0x10 && u.r.a % 0x10 == v / 0x10
  {
    hide Word, Pair, Machine.Read, Machine.Idle, Machine.Write, LoadAFrom, Alu.Sz53p;
  }

  // Each digit rotation undoes the other, on A and on (HL).
  lemma DigitsBack(host: Host, s: State, op: byte, t: State, op': byte)
    requires Executes(s) && CodeAt(s.mem, s.r.pc, op) && Executes(t) && CodeAt(t.mem, t.r.pc, op')
    requires (op == 0x67 && op' == 0x6F) || (op == 0x6F && op' == 0x67)
    requires t.r == Step(host, s).r.(pc := t.r.pc) && t.mem == Step(host, s).mem
    ensures var u := Step(host, t); u.r.a == s.r.a && u.mem == s.mem
  {
    hide Step, Word, Pair, AdvanceR, Executes, CodeAt, Bit, EvenParity;
    DigitStep(host, s, op);
    DigitStep(host, t, op');
    var u, a := Step(host, t), s.r.Hl();
    assert u.r.a == 0x10 * (u.r.a / 0x10) + u.r.a % 0x10 && u.mem[a] == 0x10 * (u.mem[a] / 0x10) + u.mem[a] % 0x10;
    assert u.mem == s.mem[a := u.mem[a]];
  }

  // ---- What does nothing ----

  // NOP and the unassigned ED opcodes
  predicate IsIdle(op: byte) {
    op < 0x40 || op >= 0xC0 || 0x80 <= op < 0xA0 || (op >= 0xA0 && op % 8 >= 4) || op == 0x77 || op == 0x7F
  }

  lemma NothingStep(host: Host, s: State)
    requires Executes(s) && (s.mem[s.r.pc] == 0 || (s.mem[s.r.pc] == 0xED && IsIdle(Code(s, 1))))
    ensures var u, n := Step(host, s), if s.mem[s.r.pc] == 0 then 1 else 2;
      u.r == Past(s.r, n, n) && u.mem == s.mem && u.spent == 4 * n
  {
    hide Step, Plain, ExtendedPage, Opened, Entered, Word, AdvanceR, Executes, IsIdle;
    if s.mem[s.r.pc] == 0 {
      StepPlain(host, s);
      OpenedKeeps(host, s);
      NopForm(host, Opened(host, s));
    } else {
      StepEnters(host, s, Code(s, 1));
      EnteredKeeps(host, s);
      IdleForm(host, Entered(host, s), Code(s, 1));
    }
  }

  lemma NopForm(host: Host, s: State)
    ensures Plain(host, HL, s, 0) == s
  {
    hide Djnz, RelativeJump, ExAf, LoadPair, AddPair, Indirect, StepPair, StepReg, StepMem, LoadImm, StoreImm,
      AccumulatorOp, Block1, Block2, Block3;
  }

  lemma IdleForm(host: Host, s: State, op: byte)
    requires IsIdle(op)
    ensures ExtendedPage(host, s, op) == s
  {
    hide BlockLd, BlockCp, BlockIn, BlockOut, InReg, OutReg, SbcHl, AdcHl, StorePair, AtPair, LoadAFrom, RotateDigit,
      ReturnFromNmi, Alu.NegFlags, Alu.SubResult, Machine.Idle, GetPair, SetPair, WordAt, Machine.Imm16Value;
  }
}
