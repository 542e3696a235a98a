/**
 The processor of include/z80f/z80.hpp as an object that updates its fields in place, with the
 dispatchers' switches case by case.  Every method is tied to a state transformer of Machine,
 Isa or Stepping through State(); the dispatchers also return the T-states they charge, which
 are the T-states they surfaced to the bus.
 */
module Core {
  import opened Words
  import opened Registers
  import Alu
  import Machine
  import Isa
  import Ledger
  import Stepping
  import Timing
  import XorFlags

  // A host with a flat 64 KiB RAM that remembers every callback.
  class Bus {
    var memory: Machine.Memory
    var log: seq<Machine.Event>
    const host: Machine.Host

    constructor (memory: Machine.Memory, host: Machine.Host)
      ensures this.memory == memory && this.host == host && log == []
    {
      this.memory := memory;
      this.host := host;
      this.log := [];
    }

    // now is the cycle counter the host can read during the callback.
    method OnMCycle(now: nat, address: word, t: nat) returns (waits: nat)
      modifies this
      ensures waits == host.wait(old(log), address, t)
      ensures log == old(log) + [Machine.Cycle(now, address, t, waits)] && memory == old(memory)
    {
      waits := host.wait(log, address, t);
      log := log + [Machine.Cycle(now, address, t, waits)];
    }

    method ReadMemory(address: word) returns (value: byte)
      modifies this
      ensures value == memory[address]
      ensures log == old(log) + [Machine.MemRead(address, value)] && memory == old(memory)
    {
      value := memory[address];
      log := log + [Machine.MemRead(address, value)];
    }

    method WriteMemory(address: word, value: byte)
      modifies this
      ensures memory == old(memory)[address := value]
      ensures log == old(log) + [Machine.MemWrite(address, value)]
    {
      memory := memory[address := value];
      log := log + [Machine.MemWrite(address, value)];
    }

    method ReadIo(port: word) returns (value: byte)
      modifies this
      ensures value == host.input(old(log), port)
      ensures log == old(log) + [Machine.IoRead(port, value)] && memory == old(memory)
    {
      value := host.input(log, port);
      log := log + [Machine.IoRead(port, value)];
    }

    method WriteIo(port: word, value: byte)
      modifies this
      ensures log == old(log) + [Machine.IoWrite(port, value)] && memory == old(memory)
    {
      log := log + [Machine.IoWrite(port, value)];
    }

    method AcknowledgeInterrupt() returns (value: byte)
      modifies this
      ensures value == host.vector(old(log))
      ensures log == old(log) + [Machine.Acknowledge(value)] && memory == old(memory)
    {
      value := host.vector(log);
      log := log + [Machine.Acknowledge(value)];
    }
  }

  class Z80 {
    const bus: Bus
    var regs: Registers
    var cycles: nat
    var lines: Machine.Lines
    var spent: nat  // instruction_t_states_
    var flagsModified: bool

    // What the processor and its bus hold.
    ghost function State(): Machine.State
      reads this, bus
    {
      Machine.State(regs, flagsModified, bus.memory, bus.log, cycles, spent, lines)
    }

    constructor (bus: Bus)
      ensures this.bus == bus && bus.memory == old(bus.memory) && bus.log == old(bus.log)
      ensures State().r == Stepping.RESET_REGISTERS && cycles == 0
      ensures lines == Machine.Lines(false, false, false, false)
    {
      this.bus := bus;
      regs := Stepping.RESET_REGISTERS;
      cycles := 0;
      lines := Machine.Lines(false, false, false, false);
      spent := 0;
      flagsModified := false;
    }

    method Reset()
      modifies this
      ensures State() == Stepping.Reset(old(State()))
    {
      regs := Stepping.RESET_REGISTERS;
      cycles := 0;
      lines := lines.(nmiPending := false, intPulse := false);
    }

    // ---- Bus helpers ----

    method MachineCycle(address: word, t: nat)
      modifies this, bus
      ensures State() == Machine.MachineCycle(bus.host, old(State()), address, t)
    {
      var waits := bus.OnMCycle(cycles, address, t);
      cycles := cycles + t + waits;
      spent := spent + t;
    }

    method Idle(address: word, t: nat)
      modifies this, bus
      ensures State() == Machine.Idle(bus.host, old(State()), address, t)
    {
      var k := 0;
      while k < t
        invariant k <= t
        invariant Machine.Idle(bus.host, State(), address, t - k) == Machine.Idle(bus.host, old(State()), address, t)
      {
        MachineCycle(address, 1);
        k := k + 1;
      }
    }

    method IncR()
      modifies this
      ensures State() == Machine.IncR(old(State()))
    {
      regs := regs.IncR();
    }

    method WriteFlags(f: Flags)
      modifies this
      ensures State() == Machine.WithFlags(old(State()), f)
    {
      regs := regs.(f := f);
      flagsModified := true;
    }

    method Read8(address: word) returns (value: byte)
      modifies this, bus
      ensures State() == Machine.Read(bus.host, old(State()), address)
      ensures value == old(bus.memory[address])
    {
      MachineCycle(address, 3);
      value := bus.ReadMemory(address);
    }

    method Write8(address: word, value: byte)
      modifies this, bus
      ensures State() == Machine.Write(bus.host, old(State()), address, value)
    {
      MachineCycle(address, 3);
      bus.WriteMemory(address, value);
    }

    method FetchOpcode() returns (op: byte)
      modifies this, bus
      ensures State() == Machine.Fetch(bus.host, old(State()))
      ensures op == old(bus.memory[regs.pc])
    {
      var pc := regs.pc;
      MachineCycle(pc, 4);
      op := bus.ReadMemory(pc);
      regs := regs.(pc := Word(regs.pc + 1));
      IncR();
    }

    method FetchImmediate() returns (value: byte)
      modifies this, bus
      ensures State() == Machine.Imm(bus.host, old(State()))
      ensures value == Machine.ImmValue(old(State()))
    {
      value := Read8(regs.pc);
      regs := regs.(pc := Word(regs.pc + 1));
    }

    method FetchImmediate16() returns (value: word)
      modifies this, bus
      ensures State() == Machine.Imm16(bus.host, old(State()))
      ensures value == Machine.Imm16Value(old(State()))
    {
      var lo := FetchImmediate();
      var hi := FetchImmediate();
      value := Pair(hi, lo);
    }

    method IoIn(port: word) returns (value: byte)
      modifies this, bus
      ensures State() == Machine.In(bus.host, old(State()), port)
      ensures value == Machine.InValue(bus.host, old(State()), port)
    {
      MachineCycle(port, 4);
      value := bus.ReadIo(port);
    }

    method IoOut(port: word, value: byte)
      modifies this, bus
      ensures State() == Machine.Out(bus.host, old(State()), port, value)
    {
      MachineCycle(port, 4);
      bus.WriteIo(port, value);
    }

    method Push16(value: word)
      modifies this, bus
      ensures State() == Machine.Push(bus.host, old(State()), value)
    {
      hide Machine.Write, Word, Hi, Lo;
      regs := regs.(sp := Word(regs.sp - 1));
      Write8(regs.sp, Hi(value));
      regs := regs.(sp := Word(regs.sp - 1));
      Write8(regs.sp, Lo(value));
    }

    method Pop16() returns (value: word)
      modifies this, bus
      ensures State() == Machine.Pop(bus.host, old(State()))
      ensures value == Machine.PopValue(old(State()))
    {
      hide Machine.Read, Word, Pair;
      var lo := Read8(regs.sp);
      regs := regs.(sp := Word(regs.sp + 1));
      var hi := Read8(regs.sp);
      regs := regs.(sp := Word(regs.sp + 1));
      value := Pair(hi, lo);
    }

    // ---- Arithmetic: flags by exclusive-or of operands and result ----

    method AluAdd(value: byte, withCarry: bool)
      modifies this
      ensures State() == Isa.Accumulate(old(State()), if withCarry then 1 else 0, value)
    {
      hide Bit, XorBit, Alu.AddFlags, Alu.AddResult, Alu.Sz53, Byte, Num, And, Or, Xor, Alu.SubFlags, Alu.SubResult,
        Alu.CpFlags, Alu.AndFlags, Alu.Sz53p;
      var c := withCarry && regs.f.c;
      XorFlags.AddByXor(regs.a, value, c);
      var a: int := regs.a;
      var sum := a + value + Num(c);
      var result := Byte(sum);
      WriteFlags(Alu.Sz53(result).(
        h := XorBit(a, value, sum, 4), p := Bit(a, 7) == Bit(value, 7) && Bit(a, 7) != Bit(sum, 7), c := Bit(sum, 8)));
      regs := regs.(a := result);
    }

    // diff is a uint16_t
    method AluSub(value: byte, withCarry: bool)
      modifies this
      ensures State() == Isa.Accumulate(old(State()), if withCarry then 3 else 2, value)
    {
      hide Bit, XorBit, Alu.SubFlags, Alu.SubResult, Alu.Sz53, Word, Lo, Num, And, Or, Xor, Alu.AddFlags, Alu.AddResult,
        Alu.CpFlags, Alu.AndFlags, Alu.Sz53p;
      var c := withCarry && regs.f.c;
      XorFlags.SubByXor(regs.a, value, c);
      var a: int := regs.a;
      var diff := Word(a - value - Num(c));
      var result := Lo(diff);
      WriteFlags(Alu.Sz53(result).(
        h := XorBit(a, value, diff, 4), p := Bit(a, 7) != Bit(value, 7) && Bit(a, 7) != Bit(diff, 7), n := true,
        c := Bit(diff, 8)));
      regs := regs.(a := result);
    }

    method AluCp(value: byte)
      modifies this
      ensures State() == Isa.Accumulate(old(State()), 7, value)
    {
      hide Bit, XorBit, Alu.CpFlags, Word, Lo, And, Or, Xor, Alu.AddFlags, Alu.AddResult, Alu.SubFlags, Alu.SubResult,
        Alu.AndFlags, Alu.Sz53p;
      XorFlags.CpByXor(regs.a, value);
      var a: int := regs.a;
      var diff := Word(a - value);
      var result := Lo(diff);
      WriteFlags(Flags(
        s := result >= 0x80, z := result == 0, y := Bit(value, 5), h := XorBit(a, value, diff, 4), x := Bit(value, 3),
        p := Bit(a, 7) != Bit(value, 7) && Bit(a, 7) != Bit(diff, 7), n := true, c := Bit(diff, 8)));
    }

    method AluAnd(value: byte)
      modifies this
      ensures State() == Isa.Accumulate(old(State()), 4, value)
    {
      hide And, Or, Xor, Alu.AddFlags, Alu.AddResult, Alu.SubFlags, Alu.SubResult, Alu.CpFlags, Alu.Sz53p;
      regs := regs.(a := And(regs.a, value));
      WriteFlags(Alu.Sz53p(regs.a).(h := true));
    }

    method AluXor(value: byte)
      modifies this
      ensures State() == Isa.Accumulate(old(State()), 5, value)
    {
      hide And, Or, Xor, Alu.AddFlags, Alu.AddResult, Alu.SubFlags, Alu.SubResult, Alu.CpFlags, Alu.Sz53p;
      regs := regs.(a := Xor(regs.a, value));
      WriteFlags(Alu.Sz53p(regs.a));
    }

    method AluOr(value: byte)
      modifies this
      ensures State() == Isa.Accumulate(old(State()), 6, value)
    {
      hide And, Or, Xor, Alu.AddFlags, Alu.AddResult, Alu.SubFlags, Alu.SubResult, Alu.CpFlags, Alu.Sz53p;
      regs := regs.(a := Or(regs.a, value));
      WriteFlags(Alu.Sz53p(regs.a));
    }

    method AluInc(value: byte) returns (result: byte)
      modifies this
      ensures State() == Machine.WithFlags(old(State()), Alu.IncFlags(value, old(regs.f)))
      ensures result == Byte(value + 1)
    {
      hide Bit, Alu.IncFlags;
      result := Byte(value + 1);
      IncParts(value, regs.f);
      WriteFlags(Alu.Sz53(result).(h := result % 0x10 == 0, p := result == 0x80, c := regs.f.c));
    }

    method AluDec(value: byte) returns (result: byte)
      modifies this
      ensures State() == Machine.WithFlags(old(State()), Alu.DecFlags(value, old(regs.f)))
      ensures result == Byte(value - 1)
    {
      hide Bit, Alu.DecFlags;
      result := Byte(value - 1);
      DecParts(value, regs.f);
      WriteFlags(Alu.Sz53(result).(h := result % 0x10 == 0xF, p := result == 0x7F, n := true, c := regs.f.c));
    }

    // The 16-bit additions idle for seven T-states first.
    method AluAdd16(dest: word, value: word) returns (result: word)
      modifies this, bus
      ensures State() == Machine.SetWz(Machine.WithFlags(
        Machine.Idle(bus.host, old(State()), old(regs.Ir()), 7),
        Alu.Add16Flags(dest, value, old(regs.f))), Word(dest + 1))
      ensures result == Word(dest + value)
    {
      hide Machine.Idle, Bit, XorBit, Alu.Add16Flags, Hi, Word;
      Idle(regs.Ir(), 7);
      var a: int := dest;
      var sum := a + value;
      result := Word(sum);
      XorFlags.AddByXor16(dest, value, regs.f);
      WriteFlags(Flags(
        s := regs.f.s, z := regs.f.z, y := Bit(Hi(result), 5),
        h := XorBit(a, value, sum, 12), x := Bit(Hi(result), 3),
        p := regs.f.p, n := false, c := Bit(sum, 16)));
      regs := regs.(wz := Word(a as int + 1));
    }

    method AluAdc16(value: word)
      modifies this, bus
      ensures State() == Isa.AdcHl(bus.host, old(State()), value)
    {
      hide Machine.Idle, Bit, XorBit, Alu.Adc16Flags, Num, Hi, Lo, Pair, Word;
      Idle(regs.Ir(), 7);
      var hl: int := regs.Hl();
      var sum := hl + value + Num(regs.f.c);
      var result := Word(sum);
      XorFlags.AdcByXor(regs.Hl(), value, regs.f.c);
      WriteFlags(Flags(
        s := result >= 0x8000, z := result == 0, y := Bit(Hi(result), 5),
        h := XorBit(hl, value, sum, 12), x := Bit(Hi(result), 3),
        p := Bit(hl, 15) == Bit(value, 15) && Bit(hl, 15) != Bit(sum, 15),
        n := false, c := Bit(sum, 16)));
      regs := regs.(wz := Word(hl + 1));
      regs := regs.SetHl(result);
    }

    // diff is a uint32_t
    method AluSbc16(value: word)
      modifies this, bus
      ensures State() == Isa.SbcHl(bus.host, old(State()), value)
    {
      hide Machine.Idle, Bit, XorBit, Alu.Sbc16Flags, Alu.Sbc16Result, Num, Hi, Lo, Pair, Word;
      Idle(regs.Ir(), 7);
      var hl: int := regs.Hl();
      var diff := (hl - value - Num(regs.f.c)) % 0x1_0000_0000;
      var result := Word(diff);
      XorFlags.SbcByXor(regs.Hl(), value, regs.f.c);
      WriteFlags(Flags(
        s := result >= 0x8000, z := result == 0, y := Bit(Hi(result), 5),
        h := XorBit(hl, value, diff, 12), x := Bit(Hi(result), 3),
        p := Bit(hl, 15) != Bit(value, 15) && Bit(hl, 15) != Bit(diff, 15),
        n := true, c := Bit(diff, 16)));
      regs := regs.(wz := Word(hl + 1));
      regs := regs.SetHl(result);
    }

    method AluDaa()
      modifies this
      ensures State() == Isa.AccumulatorOp(old(State()), 4)
    {
      hide Bit, Byte, Alu.DaaFlags, Alu.DaaResult, Alu.DaaCorrection, Alu.Sz53p, Alu.Rotate, Alu.RotateAFlags,
        Alu.CplFlags, Alu.ScfFlags, Alu.CcfFlags;
      var carry, half, sub := regs.f.c, regs.f.h, regs.f.n;
      var correction := DaaCorrection(regs.a, carry, half, regs.f);
      var newA := Byte(if sub then regs.a - correction else regs.a + correction);
      XorFlags.DaaByXor(regs.a, regs.f);
      WriteFlags(Alu.Sz53p(newA).(h := Bit(regs.a, 4) != Bit(newA, 4), n := sub, c := carry || regs.a > 0x99));
      regs := regs.(a := newA);
    }

    static method DaaCorrection(a: byte, carry: bool, half: bool, ghost f: Flags) returns (correction: byte)
      requires carry == f.c && half == f.h
      ensures correction == Alu.DaaCorrection(a, f)
    {
      correction := 0;
      if half || a % 0x10 > 9 { correction := correction + 6; }
      if carry || a > 0x99 { correction := correction + 0x60; }
    }

    method AluRlca()
      modifies this
      ensures State() == Isa.AccumulatorOp(old(State()), 0)
    {
      hide Alu.RotateAFlags, Alu.DaaResult, Alu.DaaFlags, Alu.CplFlags, Alu.ScfFlags, Alu.CcfFlags;
      var c := regs.a / 0x80;
      RotateA(0, Byte(2 * regs.a) + c, c != 0);
    }

    method AluRrca()
      modifies this
      ensures State() == Isa.AccumulatorOp(old(State()), 1)
    {
      hide Alu.RotateAFlags, Alu.DaaResult, Alu.DaaFlags, Alu.CplFlags, Alu.ScfFlags, Alu.CcfFlags;
      var c := regs.a % 2;
      RotateA(1, regs.a / 2 + 0x80 * c, c != 0);
    }

    method AluRla()
      modifies this
      ensures State() == Isa.AccumulatorOp(old(State()), 2)
    {
      hide Alu.RotateAFlags, Alu.DaaResult, Alu.DaaFlags, Alu.CplFlags, Alu.ScfFlags, Alu.CcfFlags;
      RotateA(2, Byte(2 * regs.a) + Num(regs.f.c), regs.a / 0x80 != 0);
    }

    method AluRra()
      modifies this
      ensures State() == Isa.AccumulatorOp(old(State()), 3)
    {
      hide Alu.RotateAFlags, Alu.DaaResult, Alu.DaaFlags, Alu.CplFlags, Alu.ScfFlags, Alu.CcfFlags;
      RotateA(3, regs.a / 2 + 0x80 * Num(regs.f.c), regs.a % 2 != 0);
    }

    // The common end of the accumulator rotates.
    method RotateA(ghost k: nat, a: byte, newC: bool)
      requires a == Alu.Rotate(k, regs.a, regs.f.c) && newC == Alu.RotateCarry(k, regs.a)
      modifies this
      ensures State() == Isa.WithA(old(State()), a, Alu.RotateAFlags(k, old(regs.a), old(regs.f)))
    {
      hide Bit, Alu.Rotate, Alu.RotateCarry;
      regs := regs.(a := a);
      WriteFlags(Flags(
        s := regs.f.s, z := regs.f.z, y := Bit(a, 5), h := false, x := Bit(a, 3),
        p := regs.f.p, n := false, c := newC));
    }

    // RLC RRC RL RR SLA SRA SLL SRL
    method CbShift(k: nat, v: byte) returns (r: byte)
      requires k < 8
      modifies this
      ensures State() == Machine.WithFlags(old(State()), Alu.RotateFlags(k, v, old(regs.f.c)))
      ensures r == Alu.Rotate(k, v, old(regs.f.c))
    {
      hide Alu.Sz53p, Alu.Rotate, Alu.RotateCarry;
      var newC;
      r, newC := Shifted(k, v, regs.f.c);
      WriteFlags(Alu.Sz53p(r).(c := newC));
    }

    static method Shifted(k: nat, v: byte, carry: bool) returns (r: byte, newC: bool)
      requires k < 8
      ensures r == Alu.Rotate(k, v, carry) && newC == Alu.RotateCarry(k, v)
    {
      match k {
        case 0 => r, newC := Byte(2 * v) + v / 0x80, v / 0x80 != 0;
        case 1 => r, newC := v / 2 + 0x80 * (v % 2), v % 2 != 0;
        case 2 => r, newC := Byte(2 * v) + Num(carry), v / 0x80 != 0;
        case 3 => r, newC := v / 2 + 0x80 * Num(carry), v % 2 != 0;
        case 4 => r, newC := Byte(2 * v), v / 0x80 != 0;
        case 5 => r, newC := v / 2 + v / 0x80 * 0x80, v % 2 != 0;
        case 6 => r, newC := Byte(2 * v) + 1, v / 0x80 != 0;
        case 7 => r, newC := v / 2, v % 2 != 0;
      }
    }

    method CbBit(k: nat, v: byte, source: byte)
      requires k < 8
      modifies this
      ensures State() == Machine.WithFlags(old(State()), Alu.BitFlags(k, v, source, old(regs.f)))
    {
      var f := NO_FLAGS.(c := regs.f.c, h := true);
      if !Bit(v, k) { f := f.(z := true, p := true); }
      if k == 7 && Bit(v, 7) { f := f.(s := true); }
      f := f.(y := Bit(source, 5), x := Bit(source, 3));
      WriteFlags(f);
    }

    // ---- Block instructions: each returns its T-states, both opcode fetches included ----

    // The repeat: PC goes back onto the instruction, and WZ onto its second byte.
    method RewindWz(address: word)
      modifies this, bus
      ensures State() == Isa.RewindWz(bus.host, old(State()), address)
    {
      hide Machine.Idle;
      regs := regs.(pc := Word(regs.pc - 2), wz := Word(Word(regs.pc - 2) + 1));
      Idle(address, 5);
    }

    method Rewind(address: word)
      modifies this, bus
      ensures State() == Isa.Rewind(bus.host, old(State()), address)
    {
      hide Machine.Idle;
      regs := regs.(pc := Word(regs.pc - 2));
      Idle(address, 5);
    }

    method BlockLd(delta: int, repeating: bool) returns (t: nat)
      modifies this, bus
      ensures State() == Isa.BlockLd(bus.host, old(State()), delta, repeating)
      ensures t == spent - old(spent) + 8
    {
      hide Machine.Idle, Machine.Read, Machine.Write, Word, Byte, Hi, Lo, Pair, Bit, Isa.RewindWz;
      var v := Read8(regs.Hl());
      var destination := regs.De();
      Write8(destination, v);
      Idle(regs.De(), 2);
      regs := regs.SetHl(Word(regs.Hl() + delta)).SetDe(Word(regs.De() + delta)).SetBc(Word(regs.Bc() - 1));
      var n := Byte(v + regs.a);
      var left := regs.Bc();
      SplitWord(Word(old(regs.Bc()) - 1));
      WriteFlags(Flags(s := regs.f.s, z := regs.f.z, y := Bit(n, 1), h := false, x := Bit(n, 3),
                       p := left != 0, n := false, c := regs.f.c));
      if repeating && left != 0 {
        RewindWz(destination);
        return 21;
      }
      return 16;
    }

    method BlockCp(delta: int, repeating: bool) returns (t: nat)
      modifies this, bus
      ensures State() == Isa.BlockCp(bus.host, old(State()), delta, repeating)
      ensures t == spent - old(spent) + 8
    {
      hide Machine.Idle, Machine.Read, Word, Hi, Lo, Pair, Alu.BlockCpFlags, Isa.RewindWz;
      var v := Read8(regs.Hl());
      var source := regs.Hl();
      Idle(source, 5);
      regs := regs.(wz := Word(regs.wz + delta));
      regs := regs.SetHl(Word(regs.Hl() + delta)).SetBc(Word(regs.Bc() - 1));
      var left := regs.Bc();
      SplitWord(Word(old(regs.Bc()) - 1));
      var f, found := Compared(v, regs.a, left, regs.f);
      WriteFlags(f);
      if repeating && left != 0 && !found {
        RewindWz(source);
        return 21;
      }
      return 16;
    }

    // The comparison of CPI, through a 16-bit difference.
    static method Compared(v: byte, accumulator: byte, left: word, f: Flags) returns (g: Flags, found: bool)
      ensures g == Alu.BlockCpFlags(v, accumulator, left, f) && found == (v == accumulator)
    {
      hide Word, Byte, Lo, Bit, XorBit, Alu.BlockCpFlags;
      var a: int := accumulator;
      var diff := Word(a - v);
      var result := Lo(diff);
      var half := XorBit(a, v, diff, 4);
      XorFlags.CompareByXor(v, accumulator, left, f);
      var n := Byte(result as int - Num(half));
      g := Flags(s := result >= 0x80, z := result == 0, y := Bit(n, 1), h := half, x := Bit(n, 3),
                 p := left != 0, n := true, c := f.c);
      found := result == 0;
    }

    // HL, the flags and the repeat of an I/O iteration.
    method BlockIoEnd(hl: word, f: Flags, address: word, repeating: bool) returns (t: nat)
      modifies this, bus
      ensures State() == Isa.BlockIoEnd(bus.host, old(State()), hl, f, address, repeating)
      ensures t == spent - old(spent) + 16
    {
      hide Hi, Lo, Isa.Rewind;
      regs := regs.SetHl(hl);
      WriteFlags(f);
      if repeating && regs.b != 0 {
        Rewind(address);
        return 21;
      }
      return 16;
    }

    static method IoFlags(v: byte, sum: nat, b: byte) returns (f: Flags)
      ensures f == Alu.BlockIoFlags(v, sum, b)
    {
      hide Xor, EvenParity, Bit;
      f := Alu.Sz53(b).(p := EvenParity(Xor(sum % 8, b)));
      if v >= 0x80 { f := f.(n := true); }
      if sum > 0xFF { f := f.(h := true, c := true); }
    }

    method BlockIn(delta: int, repeating: bool) returns (t: nat)
      modifies this, bus
      ensures State() == Isa.BlockIn(bus.host, old(State()), delta, repeating)
      ensures t == spent - old(spent) + 8
    {
      hide Machine.Idle, Machine.In, Machine.InValue, Machine.Write, Word, Byte, Hi, Lo, Pair, Isa.BlockIoEnd,
        Alu.BlockIoFlags;
      Idle(regs.Ir(), 1);
      var port := regs.Bc();
      var address := regs.Hl();
      var v := IoIn(port);
      regs := regs.(wz := Word(port + delta), b := Byte(regs.b - 1));
      Write8(address, v);
      var sum := v + Byte(regs.c + delta);
      var f := IoFlags(v, sum, regs.b);
      t := BlockIoEnd(Word(address + delta), f, address, repeating);
    }

    method BlockOut(delta: int, repeating: bool) returns (t: nat)
      modifies this, bus
      ensures State() == Isa.BlockOut(bus.host, old(State()), delta, repeating)
      ensures t == spent - old(spent) + 8
    {
      hide Machine.Idle, Machine.Read, Machine.Out, Word, Byte, Hi, Lo, Pair, Isa.BlockIoEnd, Alu.BlockIoFlags;
      Idle(regs.Ir(), 1);
      var v := Read8(regs.Hl());
      regs := regs.(b := Byte(regs.b - 1));
      var port := regs.Bc();
      IoOut(port, v);
      regs := regs.(wz := Word(port + delta));
      var hl := Word(regs.Hl() + delta);
      var sum := v + Lo(hl);
      var f := IoFlags(v, sum, regs.b);
      t := BlockIoEnd(hl, f, port, repeating);
    }

    // ---- Branch helpers ----

    // The part of JR and DJNZ after a taken test.
    method BranchBy(d: byte)
      modifies this, bus
      ensures State() == Isa.Branch(bus.host, old(State()), d)
    {
      hide Machine.Idle, Word, Signed8;
      Idle(Word(regs.pc - 1), 5);
      regs := regs.(pc := Word(regs.pc + Signed8(d)));
      regs := regs.(wz := regs.pc);
    }

    method JrIf(taken: bool) returns (t: nat)
      modifies this, bus
      ensures State() == Isa.RelativeJump(bus.host, old(State()), taken)
      ensures t == spent - old(spent) + 4
    {
      hide Machine.Imm, Isa.Branch;
      var d := FetchImmediate();
      if taken {
        BranchBy(d);
        t := 12;
      } else {
        t := 7;
      }
    }

    method JpCond(taken: bool)
      modifies this, bus
      ensures State() == Isa.JumpIf(bus.host, old(State()), taken)
    {
      hide Machine.Imm16, Machine.Imm16Value;
      var target := FetchImmediate16();
      regs := regs.(wz := target);
      if taken { regs := regs.(pc := target); }
    }

    method CallCond(taken: bool)
      modifies this, bus
      ensures State() == Isa.CallIf(bus.host, old(State()), taken)
    {
      hide Machine.Imm16, Machine.Imm16Value, Machine.Idle, Machine.Push, Word;
      var target := FetchImmediate16();
      regs := regs.(wz := target);
      if taken {
        Idle(Word(regs.pc - 1), 1);
        Push16(regs.pc);
        regs := regs.(pc := target);
      }
    }

    method CallIf(taken: bool) returns (t: nat)
      modifies this, bus
      ensures State() == Isa.CallIf(bus.host, old(State()), taken)
      ensures t == spent - old(spent) + 4
    {
      CallCond(taken);
      t := if taken then 17 else 10;
    }

    method Ret()
      modifies this, bus
      ensures State() == Isa.Return(bus.host, old(State()))
    {
      hide Machine.Pop, Machine.PopValue;
      var target := Pop16();
      regs := regs.(pc := target, wz := target);
    }

    // RET cc after its idle T-state.
    method RetIf(taken: bool) returns (t: nat)
      modifies this, bus
      ensures State() == if taken then Isa.Return(bus.host, old(State())) else old(State())
      ensures t == spent - old(spent) + 5
    {
      if taken {
        Ret();
        t := 11;
      } else {
        t := 5;
      }
    }

    method Rst(target: word)
      modifies this, bus
      ensures State() == Isa.Restart(bus.host, old(State()), target)
    {
      hide Machine.Idle, Machine.Push;
      Idle(regs.Ir(), 1);
      Push16(regs.pc);
      regs := regs.(pc := target, wz := target);
    }

    // ---- Loads between memory and A or a pair ----

    method StoreA(a: word)
      modifies this, bus
      ensures State() == Isa.StoreA(bus.host, old(State()), a)
    {
      hide Machine.Write, Word, Lo, Pair;
      Write8(a, regs.a);
      regs := regs.(wz := Pair(regs.a, Lo(Word(a + 1))));
    }

    method LoadA(a: word)
      modifies this, bus
      ensures State() == Isa.LoadA(bus.host, old(State()), a)
    {
      hide Machine.Read, Word;
      var v := Read8(a);
      regs := regs.(a := v);
      regs := regs.(wz := Word(a as int + 1));
    }

    // LD (nn),rr
    method StoreWord(lo: byte, hi: byte)
      modifies this, bus
      ensures State() == Isa.StorePair(bus.host, old(State()), Pair(hi, lo))
    {
      hide Machine.Imm16, Machine.Imm16Value, Machine.Write, Word, Hi, Lo, Pair;
      JoinBytes(hi, lo);
      var a := FetchImmediate16();
      Write8(a, lo);
      Write8(Word(a as int + 1), hi);
      regs := regs.(wz := Word(a as int + 1));
    }

    // LD rr,(nn), up to the register
    method LoadWord() returns (lo: byte, hi: byte)
      modifies this, bus
      ensures State() == Isa.AtPair(bus.host, old(State()))
      ensures Pair(hi, lo) == Isa.WordAt(old(bus.memory), Machine.Imm16Value(old(State())))
    {
      hide Machine.Imm16, Machine.Imm16Value, Machine.Read, Word, Pair;
      var a := FetchImmediate16();
      lo := Read8(a);
      hi := Read8(Word(a as int + 1));
      regs := regs.(wz := Word(a as int + 1));
    }

    // reg8_ptr(), read and written through.
    function Reg8(k: nat): (v: byte)
      requires k < 8 && k != 6
      reads this
      ensures v == Isa.GetReg(Isa.HL, regs, k)
    {
      match k
      case 0 => regs.b
      case 1 => regs.c
      case 2 => regs.d
      case 3 => regs.e
      case 4 => regs.h
      case 5 => regs.l
      case _ => regs.a
    }

    method SetReg8(k: nat, v: byte)
      requires k < 8 && k != 6
      modifies this
      ensures State() == old(State()).(r := Isa.SetReg(Isa.HL, old(regs), k, v))
    {
      match k {
        case 0 => regs := regs.(b := v);
        case 1 => regs := regs.(c := v);
        case 2 => regs := regs.(d := v);
        case 3 => regs := regs.(e := v);
        case 4 => regs := regs.(h := v);
        case 5 => regs := regs.(l := v);
        case 7 => regs := regs.(a := v);
      }
    }

    method IncHl()
      modifies this, bus
      ensures State() == Isa.StepMem(bus.host, Isa.HL, old(State()), 1)
    {
      hide Machine.Read, Machine.Idle, Machine.Write, Alu.IncFlags, Byte, Pair;
      var v := Read8(regs.Hl());
      v := AluInc(v);
      Idle(regs.Hl(), 1);
      Write8(regs.Hl(), v);
    }

    method DecHl()
      modifies this, bus
      ensures State() == Isa.StepMem(bus.host, Isa.HL, old(State()), -1)
    {
      hide Machine.Read, Machine.Idle, Machine.Write, Alu.DecFlags, Byte, Pair;
      var v := Read8(regs.Hl());
      v := AluDec(v);
      Idle(regs.Hl(), 1);
      Write8(regs.Hl(), v);
    }

    method Cpl()
      modifies this
      ensures State() == Isa.AccumulatorOp(old(State()), 5)
    {
      hide Bit, Alu.Rotate, Alu.RotateAFlags, Alu.DaaResult, Alu.DaaFlags, Alu.ScfFlags, Alu.CcfFlags;
      Complement(regs.a);
      regs := regs.(a := 0xFF - regs.a);
      WriteFlags(regs.f.(y := Bit(regs.a, 5), h := true, x := Bit(regs.a, 3), n := true));
    }

    method Scf()
      modifies this
      ensures State() == Isa.AccumulatorOp(old(State()), 6)
    {
      hide Isa.AccumulatorOp, Bit;
      Isa.CarryFlags(State());
      var f, q, a := regs.f, regs.q, regs.a;
      WriteFlags(Flags(
        s := f.s, z := f.z, y := f.y != q.y || Bit(a, 5), h := false, x := f.x != q.x || Bit(a, 3),
        p := f.p, n := false, c := true));
    }

    method Ccf()
      modifies this
      ensures State() == Isa.AccumulatorOp(old(State()), 7)
    {
      hide Isa.AccumulatorOp, Bit;
      Isa.CarryFlags(State());
      var f, q, a := regs.f, regs.q, regs.a;
      WriteFlags(Flags(
        s := f.s, z := f.z, y := f.y != q.y || Bit(a, 5), h := f.c, x := f.x != q.x || Bit(a, 3),
        p := f.p, n := false, c := !f.c));
    }

    // ADD HL,rr
    method AddHl(value: word, ghost p: nat)
      requires p < 4 && value == Isa.GetPair(Isa.HL, regs, p)
      modifies this, bus
      ensures State() == Isa.AddPair(bus.host, Isa.HL, old(State()), p)
    {
      hide Machine.Idle, Word, Pair, Hi, Lo, Alu.Add16Flags, Isa.GetPair;
      var hl := AluAdd16(regs.Hl(), value);
      regs := regs.SetHl(hl);
    }

    // ---- The unprefixed opcodes ----

    // The idle T-states before the switch: INC/DEC rr and LD SP,HL two, RET cc and PUSH one.
    method OpcodeDelay(op: byte)
      modifies this, bus
      ensures State() ==
        if (op < 0x40 && op % 8 == 3) || op == 0xF9 then
          Machine.Idle(bus.host, old(State()), old(regs.Ir()), 2)
        else if op >= 0xC0 && (op % 8 == 0 || op % 0x10 == 5) then
          Machine.Idle(bus.host, old(State()), old(regs.Ir()), 1)
        else
          old(State())
    {
      hide Machine.Idle;
      if (op < 0x40 && (op % 0x10 == 3 || op % 0x10 == 0xB)) || op == 0xF9 {
        Idle(regs.Ir(), 2);
      }
      if op >= 0xC0 && (op % 8 == 0 || op % 0x10 == 5) {
        Idle(regs.Ir(), 1);
      }
    }

    // 0x00..0x07
    method Ops00(op: byte) returns (t: nat)
      requires 0x00 <= op < 0x08
      modifies this, bus
      ensures State() == Isa.Block0(bus.host, Isa.HL, old(State()), op)
      ensures t == spent - old(spent) + 4
    {
      hide Machine.Idle, Machine.MachineCycle, Machine.Read, Machine.Write, Machine.Imm, Machine.ImmValue,
        Machine.Imm16, Machine.Imm16Value, Word, Byte, Hi, Lo, Pair, Bit, Alu.IncFlags, Alu.DecFlags,
        Alu.Add16Flags, Isa.AccumulatorOp, Isa.Branch, Isa.RelativeJump, Isa.Djnz, Isa.AddPair, Isa.StorePair,
        Isa.AtPair, Isa.WordAt, Isa.StoreA, Isa.LoadA, Isa.StepMem, Isa.StoreImm, Isa.GetIndex,
        Isa.SetIndex, Isa.Condition, Isa.ExAf;
      t := Timing.BaseTFor(op);
      OpcodeDelay(op);
      match op {
        case 0x00 =>
        case 0x01 => var w := FetchImmediate16(); regs := regs.SetBc(w);
        case 0x02 => StoreA(regs.Bc());
        case 0x03 => regs := regs.SetBc(Word(regs.Bc() + 1));
        case 0x04 => var v := AluInc(regs.b); regs := regs.(b := v);
        case 0x05 => var v := AluDec(regs.b); regs := regs.(b := v);
        case 0x06 => var n := FetchImmediate(); regs := regs.(b := n);
        case 0x07 => AluRlca();
      }
    }

    // 0x08..0x0F
    method Ops08(op: byte) returns (t: nat)
      requires 0x08 <= op < 0x10
      modifies this, bus
      ensures State() == Isa.Block0(bus.host, Isa.HL, old(State()), op)
      ensures t == spent - old(spent) + 4
    {
      hide Machine.Idle, Machine.MachineCycle, Machine.Read, Machine.Write, Machine.Imm, Machine.ImmValue,
        Machine.Imm16, Machine.Imm16Value, Word, Byte, Hi, Lo, Pair, Bit, Alu.IncFlags, Alu.DecFlags,
        Alu.Add16Flags, Isa.AccumulatorOp, Isa.Branch, Isa.RelativeJump, Isa.Djnz, Isa.LoadPair, Isa.StorePair,
        Isa.AtPair, Isa.WordAt, Isa.StoreA, Isa.LoadA, Isa.StepMem, Isa.StoreImm, Isa.AddPair;
      t := Timing.BaseTFor(op);
      OpcodeDelay(op);
      match op {
        case 0x08 => regs := regs.(a := regs.aAlt, f := regs.fAlt, aAlt := regs.a, fAlt := regs.f);
        case 0x09 => AddHl(regs.Bc(), 0);
        case 0x0A => LoadA(regs.Bc());
        case 0x0B => regs := regs.SetBc(Word(regs.Bc() - 1));
        case 0x0C => var v := AluInc(regs.c); regs := regs.(c := v);
        case 0x0D => var v := AluDec(regs.c); regs := regs.(c := v);
        case 0x0E => var n := FetchImmediate(); regs := regs.(c := n);
        case 0x0F => AluRrca();
      }
    }

    // 0x10..0x17
    method Ops10(op: byte) returns (t: nat)
      requires 0x10 <= op < 0x18
      modifies this, bus
      ensures State() == Isa.Block0(bus.host, Isa.HL, old(State()), op)
      ensures t == spent - old(spent) + 4
    {
      hide Machine.Idle, Machine.MachineCycle, Machine.Read, Machine.Write, Machine.Imm, Machine.ImmValue,
        Machine.Imm16, Machine.Imm16Value, Word, Byte, Hi, Lo, Pair, Bit, Alu.IncFlags, Alu.DecFlags,
        Alu.Add16Flags, Isa.AccumulatorOp, Isa.Branch, Isa.RelativeJump, Isa.ExAf, Isa.AddPair, Isa.StorePair,
        Isa.AtPair, Isa.WordAt, Isa.StoreA, Isa.LoadA, Isa.StepMem, Isa.StoreImm;
      t := Timing.BaseTFor(op);
      OpcodeDelay(op);
      match op {
        case 0x10 =>
          Idle(regs.Ir(), 1);
          var d := FetchImmediate();
          regs := regs.(b := Byte(regs.b - 1));
          if regs.b != 0 {
            BranchBy(d);
            t := 13;
          } else {
            t := 8;
          }
        case 0x11 => var w := FetchImmediate16(); regs := regs.SetDe(w);
        case 0x12 => StoreA(regs.De());
        case 0x13 => regs := regs.SetDe(Word(regs.De() + 1));
        case 0x14 => var v := AluInc(regs.d); regs := regs.(d := v);
        case 0x15 => var v := AluDec(regs.d); regs := regs.(d := v);
        case 0x16 => var n := FetchImmediate(); regs := regs.(d := n);
        case 0x17 => AluRla();
      }
    }

    // 0x18..0x1F
    method Ops18(op: byte) returns (t: nat)
      requires 0x18 <= op < 0x20
      modifies this, bus
      ensures State() == Isa.Block0(bus.host, Isa.HL, old(State()), op)
      ensures t == spent - old(spent) + 4
    {
      hide Machine.Idle, Machine.MachineCycle, Machine.Read, Machine.Write, Machine.Imm, Machine.ImmValue,
        Machine.Imm16, Machine.Imm16Value, Word, Byte, Hi, Lo, Pair, Bit, Alu.IncFlags, Alu.DecFlags,
        Alu.Add16Flags, Isa.AccumulatorOp, Isa.Branch, Isa.RelativeJump, Isa.ExAf, Isa.Djnz, Isa.LoadPair,
        Isa.StorePair, Isa.AtPair, Isa.WordAt, Isa.StoreA, Isa.LoadA, Isa.StepMem, Isa.StoreImm, Isa.AddPair;
      t := Timing.BaseTFor(op);
      OpcodeDelay(op);
      match op {
        case 0x18 => t := JrIf(true);
        case 0x19 => AddHl(regs.De(), 1);
        case 0x1A => LoadA(regs.De());
        case 0x1B => regs := regs.SetDe(Word(regs.De() - 1));
        case 0x1C => var v := AluInc(regs.e); regs := regs.(e := v);
        case 0x1D => var v := AluDec(regs.e); regs := regs.(e := v);
        case 0x1E => var n := FetchImmediate(); regs := regs.(e := n);
        case 0x1F => AluRra();
      }
    }

    // 0x20..0x27
    method Ops20(op: byte) returns (t: nat)
      requires 0x20 <= op < 0x28
      modifies this, bus
      ensures State() == Isa.Block0(bus.host, Isa.HL, old(State()), op)
      ensures t == spent - old(spent) + 4
    {
      hide Machine.Idle, Machine.MachineCycle, Machine.Read, Machine.Write, Machine.Imm, Machine.ImmValue,
        Machine.Imm16, Machine.Imm16Value, Word, Byte, Hi, Lo, Pair, Bit, Alu.IncFlags, Alu.DecFlags,
        Alu.Add16Flags, Isa.AccumulatorOp, Isa.Branch, Isa.RelativeJump, Isa.ExAf, Isa.Djnz, Isa.AddPair,
        Isa.StorePair, Isa.AtPair, Isa.WordAt, Isa.StoreA, Isa.LoadA, Isa.StepMem, Isa.StoreImm;
      t := Timing.BaseTFor(op);
      OpcodeDelay(op);
      match op {
        case 0x20 => t := JrIf(!regs.f.z);
        case 0x21 => var w := FetchImmediate16(); regs := regs.SetHl(w);
        case 0x22 => StoreWord(regs.l, regs.h);
        case 0x23 => regs := regs.SetHl(Word(regs.Hl() + 1));
        case 0x24 => var v := AluInc(regs.h); regs := regs.(h := v);
        case 0x25 => var v := AluDec(regs.h); regs := regs.(h := v);
        case 0x26 => var n := FetchImmediate(); regs := regs.(h := n);
        case 0x27 => AluDaa();
      }
    }

    // 0x28..0x2F
    method Ops28(op: byte) returns (t: nat)
      requires 0x28 <= op < 0x30
      modifies this, bus
      ensures State() == Isa.Block0(bus.host, Isa.HL, old(State()), op)
      ensures t == spent - old(spent) + 4
    {
      hide Machine.Idle, Machine.MachineCycle, Machine.Read, Machine.Write, Machine.Imm, Machine.ImmValue,
        Machine.Imm16, Machine.Imm16Value, Word, Byte, Hi, Lo, Pair, Bit, Alu.IncFlags, Alu.DecFlags,
        Alu.Add16Flags, Isa.AccumulatorOp, Isa.Branch, Isa.RelativeJump, Isa.ExAf, Isa.Djnz, Isa.LoadPair,
        Isa.StorePair, Isa.AtPair, Isa.WordAt, Isa.StoreA, Isa.LoadA, Isa.StepMem, Isa.StoreImm, Isa.AddPair;
      t := Timing.BaseTFor(op);
      OpcodeDelay(op);
      match op {
        case 0x28 => t := JrIf(regs.f.z);
        case 0x29 => AddHl(regs.Hl(), 2);
        case 0x2A => var lo, hi := LoadWord(); JoinBytes(hi, lo); regs := regs.(l := lo, h := hi);
        case 0x2B => regs := regs.SetHl(Word(regs.Hl() - 1));
        case 0x2C => var v := AluInc(regs.l); regs := regs.(l := v);
        case 0x2D => var v := AluDec(regs.l); regs := regs.(l := v);
        case 0x2E => var n := FetchImmediate(); regs := regs.(l := n);
        case 0x2F => Cpl();
      }
    }

    // 0x30..0x37
    method Ops30(op: byte) returns (t: nat)
      requires 0x30 <= op < 0x38
      modifies this, bus
      ensures State() == Isa.Block0(bus.host, Isa.HL, old(State()), op)
      ensures t == spent - old(spent) + 4
    {
      hide Machine.Idle, Machine.MachineCycle, Machine.Read, Machine.Write, Machine.Imm, Machine.ImmValue,
        Machine.Imm16, Machine.Imm16Value, Word, Byte, Hi, Lo, Pair, Bit, Alu.IncFlags, Alu.DecFlags,
        Alu.Add16Flags, Isa.AccumulatorOp, Isa.Branch, Isa.RelativeJump, Isa.ExAf, Isa.Djnz, Isa.AddPair,
        Isa.StorePair, Isa.AtPair, Isa.WordAt, Isa.StoreA, Isa.LoadA, Isa.StepReg, Isa.LoadImm, Isa.StepMem;
      t := Timing.BaseTFor(op);
      OpcodeDelay(op);
      match op {
        case 0x30 => t := JrIf(!regs.f.c);
        case 0x31 => var w := FetchImmediate16(); regs := regs.(sp := w);
        case 0x32 => var a := FetchImmediate16(); StoreA(a);
        case 0x33 => regs := regs.(sp := Word(regs.sp + 1));
        case 0x34 => IncHl();
        case 0x35 => DecHl();
        case 0x36 => var n := FetchImmediate(); Write8(regs.Hl(), n);
        case 0x37 => Scf();
      }
    }

    // 0x38..0x3F
    method Ops38(op: byte) returns (t: nat)
      requires 0x38 <= op < 0x40
      modifies this, bus
      ensures State() == Isa.Block0(bus.host, Isa.HL, old(State()), op)
      ensures t == spent - old(spent) + 4
    {
      hide Machine.Idle, Machine.MachineCycle, Machine.Read, Machine.Write, Machine.Imm, Machine.ImmValue,
        Machine.Imm16, Machine.Imm16Value, Word, Byte, Hi, Lo, Pair, Bit, Alu.IncFlags, Alu.DecFlags,
        Alu.Add16Flags, Isa.AccumulatorOp, Isa.Branch, Isa.RelativeJump, Isa.ExAf, Isa.Djnz, Isa.LoadPair,
        Isa.StorePair, Isa.AtPair, Isa.WordAt, Isa.StoreA, Isa.LoadA, Isa.StepMem, Isa.StoreImm, Isa.AddPair;
      t := Timing.BaseTFor(op);
      OpcodeDelay(op);
      match op {
        case 0x38 => t := JrIf(regs.f.c);
        case 0x39 => AddHl(regs.sp, 3);
        case 0x3A => var a := FetchImmediate16(); LoadA(a);
        case 0x3B => regs := regs.(sp := Word(regs.sp - 1));
        case 0x3C => var v := AluInc(regs.a); regs := regs.(a := v);
        case 0x3D => var v := AluDec(regs.a); regs := regs.(a := v);
        case 0x3E => var n := FetchImmediate(); regs := regs.(a := n);
        case 0x3F => Ccf();
      }
    }

    // 0x40..0x7F: LD r,r', LD r,(HL), LD (HL),r and HALT
    method Ops40(op: byte) returns (t: nat)
      requires 0x40 <= op < 0x80
      modifies this, bus
      ensures State() == Isa.Block1(bus.host, Isa.HL, old(State()), op)
      ensures t == spent - old(spent) + 4
    {
      hide Machine.Read, Machine.Write, Timing.BaseTFor, Word, Pair, Isa.GetReg, Isa.SetReg;
      t := Timing.BaseTFor(op);
      Timing.MiddleTiming(op);
      if op == 0x76 {
        regs := regs.(halted := true);
        regs := regs.(pc := Word(regs.pc - 1));
      } else {
        var dst, src := op / 8 % 8, op % 8;
        var value;
        if src == 6 {
          value := Read8(regs.Hl());
        } else {
          value := Reg8(src);
        }
        if dst == 6 {
          Write8(regs.Hl(), value);
        } else {
          SetReg8(dst, value);
        }
      }
    }

    // 0x80..0xBF: arithmetic on A
    method Ops80(op: byte) returns (t: nat)
      requires 0x80 <= op < 0xC0
      modifies this, bus
      ensures State() == Isa.Block2(bus.host, Isa.HL, old(State()), op)
      ensures t == spent - old(spent) + 4
    {
      hide Machine.Read, Timing.BaseTFor, Pair, Isa.GetReg, Isa.Accumulate;
      t := Timing.BaseTFor(op);
      Timing.MiddleTiming(op);
      var alu, src := op / 8 % 8, op % 8;
      var v;
      if src == 6 {
        v := Read8(regs.Hl());
      } else {
        v := Reg8(src);
      }
      AluOp(alu, v);
    }

    // The operations in the order of the opcode field.
    method AluOp(alu: nat, v: byte)
      requires alu < 8
      modifies this
      ensures State() == Isa.Accumulate(old(State()), alu, v)
    {
      hide And, Or, Xor, Alu.AddResult, Alu.AddFlags, Alu.SubResult, Alu.SubFlags, Alu.CpFlags, Alu.AndFlags,
        Alu.Sz53p;
      match alu {
        case 0 => AluAdd(v, false);
        case 1 => AluAdd(v, true);
        case 2 => AluSub(v, false);
        case 3 => AluSub(v, true);
        case 4 => AluAnd(v);
        case 5 => AluXor(v);
        case 6 => AluOr(v);
        case 7 => AluCp(v);
      }
    }

    // The bus cycles of EX (SP),HL: w goes onto the stack, the result comes from it.
    method Exchange(w: word) returns (top: word)
      modifies this, bus
      ensures State() == Isa.Exchange(bus.host, old(State()), w)
      ensures top == Isa.WordAt(old(bus.memory), old(regs.sp))
    {
      hide Machine.Read, Machine.Write, Machine.Idle, Word, Pair, Hi, Lo;
      var lo := Read8(regs.sp);
      var hi := Read8(Word(regs.sp + 1));
      Idle(Word(regs.sp + 1), 1);
      Write8(Word(regs.sp + 1), Hi(w));
      Write8(regs.sp, Lo(w));
      Idle(regs.sp, 2);
      top := Pair(hi, lo);
    }

    method ExSpHl(m: Isa.Mode)
      modifies this, bus
      ensures State() == Isa.ExStack(bus.host, m, old(State()))
    {
      hide Isa.Exchange, Isa.WordAt, Isa.GetIndex, Isa.SetIndex;
      Isa.ExchangeKeeps(bus.host, State(), Isa.GetIndex(m, regs));
      var w := Exchange(Isa.GetIndex(m, regs));
      regs := Isa.SetIndex(m, regs, w);
      regs := regs.(wz := w);
    }

    method OutN()
      modifies this, bus
      ensures State() == Isa.OutA(bus.host, old(State()))
    {
      hide Machine.Imm, Machine.ImmValue, Machine.Out, Word, Pair, Lo;
      var n := FetchImmediate();
      var port := Pair(regs.a, n);
      IoOut(port, regs.a);
      regs := regs.(wz := Pair(regs.a, Lo(Word(port as int + 1))));
    }

    method InN()
      modifies this, bus
      ensures State() == Isa.InA(bus.host, old(State()))
    {
      hide Machine.Imm, Machine.ImmValue, Machine.In, Machine.InValue, Word, Pair;
      var n := FetchImmediate();
      var port := Pair(regs.a, n);
      var v := IoIn(port);
      regs := regs.(a := v);
      regs := regs.(wz := Word(port as int + 1));
    }

    method Exx()
      modifies this
      ensures State() == old(State()).(r := Isa.Exx(old(regs)))
    {
      var b, c, d, e, h, l := regs.b, regs.c, regs.d, regs.e, regs.h, regs.l;
      regs := regs.(b := regs.bAlt, c := regs.cAlt, d := regs.dAlt, e := regs.eAlt, h := regs.hAlt, l := regs.lAlt);
      regs := regs.(bAlt := b, cAlt := c, dAlt := d, eAlt := e, hAlt := h, lAlt := l);
    }

    // 0xC0..0xC7
    method OpsC0(op: byte) returns (t: nat)
      requires 0xC0 <= op < 0xC8 && Isa.IsPlain(op)
      modifies this, bus
      ensures State() == Isa.Block3(bus.host, Isa.HL, old(State()), op)
      ensures t == spent - old(spent) + 4
    {
      hide Machine.Idle, Machine.Imm, Machine.ImmValue, Machine.Push, Machine.Pop, Machine.PopValue, Word, Byte, Hi,
        Lo, Pair, FlagsOf, Isa.Return, Isa.JumpIf, Isa.CallIf, Isa.Restart, Isa.Accumulate, Isa.OutA, Isa.InA,
        Isa.ExStack, Isa.Transfer, Isa.LoadSp;
      t := Timing.BaseTFor(op);
      OpcodeDelay(op);
      match op {
        case 0xC0 => t := RetIf(!regs.f.z);
        case 0xC1 => var w := Pop16(); regs := regs.SetBc(w);
        case 0xC2 => JpCond(!regs.f.z);
        case 0xC3 => JpCond(true);
        case 0xC4 => t := CallIf(!regs.f.z);
        case 0xC5 => Push16(regs.Bc());
        case 0xC6 => var n := FetchImmediate(); AluAdd(n, false);
        case 0xC7 => Rst(0x00);
      }
    }

    // 0xC8..0xCF
    method OpsC8(op: byte) returns (t: nat)
      requires 0xC8 <= op < 0xD0 && Isa.IsPlain(op)
      modifies this, bus
      ensures State() == Isa.Block3(bus.host, Isa.HL, old(State()), op)
      ensures t == spent - old(spent) + 4
    {
      hide Machine.Idle, Machine.Imm, Machine.ImmValue, Machine.Push, Machine.Pop, Machine.PopValue, Word, Byte, Hi,
        Lo, Pair, FlagsOf, Isa.Return, Isa.JumpIf, Isa.CallIf, Isa.Restart, Isa.Accumulate, Isa.OutA, Isa.InA,
        Isa.ExStack, Isa.PopPair, Isa.PushPair, Isa.LoadSp;
      t := Timing.BaseTFor(op);
      OpcodeDelay(op);
      match op {
        case 0xC8 => t := RetIf(regs.f.z);
        case 0xC9 => Ret();
        case 0xCA => JpCond(regs.f.z);
        case 0xCC => t := CallIf(regs.f.z);
        case 0xCD => t := CallIf(true);
        case 0xCE => var n := FetchImmediate(); AluAdd(n, true);
        case 0xCF => Rst(0x08);
      }
    }

    // 0xD0..0xD7
    method OpsD0(op: byte) returns (t: nat)
      requires 0xD0 <= op < 0xD8 && Isa.IsPlain(op)
      modifies this, bus
      ensures State() == Isa.Block3(bus.host, Isa.HL, old(State()), op)
      ensures t == spent - old(spent) + 4
    {
      hide Machine.Idle, Machine.Imm, Machine.ImmValue, Machine.Push, Machine.Pop, Machine.PopValue, Word, Byte, Hi,
        Lo, Pair, FlagsOf, Isa.Return, Isa.JumpIf, Isa.CallIf, Isa.Restart, Isa.Accumulate, Isa.OutA, Isa.InA,
        Isa.ExStack, Isa.Transfer, Isa.LoadSp;
      t := Timing.BaseTFor(op);
      OpcodeDelay(op);
      match op {
        case 0xD0 => t := RetIf(!regs.f.c);
        case 0xD1 => var w := Pop16(); regs := regs.SetDe(w);
        case 0xD2 => JpCond(!regs.f.c);
        case 0xD3 => OutN();
        case 0xD4 => t := CallIf(!regs.f.c);
        case 0xD5 => Push16(regs.De());
        case 0xD6 => var n := FetchImmediate(); AluSub(n, false);
        case 0xD7 => Rst(0x10);
      }
    }

    // 0xD8..0xDF
    method OpsD8(op: byte) returns (t: nat)
      requires 0xD8 <= op < 0xE0 && Isa.IsPlain(op)
      modifies this, bus
      ensures State() == Isa.Block3(bus.host, Isa.HL, old(State()), op)
      ensures t == spent - old(spent) + 4
    {
      hide Machine.Idle, Machine.Imm, Machine.ImmValue, Machine.Push, Machine.Pop, Machine.PopValue, Word, Byte, Hi,
        Lo, Pair, FlagsOf, Isa.Return, Isa.JumpIf, Isa.CallIf, Isa.Restart, Isa.Accumulate, Isa.OutA, Isa.InA,
        Isa.ExStack, Isa.PopPair, Isa.PushPair, Isa.LoadSp;
      t := Timing.BaseTFor(op);
      OpcodeDelay(op);
      match op {
        case 0xD8 => t := RetIf(regs.f.c);
        case 0xD9 => Exx();
        case 0xDA => JpCond(regs.f.c);
        case 0xDB => InN();
        case 0xDC => t := CallIf(regs.f.c);
        case 0xDE => var n := FetchImmediate(); AluSub(n, true);
        case 0xDF => Rst(0x18);
      }
    }

    // 0xE0..0xE7
    method OpsE0(op: byte) returns (t: nat)
      requires 0xE0 <= op < 0xE8 && Isa.IsPlain(op)
      modifies this, bus
      ensures State() == Isa.Block3(bus.host, Isa.HL, old(State()), op)
      ensures t == spent - old(spent) + 4
    {
      hide Machine.Idle, Machine.Imm, Machine.ImmValue, Machine.Push, Machine.Pop, Machine.PopValue, Word, Byte, Hi,
        Lo, Pair, FlagsOf, Isa.Return, Isa.JumpIf, Isa.CallIf, Isa.Restart, Isa.Accumulate, Isa.OutA, Isa.InA,
        Isa.ExStack, Isa.Transfer, Isa.LoadSp;
      t := Timing.BaseTFor(op);
      OpcodeDelay(op);
      match op {
        case 0xE0 => t := RetIf(!regs.f.p);
        case 0xE1 => var w := Pop16(); regs := regs.SetHl(w);
        case 0xE2 => JpCond(!regs.f.p);
        case 0xE3 => ExSpHl(Isa.HL);
        case 0xE4 => t := CallIf(!regs.f.p);
        case 0xE5 => Push16(regs.Hl());
        case 0xE6 => var n := FetchImmediate(); AluAnd(n);
        case 0xE7 => Rst(0x20);
      }
    }

    // 0xE8..0xEF
    method OpsE8(op: byte) returns (t: nat)
      requires 0xE8 <= op < 0xF0 && Isa.IsPlain(op)
      modifies this, bus
      ensures State() == Isa.Block3(bus.host, Isa.HL, old(State()), op)
      ensures t == spent - old(spent) + 4
    {
      hide Machine.Idle, Machine.Imm, Machine.ImmValue, Machine.Push, Machine.Pop, Machine.PopValue, Word, Byte, Hi,
        Lo, Pair, FlagsOf, Isa.Return, Isa.JumpIf, Isa.CallIf, Isa.Restart, Isa.Accumulate, Isa.OutA, Isa.InA,
        Isa.ExStack, Isa.PopPair, Isa.PushPair, Isa.LoadSp;
      t := Timing.BaseTFor(op);
      OpcodeDelay(op);
      match op {
        case 0xE8 => t := RetIf(regs.f.p);
        case 0xE9 => regs := regs.(pc := regs.Hl());
        case 0xEA => JpCond(regs.f.p);
        case 0xEB => regs := regs.(d := regs.h, e := regs.l, h := regs.d, l := regs.e);
        case 0xEC => t := CallIf(regs.f.p);
        case 0xEE => var n := FetchImmediate(); AluXor(n);
        case 0xEF => Rst(0x28);
      }
    }

    // 0xF0..0xF7
    method OpsF0(op: byte) returns (t: nat)
      requires 0xF0 <= op < 0xF8 && Isa.IsPlain(op)
      modifies this, bus
      ensures State() == Isa.Block3(bus.host, Isa.HL, old(State()), op)
      ensures t == spent - old(spent) + 4
    {
      hide Machine.Idle, Machine.Imm, Machine.ImmValue, Machine.Push, Machine.Pop, Machine.PopValue, Word, Byte, Hi,
        Lo, Pair, FlagsOf, Isa.Return, Isa.JumpIf, Isa.CallIf, Isa.Restart, Isa.Accumulate, Isa.OutA, Isa.InA,
        Isa.ExStack, Isa.Transfer, Isa.LoadSp;
      t := Timing.BaseTFor(op);
      OpcodeDelay(op);
      match op {
        case 0xF0 => t := RetIf(!regs.f.s);
        case 0xF1 => var w := Pop16(); regs := regs.SetAf(w);
        case 0xF2 => JpCond(!regs.f.s);
        case 0xF3 => regs := regs.(iff1 := false, iff2 := false);
        case 0xF4 => t := CallIf(!regs.f.s);
        case 0xF5 => Push16(regs.Af());
        case 0xF6 => var n := FetchImmediate(); AluOr(n);
        case 0xF7 => Rst(0x30);
      }
    }

    // 0xF8..0xFF
    method OpsF8(op: byte) returns (t: nat)
      requires 0xF8 <= op < 0x100 && Isa.IsPlain(op)
      modifies this, bus
      ensures State() == Isa.Block3(bus.host, Isa.HL, old(State()), op)
      ensures t == spent - old(spent) + 4
    {
      hide Machine.Idle, Machine.Imm, Machine.ImmValue, Machine.Push, Machine.Pop, Machine.PopValue, Word, Byte, Hi,
        Lo, Pair, FlagsOf, Isa.Return, Isa.JumpIf, Isa.CallIf, Isa.Restart, Isa.Accumulate, Isa.OutA, Isa.InA,
        Isa.ExStack, Isa.PopPair, Isa.PushPair;
      t := Timing.BaseTFor(op);
      OpcodeDelay(op);
      match op {
        case 0xF8 => t := RetIf(regs.f.s);
        case 0xF9 => regs := regs.(sp := regs.Hl());
        case 0xFA => JpCond(regs.f.s);
        case 0xFB => regs := regs.(iff1 := true, iff2 := true, eiPending := true);
        case 0xFC => t := CallIf(regs.f.s);
        case 0xFE => var n := FetchImmediate(); AluCp(n);
        case 0xFF => Rst(0x38);
      }
    }

    // ---- The CB page ----

    method DispatchCb() returns (t: nat)
      modifies this, bus
      ensures State() == Isa.BitPage(bus.host, Machine.Fetch(bus.host, old(State())), old(bus.memory[regs.pc]))
      ensures t == spent - old(spent) + 4
    {
      hide Machine.Fetch, Isa.BitPage;
      var op := FetchOpcode();
      if op % 8 == 6 {
        t := CbMemory(op);
      } else {
        t := CbRegister(op);
      }
    }

    method CbRegister(op: byte) returns (t: nat)
      requires op % 8 != 6
      modifies this
      ensures State() == Isa.BitPage(bus.host, old(State()), op)
      ensures t == 8 && spent == old(spent)
    {
      hide Isa.GetReg, Isa.SetReg, Isa.BitEffect;
      var reg := op % 8;
      var value := Reg8(reg);
      var result := CbOperation(op, value, value);
      if op / 0x40 == 1 {
        Isa.SetSame(old(regs).(f := regs.f), reg);
        Isa.FlagsApart(old(regs), regs.f, reg);
      } else {
        SetReg8(reg, result);
      }
      t := 8;
    }

    method CbMemory(op: byte) returns (t: nat)
      requires op % 8 == 6
      modifies this, bus
      ensures State() == Isa.BitPage(bus.host, old(State()), op)
      ensures t == spent - old(spent) + 8
    {
      hide Machine.Read, Machine.Write, Machine.Idle, Pair, Hi, Isa.BitEffect, Isa.BitResult;
      var value := Read8(regs.Hl());
      Idle(regs.Hl(), 1);
      var result := CbOperation(op, value, Hi(regs.wz));
      if op / 0x40 == 1 {
        t := 12;
      } else {
        Write8(regs.Hl(), result);
        t := 15;
      }
    }

    // The four kinds of CB opcode: rotate or shift, BIT, RES, SET.
    method CbOperation(op: byte, value: byte, source: byte) returns (result: byte)
      modifies this
      ensures State() == Isa.BitEffect(old(State()), op, value, source)
      ensures result == Isa.BitResult(op, value, old(regs.f.c))
      ensures regs == old(regs).(f := regs.f) && spent == old(spent)
    {
      hide Alu.RotateFlags, Alu.Rotate, Alu.BitFlags, SetBit, ResetBit;
      var kind, bit := op / 0x40, op / 8 % 8;
      result := value;
      if kind == 0 {
        result := CbShift(bit, value);
      } else if kind == 1 {
        CbBit(bit, value, source);
      } else if kind == 2 {
        result := ResetBit(value, bit);
      } else {
        result := SetBit(value, bit);
      }
    }

    // ---- The ED page ----

    method DispatchEd() returns (t: nat)
      modifies this, bus
      ensures State() == Isa.ExtendedPage(bus.host, Machine.Fetch(bus.host, old(State())), old(bus.memory[regs.pc]))
      ensures t == spent - old(spent) + 4
    {
      hide Machine.Fetch, Isa.Extended, Isa.BlockPage;
      var op := FetchOpcode();
      if 0x40 <= op < 0x80 {
        t := EdRegister(op);
      } else if 0xA0 <= op < 0xC0 {
        t := EdBlock(op);
      } else {
        t := 8;
      }
    }

    method EdBlock(op: byte) returns (t: nat)
      requires 0xA0 <= op < 0xC0
      modifies this, bus
      ensures State() == Isa.BlockPage(bus.host, old(State()), op)
      ensures t == spent - old(spent) + 8
    {
      hide Isa.BlockLd, Isa.BlockCp, Isa.BlockIn, Isa.BlockOut;
      match op {
        case 0xA0 => t := BlockLd(1, false);
        case 0xA8 => t := BlockLd(-1, false);
        case 0xB0 => t := BlockLd(1, true);
        case 0xB8 => t := BlockLd(-1, true);
        case 0xA1 => t := BlockCp(1, false);
        case 0xA9 => t := BlockCp(-1, false);
        case 0xB1 => t := BlockCp(1, true);
        case 0xB9 => t := BlockCp(-1, true);
        case 0xA2 => t := BlockIn(1, false);
        case 0xAA => t := BlockIn(-1, false);
        case 0xB2 => t := BlockIn(1, true);
        case 0xBA => t := BlockIn(-1, true);
        case 0xA3 => t := BlockOut(1, false);
        case 0xAB => t := BlockOut(-1, false);
        case 0xB3 => t := BlockOut(1, true);
        case 0xBB => t := BlockOut(-1, true);
        case _ => t := 8;
      }
    }

    // 0x40..0x7F
    method EdRegister(op: byte) returns (t: nat)
      requires 0x40 <= op < 0x80
      modifies this, bus
      ensures State() == Isa.Extended(bus.host, old(State()), op)
      ensures t == spent - old(spent) + 8
    {
      hide Isa.Extended;
      if op in {0x40, 0x48, 0x50, 0x58, 0x60, 0x68, 0x70, 0x78, 0x41, 0x49, 0x51, 0x59, 0x61, 0x69, 0x71, 0x79} {
        t := EdPort(op);
      } else if op in {0x42, 0x52, 0x62, 0x72, 0x4A, 0x5A, 0x6A, 0x7A} {
        t := EdArithmetic(op);
      } else if op in {0x43, 0x53, 0x63, 0x73} {
        t := EdStore(op);
      } else if op in {0x4B, 0x5B, 0x6B, 0x7B} {
        t := EdLoad(op);
      } else if op in {0x47, 0x4F, 0x57, 0x5F, 0x67, 0x6F, 0x77, 0x7F} {
        t := EdSpecial(op);
      } else {
        t := EdControl(op);
      }
    }

    // IN r,(C) and OUT (C),r take the register from the opcode.
    method EdPort(op: byte) returns (t: nat)
      requires op in {0x40, 0x48, 0x50, 0x58, 0x60, 0x68, 0x70, 0x78, 0x41, 0x49, 0x51, 0x59, 0x61, 0x69, 0x71, 0x79}
      modifies this, bus
      ensures State() == Isa.Extended(bus.host, old(State()), op)
      ensures t == spent - old(spent) + 8
    {
      hide Isa.Extended, Isa.InReg, Isa.OutReg;
      Isa.PortColumns(bus.host, State(), op);
      match op {
        case 0x40 | 0x48 | 0x50 | 0x58 | 0x60 | 0x68 | 0x70 | 0x78 => t := InR(op / 8 % 8);
        case 0x41 | 0x49 | 0x51 | 0x59 | 0x61 | 0x69 | 0x71 | 0x79 => t := OutR(op / 8 % 8);
      }
    }

    // NEG, RETN with RETI, and IM
    method EdControl(op: byte) returns (t: nat)
      requires 0x40 <= op < 0x80 && 4 <= op % 8 < 7
      modifies this, bus
      ensures State() == Isa.Extended(bus.host, old(State()), op)
      ensures t == spent - old(spent) + 8
    {
      hide Isa.Extended, Isa.ReturnFromNmi, Isa.InterruptRegister, Alu.NegFlags, Alu.SubResult;
      Isa.ControlColumns(bus.host, State(), op);
      t := 8;
      match op {
        case 0x44 | 0x4C | 0x54 | 0x5C | 0x64 | 0x6C | 0x74 | 0x7C => Neg();
        case 0x45 | 0x55 | 0x65 | 0x75 | 0x4D | 0x5D | 0x6D | 0x7D => Retn(); t := 14;
        case 0x46 | 0x4E | 0x66 | 0x6E => regs := regs.(im := 0);
        case 0x56 | 0x76 => regs := regs.(im := 1);
        case 0x5E | 0x7E => regs := regs.(im := 2);
      }
    }

    // SBC HL,rr and ADC HL,rr
    method EdArithmetic(op: byte) returns (t: nat)
      requires op in {0x42, 0x52, 0x62, 0x72, 0x4A, 0x5A, 0x6A, 0x7A}
      modifies this, bus
      ensures State() == Isa.Extended(bus.host, old(State()), op)
      ensures t == spent - old(spent) + 8
    {
      hide Isa.Extended, Isa.SbcHl, Isa.AdcHl, Pair;
      Isa.WideColumn(bus.host, State(), op);
      match op {
        case 0x42 => AluSbc16(regs.Bc());
        case 0x52 => AluSbc16(regs.De());
        case 0x62 => AluSbc16(regs.Hl());
        case 0x72 => AluSbc16(regs.sp);
        case 0x4A => AluAdc16(regs.Bc());
        case 0x5A => AluAdc16(regs.De());
        case 0x6A => AluAdc16(regs.Hl());
        case 0x7A => AluAdc16(regs.sp);
      }
      t := 15;
    }

    // LD (nn),rr
    method EdStore(op: byte) returns (t: nat)
      requires op in {0x43, 0x53, 0x63, 0x73}
      modifies this, bus
      ensures State() == Isa.Extended(bus.host, old(State()), op)
      ensures t == spent - old(spent) + 8
    {
      hide Isa.Extended, Isa.StorePair, Isa.AtPair, Isa.SetPair, Isa.WordAt, Machine.Imm16Value, Pair, Hi, Lo;
      Isa.WordColumn(bus.host, State(), op);
      match op {
        case 0x43 => StoreWord(regs.c, regs.b);
        case 0x53 => StoreWord(regs.e, regs.d);
        case 0x63 => StoreWord(regs.l, regs.h);
        case 0x73 => SplitWord(regs.sp); StoreWord(Lo(regs.sp), Hi(regs.sp));
      }
      t := 20;
    }

    // LD rr,(nn)
    method EdLoad(op: byte) returns (t: nat)
      requires op in {0x4B, 0x5B, 0x6B, 0x7B}
      modifies this, bus
      ensures State() == Isa.Extended(bus.host, old(State()), op)
      ensures t == spent - old(spent) + 8
    {
      hide Isa.Extended, Isa.StorePair, Isa.AtPair, Isa.GetPair, Isa.WordAt, Machine.Imm16Value, Pair, Hi, Lo;
      Isa.WordColumn(bus.host, State(), op);
      var lo, hi := LoadWord();
      JoinBytes(hi, lo);
      match op {
        case 0x4B => regs := regs.(c := lo, b := hi);
        case 0x5B => regs := regs.(e := lo, d := hi);
        case 0x6B => regs := regs.(l := lo, h := hi);
        case 0x7B => regs := regs.(sp := Pair(hi, lo));
      }
      t := 20;
    }

    // LD I,A; LD R,A; LD A,I; LD A,R; RRD; RLD; and two opcodes without effect
    method EdSpecial(op: byte) returns (t: nat)
      requires op in {0x47, 0x4F, 0x57, 0x5F, 0x67, 0x6F, 0x77, 0x7F}
      modifies this, bus
      ensures State() == Isa.Extended(bus.host, old(State()), op)
      ensures t == spent - old(spent) + 8
    {
      hide Isa.Extended, Isa.ReturnFromNmi, Alu.NegFlags, Alu.SubResult, Machine.Idle, Pair, Isa.LoadAFrom,
        Isa.RotateDigit;
      Isa.ControlColumns(bus.host, State(), op);
      match op {
        case 0x47 => Idle(regs.Ir(), 1); regs := regs.(i := regs.a); t := 9;
        case 0x4F => Idle(regs.Ir(), 1); regs := regs.(r := regs.a); t := 9;
        case 0x57 => LoadAFrom(regs.i); t := 9;
        case 0x5F => LoadAFrom(regs.r); t := 9;
        case 0x67 => RotateDigit(true); t := 18;
        case 0x6F => RotateDigit(false); t := 18;
        case _ => t := 8;
      }
    }

    method InR(dst: nat) returns (t: nat)
      requires dst < 8
      modifies this, bus
      ensures State() == Isa.InReg(bus.host, old(State()), dst)
      ensures t == spent - old(spent) + 8
    {
      hide Machine.In, Machine.InValue, Word, Pair, Alu.Sz53p, Isa.SetReg;
      var v := IoIn(regs.Bc());
      regs := regs.(wz := Word(regs.Bc() + 1));
      WriteFlags(Alu.Sz53p(v).(c := regs.f.c));
      if dst != 6 {
        SetReg8(dst, v);
      }
      t := 12;
    }

    method OutR(src: nat) returns (t: nat)
      requires src < 8
      modifies this, bus
      ensures State() == Isa.OutReg(bus.host, old(State()), src)
      ensures t == spent - old(spent) + 8
    {
      hide Machine.Out, Word, Pair, Isa.GetReg;
      var v := if src == 6 then 0 else Reg8(src);
      IoOut(regs.Bc(), v);
      regs := regs.(wz := Word(regs.Bc() + 1));
      t := 12;
    }

    method Neg()
      modifies this
      ensures State() == Isa.WithA(old(State()), Alu.SubResult(0, old(regs.a), false), Alu.NegFlags(old(regs.a)))
    {
      hide Alu.SubResult, Alu.NegFlags, Alu.Sz53, Byte;
      NegParts(regs.a);
      var a: int := regs.a;
      var r := Byte(0 - a);
      var f := Alu.Sz53(r).(h := a % 0x10 != 0, p := a == 0x80, n := true, c := a != 0);
      regs := regs.(a := r);
      WriteFlags(f);
    }

    method Retn()
      modifies this, bus
      ensures State() == Isa.ReturnFromNmi(bus.host, old(State()))
    {
      hide Machine.Pop, Machine.PopValue;
      var target := Pop16();
      regs := regs.(pc := target, wz := target);
      regs := regs.(iff1 := regs.iff2);
    }

    method LoadAFrom(v: byte)
      modifies this, bus
      ensures State() == Isa.LoadAFrom(bus.host, old(State()), v)
    {
      hide Machine.Idle, Alu.Sz53;
      regs := regs.(a := v);
      WriteFlags(Alu.Sz53(v).(p := regs.iff2, c := regs.f.c));
      Idle(regs.Ir(), 1);
    }

    // RRD or RLD
    method RotateDigit(right: bool)
      modifies this, bus
      ensures var a, m := old(regs.a), old(bus.memory[regs.Hl()]);
        State() ==
          if right then Isa.RotateDigit(bus.host, old(State()), a % 0x10 * 0x10 + m / 0x10, a / 0x10 * 0x10 + m % 0x10)
          else Isa.RotateDigit(bus.host, old(State()), m % 0x10 * 0x10 + a % 0x10, a / 0x10 * 0x10 + m / 0x10)
    {
      hide Machine.Read, Machine.Idle, Machine.Write, Pair, Word, Alu.Sz53p;
      var m := Read8(regs.Hl());
      var newM: byte := if right then regs.a % 0x10 * 0x10 + m / 0x10 else m % 0x10 * 0x10 + regs.a % 0x10;
      var newA: byte := regs.a / 0x10 * 0x10 + if right then m % 0x10 else m / 0x10;
      Idle(regs.Hl(), 4);
      Write8(regs.Hl(), newM);
      regs := regs.(a := newA);
      regs := regs.(wz := Word(regs.Hl() + 1));
      WriteFlags(Alu.Sz53p(regs.a).(c := regs.f.c));
    }

    // ---- The whole unprefixed table ----

    method DispatchUnprefixed(op: byte) returns (t: nat)
      requires Isa.HasOpcode(bus.memory) || !Isa.IsPrefix(op)
      modifies this, bus
      ensures State() == Isa.Instruction(bus.host, old(State()), op)
      ensures t == spent - old(spent) + 4
      decreases if Isa.IsPrefix(op) then 2 else 0, 0
    {
      hide Isa.Plain, Isa.BitPage, Isa.ExtendedPage, Isa.PrefixChain, Machine.Fetch;
      match op {
        case 0xCB => t := DispatchCb();
        case 0xED => t := DispatchEd();
        case 0xDD => t := DispatchIndex(Isa.IX);
        case 0xFD => t := DispatchIndex(Isa.IY);
        case _ => t := DispatchPlain(op);
      }
    }

    method DispatchPlain(op: byte) returns (t: nat)
      requires Isa.IsPlain(op)
      modifies this, bus
      ensures State() == Isa.Plain(bus.host, Isa.HL, old(State()), op)
      ensures t == spent - old(spent) + 4
    {
      hide Isa.Block0, Isa.Block1, Isa.Block2, Isa.Block3;
      match op / 8 {
        case 0 => t := Ops00(op);
        case 1 => t := Ops08(op);
        case 2 => t := Ops10(op);
        case 3 => t := Ops18(op);
        case 4 => t := Ops20(op);
        case 5 => t := Ops28(op);
        case 6 => t := Ops30(op);
        case 7 => t := Ops38(op);
        case 0x18 => t := OpsC0(op);
        case 0x19 => t := OpsC8(op);
        case 0x1A => t := OpsD0(op);
        case 0x1B => t := OpsD8(op);
        case 0x1C => t := OpsE0(op);
        case 0x1D => t := OpsE8(op);
        case 0x1E => t := OpsF0(op);
        case 0x1F => t := OpsF8(op);
        case _ =>
          if op < 0x80 {
            t := Ops40(op);
          } else {
            t := Ops80(op);
          }
      }
    }

    // ---- The DD and FD pages.  m selects the index register. ----

    method DispatchIndex(first: Isa.Mode) returns (t: nat)
      requires Isa.HasOpcode(bus.memory) && !first.HL?
      modifies this, bus
      ensures State() == Isa.PrefixChain(bus.host, first, old(State()).(r := old(regs).(q := NO_FLAGS)))
      ensures t == spent - old(spent) + 4
      decreases 1, 0
    {
      hide Isa.Indexed, Isa.PrefixChain, Machine.Fetch, Isa.HasOpcode, Isa.IsPrefixRun, Isa.PrefixRun;
      regs := regs.(q := NO_FLAGS);
      var m := first;
      ghost var s0 := State();
      Isa.ChainOpens(bus.host, m, s0);
      Isa.PrefixRunStep(bus.memory, regs.pc);
      var op := FetchOpcode();
      t := 4;
      while Isa.IsPrefix(op)
        invariant !m.HL? && Isa.HasOpcode(bus.memory)
        invariant t == spent - s0.spent
        invariant Isa.PrefixChain(bus.host, first, s0) ==
          if op == 0xDD then Isa.PrefixChain(bus.host, Isa.IX, State())
          else if op == 0xFD then Isa.PrefixChain(bus.host, Isa.IY, State())
          else Isa.Indexed(bus.host, m, State(), op)
        decreases if Isa.IsPrefix(op) then Isa.PrefixRun(bus.memory, regs.pc) + 1 else 0
      {
        m := if op == 0xDD then Isa.IX else Isa.IY;
        Isa.PrefixRunStep(bus.memory, regs.pc);
        Isa.ChainOpens(bus.host, m, State());
        op := FetchOpcode();
        t := t + 4;
      }
      var rest := DispatchIndexed(m, op);
      t := t + rest;
    }

    method DispatchIndexed(m: Isa.Mode, op: byte) returns (t: nat)
      requires !m.HL? && !Isa.IsPrefix(op)
      modifies this, bus
      ensures State() == Isa.Indexed(bus.host, m, old(State()), op)
      ensures t == spent - old(spent) + 4
      decreases 0, 2
    {
      hide Isa.Block0, Isa.Block1, Isa.Block2, Isa.Block3, Isa.IndexBitPage, Isa.ExtendedPage, Machine.Fetch;
      if op == 0xCB {
        t := DispatchIndexCb(m);
      } else if op == 0xED {
        t := DispatchUnprefixed(op);
      } else if op < 0x40 {
        t := IndexedLow(m, op);
      } else if op < 0x80 {
        t := IndexedLoad(m, op);
      } else if op < 0xC0 {
        t := IndexedAlu(m, op);
      } else {
        t := IndexedHigh(m, op);
      }
    }

    // idx_addr(): fetch the displacement, set WZ, idle.
    method IndexAddress(m: Isa.Mode) returns (a: word)
      requires !m.HL?
      modifies this, bus
      ensures State() == Isa.AtOperand(bus.host, m, old(State()))
      ensures a == Isa.OperandAddress(m, old(State()))
    {
      hide Machine.Imm, Machine.ImmValue, Machine.Idle, Word, Signed8, Isa.GetIndex;
      Isa.IndexApart(m, regs, Word(regs.pc + 1), regs.wz);
      var d := FetchImmediate();
      a := Word(Isa.GetIndex(m, regs) + Signed8(d));
      regs := regs.(wz := a);
      Idle(Word(regs.pc - 1), 5);
    }

    // The halves of the index register.
    function IdxHigh(m: Isa.Mode): byte
      reads this
    {
      Hi(Isa.GetIndex(m, regs))
    }

    function IdxLow(m: Isa.Mode): byte
      reads this
    {
      Lo(Isa.GetIndex(m, regs))
    }

    method SetIdxHigh(m: Isa.Mode, v: byte)
      modifies this
      ensures State() == old(State()).(r := Isa.SetIndex(m, old(regs), Pair(v, Lo(Isa.GetIndex(m, old(regs))))))
    {
      regs := Isa.SetIndex(m, regs, Pair(v, IdxLow(m)));
    }

    method SetIdxLow(m: Isa.Mode, v: byte)
      modifies this
      ensures State() == old(State()).(r := Isa.SetIndex(m, old(regs), Pair(Hi(Isa.GetIndex(m, old(regs))), v)))
    {
      regs := Isa.SetIndex(m, regs, Pair(IdxHigh(m), v));
    }

    method IndexedLow(m: Isa.Mode, op: byte) returns (t: nat)
      requires !m.HL? && op < 0x40
      modifies this, bus
      ensures State() == Isa.Block0(bus.host, m, old(State()), op)
      ensures t == spent - old(spent) + 4
      decreases 0, 1
    {
      hide Isa.Block0, Isa.Plain;
      if op == 0x09 || op == 0x19 || op == 0x29 || op == 0x39 {
        t := IndexedAdd(m, op);
      } else if op == 0x21 || op == 0x22 || op == 0x2A {
        t := IndexedWord(m, op);
      } else if op == 0x23 || op == 0x2B {
        t := IndexedCount(m, op);
      } else if op == 0x24 || op == 0x25 || op == 0x26 || op == 0x2C || op == 0x2D || op == 0x2E {
        t := IndexedHalf(m, op);
      } else if op == 0x34 || op == 0x35 || op == 0x36 {
        t := IndexedMemory(m, op);
      } else {
        Isa.PlainSameLow(bus.host, m, State(), op);
        t := DispatchUnprefixed(op);
      }
    }

    method IndexedAdd(m: Isa.Mode, op: byte) returns (t: nat)
      requires !m.HL? && op < 0x40 && op % 0x10 == 9
      modifies this, bus
      ensures State() == Isa.Block0(bus.host, m, old(State()), op)
      ensures t == spent - old(spent) + 4
    {
      hide Machine.Idle, Word, Pair, Alu.Add16Flags, Isa.GetIndex, Isa.SetIndex, Isa.Relative, Isa.LoadPair,
        Isa.Indirect, Isa.StepPair, Isa.StepReg, Isa.StepMem, Isa.LoadImm, Isa.StoreImm, Isa.AccumulatorOp;
      Isa.IndexApart(m, regs, regs.pc, regs.wz);
      var value;
      match op {
        case 0x09 => value := regs.Bc();
        case 0x19 => value := regs.De();
        case 0x29 => value := Isa.GetIndex(m, regs);
        case 0x39 => value := regs.sp;
      }
      var w := AluAdd16(Isa.GetIndex(m, regs), value);
      regs := Isa.SetIndex(m, regs, w);
      t := 11;
    }

    // LD IX,nn; LD (nn),IX; LD IX,(nn)
    method IndexedWord(m: Isa.Mode, op: byte) returns (t: nat)
      requires !m.HL? && op in {0x21, 0x22, 0x2A}
      modifies this, bus
      ensures State() == Isa.Block0(bus.host, m, old(State()), op)
      ensures t == spent - old(spent) + 4
    {
      hide Machine.Idle, Machine.Imm16, Machine.Imm16Value, Word, Hi, Lo, Pair, Isa.GetIndex, Isa.SetIndex,
        Isa.StorePair, Isa.AtPair, Isa.WordAt, Isa.StoreA, Isa.LoadA, Isa.Relative, Isa.AddPair, Isa.StepPair,
        Isa.StepReg, Isa.StepMem, Isa.LoadImm, Isa.StoreImm, Isa.AccumulatorOp;
      match op {
        case 0x21 => var w := FetchImmediate16(); regs := Isa.SetIndex(m, regs, w); t := 10;
        case 0x22 => SplitWord(Isa.GetIndex(m, regs)); StoreWord(IdxLow(m), IdxHigh(m)); t := 16;
        case 0x2A => var lo, hi := LoadWord(); regs := Isa.SetIndex(m, regs, Pair(hi, lo)); t := 16;
      }
    }

    // INC IX and DEC IX
    method IndexedCount(m: Isa.Mode, op: byte) returns (t: nat)
      requires !m.HL? && op in {0x23, 0x2B}
      modifies this, bus
      ensures State() == Isa.Block0(bus.host, m, old(State()), op)
      ensures t == spent - old(spent) + 4
    {
      hide Machine.Idle, Word, Pair, Isa.GetIndex, Isa.SetIndex, Isa.LoadPair, Isa.Indirect, Isa.Relative,
        Isa.AddPair, Isa.StepReg, Isa.StepMem, Isa.LoadImm, Isa.StoreImm, Isa.AccumulatorOp;
      Idle(regs.Ir(), 2);
      match op {
        case 0x23 => regs := Isa.SetIndex(m, regs, Word(Isa.GetIndex(m, regs) + 1));
        case 0x2B => regs := Isa.SetIndex(m, regs, Word(Isa.GetIndex(m, regs) - 1));
      }
      t := 6;
    }

    method IndexedHalf(m: Isa.Mode, op: byte) returns (t: nat)
      requires !m.HL? && op in {0x24, 0x25, 0x26, 0x2C, 0x2D, 0x2E}
      modifies this, bus
      ensures State() == Isa.Block0(bus.host, m, old(State()), op)
      ensures t == spent - old(spent) + 4
    {
      hide Machine.Imm, Machine.ImmValue, Byte, Hi, Lo, Pair, Isa.GetIndex, Isa.SetIndex, Alu.IncFlags,
        Alu.DecFlags, Isa.Relative, Isa.LoadPair, Isa.AddPair, Isa.Indirect, Isa.StepPair, Isa.StepMem,
        Isa.StoreImm, Isa.AccumulatorOp;
      t := 4;
      match op {
        case 0x24 => var v := AluInc(IdxHigh(m)); SetIdxHigh(m, v);
        case 0x25 => var v := AluDec(IdxHigh(m)); SetIdxHigh(m, v);
        case 0x26 => var v := FetchImmediate(); SetIdxHigh(m, v); t := 7;
        case 0x2C => var v := AluInc(IdxLow(m)); SetIdxLow(m, v);
        case 0x2D => var v := AluDec(IdxLow(m)); SetIdxLow(m, v);
        case 0x2E => var v := FetchImmediate(); SetIdxLow(m, v); t := 7;
      }
    }

    method IndexedMemory(m: Isa.Mode, op: byte) returns (t: nat)
      requires !m.HL? && op in {0x34, 0x35, 0x36}
      modifies this, bus
      ensures State() == Isa.Block0(bus.host, m, old(State()), op)
      ensures t == spent - old(spent) + 4
    {
      hide Isa.StepMem, Isa.StoreImm, Isa.Relative, Isa.LoadPair, Isa.AddPair, Isa.Indirect, Isa.StepPair,
        Isa.StepReg, Isa.LoadImm, Isa.AccumulatorOp;
      if op == 0x36 {
        IndexedStoreImm(m);
        t := 15;
      } else {
        IndexedStep(m, op == 0x34);
        t := 19;
      }
    }

    // INC (IX+d) and DEC (IX+d)
    method IndexedStep(m: Isa.Mode, up: bool)
      requires !m.HL?
      modifies this, bus
      ensures State() == Isa.StepMem(bus.host, m, old(State()), if up then 1 else -1)
    {
      hide Machine.Read, Machine.Idle, Machine.Write, Byte, Isa.OperandAddress, Isa.AtOperand, Alu.IncFlags,
        Alu.DecFlags;
      Isa.AtOperandKeeps(bus.host, m, State());
      var a := IndexAddress(m);
      var v := Read8(a);
      if up {
        v := AluInc(v);
      } else {
        v := AluDec(v);
      }
      Idle(a, 1);
      Write8(a, v);
    }

    // LD (IX+d),n
    method IndexedStoreImm(m: Isa.Mode)
      requires !m.HL?
      modifies this, bus
      ensures State() == Isa.StoreImm(bus.host, m, old(State()))
    {
      hide Machine.Imm, Machine.Idle, Machine.Write, Word, Signed8, Isa.GetIndex;
      Isa.IndexApart(m, regs, Word(Word(regs.pc + 1) + 1), regs.wz);
      var d := FetchImmediate();
      var n := FetchImmediate();
      var a := Word(Isa.GetIndex(m, regs) + Signed8(d));
      regs := regs.(wz := a);
      Idle(Word(regs.pc - 1), 2);
      Write8(a, n);
    }

    method IndexedLoad(m: Isa.Mode, op: byte) returns (t: nat)
      requires !m.HL? && 0x40 <= op < 0x80
      modifies this, bus
      ensures State() == Isa.Block1(bus.host, m, old(State()), op)
      ensures t == spent - old(spent) + 4
      decreases 0, 1
    {
      hide Isa.Block1, Isa.Plain;
      if op in {0x46, 0x4E, 0x56, 0x5E, 0x66, 0x6E, 0x7E} {
        IndexedLoadMemory(m, op);
        t := 15;
      } else if op in {0x70, 0x71, 0x72, 0x73, 0x74, 0x75, 0x77} {
        IndexedStoreMemory(m, op);
        t := 15;
      } else if op in {0x60, 0x61, 0x62, 0x63, 0x64, 0x65, 0x67, 0x68, 0x69, 0x6A, 0x6B, 0x6C, 0x6D, 0x6F} {
        IndexedLoadHalf(m, op);
        t := 4;
      } else if op in {0x44, 0x45, 0x4C, 0x4D, 0x54, 0x55, 0x5C, 0x5D, 0x7C, 0x7D} {
        IndexedReadHalf(m, op);
        t := 4;
      } else {
        Isa.PlainSameLoad(bus.host, m, State(), op);
        t := DispatchUnprefixed(op);
      }
    }

    // LD r,(IX+d): H and L are not IXH and IXL here.
    method IndexedLoadMemory(m: Isa.Mode, op: byte)
      requires !m.HL? && 0x40 <= op < 0x80 && op % 8 == 6 && op != 0x76
      modifies this, bus
      ensures State() == Isa.Block1(bus.host, m, old(State()), op)
      ensures spent == old(spent) + 11
    {
      hide Machine.Read, Isa.AtOperand, Isa.OperandAddress, Isa.GetReg, Isa.SetReg;
      Isa.AtOperandKeeps(bus.host, m, State());
      var a := IndexAddress(m);
      var v := Read8(a);
      SetReg8(op / 8 % 8, v);
    }

    method IndexedStoreMemory(m: Isa.Mode, op: byte)
      requires !m.HL? && 0x70 <= op < 0x78 && op != 0x76
      modifies this, bus
      ensures State() == Isa.Block1(bus.host, m, old(State()), op)
      ensures spent == old(spent) + 11
    {
      hide Machine.Write, Isa.AtOperand, Isa.OperandAddress, Isa.GetReg, Isa.SetReg;
      Isa.AtOperandKeeps(bus.host, m, State());
      var a := IndexAddress(m);
      Write8(a, Reg8(op % 8));
    }

    method IndexedLoadHalf(m: Isa.Mode, op: byte)
      requires !m.HL? && 0x60 <= op < 0x70 && op % 8 != 6
      modifies this
      ensures State() == Isa.Block1(bus.host, m, old(State()), op)
      ensures spent == old(spent)
    {
      hide Isa.Block1, Hi, Lo, Pair, Isa.GetIndex, Isa.SetIndex;
      Isa.RegisterLoad(bus.host, m, State(), op);
      match op {
        case 0x60 => SetIdxHigh(m, regs.b);
        case 0x61 => SetIdxHigh(m, regs.c);
        case 0x62 => SetIdxHigh(m, regs.d);
        case 0x63 => SetIdxHigh(m, regs.e);
        case 0x64 => SetIdxHigh(m, IdxHigh(m));
        case 0x65 => SetIdxHigh(m, IdxLow(m));
        case 0x67 => SetIdxHigh(m, regs.a);
        case 0x68 => SetIdxLow(m, regs.b);
        case 0x69 => SetIdxLow(m, regs.c);
        case 0x6A => SetIdxLow(m, regs.d);
        case 0x6B => SetIdxLow(m, regs.e);
        case 0x6C => SetIdxLow(m, IdxHigh(m));
        case 0x6D => SetIdxLow(m, IdxLow(m));
        case 0x6F => SetIdxLow(m, regs.a);
      }
    }

    method IndexedReadHalf(m: Isa.Mode, op: byte)
      requires !m.HL? && op in {0x44, 0x45, 0x4C, 0x4D, 0x54, 0x55, 0x5C, 0x5D, 0x7C, 0x7D}
      modifies this
      ensures State() == Isa.Block1(bus.host, m, old(State()), op)
      ensures spent == old(spent)
    {
      hide Isa.Block1, Hi, Lo, Pair, Isa.GetIndex, Isa.SetIndex;
      Isa.RegisterLoad(bus.host, m, State(), op);
      match op {
        case 0x44 => regs := regs.(b := IdxHigh(m));
        case 0x45 => regs := regs.(b := IdxLow(m));
        case 0x4C => regs := regs.(c := IdxHigh(m));
        case 0x4D => regs := regs.(c := IdxLow(m));
        case 0x54 => regs := regs.(d := IdxHigh(m));
        case 0x55 => regs := regs.(d := IdxLow(m));
        case 0x5C => regs := regs.(e := IdxHigh(m));
        case 0x5D => regs := regs.(e := IdxLow(m));
        case 0x7C => regs := regs.(a := IdxHigh(m));
        case 0x7D => regs := regs.(a := IdxLow(m));
      }
    }

    method IndexedAlu(m: Isa.Mode, op: byte) returns (t: nat)
      requires !m.HL? && 0x80 <= op < 0xC0
      modifies this, bus
      ensures State() == Isa.Block2(bus.host, m, old(State()), op)
      ensures t == spent - old(spent) + 4
      decreases 0, 1
    {
      hide Isa.Block2, Isa.Plain;
      if op in {0x86, 0x8E, 0x96, 0x9E, 0xA6, 0xAE, 0xB6, 0xBE} {
        IndexedAluMemory(m, op);
        t := 15;
      } else if op % 8 == 4 || op % 8 == 5 {
        IndexedAluHalf(m, op);
        t := 4;
      } else {
        Isa.PlainSameAlu(bus.host, m, State(), op);
        t := DispatchUnprefixed(op);
      }
    }

    method IndexedAluMemory(m: Isa.Mode, op: byte)
      requires !m.HL? && op in {0x86, 0x8E, 0x96, 0x9E, 0xA6, 0xAE, 0xB6, 0xBE}
      modifies this, bus
      ensures State() == Isa.Block2(bus.host, m, old(State()), op)
      ensures spent == old(spent) + 11
    {
      hide Machine.Read, Isa.AtOperand, Isa.OperandAddress, Isa.Accumulate, Hi, Lo, And, Or, Xor, Alu.AddResult,
        Alu.AddFlags, Alu.SubResult, Alu.SubFlags, Alu.CpFlags, Alu.AndFlags, Alu.Sz53p;
      Isa.AtOperandKeeps(bus.host, m, State());
      var a := IndexAddress(m);
      var v := Read8(a);
      match op {
        case 0x86 => AluAdd(v, false);
        case 0x8E => AluAdd(v, true);
        case 0x96 => AluSub(v, false);
        case 0x9E => AluSub(v, true);
        case 0xA6 => AluAnd(v);
        case 0xAE => AluXor(v);
        case 0xB6 => AluOr(v);
        case 0xBE => AluCp(v);
      }
    }

    method IndexedAluHalf(m: Isa.Mode, op: byte)
      requires !m.HL? && 0x80 <= op < 0xC0 && (op % 8 == 4 || op % 8 == 5)
      modifies this
      ensures State() == Isa.Block2(bus.host, m, old(State()), op)
      ensures spent == old(spent)
    {
      hide Machine.Read, Isa.AtOperand, Isa.OperandAddress, Isa.Accumulate, Hi, Lo, And, Or, Xor, Alu.AddResult,
        Alu.AddFlags, Alu.SubResult, Alu.SubFlags, Alu.CpFlags, Alu.AndFlags, Alu.Sz53p;
      match op {
        case 0x84 => AluAdd(IdxHigh(m), false);
        case 0x85 => AluAdd(IdxLow(m), false);
        case 0x8C => AluAdd(IdxHigh(m), true);
        case 0x8D => AluAdd(IdxLow(m), true);
        case 0x94 => AluSub(IdxHigh(m), false);
        case 0x95 => AluSub(IdxLow(m), false);
        case 0x9C => AluSub(IdxHigh(m), true);
        case 0x9D => AluSub(IdxLow(m), true);
        case 0xA4 => AluAnd(IdxHigh(m));
        case 0xA5 => AluAnd(IdxLow(m));
        case 0xAC => AluXor(IdxHigh(m));
        case 0xAD => AluXor(IdxLow(m));
        case 0xB4 => AluOr(IdxHigh(m));
        case 0xB5 => AluOr(IdxLow(m));
        case 0xBC => AluCp(IdxHigh(m));
        case 0xBD => AluCp(IdxLow(m));
      }
    }

    method IndexedHigh(m: Isa.Mode, op: byte) returns (t: nat)
      requires !m.HL? && 0xC0 <= op && Isa.IsPlain(op)
      modifies this, bus
      ensures State() == Isa.Block3(bus.host, m, old(State()), op)
      ensures t == spent - old(spent) + 4
      decreases 0, 1
    {
      hide Machine.Idle, Machine.Push, Machine.Pop, Machine.PopValue, Isa.GetIndex, Isa.SetIndex, Isa.ExStack,
        Isa.Block3, Isa.Plain, Word, Pair, Hi, Lo;
      Isa.IndexStack(bus.host, m, State());
      Isa.IndexMoves(bus.host, m, State());
      match op {
        case 0xE1 => var w := Pop16(); regs := Isa.SetIndex(m, regs, w); t := 10;
        case 0xE5 => Idle(regs.Ir(), 1); Push16(Isa.GetIndex(m, regs)); t := 11;
        case 0xE3 => ExSpHl(m); t := 19;
        case 0xE9 => regs := regs.(pc := Isa.GetIndex(m, regs)); t := 4;
        case 0xF9 => Idle(regs.Ir(), 2); regs := regs.(sp := Isa.GetIndex(m, regs)); t := 6;
        case _ =>
          Isa.PlainSameHigh(bus.host, m, State(), op);
          t := DispatchUnprefixed(op);
      }
    }

    // ---- The DDCB and FDCB pages ----

    method DispatchIndexCb(m: Isa.Mode) returns (t: nat)
      requires !m.HL?
      modifies this, bus
      ensures State() == Isa.IndexBitPage(bus.host, m, old(State()))
      ensures t == spent - old(spent) + 4
    {
      hide Machine.Read, Machine.Idle, Machine.Write, Isa.IndexBitStart, Isa.OperandAddress, Isa.BitEffect,
        Isa.BitResult, Isa.SetReg, Hi;
      Isa.IndexBitStartKeeps(bus.host, m, State());
      var a, op := IndexBitOperand(m);
      var value := Read8(a);
      Idle(a, 1);
      value := CbOperation(op, value, Hi(a));
      if op / 0x40 == 1 {
        t := 16;
      } else {
        Write8(a, value);
        if op % 8 != 6 {
          SetReg8(op % 8, value);
        }
        t := 19;
      }
    }

    // The displacement and the opcode, neither of which counts as an opcode fetch.
    method IndexBitOperand(m: Isa.Mode) returns (a: word, op: byte)
      requires !m.HL?
      modifies this, bus
      ensures State() == Isa.IndexBitStart(bus.host, m, old(State()))
      ensures a == Isa.OperandAddress(m, old(State())) && op == old(bus.memory[Word(regs.pc + 1)])
    {
      hide Machine.Imm, Machine.Idle, Word, Signed8, Isa.GetIndex;
      Isa.IndexApart(m, regs, Word(Word(regs.pc + 1) + 1), regs.wz);
      var d := FetchImmediate();
      op := FetchImmediate();
      a := Word(Isa.GetIndex(m, regs) + Signed8(d));
      regs := regs.(wz := a);
      Idle(Word(regs.pc - 1), 2);
    }

    // ---- Interrupts and stepping ----

    method SetNmiLine(active: bool)
      modifies this
      ensures State() == Stepping.SetNmiLine(old(State()), active)
    {
      if active && !lines.nmiLine {
        lines := lines.(nmiPending := true);
      }
      lines := lines.(nmiLine := active);
    }

    method SetIntLine(active: bool)
      modifies this
      ensures State() == Stepping.SetIntLine(old(State()), active)
    {
      lines := lines.(intLine := active);
    }

    method PulseIntLine()
      modifies this
      ensures State() == Stepping.PulseInt(old(State()))
    {
      lines := lines.(intPulse := true);
    }

    method LeaveHalt()
      modifies this
      ensures State() == old(State()).(r := Stepping.Wake(old(regs)))
    {
      if regs.halted {
        regs := regs.(pc := Word(regs.pc + 1));
        regs := regs.(halted := false);
      }
    }

    method HandleNmi() returns (serviced: bool)
      modifies this, bus
      ensures serviced == old(lines.nmiPending)
      ensures State() == if serviced then Stepping.ServiceNmi(bus.host, old(State())) else old(State())
    {
      hide Machine.MachineCycle, Machine.Push;
      if !lines.nmiPending {
        return false;
      }
      lines := lines.(nmiPending := false);
      LeaveHalt();
      regs := regs.(q := NO_FLAGS, iff1 := false);
      IncR();
      MachineCycle(regs.pc, 5);
      Push16(regs.pc);
      regs := regs.(pc := 0x0066, wz := 0x0066);
      return true;
    }

    method HandleInt(active: bool) returns (serviced: bool)
      modifies this, bus
      ensures serviced == (old(regs.iff1) && active)
      ensures State() == if serviced then Stepping.ServiceInt(bus.host, old(State())) else old(State())
    {
      hide Machine.MachineCycle, Machine.Push, Machine.Read, Stepping.AckByte, Stepping.Vectored;
      if !regs.iff1 || !active {
        return false;
      }
      var databus := Acknowledge();
      Push16(regs.pc);
      Vector(databus);
      return true;
    }

    method Acknowledge() returns (databus: byte)
      modifies this, bus
      ensures State() == Stepping.Acknowledged(bus.host, old(State()))
      ensures databus == Stepping.AckByte(bus.host, old(State()))
    {
      LeaveHalt();
      regs := regs.(q := NO_FLAGS, iff1 := false, iff2 := false);
      IncR();
      MachineCycle(regs.pc, 7);
      databus := bus.AcknowledgeInterrupt();
    }

    // The jump of each interrupt mode.
    method Vector(databus: byte)
      modifies this, bus
      ensures State() == Stepping.Vectored(bus.host, old(State()), databus)
    {
      hide Machine.Read, Word, Pair;
      match regs.im {
        case 0 =>
          var target := if databus / 0x40 == 3 && databus % 8 == 7 then databus / 8 % 8 * 8 else 0x38;
          regs := regs.(pc := target, wz := target);
        case 1 =>
          regs := regs.(pc := 0x0038, wz := 0x0038);
        case 2 =>
          var a := Pair(regs.i, databus);
          var lo := Read8(a);
          var hi := Read8(Word(a as int + 1));
          regs := regs.(pc := Pair(hi, lo));
          regs := regs.(wz := regs.pc);
        case _ =>
      }
    }

    method HaltCycle()
      modifies this, bus
      ensures State() == Stepping.HaltCycle(bus.host, old(State()))
    {
      hide Machine.MachineCycle;
      MachineCycle(regs.pc, 4);
      var _ := bus.ReadMemory(regs.pc);
      IncR();
      regs := regs.(q := NO_FLAGS);
    }

    // The assertion is the source's own: what the dispatcher charges is what was surfaced to the bus.
    method Execute()
      requires Isa.HasOpcode(bus.memory) && spent == 0
      modifies this, bus
      ensures State() == Stepping.Execute(bus.host, old(State()))
    {
      hide Isa.HasOpcode, Machine.Fetch, Isa.Instruction;
      var op := FetchOpcode();
      var t := DispatchUnprefixed(op);
      assert spent == t;
      regs := regs.(q := if flagsModified then regs.f else NO_FLAGS);
    }

    // The result is the elapsed time.
    method Step() returns (elapsed: int)
      requires Stepping.Returns(State())
      modifies this, bus
      ensures State() == Stepping.Step(bus.host, old(State()))
      ensures elapsed == cycles - old(cycles)
    {
      hide Stepping.ServiceNmi, Stepping.ServiceInt, Stepping.Execute, Stepping.HaltCycle, Isa.HasOpcode;
      var start := cycles;
      spent := 0;
      flagsModified := false;
      if lines.nmiPending {
        var _ := HandleNmi();
        return cycles - start;
      }
      var intActive := lines.intLine || lines.intPulse;
      if lines.intPulse {
        lines := lines.(intPulse := false);
      }
      if intActive && regs.iff1 && !regs.eiPending {
        var serviced := HandleInt(intActive);
        if serviced {
          return cycles - start;
        }
      }
      regs := regs.(eiPending := false);
      if regs.halted {
        HaltCycle();
      } else {
        Execute();
      }
      return cycles - start;
    }

    // Steps until at least t T-states have gone by.  The ghost result counts the steps.  The
    // requirement is that each step on the way returns.
    method RunFor(t: int) returns (total: int, ghost n: nat)
      requires forall k: nat :: Stepping.Run(bus.host, State(), k).cycles - cycles < t ==>
        Stepping.Returns(Stepping.Run(bus.host, State(), k))
      modifies this, bus
      ensures State() == Stepping.Run(bus.host, old(State()), n)
      ensures total == cycles - old(cycles)
      ensures Ledger.IsBudget(bus.host, old(State()), t, n)
    {
      hide Stepping.Returns, Stepping.Run, Stepping.Step;
      ghost var s := State();
      total := 0;
      n := 0;
      Ledger.RunZero(bus.host, s);
      while total < t
        invariant State() == Stepping.Run(bus.host, s, n)
        invariant total == cycles - s.cycles
        invariant forall k: nat :: k < n ==>
          Stepping.Run(bus.host, s, k).cycles - s.cycles < t && Stepping.Returns(Stepping.Run(bus.host, s, k))
        decreases t - total
      {
        Ledger.StepTiming(bus.host, State());
        Ledger.RunNext(bus.host, s, n);
        var elapsed := Step();
        total := total + elapsed;
        n := n + 1;
      }
    }
  }

  // ~a has the complementary bits.
  lemma Complement(a: byte)
    ensures Bit(0xFF - a, 5) == !Bit(a, 5) && Bit(0xFF - a, 3) == !Bit(a, 3)
  {
    assert (0xFF - a) / 0x20 == 7 - a / 0x20 && (0xFF - a) / 8 == 0x1F - a / 8;
  }

  lemma IncParts(v: byte, f: Flags)
    ensures var r := Byte(v + 1); Alu.IncFlags(v, f) == Alu.Sz53(r).(h := r % 0x10 == 0, p := r == 0x80, c := f.c)
  {
    hide Alu.Sz53;
  }

  lemma DecParts(v: byte, f: Flags)
    ensures var r := Byte(v - 1);
      Alu.DecFlags(v, f) == Alu.Sz53(r).(h := r % 0x10 == 0xF, p := r == 0x7F, n := true, c := f.c)
  {
    hide Alu.Sz53;
  }

  lemma NegParts(a: byte)
    ensures Alu.SubResult(0, a, false) == Byte(0 - a)
    ensures Alu.NegFlags(a) == Alu.Sz53(Byte(0 - a)).(h := a % 0x10 != 0, p := a == 0x80, n := true, c := a != 0)
  {
  }
}
