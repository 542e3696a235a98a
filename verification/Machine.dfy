/**
 The observable machine: registers, a flat 64 KiB memory, pending interrupt lines, the cycle
 counters and the complete history of bus callbacks, with the bus accesses of src/z80.cpp as
 state transformers.  Waits, port input and acknowledge bytes come from an arbitrary host.
 */
module Machine {
  import opened Words
  import opened Registers

  type Memory = m: seq<byte> | |m| == 0x1_0000 ghost witness seq(0x1_0000, i => 0)

  // One callback of include/z80f/bus.hpp.  A Cycle is an on_m_cycle call: the cycle counter
  // at its start, the address, the base duration and the wait states the host returned.
  datatype Event =
    | Cycle(start: nat, address: word, duration: nat, wait: nat)
    | MemRead(address: word, value: byte)
    | MemWrite(address: word, value: byte)
    | IoRead(port: word, value: byte)
    | IoWrite(port: word, value: byte)
    | Acknowledge(value: byte)

  // The host: its answers may depend on everything it has been asked so far.
  datatype Host = Host(
    wait: (seq<Event>, word, nat) -> nat,
    input: (seq<Event>, word) -> byte,
    vector: seq<Event> -> byte)

  datatype Lines = Lines(nmiLine: bool, nmiPending: bool, intLine: bool, intPulse: bool)

  // touched is flags_modified_, spent is instruction_t_states_.
  datatype State = State(r: Registers, touched: bool, mem: Memory, log: seq<Event>,
                         cycles: nat, spent: nat, lines: Lines)

  // ---- Registers and flags ----

  function WithR(s: State, r: Registers): State { s.(r := r) }

  // write_flags()
  function WithFlags(s: State, f: Flags): State { s.(r := s.r.(f := f), touched := true) }

  function IncR(s: State): State { s.(r := s.r.IncR()) }

  function Jump(s: State, target: word): State { s.(r := s.r.(pc := target)) }

  function SetWz(s: State, w: word): State { s.(r := s.r.(wz := w)) }

  // ---- Bus cycles ----

  function MachineCycle(host: Host, s: State, address: word, t: nat): (u: State)
    ensures u.spent == s.spent + t
    ensures u == s.(log := u.log, cycles := u.cycles, spent := u.spent)
  {
    var waits := host.wait(s.log, address, t);
    s.(log := s.log + [Cycle(s.cycles, address, t, waits)], cycles := s.cycles + t + waits, spent := s.spent + t)
  }

  function Idle(host: Host, s: State, address: word, t: nat): (u: State)
    ensures u.spent == s.spent + t
    ensures u == s.(log := u.log, cycles := u.cycles, spent := u.spent)
    decreases t
  {
    if t == 0 then s else Idle(host, MachineCycle(host, s, address, 1), address, t - 1)
  }

  // read8(): the state afterwards.  The value read is s.mem[a].
  function Read(host: Host, s: State, a: word): (u: State)
    ensures u.spent == s.spent + 3
    ensures u == s.(log := u.log, cycles := u.cycles, spent := u.spent)
  {
    var s1 := MachineCycle(host, s, a, 3);
    s1.(log := s1.log + [MemRead(a, s.mem[a])])
  }

  function Write(host: Host, s: State, a: word, v: byte): (u: State)
    ensures u.spent == s.spent + 3
    ensures u == s.(mem := s.mem[a := v], log := u.log, cycles := u.cycles, spent := u.spent)
  {
    var s1 := MachineCycle(host, s, a, 3);
    s1.(mem := s1.mem[a := v], log := s1.log + [MemWrite(a, v)])
  }

  // fetch_opcode(): the opcode fetched is s.mem[s.r.pc].
  function Fetch(host: Host, s: State): (u: State)
    ensures u.spent == s.spent + 4
    ensures u == s.(r := s.r.IncR().(pc := Word(s.r.pc + 1)), log := u.log, cycles := u.cycles, spent := u.spent)
  {
    var s1 := MachineCycle(host, s, s.r.pc, 4);
    var s2 := s1.(log := s1.log + [MemRead(s.r.pc, s.mem[s.r.pc])]);
    IncR(Jump(s2, Word(s.r.pc + 1)))
  }

  // fetch_immediate() and fetch_immediate16(), with the values they return.
  function Imm(host: Host, s: State): (u: State)
    ensures u.spent == s.spent + 3
    ensures u == s.(r := s.r.(pc := Word(s.r.pc + 1)), log := u.log, cycles := u.cycles, spent := u.spent)
  {
    Jump(Read(host, s, s.r.pc), Word(s.r.pc + 1))
  }

  function ImmValue(s: State): byte { s.mem[s.r.pc] }

  function Imm16(host: Host, s: State): (u: State)
    ensures u.spent == s.spent + 6
    ensures u == s.(r := s.r.(pc := Word(s.r.pc + 2)), log := u.log, cycles := u.cycles, spent := u.spent)
  {
    Imm(host, Imm(host, s))
  }

  function Imm16Value(s: State): word { Pair(s.mem[Word(s.r.pc + 1)], s.mem[s.r.pc]) }

  // io_in(), the value it returns, and io_out().
  function In(host: Host, s: State, port: word): (u: State)
    ensures u.spent == s.spent + 4
    ensures u == s.(log := u.log, cycles := u.cycles, spent := u.spent)
  {
    var s1 := MachineCycle(host, s, port, 4);
    s1.(log := s1.log + [IoRead(port, host.input(s1.log, port))])
  }

  function InValue(host: Host, s: State, port: word): byte {
    host.input(MachineCycle(host, s, port, 4).log, port)
  }

  function Out(host: Host, s: State, port: word, v: byte): (u: State)
    ensures u.spent == s.spent + 4
    ensures u == s.(log := u.log, cycles := u.cycles, spent := u.spent)
  {
    var s1 := MachineCycle(host, s, port, 4);
    s1.(log := s1.log + [IoWrite(port, v)])
  }

  // ---- The stack ----

  function Push(host: Host, s: State, w: word): (u: State)
    ensures u.spent == s.spent + 6
    ensures u == s.(r := s.r.(sp := Word(s.r.sp - 2)),
                    mem := s.mem[Word(s.r.sp - 1) := Hi(w)][Word(s.r.sp - 2) := Lo(w)],
                    log := u.log, cycles := u.cycles, spent := u.spent)
  {
    var s1 := s.(r := s.r.(sp := Word(s.r.sp - 1)));
    var s2 := Write(host, s1, s1.r.sp, Hi(w));
    var s3 := s2.(r := s2.r.(sp := Word(s2.r.sp - 1)));
    Write(host, s3, s3.r.sp, Lo(w))
  }

  function Pop(host: Host, s: State): (u: State)
    ensures u.spent == s.spent + 6
    ensures u == s.(r := s.r.(sp := Word(s.r.sp + 2)), log := u.log, cycles := u.cycles, spent := u.spent)
  {
    var s1 := Read(host, s, s.r.sp);
    var s2 := s1.(r := s1.r.(sp := Word(s1.r.sp + 1)));
    var s3 := Read(host, s2, s2.r.sp);
    s3.(r := s3.r.(sp := Word(s3.r.sp + 1)))
  }

  function PopValue(s: State): word { Pair(s.mem[Word(s.r.sp + 1)], s.mem[s.r.sp]) }
}
