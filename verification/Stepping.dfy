/**
 One step of the processor: interrupt sampling, NMI and maskable acknowledge, HALT, or one
 instruction.  Also reset, the host's line changes, and runs of many steps.
 */
module Stepping {
  import opened Words
  import opened Registers
  import opened Machine
  import opened Isa

  // ---- Interrupt service ----

  // Leaving HALT resumes after it.
  function Wake(r: Registers): Registers {
    if r.halted then r.(pc := Word(r.pc + 1), halted := false) else r
  }

  const NMI_VECTOR: word := 0x66

  function ServiceNmi(host: Host, s: State): State {
    var r := Wake(s.r).(q := NO_FLAGS, iff1 := false).IncR();
    var s1 := s.(r := r, lines := s.lines.(nmiPending := false));
    var s2 := MachineCycle(host, s1, r.pc, 5);
    var s3 := Push(host, s2, r.pc);
    SetWz(Jump(s3, NMI_VECTOR), NMI_VECTOR)
  }

  // IM 0 obeys an RST on the data bus and takes anything else for RST 38h.
  function RestartTarget(v: byte): word {
    if v / 0x40 == 3 && v % 8 == 7 then v / 8 % 8 * 8 else 0x38
  }

  // The acknowledge cycle and the byte the host puts on the data bus.
  function AcknowledgeCycle(host: Host, s: State): State {
    var r := Wake(s.r).(q := NO_FLAGS, iff1 := false, iff2 := false).IncR();
    MachineCycle(host, WithR(s, r), r.pc, 7)
  }

  function AckByte(host: Host, s: State): byte { host.vector(AcknowledgeCycle(host, s).log) }

  function Acknowledged(host: Host, s: State): State {
    var s1 := AcknowledgeCycle(host, s);
    s1.(log := s1.log + [Acknowledge(AckByte(host, s))])
  }

  // After the return address is pushed; v is the acknowledge byte.
  function Vectored(host: Host, s: State, v: byte): State {
    match s.r.im
    case 0 => SetWz(Jump(s, RestartTarget(v)), RestartTarget(v))
    case 1 => SetWz(Jump(s, 0x38), 0x38)
    case 2 =>
      var a := Pair(s.r.i, v);
      var target := WordAt(s.mem, a);
      SetWz(Jump(Read(host, Read(host, s, a), Word(a + 1)), target), target)
    case _ => s
  }

  function ServiceInt(host: Host, s: State): State {
    var s1 := Acknowledged(host, s);
    Vectored(host, Push(host, s1, s1.r.pc), AckByte(host, s))
  }

  // ---- step() ----

  predicate IntActive(s: State) { s.lines.intLine || s.lines.intPulse }

  // The step acknowledges a maskable interrupt.
  predicate AcceptsInt(s: State) {
    !s.lines.nmiPending && IntActive(s) && s.r.iff1 && !s.r.eiPending
  }

  // The step executes an instruction.
  predicate Executes(s: State) { !s.lines.nmiPending && !AcceptsInt(s) && !s.r.halted }

  // step() comes back: only a memory full of index prefixes can keep it forever.
  ghost predicate Returns(s: State) { Executes(s) ==> HasOpcode(s.mem) }

  function HaltCycle(host: Host, s: State): State {
    var s1 := MachineCycle(host, s, s.r.pc, 4);
    var s2 := s1.(log := s1.log + [MemRead(s.r.pc, s.mem[s.r.pc])]);
    s2.(r := s2.r.IncR().(q := NO_FLAGS))
  }

  function Begin(s: State): State { s.(spent := 0, touched := false) }

  // A pulse is seen by exactly one sampling of the lines.
  function Sampled(s: State): State { s.(lines := s.lines.(intPulse := false)) }

  // Instruction execution, ending with the Q latch.
  ghost function Execute(host: Host, s: State): State
    requires HasOpcode(s.mem)
  {
    var s1 := Instruction(host, Fetch(host, s), s.mem[s.r.pc]);
    s1.(r := s1.r.(q := if s1.touched then s1.r.f else NO_FLAGS))
  }

  // A step that never comes back is given its own starting state.
  ghost function Step(host: Host, s: State): State {
    if !Returns(s) then s
    else if s.lines.nmiPending then ServiceNmi(host, Begin(s))
    else if AcceptsInt(s) then ServiceInt(host, Sampled(Begin(s)))
    else
      var s1 := Sampled(Begin(s)).(r := s.r.(eiPending := false));
      if s.r.halted then HaltCycle(host, s1) else Execute(host, s1)
  }

  ghost function Run(host: Host, s: State, n: nat): State
    decreases n
  {
    if n == 0 then s else Run(host, Step(host, s), n - 1)
  }

  // ---- The host's side ----

  function SetNmiLine(s: State, active: bool): State {
    s.(lines := s.lines.(nmiLine := active, nmiPending := s.lines.nmiPending || (active && !s.lines.nmiLine)))
  }

  function SetIntLine(s: State, active: bool): State { s.(lines := s.lines.(intLine := active)) }

  function PulseInt(s: State): State { s.(lines := s.lines.(intPulse := true)) }

  const RESET_REGISTERS := Registers(
    0xFF, Flags(true, true, true, true, true, true, true, true), 0xFF, 0xFF, 0xFF, 0xFF, 0xFF, 0xFF,
    0, NO_FLAGS, 0, 0, 0, 0, 0, 0,
    0xFFFF, 0xFFFF, 0xFFFF, 0, 0, 0, 0,
    false, false, 0, false, false, NO_FLAGS)

  function Reset(s: State): State {
    s.(r := RESET_REGISTERS, cycles := 0, lines := s.lines.(nmiPending := false, intPulse := false))
  }
}
