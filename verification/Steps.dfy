/** What one step does, opcode by opcode: how the step of a known opcode begins and ends. */
module Steps {
  import opened Words
  import opened Registers
  import opened Machine
  import opened Isa
  import opened Stepping
  import opened Interrupts
  import opened Blocks
  import opened IndexPrefix

  // The k-th byte from PC on.
  function Code(s: State, k: nat): byte { s.mem[Word(s.r.pc + k)] }

  // The registers after n bytes and k opcode fetches, no flag written.
  function Past(r: Registers, n: nat, k: nat): Registers {
    r.(pc := Word(r.pc + n), r := AdvanceR(r.r, k), eiPending := false, q := NO_FLAGS)
  }

  // An unprefixed instruction after its opcode fetch ...
  function Opened(host: Host, s: State): State { Fetch(host, Ready(s)) }

  lemma OpenedKeeps(host: Host, s: State)
    ensures var u := Opened(host, s);
      && u == s.(r := s.r.(eiPending := false, pc := Word(s.r.pc + 1), r := AdvanceR(s.r.r, 1)), touched := false,
                 log := u.log, cycles := u.cycles, spent := 4, lines := s.lines.(intPulse := false))
  {
    hide Machine.Fetch, Word, AdvanceR;
    FetchAdvances(host, Ready(s));
  }

  lemma StepPlain(host: Host, s: State)
    requires Executes(s) && IsPlain(s.mem[s.r.pc])
    ensures Step(host, s) == Latch(Plain(host, HL, Opened(host, s), s.mem[s.r.pc]))
  {
    hide Step, Plain, Machine.Fetch;
    StepOnPlain(host, s);
  }

  // ... and a prefixed one after prefix and opcode.
  function Prefixed(host: Host, s: State): State {
    var s1 := Opened(host, s);
    Fetch(host, s1.(r := s1.r.(q := NO_FLAGS)))
  }

  lemma PrefixedKeeps(host: Host, s: State)
    ensures var u := Prefixed(host, s);
      && u == s.(r := s.r.(eiPending := false, q := NO_FLAGS, pc := Word(s.r.pc + 2), r := AdvanceR(s.r.r, 2)),
                 touched := false, log := u.log, cycles := u.cycles, spent := 8, lines := s.lines.(intPulse := false))
  {
    hide Machine.Fetch, Opened, Word, AdvanceR;
    OpenedKeeps(host, s);
    var s1 := Opened(host, s);
    FetchAdvances(host, s1.(r := s1.r.(q := NO_FLAGS)));
    AdvanceTwice(s.r.r, s.r.pc);
  }

  lemma StepIndexed(host: Host, s: State)
    requires Executes(s) && IsPrefix(s.mem[s.r.pc]) && !IsPrefix(Code(s, 1))
    ensures Step(host, s) == Latch(Indexed(host, ModeOf(s.mem[s.r.pc]), Prefixed(host, s), Code(s, 1)))
  {
    hide Step, Machine.Fetch, PrefixChain, HasOpcode, Indexed, Word;
    PrefixEnds(s.mem, Word(s.r.pc + 1));
    StepOnPrefix(host, s);
    var s1 := Fetch(host, Ready(s));
    ChainOpens(host, ModeOf(s.mem[s.r.pc]), s1.(r := s1.r.(q := NO_FLAGS)));
  }
}
