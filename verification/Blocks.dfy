/** What the repeating block instructions have in common: moving pointers and undisturbed steps. */
module Blocks {
  import opened Words
  import opened Machine
  import opened Isa
  import opened Stepping
  import opened Interrupts
  import opened Ports

  // The direction of a block instruction: up for LDI, CPI, INI and OUTI and their repeating forms.
  predicate Ascends(op: byte) { op / 8 % 2 == 0 }

  // The i-th address from a on, upwards or downwards around memory.
  function Along(a: word, i: nat, up: bool): word { if up then Word(a + i) else Word(a - i) }

  lemma AlongNext(a: word, i: nat, up: bool)
    ensures Along(a, 0, up) == a
    ensures Along(Along(a, i, up), 1, up) == Along(a, i + 1, up)
  {
    hide Word;
    WordPlus(a, 0);
    WordPlus(a + i, 1);
    WordPlus(a - i, -1);
  }

  lemma AlongDistinct(a: word, i: nat, j: nat, up: bool)
    requires i < j < 0x1_0000
    ensures Along(a, i, up) != Along(a, j, up)
  {
    hide Word;
    WordModulo(if up then a + i else a - i);
    WordModulo(if up then a + j else a - j);
  }

  // a is none of the n addresses from start on.
  ghost predicate Spares(start: word, up: bool, n: nat, a: word) { forall i: nat :: i < n ==> a != Along(start, i, up) }

  // A counter of zero stands for a full turn.
  function Count16(bc: word): (n: nat)
    ensures 0 < n <= 0x1_0000
  {
    if bc == 0 then 0x1_0000 else bc
  }

  function Count8(b: byte): (n: nat)
    ensures 0 < n <= 0x100
  {
    if b == 0 then 0x100 else b
  }

  lemma CountDown(bc: word, k: nat)
    requires k < Count16(bc)
    ensures Word(bc - k) != 0 || k == 0
    ensures Word(Word(bc - k) - 1) == Word(bc - (k + 1))
    ensures Word(bc - (k + 1)) == 0 <==> k + 1 == Count16(bc)
    ensures Word(bc - 0) == bc
  {
  }

  // No interrupt is or becomes due while the instructions leave interrupt control alone.
  predicate Quiet(s: State) { !s.lines.nmiPending && !(IntActive(s) && s.r.iff1) && !s.r.halted }

  // ED op lies at pc.
  predicate CodeAt(mem: Memory, pc: word, op: byte) { mem[pc] == 0xED && mem[Word(pc + 1)] == op }

  // Where an execution of ED op starts, both opcode bytes fetched.
  function Entered(host: Host, s: State): State { Fetch(host, Fetch(host, Ready(s))) }

  lemma EnteredKeeps(host: Host, s: State)
    ensures var u := Entered(host, s);
      && u == s.(r := s.r.(eiPending := false, pc := Word(s.r.pc + 2), r := AdvanceR(s.r.r, 2)), touched := false,
                 log := u.log, cycles := u.cycles, spent := 8, lines := s.lines.(intPulse := false))
  {
    hide Machine.Fetch, Word, AdvanceR;
    FetchAdvances(host, Ready(s));
    FetchAdvances(host, Fetch(host, Ready(s)));
    AdvanceTwice(s.r.r, s.r.pc);
  }

  lemma EnteredSilent(host: Host, s: State)
    ensures Traffic(Entered(host, s).log) == Traffic(s.log)
  {
    hide Traffic, Machine.Fetch;
    FetchSilent(host, Ready(s));
    FetchSilent(host, Fetch(host, Ready(s)));
  }

  lemma StepEnters(host: Host, s: State, op: byte)
    requires Executes(s) && CodeAt(s.mem, s.r.pc, op)
    ensures Step(host, s) == Latch(ExtendedPage(host, Entered(host, s), op))
  {
    hide Step, ExtendedPage, Machine.Fetch;
    StepOnExtended(host, s);
  }

  lemma FetchAdvances(host: Host, s: State)
    ensures var u := Fetch(host, s);
      u == s.(r := s.r.(pc := Word(s.r.pc + 1), r := AdvanceR(s.r.r, 1)),
              log := u.log, cycles := u.cycles, spent := s.spent + 4)
  {
    hide Machine.Fetch;
  }

  // R after n refreshes.
  function AdvanceR(r: byte, n: nat): byte { r / 0x80 * 0x80 + (r + n) % 0x80 }

  lemma AdvanceTwice(r: byte, pc: word)
    ensures AdvanceR(AdvanceR(r, 1), 1) == AdvanceR(r, 2)
    ensures Word(Word(pc + 1) + 1) == Word(pc + 2)
  {
    hide Word;
    assert Word(Word(pc + 1) + 1) == Word(pc + 2) by { WordTwice(pc); }
  }

  lemma WordTwice(pc: word)
    ensures Word(Word(pc + 1) + 1) == Word(pc + 2) && Word(Word(pc + 2) - 2) == pc
  {
  }

  lemma AdvanceMore(r: byte, n: nat)
    ensures AdvanceR(AdvanceR(r, n), 2) == AdvanceR(r, n + 2)
    ensures AdvanceR(r, 0) == r
  {
    assert (r / 0x80 * 0x80 + (r + n) % 0x80) / 0x80 == r / 0x80;
    ModStep(r + n);
  }

  lemma ModStep(x: nat)
    ensures (x % 0x80 + 2) % 0x80 == (x + 2) % 0x80
  {
  }
}
