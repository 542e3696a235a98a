/**
 The interrupt state machine over every interleaving of host calls and steps: invariants from
 reset on, the EI delay, conservation of NMI edges and INT pulses, and nested NMIs.
 */
module Interrupts {
  import opened Words
  import opened Registers
  import opened Machine
  import opened Isa
  import opened Stepping
  import opened Ledger
  import opened Ports

  // ---- Host traces ----

  datatype HostCall = DoStep | NmiLine(active: bool) | IntLine(active: bool) | IntPulse

  ghost function Act(host: Host, s: State, call: HostCall): State {
    match call
    case DoStep => Step(host, s)
    case NmiLine(active) => SetNmiLine(s, active)
    case IntLine(active) => SetIntLine(s, active)
    case IntPulse => PulseInt(s)
  }

  ghost function Trace(host: Host, s: State, calls: seq<HostCall>): State
    decreases |calls|
  {
    if |calls| == 0 then s else Trace(host, Act(host, s, calls[0]), calls[1..])
  }

  // ---- Invariants ----

  ghost predicate Sound(s: State) {
    && (s.r.iff1 ==> s.r.iff2)
    && (s.r.eiPending ==> s.r.iff2)
    && s.r.im <= 2
    && (s.r.q == NO_FLAGS || s.r.q == s.r.f)
  }

  lemma ResetSound(s: State)
    ensures Sound(Reset(s)) && !IntActive(Reset(s)) == !s.lines.intLine && !Reset(s).lines.nmiPending
    ensures var r := Reset(s).r;
      && r.pc == 0 && r.sp == 0xFFFF && r.Af() == 0xFFFF && r.Hl() == 0xFFFF && r.i == 0 && r.r == 0 && r.im == 0
      && !r.iff1 && !r.iff2 && !r.halted
  {
  }

  // The Q latch holds F if the step wrote the flags, and nothing otherwise.
  lemma StepLatches(host: Host, s: State)
    requires Returns(s)
    ensures var u := Step(host, s);
      u.r.q == if Executes(s) && u.touched then u.r.f else NO_FLAGS
  {
    hide Instruction, Machine.Fetch, Machine.MachineCycle, Machine.Push, Machine.Read, HasOpcode, Word, Pair,
      WordAt, RestartTarget, AckByte;
  }

  lemma StepSound(host: Host, s: State)
    requires Sound(s)
    ensures Sound(Step(host, s))
  {
    hide Step, Timely, Refreshed, Costs, StepLoadsR, HasOpcode, Named, PrefixRun;
    if Returns(s) {
      StepKept(host, s);
      StepLatches(host, s);
    } else {
      Stuck(host, s);
    }
  }

  // IFF1 implies IFF2, a pending EI implies IFF2, IM is 0, 1 or 2 (so the interrupt handler's
  // default case is never taken), and Q is zero or F: in every state any host can reach.
  lemma {:induction false} TraceSound(host: Host, s: State, calls: seq<HostCall>)
    requires Sound(s)
    ensures Sound(Trace(host, s, calls))
    decreases |calls|
  {
    if |calls| > 0 {
      if calls[0].DoStep? {
        StepSound(host, s);
      }
      TraceSound(host, Act(host, s, calls[0]), calls[1..]);
    }
  }

  // ---- The EI delay ----

  // The step executes EI.
  ghost predicate ExecutesEi(s: State) {
    Executes(s) && HasOpcode(s.mem) && Named(s.mem, s.r.pc).0 == 0xFB
  }

  // The delay is pending after a step exactly when the step was an EI, or when it was pending
  // before and the step only serviced an NMI.
  lemma DelayPending(host: Host, s: State)
    requires Returns(s)
    ensures Step(host, s).r.eiPending <==> ExecutesEi(s) || (s.lines.nmiPending && s.r.eiPending)
  {
    hide Step, Timely, Refreshed, Costs, StepLoadsR, HasOpcode, Named, PrefixRun;
    StepKept(host, s);
  }

  // Every step of the trace services an NMI.
  ghost predicate OnlyNmis(host: Host, s: State, calls: seq<HostCall>)
    decreases |calls|
  {
    |calls| == 0 ||
    ((calls[0].DoStep? ==> s.lines.nmiPending) && OnlyNmis(host, Act(host, s, calls[0]), calls[1..]))
  }

  lemma {:induction false} DelaySurvives(host: Host, s: State, calls: seq<HostCall>)
    requires s.r.eiPending && OnlyNmis(host, s, calls)
    ensures Trace(host, s, calls).r.eiPending
    decreases |calls|
  {
    hide Step, HasOpcode, Named;
    if |calls| > 0 {
      if calls[0].DoStep? {
        DelayPending(host, s);
      }
      DelaySurvives(host, Act(host, s, calls[0]), calls[1..]);
    }
  }

  // Whatever the host does to the lines and however many NMIs come first, the first other
  // step after an EI is never a maskable acknowledge.
  lemma NoAcknowledgeAfterEi(host: Host, s: State, calls: seq<HostCall>)
    requires Returns(s) && ExecutesEi(s)
    requires OnlyNmis(host, Step(host, s), calls)
    ensures !AcceptsInt(Trace(host, Step(host, s), calls))
  {
    hide Step, HasOpcode, Named;
    DelayPending(host, s);
    DelaySurvives(host, Step(host, s), calls);
  }

  // ---- Edges and pulses are conserved ----

  ghost predicate AllReturn(host: Host, s: State, calls: seq<HostCall>)
    decreases |calls|
  {
    |calls| == 0 || ((calls[0].DoStep? ==> Returns(s)) && AllReturn(host, Act(host, s, calls[0]), calls[1..]))
  }

  datatype Tally = Tally(
    services: nat,      // steps that serviced an NMI
    edges: nat,         // rising NMI edges while none was pending
    merged: nat,        // rising NMI edges while one was pending already
    pulses: nat,        // INT pulses while none was latched
    doubled: nat,       // INT pulses on top of a latched one
    sampled: nat,       // latched pulses consumed by a step
    pulseAcks: nat)     // acknowledges the INT line did not ask for

  ghost function Count(s: State, call: HostCall): Tally {
    var nmi, pulse := s.lines.nmiPending, s.lines.intPulse;
    match call
    case DoStep => Tally(Num(nmi), 0, 0, 0, 0, Num(!nmi && pulse), Num(AcceptsInt(s) && !s.lines.intLine))
    case NmiLine(active) =>
      var rising := active && !s.lines.nmiLine;
      Tally(0, Num(rising && !nmi), Num(rising && nmi), 0, 0, 0, 0)
    case IntLine(_) => Tally(0, 0, 0, 0, 0, 0, 0)
    case IntPulse => Tally(0, 0, 0, Num(!pulse), Num(pulse), 0, 0)
  }

  function Plus(x: Tally, y: Tally): Tally {
    Tally(x.services + y.services, x.edges + y.edges, x.merged + y.merged, x.pulses + y.pulses,
          x.doubled + y.doubled, x.sampled + y.sampled, x.pulseAcks + y.pulseAcks)
  }

  ghost function Counts(host: Host, s: State, calls: seq<HostCall>): Tally
    decreases |calls|
  {
    if |calls| == 0 then Tally(0, 0, 0, 0, 0, 0, 0)
    else Plus(Count(s, calls[0]), Counts(host, Act(host, s, calls[0]), calls[1..]))
  }

  // One call: what is latched afterwards is what was latched, plus what arrived, less what was
  // taken; and an acknowledge without the line takes a latched pulse.
  lemma CallConserves(host: Host, s: State, call: HostCall)
    requires call.DoStep? ==> Returns(s)
    ensures var t, u := Count(s, call), Act(host, s, call);
      && t.services + Num(u.lines.nmiPending) == Num(s.lines.nmiPending) + t.edges
      && t.sampled + Num(u.lines.intPulse) == Num(s.lines.intPulse) + t.pulses
      && t.pulseAcks <= t.sampled
  {
    hide Step, Timely, Refreshed, Costs, StepLoadsR, StepControl, HasOpcode;
    if call.DoStep? {
      StepKept(host, s);
    }
  }

  // NMI services plus the one still pending are the edges seen while none was pending, and no
  // edge is counted twice; each pulse survives NMI services and feeds at most one acknowledge.
  lemma {:induction false} EdgesAndPulses(host: Host, s: State, calls: seq<HostCall>)
    requires AllReturn(host, s, calls)
    ensures var t, u := Counts(host, s, calls), Trace(host, s, calls);
      && t.services + Num(u.lines.nmiPending) == Num(s.lines.nmiPending) + t.edges
      && t.sampled + Num(u.lines.intPulse) == Num(s.lines.intPulse) + t.pulses
      && t.pulseAcks <= t.sampled
    decreases |calls|
  {
    hide Act, Count, Returns;
    if |calls| > 0 {
      CallConserves(host, s, calls[0]);
      EdgesAndPulses(host, Act(host, s, calls[0]), calls[1..]);
    }
  }

  // ---- One step on a known opcode ----

  // The state an executing step starts its opcode fetch in.
  function Ready(s: State): State { Sampled(Begin(s)).(r := s.r.(eiPending := false)) }

  function Latch(u: State): State { u.(r := u.r.(q := if u.touched then u.r.f else NO_FLAGS)) }

  lemma StepOnExtended(host: Host, s: State)
    requires Executes(s) && s.mem[s.r.pc] == 0xED
    ensures var s1 := Fetch(host, Fetch(host, Ready(s)));
      Step(host, s) == Latch(ExtendedPage(host, s1, s.mem[Word(s.r.pc + 1)]))
  {
    hide ExtendedPage, Machine.Fetch;
    assert !IsPrefix(s.mem[s.r.pc]);
  }

  lemma StepOnPlain(host: Host, s: State)
    requires Executes(s) && IsPlain(s.mem[s.r.pc])
    ensures Step(host, s) == Latch(Plain(host, HL, Fetch(host, Ready(s)), s.mem[s.r.pc]))
  {
    hide Plain, Machine.Fetch;
    assert !IsPrefix(s.mem[s.r.pc]);
  }

  // ---- SCF and CCF ----

  // An SCF or CCF takes bits 5 and 3 from A alone if the step before it wrote the flags, and
  // from F | A if that step did not.
  lemma CarryOpsUseQ(host: Host, s: State)
    requires Returns(s)
    requires var u := Step(host, s); Executes(u) && u.mem[u.r.pc] in {0x37, 0x3F}
    ensures var u := Step(host, s); var wrote := Executes(s) && u.touched;
      var f := Step(host, u).r.f;
      && f.y == (Bit(u.r.a, 5) || (!wrote && u.r.f.y)) && f.x == (Bit(u.r.a, 3) || (!wrote && u.r.f.x))
      && f.c == (u.mem[u.r.pc] == 0x37 || !u.r.f.c) && f.h == (u.mem[u.r.pc] == 0x3F && u.r.f.c) && !f.n
      && f.s == u.r.f.s && f.z == u.r.f.z && f.p == u.r.f.p
  {
    hide Step, Plain, Machine.Fetch, Bit;
    StepLatches(host, s);
    StepOnPlain(host, Step(host, s));
    CarryOps(host, HL, Fetch(host, Ready(Step(host, s))));
  }

  // ---- NMI and RETN ----

  // The host gives the NMI line an edge and lets the processor take it.
  ghost function TakeNmi(host: Host, s: State): State {
    Step(host, SetNmiLine(SetNmiLine(s, false), true))
  }

  lemma NmiEntry(host: Host, s: State)
    ensures var u := TakeNmi(host, s); var pc := Wake(s.r).pc;
      && u.r == Wake(s.r).(iff1 := false, q := NO_FLAGS, sp := Word(s.r.sp - 2), pc := 0x66, wz := 0x66,
                           r := u.r.r)
      && u.mem == s.mem[Word(s.r.sp - 1) := Hi(pc)][Word(s.r.sp - 2) := Lo(pc)]
      && u.lines == s.lines.(nmiLine := true, nmiPending := false)
  {
    hide Machine.MachineCycle, Machine.Push, Word, Hi, Lo;
  }

  lemma NmiSilent(host: Host, s: State)
    ensures Traffic(TakeNmi(host, s).log) == Traffic(s.log)
  {
    hide Traffic, Machine.MachineCycle, Machine.Push, Word;
    var r := Wake(s.r).(q := NO_FLAGS, iff1 := false).IncR();
    var s0 := Begin(SetNmiLine(SetNmiLine(s, false), true));
    var s1 := s0.(r := r, lines := s0.lines.(nmiPending := false));
    CycleSilent(host, s1, r.pc, 5);
    StackSilent(host, MachineCycle(host, s1, r.pc, 5), r.pc);
  }

  // In mode 0 a byte that is an RST opcode is obeyed, and any other byte taken for FFh.
  predicate IsRst(v: byte) { v in {0xC7, 0xCF, 0xD7, 0xDF, 0xE7, 0xEF, 0xF7, 0xFF} }

  lemma RestartTargets(v: byte)
    ensures RestartTarget(v) == if IsRst(v) then v - 0xC7 else 0x38
  {
    if v / 0x40 == 3 && v % 8 == 7 {
      assert v == 0xC7 + v / 8 % 8 * 8;
    }
  }

  // A maskable acknowledge pushes the address to return to (the one after a HALT it ended),
  // closes both enables and leaves for the address its mode says.
  lemma IntEntry(host: Host, s: State)
    requires AcceptsInt(s) && s.r.im <= 2
    ensures var u := Step(host, s); var pc := Wake(s.r).pc; var v := AckByte(host, Sampled(Begin(s)));
      && u.r == Wake(s.r).(iff1 := false, iff2 := false, q := NO_FLAGS, sp := Word(s.r.sp - 2), r := u.r.r,
                           pc := u.r.pc, wz := u.r.pc)
      && u.mem == s.mem[Word(s.r.sp - 1) := Hi(pc)][Word(s.r.sp - 2) := Lo(pc)]
      && u.lines == s.lines.(intPulse := false)
      && u.r.pc == (match s.r.im
                    case 0 => if IsRst(v) then v - 0xC7 else 0x38
                    case 1 => 0x38
                    case _ => WordAt(u.mem, Pair(s.r.i, v)))
  {
    hide Machine.MachineCycle, Machine.Push, Machine.Read, Word, Hi, Lo, Pair, RestartTarget, WordAt, IsRst;
    RestartTargets(AckByte(host, Sampled(Begin(s))));
  }

  // The mode 0 acknowledge of an RST opcode and the instruction itself, executed by the processor
  // woken and with interrupts disabled, end alike but for R, which counts one refresh in each.
  lemma RstAlike(host: Host, s: State, t: State, v: byte)
    requires AcceptsInt(s) && s.r.im == 0 && v == AckByte(host, Sampled(Begin(s))) && IsRst(v)
    requires t.r == Wake(s.r).(iff1 := false, iff2 := false) && t.mem == s.mem
    ensures var u, w := Step(host, s), Plain(host, HL, t, v);
      && w.r.(q := NO_FLAGS) == u.r.(r := t.r.r) && w.mem == u.mem
  {
    hide Step, Plain, Block3, Machine.Push, Machine.Idle, Word, Hi, Lo, AcceptsInt;
    IntEntry(host, s);
    RstForm(host, t, v);
  }

  lemma RstForm(host: Host, s: State, v: byte)
    requires IsRst(v)
    ensures Plain(host, HL, s, v) == Restart(host, s, v - 0xC7)
  {
    hide JumpIf, Block0, Block1, Block2, PopPair, Transfer, CallIf, PushPair, Accumulate, Restart, ReturnIf,
      Miscellany, Machine.Imm, Machine.ImmValue, Condition;
  }

  // No instruction runs from s to u: only PC, SP, WZ, R and the interrupt state may change, and
  // no memory but two bytes below SP.
  ghost predicate RunsNothing(s: State, u: State) {
    && u.r == s.r.(pc := u.r.pc, sp := u.r.sp, wz := u.r.wz, r := u.r.r, iff1 := u.r.iff1, iff2 := u.r.iff2,
                   halted := u.r.halted, eiPending := u.r.eiPending, q := NO_FLAGS)
    && (forall a: word :: Depth(a, s.r.sp) >= 2 ==> u.mem[a] == s.mem[a])
  }

  lemma NmiRunsNothing(host: Host, s: State)
    requires s.lines.nmiPending
    ensures RunsNothing(s, Step(host, s))
  {
    hide Machine.MachineCycle, Machine.Push, Depth, Word, Hi, Lo, ServiceInt, HaltCycle, Execute, HasOpcode;
    PushedBytes(s.mem, s.r.sp, Wake(s.r).pc);
  }

  lemma IntRunsNothing(host: Host, s: State)
    requires AcceptsInt(s)
    ensures RunsNothing(s, Step(host, s))
  {
    hide Machine.MachineCycle, Machine.Push, Machine.Read, Depth, Word, Hi, Lo, Pair, WordAt, RestartTarget;
    PushedBytes(s.mem, s.r.sp, Wake(s.r).pc);
  }

  // A step executes the instruction at PC if and only if it services no interrupt and the
  // processor is not halted; any other step runs nothing.
  lemma StepKinds(host: Host, s: State)
    requires Returns(s)
    ensures if s.lines.nmiPending || AcceptsInt(s) || s.r.halted then RunsNothing(s, Step(host, s))
            else Step(host, s) == Latch(Instruction(host, Fetch(host, Ready(s)), s.mem[s.r.pc]))
  {
    hide Step, RunsNothing, Instruction, Machine.Fetch, HasOpcode;
    if s.lines.nmiPending {
      NmiRunsNothing(host, s);
    } else if AcceptsInt(s) {
      IntRunsNothing(host, s);
    } else if s.r.halted {
      HaltRunsNothing(host, s);
    } else {
      StepExecutes(host, s);
    }
  }

  lemma HaltRunsNothing(host: Host, s: State)
    requires s.r.halted && !s.lines.nmiPending && !AcceptsInt(s)
    ensures RunsNothing(s, Step(host, s))
  {
    hide Machine.MachineCycle, Depth;
  }

  lemma StepExecutes(host: Host, s: State)
    requires Executes(s) && HasOpcode(s.mem)
    ensures Step(host, s) == Latch(Instruction(host, Fetch(host, Ready(s)), s.mem[s.r.pc]))
  {
    hide Instruction, Machine.Fetch, HasOpcode;
  }

  // A halted processor waits where it is, four T-states a step, until an interrupt is taken.
  lemma {:induction false} HaltWaits(host: Host, s: State, n: nat)
    requires s.r.halted && !s.lines.nmiPending && !(IntActive(s) && s.r.iff1)
    ensures var u := Run(host, s, n);
      && u.r == s.r.(r := u.r.r, q := u.r.q, eiPending := u.r.eiPending) && u.mem == s.mem
      && !u.lines.nmiPending && !(IntActive(u) && u.r.iff1)
      && Charged(u.log) - Charged(s.log) == 4 * n
    decreases n
  {
    hide Step, Charged, Elapsed, WellTimed, NoWaits;
    if n > 0 {
      HaltStep(host, s);
      HaltWaits(host, Step(host, s), n - 1);
    }
  }

  lemma HaltStep(host: Host, s: State)
    requires s.r.halted && !s.lines.nmiPending && !(IntActive(s) && s.r.iff1)
    ensures var u := Step(host, s);
      && u.r == s.r.(r := u.r.r, q := NO_FLAGS, eiPending := false) && u.mem == s.mem
      && u.lines == s.lines.(intPulse := false)
      && Charged(u.log) - Charged(s.log) == 4
  {
    hide Charged, Elapsed, WellTimed, NoWaits, Machine.MachineCycle;
    StepTiming(host, s);
  }

  // ED 45, or any of its aliases, RETI included.
  predicate IsRetn(op: byte) { 0x40 <= op < 0x80 && op % 8 == 5 }

  lemma RetnStep(host: Host, s: State)
    requires Executes(s) && s.mem[s.r.pc] == 0xED && IsRetn(s.mem[Word(s.r.pc + 1)])
    ensures var u := Step(host, s); var pc := WordAt(s.mem, s.r.sp);
      && u.r == s.r.(iff1 := s.r.iff2, eiPending := false, q := NO_FLAGS, sp := Word(s.r.sp + 2), pc := pc,
                     wz := pc, r := u.r.r)
      && u.mem == s.mem
      && u.lines == s.lines.(intPulse := false)
      && u.spent == 14
  {
    hide Step, Machine.Fetch, Machine.Pop, Word, Pair;
    StepOnExtended(host, s);
    var op := s.mem[Word(s.r.pc + 1)];
    assert op / 8 % 8 < 8;
  }

  lemma RetnSilent(host: Host, s: State)
    requires Executes(s) && s.mem[s.r.pc] == 0xED && IsRetn(s.mem[Word(s.r.pc + 1)])
    ensures Traffic(Step(host, s).log) == Traffic(s.log)
  {
    hide Traffic, Step, Machine.Fetch, Machine.Pop, Word, Pair;
    StepOnExtended(host, s);
    var s1 := Fetch(host, Ready(s));
    FetchSilent(host, Ready(s));
    FetchSilent(host, s1);
    StackSilent(host, Fetch(host, s1), 0);
    assert s.mem[Word(s.r.pc + 1)] / 8 % 8 < 8;
  }

  // How far below the stack pointer an address lies: 0 for the next byte to be pushed.
  function Depth(a: word, sp: word): (d: nat)
    ensures d < 0x1_0000
  {
    if a < sp then sp - 1 - a else sp - 1 - a + 0x1_0000
  }

  // The handler at 0066h is a RETN that 2n pushed bytes do not reach.
  predicate RetnHandler(mem: Memory, sp: word, n: nat) {
    && mem[NMI_VECTOR] == 0xED && IsRetn(mem[NMI_VECTOR + 1])
    && Depth(NMI_VECTOR, sp) >= 2 * n && Depth(NMI_VECTOR + 1, sp) >= 2 * n
  }

  // NMIs and RETNs in any well-nested order: nothing, or an NMI, the visits paid to its handler
  // before it returns, the RETN, and what comes after.
  datatype Visits = Done | Visit(inner: Visits, next: Visits)

  // How deeply they are nested.
  function Height(w: Visits): nat {
    match w
    case Done => 0
    case Visit(inner, next) => if Height(inner) + 1 > Height(next) then Height(inner) + 1 else Height(next)
  }

  ghost function Visited(host: Host, s: State, w: Visits): State
    decreases w
  {
    match w
    case Done => s
    case Visit(inner, next) => Visited(host, Step(host, Visited(host, TakeNmi(host, s), inner)), next)
  }

  // Only what the handlers may touch differs: bytes pushed, WZ, R, Q and the EI delay; IFF1 is
  // what RETN leaves.
  ghost predicate Unwound(s: State, u: State, n: nat) {
    var r := Wake(s.r);
    && u.r == r.(iff1 := s.r.iff2, eiPending := false, q := NO_FLAGS, wz := r.pc, r := u.r.r)
    && (forall a: word :: Depth(a, s.r.sp) >= 2 * n ==> u.mem[a] == s.mem[a])
    && !u.lines.nmiPending && !IntActive(u)
    && Traffic(u.log) == Traffic(s.log)
  }

  lemma PushedBytes(mem: Memory, sp: word, w: word)
    ensures var m := mem[Word(sp - 1) := Hi(w)][Word(sp - 2) := Lo(w)];
      && WordAt(m, Word(sp - 2)) == w
      && (forall a: word :: Depth(a, sp) >= 2 ==> m[a] == mem[a])
  {
    assert Word(Word(sp - 2) + 1) == Word(sp - 1) && Word(sp - 1) != Word(sp - 2);
    SplitWord(w);
  }

  lemma DepthBelow(a: word, sp: word, k: nat)
    requires 2 <= k < 0x1_0000
    ensures Depth(a, sp) >= k ==> Depth(a, Word(sp - 2)) >= k - 2
    ensures Depth(Word(sp - 1), Word(sp - 2)) == 0xFFFE && Depth(Word(sp - 2), Word(sp - 2)) == 0xFFFF
    ensures Word(Word(sp - 2) + 1) == Word(sp - 1) && Word(Word(sp - 2) + 2) == sp
  {
  }

  // The RETN that ends a visit, v being the handler's state once the inner visits are over.
  lemma VisitReturns(host: Host, s: State, v: State, n: nat)
    requires n > 0 && !IntActive(s) && RetnHandler(s.mem, s.r.sp, n)
    requires v == TakeNmi(host, s) || Unwound(TakeNmi(host, s), v, n - 1)
    ensures Unwound(s, Step(host, v), n)
  {
    hide Step, Word, Depth, Pair, Hi, Lo, Wake, WordAt, Traffic;
    var pc := Wake(s.r).pc;
    var s1 := TakeNmi(host, s);
    NmiEntry(host, s);
    NmiSilent(host, s);
    PushedBytes(s.mem, s.r.sp, pc);
    DepthBelow(NMI_VECTOR, s.r.sp, 2 * n);
    DepthBelow(NMI_VECTOR + 1, s.r.sp, 2 * n);
    AwakeNow(s.r);
    AwakeNow(s1.r);
    assert v.r.pc == NMI_VECTOR && v.r.sp == s1.r.sp && !v.r.halted;
    assert v.mem[NMI_VECTOR] == 0xED && v.mem[NMI_VECTOR + 1] == s.mem[NMI_VECTOR + 1];
    WordAtSame(v.mem, s1.mem, s1.r.sp);
    assert Word(NMI_VECTOR + 1) == NMI_VECTOR + 1 by { SmallWord(NMI_VECTOR + 1); }
    RetnStep(host, v);
    RetnSilent(host, v);
    forall a: word | Depth(a, s.r.sp) >= 2 * n ensures v.mem[a] == s.mem[a] {
      DepthBelow(a, s.r.sp, 2 * n);
    }
  }

  lemma HandlerBelow(host: Host, s: State, n: nat)
    requires n > 0 && RetnHandler(s.mem, s.r.sp, n)
    ensures var s1 := TakeNmi(host, s); RetnHandler(s1.mem, s1.r.sp, n - 1) && IntActive(s1) == IntActive(s)
  {
    hide Step, Word, Depth, Hi, Lo, Wake, WordAt;
    NmiEntry(host, s);
    PushedBytes(s.mem, s.r.sp, Wake(s.r).pc);
    DepthBelow(NMI_VECTOR, s.r.sp, 2 * n);
    DepthBelow(NMI_VECTOR + 1, s.r.sp, 2 * n);
  }

  lemma UnwoundThen(s: State, u: State, w: State, n: nat)
    requires Unwound(s, u, n) && Unwound(u, w, n)
    ensures Unwound(s, w, n)
  {
    hide Depth, Wake, Traffic;
    AwakeNow(s.r);
    AwakeNow(u.r);
  }

  // Whatever order NMIs and RETNs come in, they give back PC (or the address after the HALT
  // they ended), SP, every other register and IFF2, touch no port, and change no memory but
  // two bytes for each level of nesting.
  lemma {:induction false} VisitsUnwind(host: Host, s: State, w: Visits, n: nat)
    requires w.Visit? && Height(w) <= n && !IntActive(s) && RetnHandler(s.mem, s.r.sp, n)
    ensures Unwound(s, Visited(host, s, w), n)
    decreases w
  {
    hide Step, Depth, Wake, Traffic, TakeNmi, IsRetn;
    var s1 := TakeNmi(host, s);
    HandlerBelow(host, s, n);
    if w.inner.Visit? {
      VisitsUnwind(host, s1, w.inner, n - 1);
    }
    var v := Visited(host, s1, w.inner);
    VisitReturns(host, s, v, n);
    var u := Step(host, v);
    AwakeNow(s.r);
    if w.next.Visit? {
      VisitsUnwind(host, u, w.next, n);
      UnwoundThen(s, u, Visited(host, u, w.next), n);
    }
  }

  // n NMIs, each taken before the handler of the previous one has run.
  ghost function Nest(host: Host, s: State, n: nat): State
    decreases n
  {
    if n == 0 then s else Nest(host, TakeNmi(host, s), n - 1)
  }

  // A tower of n visits.
  function Tower(n: nat): (w: Visits)
    ensures Height(w) == n && (w.Visit? <==> n > 0)
  {
    if n == 0 then Done else Visit(Tower(n - 1), Done)
  }

  lemma {:induction false} TowerIsNest(host: Host, s: State, n: nat)
    ensures Visited(host, s, Tower(n)) == Run(host, Nest(host, s, n), n)
    decreases n
  {
    hide Step, Run, TakeNmi;
    RunZero(host, s);
    if n > 0 {
      TowerIsNest(host, TakeNmi(host, s), n - 1);
      RunNext(host, Nest(host, s, n), n - 1);
    }
  }

  // In particular n nested NMIs and then n RETNs.
  lemma NestedNmis(host: Host, s: State, n: nat)
    requires n > 0 && !IntActive(s) && RetnHandler(s.mem, s.r.sp, n)
    ensures Unwound(s, Run(host, Nest(host, s, n), n), n)
  {
    hide *;
    TowerIsNest(host, s, n);
    VisitsUnwind(host, s, Tower(n), n);
  }

  lemma SmallWord(w: word)
    ensures Word(w) == w
  {
  }

  lemma WordAtSame(m: Memory, m': Memory, a: word)
    requires m[a] == m'[a] && m[Word(a + 1)] == m'[Word(a + 1)]
    ensures WordAt(m, a) == WordAt(m', a)
  {
  }

  // Wake changes only PC and HALT, and nothing twice.
  lemma AwakeNow(r: Registers)
    ensures !Wake(r).halted && Wake(r) == r.(pc := Wake(r).pc, halted := false)
    ensures !r.halted ==> Wake(r) == r
  {
  }
}
