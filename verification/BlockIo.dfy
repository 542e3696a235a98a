/** INIR, INDR, OTIR and OTDR over whole runs: B transfers between successive ports and bytes. */
module BlockIo {
  import opened Words
  import opened Registers
  import opened Machine
  import opened Isa
  import opened Stepping
  import opened Ledger
  import opened Interrupts
  import opened Ports
  import opened Blocks
  import opened Interrupted
  import Alu

  // INIR, INDR; OTIR, OTDR
  predicate IsTransfer(op: byte) { op == 0xB2 || op == 0xBA || op == 0xB3 || op == 0xBB }

  predicate IsInput(op: byte) { op % 8 == 2 }

  // ---- One transfer ----

  // Input addresses the port with B before it is counted, output after.
  function Port(r: Registers, op: byte, k: nat): word { Pair(Byte(r.b - if IsInput(op) then k else k + 1), r.c) }

  function Transfer(r: Registers, op: byte, k: nat, v: byte): Event {
    if IsInput(op) then IoRead(Port(r, op, k), v) else IoWrite(Port(r, op, k), v)
  }

  // The registers after k > 0 transfers, the last one of v.
  function TransferredRegisters(r: Registers, v: byte, op: byte, k: nat): Registers
    requires 0 < k <= Count8(r.b)
  {
    var up, left := Ascends(op), Byte(r.b - k);
    var hl := Along(r.Hl(), k, up);
    var f := Alu.BlockIoFlags(v, v + if IsInput(op) then Byte(r.c + (if up then 1 else -1)) else Lo(hl), left);
    r.SetHl(hl).(b := left, f := f, q := f, eiPending := false, r := AdvanceR(r.r, 2 * k),
      pc := if left != 0 then r.pc else Word(r.pc + 2),
      wz := Along(Port(r, op, k - 1), 1, up))
  }

  lemma BlockInEffect(host: Host, s: State, delta: int, repeating: bool)
    requires delta == 1 || delta == -1
    ensures var u := BlockIn(host, s, delta, repeating);
      var left := Byte(s.r.b - 1); var up := delta == 1; var v := InValue(host, Idle(host, s, s.r.Ir(), 1), s.r.Bc());
      && u.r == s.r.SetHl(Along(s.r.Hl(), 1, up)).(b := left, wz := Along(s.r.Bc(), 1, up),
           f := Alu.BlockIoFlags(v, v + Byte(s.r.c + delta), left),
           pc := if repeating && left != 0 then Word(s.r.pc - 2) else s.r.pc)
      && u.mem == s.mem[s.r.Hl() := v] && u.touched && u.lines == s.lines
      && u.spent == s.spent + (if repeating && left != 0 then 13 else 8)
      && Traffic(u.log) == Traffic(s.log) + [IoRead(s.r.Bc(), v)]
  {
    hide Machine.Idle, Machine.In, Machine.InValue, Machine.Write, Alu.BlockIoFlags, Word, Pair, Hi, Lo, Byte,
      Traffic;
    var s1 := Idle(host, s, s.r.Ir(), 1);
    var v := InValue(host, s1, s.r.Bc());
    IdleSilent(host, s, s.r.Ir(), 1);
    AccessTraffic(host, s1, s.r.Bc(), 0);
    forall t: State ensures Traffic(Write(host, t, s.r.Hl(), v).log) == Traffic(t.log) {
      AccessTraffic(host, t, s.r.Hl(), v);
    }
    forall t: State ensures Traffic(Idle(host, t, s.r.Hl(), 5).log) == Traffic(t.log) {
      IdleSilent(host, t, s.r.Hl(), 5);
    }
  }

  lemma BlockOutEffect(host: Host, s: State, delta: int, repeating: bool)
    requires delta == 1 || delta == -1
    ensures var u := BlockOut(host, s, delta, repeating);
      var left := Byte(s.r.b - 1); var up := delta == 1; var v := s.mem[s.r.Hl()]; var port := Pair(left, s.r.c);
      && u.r == s.r.SetHl(Along(s.r.Hl(), 1, up)).(b := left, wz := Along(port, 1, up),
           f := Alu.BlockIoFlags(v, v + Lo(Along(s.r.Hl(), 1, up)), left),
           pc := if repeating && left != 0 then Word(s.r.pc - 2) else s.r.pc)
      && u.mem == s.mem && u.touched && u.lines == s.lines
      && u.spent == s.spent + (if repeating && left != 0 then 13 else 8)
      && Traffic(u.log) == Traffic(s.log) + [IoWrite(port, v)]
  {
    hide Machine.Idle, Machine.Read, Machine.Out, Alu.BlockIoFlags, Word, Pair, Hi, Lo, Byte, Traffic;
    var v, port := s.mem[s.r.Hl()], Pair(Byte(s.r.b - 1), s.r.c);
    IdleSilent(host, s, s.r.Ir(), 1);
    AccessTraffic(host, Idle(host, s, s.r.Ir(), 1), s.r.Hl(), 0);
    forall t: State ensures Traffic(Out(host, t, port, v).log) == Traffic(t.log) + [IoWrite(port, v)] {
      AccessTraffic(host, t, port, v);
    }
    forall t: State ensures Traffic(Idle(host, t, port, 5).log) == Traffic(t.log) {
      IdleSilent(host, t, port, 5);
    }
  }

  // The byte a transfer moves.
  ghost function Moved(host: Host, s: State, op: byte): byte {
    if IsInput(op) then
      var s1 := Entered(host, s);
      InValue(host, Idle(host, s1, s1.r.Ir(), 1), s.r.Bc())
    else
      s.mem[s.r.Hl()]
  }

  lemma TransferPage(host: Host, s: State, op: byte)
    requires IsTransfer(op)
    ensures var delta := if Ascends(op) then 1 else -1;
      ExtendedPage(host, s, op) == if IsInput(op) then BlockIn(host, s, delta, true) else BlockOut(host, s, delta, true)
  {
    hide BlockLd, BlockCp, BlockIn, BlockOut, Extended;
  }

  lemma TransferStep(host: Host, s: State, op: byte)
    requires Executes(s) && CodeAt(s.mem, s.r.pc, op) && IsTransfer(op)
    ensures var u, v := Step(host, s), Moved(host, s, op);
      && u.r == TransferredRegisters(s.r, v, op, 1)
      && u.mem == (if IsInput(op) then s.mem[s.r.Hl() := v] else s.mem)
      && u.lines == s.lines.(intPulse := false)
      && u.spent == (if Byte(s.r.b - 1) != 0 then 21 else 16)
      && Traffic(u.log) == Traffic(s.log) + [Transfer(s.r, op, 0, v)]
  {
    hide Step, Entered, BlockIn, BlockOut, ExtendedPage, Alu.BlockIoFlags, Machine.Idle, Machine.InValue, Word,
      Byte, Pair, Hi, Lo, AdvanceR, Along, Traffic;
    StepEnters(host, s, op);
    EnteredKeeps(host, s);
    EnteredSilent(host, s);
    WordTwice(s.r.pc);
    ByteDown(s.r.b, 0);
    TransferPage(host, Entered(host, s), op);
    if IsInput(op) {
      BlockInEffect(host, Entered(host, s), if Ascends(op) then 1 else -1, true);
    } else {
      BlockOutEffect(host, Entered(host, s), if Ascends(op) then 1 else -1, true);
    }
  }

  lemma ByteDown(b: byte, k: nat)
    ensures Byte(b - 0) == b
    ensures Byte(Byte(b - k) - 0) == Byte(b - k)
    ensures Byte(Byte(b - k) - 1) == Byte(b - (k + 1))
    ensures k < Count8(b) ==> (Byte(b - (k + 1)) == 0 <==> k + 1 == Count8(b)) && (Byte(b - k) != 0 || k == 0)
  {
  }

  // ---- Runs ----

  // The first k bytes at HL have each met their port, in order, after the traffic before.
  ghost predicate Carried(r: Registers, op: byte, before: seq<Event>, after: seq<Event>, mem: Memory, k: nat) {
    && |after| == |before| + k
    && after[..|before|] == before
    && forall i: nat :: i < k ==> after[|before| + i] == Transfer(r, op, i, mem[Along(r.Hl(), i, Ascends(op))])
  }

  // Only input writes memory, and only the first k bytes at HL.
  ghost predicate Contained(r: Registers, op: byte, before: Memory, after: Memory, k: nat) {
    forall a: word :: !IsInput(op) || Spares(r.Hl(), Ascends(op), k, a) ==> after[a] == before[a]
  }

  // u is s after k transfers.
  ghost predicate AfterTransfers(s: State, u: State, op: byte, k: nat)
    requires k <= Count8(s.r.b)
  {
    && (k == 0 ==> u == s)
    && (k > 0 ==> u.r == TransferredRegisters(s.r, u.mem[Along(s.r.Hl(), k - 1, Ascends(op))], op, k))
    && (k > 0 ==> u.lines == s.lines.(intPulse := false))
    && Contained(s.r, op, s.mem, u.mem, k)
    && Carried(s.r, op, Traffic(s.log), Traffic(u.log), u.mem, k)
  }

  lemma NextRegisters(r: Registers, v: byte, v': byte, op: byte, k: nat)
    requires 0 < k < Count8(r.b)
    ensures TransferredRegisters(TransferredRegisters(r, v, op, k), v', op, 1) == TransferredRegisters(r, v', op, k + 1)
  {
    hide Word, Byte, Hi, Lo, Pair, Along, AdvanceR, Count8, Alu.BlockIoFlags;
    ByteDown(r.b, k);
    SplitWord(Along(r.Hl(), k, Ascends(op)));
    AlongNext(r.Hl(), k, Ascends(op));
    AdvanceMore(r.r, 2 * k);
  }

  lemma MidTransfer(s: State, t: State, op: byte, k: nat)
    requires Quiet(s) && k < Count8(s.r.b) && AfterTransfers(s, t, op, k)
    ensures Executes(t) && t.r.pc == s.r.pc && t.r.c == s.r.c
    ensures t.r.Hl() == Along(s.r.Hl(), k, Ascends(op))
    ensures t.r.b == Byte(s.r.b - k)
  {
    hide Word, Byte, Hi, Lo, Pair, Along, AdvanceR, Count8, Alu.BlockIoFlags, Traffic, Carried, Contained;
    ByteDown(s.r.b, k);
    if k > 0 {
      ByteDown(s.r.b, k - 1);
    }
    SplitWord(Along(s.r.Hl(), k, Ascends(op)));
    AlongNext(s.r.Hl(), 0, Ascends(op));
  }

  lemma NextMemory(r: Registers, op: byte, before: Memory, mem: Memory, v: byte, k: nat)
    requires Contained(r, op, before, mem, k) && k < 0x1_0000
    ensures var at := Along(r.Hl(), k, Ascends(op)); var after := if IsInput(op) then mem[at := v] else mem;
      && Contained(r, op, before, after, k + 1)
      && forall i: nat :: i < k ==> after[Along(r.Hl(), i, Ascends(op))] == mem[Along(r.Hl(), i, Ascends(op))]
  {
    hide Along;
    forall i: nat {:trigger Along(r.Hl(), i, Ascends(op))} | i < k
      ensures Along(r.Hl(), i, Ascends(op)) != Along(r.Hl(), k, Ascends(op))
    {
      AlongDistinct(r.Hl(), i, k, Ascends(op));
    }
  }

  lemma TransferAgain(host: Host, s: State, t: State, op: byte, k: nat)
    requires Quiet(s) && IsTransfer(op) && k < Count8(s.r.b) && AfterTransfers(s, t, op, k)
    requires CodeAt(t.mem, s.r.pc, op)
    ensures AfterTransfers(s, Step(host, t), op, k + 1)
    ensures Charged(Step(host, t).log) - Charged(t.log) == if k + 1 == Count8(s.r.b) then 16 else 21
  {
    hide Step, Charged, Elapsed, WellTimed, NoWaits, Traffic, Machine.Idle, Machine.InValue, Entered, Contained,
      TransferredRegisters, Along, Word, Byte, Pair, Count8;
    var v := Moved(host, t, op);
    MidTransfer(s, t, op, k);
    TransferStep(host, t, op);
    ByteDown(s.r.b, k);
    assert !IsPrefix(t.mem[t.r.pc]);
    StepTiming(host, t);
    NextMemory(s.r, op, s.mem, t.mem, v, k);
    if k > 0 {
      NextRegisters(s.r, t.mem[Along(s.r.Hl(), k - 1, Ascends(op))], v, op, k);
    }
  }

  // Input does not overwrite the instruction before its last transfer.
  ghost predicate CodeLasts(s: State, op: byte) {
    var up, n := Ascends(op), Count8(s.r.b);
    IsInput(op) ==> Spares(s.r.Hl(), up, n - 1, s.r.pc) && Spares(s.r.Hl(), up, n - 1, Word(s.r.pc + 1))
  }

  lemma CodeKept(s: State, t: State, op: byte, k: nat)
    requires k < Count8(s.r.b) && CodeLasts(s, op) && CodeAt(s.mem, s.r.pc, op) && Contained(s.r, op, s.mem, t.mem, k)
    ensures CodeAt(t.mem, s.r.pc, op)
  {
    hide Along, Word, Count8;
  }

  // k transfers take 21 T-states each; the one that brings B to zero takes 16 and moves on.
  lemma {:induction false} TransferRun(host: Host, s: State, op: byte, k: nat)
    requires Quiet(s) && IsTransfer(op) && CodeAt(s.mem, s.r.pc, op) && CodeLasts(s, op) && k <= Count8(s.r.b)
    ensures var u := Run(host, s, k);
      && AfterTransfers(s, u, op, k)
      && Charged(u.log) - Charged(s.log) == 21 * k - if k == Count8(s.r.b) then 5 else 0
    decreases k
  {
    hide Step, Run, Charged, Traffic, Word, Byte, Pair, Along, Count8, CodeAt, CodeLasts, TransferredRegisters;
    RunZero(host, s);
    if k > 0 {
      var t := Run(host, s, k - 1);
      TransferRun(host, s, op, k - 1);
      RunNext(host, s, k - 1);
      CodeKept(s, t, op, k - 1);
      TransferAgain(host, s, t, op, k - 1);
    }
  }

  // The block transfers as a whole: B = n transfers (0 standing for 256) and no fewer, in
  // address order and with the right port each, memory changed by input alone and only at the
  // n target bytes, PC on the next instruction, 21(n - 1) + 16 T-states and the host's waits.
  lemma TransferWhole(host: Host, s: State, op: byte)
    requires Quiet(s) && IsTransfer(op) && CodeAt(s.mem, s.r.pc, op) && CodeLasts(s, op)
    ensures var n, up := Count8(s.r.b), Ascends(op); var u := Run(host, s, n);
      && u.r.pc == Word(s.r.pc + 2) && u.r.b == 0 && u.r.c == s.r.c && u.r.f.z && u.r.Hl() == Along(s.r.Hl(), n, up)
      && Carried(s.r, op, Traffic(s.log), Traffic(u.log), u.mem, n)
      && Contained(s.r, op, s.mem, u.mem, n)
      && u.cycles - s.cycles == 21 * (n - 1) + 16 + (Waited(u.log) - Waited(s.log))
    ensures forall k: nat :: k < Count8(s.r.b) ==>
      Run(host, s, k).r.pc == s.r.pc && (k > 0 ==> Run(host, s, k).r.b != 0)
  {
    hide Run, Charged, Waited, Traffic, Word, Byte, Along, Pair, Hi, Lo, AdvanceR, CodeAt, CodeLasts, Carried,
      Contained, Count8, Bit;
    var n, up := Count8(s.r.b), Ascends(op);
    TransferRun(host, s, op, n);
    ByteDown(s.r.b, n - 1);
    SplitWord(Along(s.r.Hl(), n, up));
    RunWaits(host, s, n);
    forall k: nat | k < n
      ensures Run(host, s, k).r.pc == s.r.pc && (k > 0 ==> Run(host, s, k).r.b != 0)
    {
      TransferUnfinished(host, s, op, k);
    }
  }

  lemma TransferUnfinished(host: Host, s: State, op: byte, k: nat)
    requires Quiet(s) && IsTransfer(op) && CodeAt(s.mem, s.r.pc, op) && CodeLasts(s, op) && k < Count8(s.r.b)
    ensures Run(host, s, k).r.pc == s.r.pc && (k > 0 ==> Run(host, s, k).r.b != 0)
  {
    hide Run, Charged, Traffic, Word, Byte, Along, CodeAt, CodeLasts, Carried, Contained, Count8,
      TransferredRegisters;
    TransferRun(host, s, op, k);
    MidTransfer(s, Run(host, s, k), op, k);
    ByteDown(s.r.b, k);
  }

  // ---- Interrupted runs ----

  // The answers to input depend on the port traffic alone, not on when it takes place.
  ghost predicate PortDriven(host: Host) {
    forall log: seq<Event>, log': seq<Event>, port: word :: Traffic(log) == Traffic(log') ==>
      host.input(log, port) == host.input(log', port)
  }

  lemma MovedAlike(host: Host, u: State, v: State, op: byte)
    requires IsInput(op) && PortDriven(host) && Traffic(u.log) == Traffic(v.log) && u.r.Bc() == v.r.Bc()
    ensures Moved(host, u, op) == Moved(host, v, op)
  {
    hide Traffic, Entered, Machine.Idle, Machine.MachineCycle, Pair;
    ReadyForInput(host, u);
    ReadyForInput(host, v);
  }

  lemma ReadyForInput(host: Host, s: State)
    ensures var s1 := Entered(host, s); var s2 := Idle(host, s1, s1.r.Ir(), 1);
      Traffic(MachineCycle(host, s2, s.r.Bc(), 4).log) == Traffic(s.log)
  {
    hide Traffic, Entered, Machine.Idle, Machine.MachineCycle, Pair;
    var s1 := Entered(host, s);
    EnteredSilent(host, s);
    IdleSilent(host, s1, s1.r.Ir(), 1);
    CycleSilent(host, Idle(host, s1, s1.r.Ir(), 1), s.r.Bc(), 4);
  }

  // The 2m stack bytes reach neither handler nor code nor the source of an output, and an
  // input leaves the handler alone.
  ghost predicate Disjoint(s: State, op: byte, m: nat) {
    var n, up, hl := Count8(s.r.b), Ascends(op), s.r.Hl();
    && RetnHandler(s.mem, s.r.sp, m)
    && Depth(s.r.pc, s.r.sp) >= 2 * m && Depth(Word(s.r.pc + 1), s.r.sp) >= 2 * m
    && (IsInput(op) ==> Spares(hl, up, n, NMI_VECTOR) && Spares(hl, up, n, NMI_VECTOR + 1))
    && (!IsInput(op) ==> forall i: nat :: i < n ==> Depth(Along(hl, i, up), s.r.sp) >= 2 * m)
  }

  lemma SimilarTransfer(host: Host, u: State, v: State, m: nat, op: byte)
    requires Similar(u, v, m) && IsTransfer(op) && Executes(u) && CodeAt(u.mem, u.r.pc, op)
    requires Depth(u.r.pc, u.r.sp) >= 2 * m && Depth(Word(u.r.pc + 1), u.r.sp) >= 2 * m
    requires if IsInput(op) then PortDriven(host) else Depth(u.r.Hl(), u.r.sp) >= 2 * m
    ensures Similar(Step(host, u), Step(host, v), m)
  {
    hide Step, Depth, Word, Byte, Hi, Lo, Pair, Along, AdvanceR, Alu.BlockIoFlags, Traffic, PortDriven, Entered,
      Machine.Idle, Machine.InValue;
    TransferStep(host, u, op);
    TransferStep(host, v, op);
    if IsInput(op) {
      MovedAlike(host, u, v, op);
    }
  }

  lemma TransferStays(host: Host, s: State, op: byte, m: nat, k: nat)
    requires Quiet(s) && IsTransfer(op) && CodeAt(s.mem, s.r.pc, op) && CodeLasts(s, op) && Disjoint(s, op, m)
    requires k <= Count8(s.r.b)
    ensures Prepared(Run(host, s, k), m)
  {
    hide Run, Charged, Traffic, Word, Byte, Pair, Along, Count8, CodeAt, CodeLasts, Depth, Carried, Hi, Lo,
      Alu.BlockIoFlags, AdvanceR;
    TransferRun(host, s, op, k);
  }

  lemma TransferRepeats(host: Host, s: State, op: byte, m: nat, k: nat, v: State)
    requires Quiet(s) && IsTransfer(op) && CodeAt(s.mem, s.r.pc, op) && CodeLasts(s, op) && Disjoint(s, op, m)
    requires IsInput(op) ==> PortDriven(host)
    requires k < Count8(s.r.b) && Similar(Run(host, s, k), v, m)
    ensures Similar(Step(host, Run(host, s, k)), Step(host, v), m)
  {
    hide Step, Run, Charged, Traffic, Word, Byte, Pair, Along, Count8, CodeAt, CodeLasts, Depth, Carried, Contained,
      Similar, PortDriven, RetnHandler, Hi, Lo, Alu.BlockIoFlags, AdvanceR;
    TransferRun(host, s, op, k);
    MidTransfer(s, Run(host, s, k), op, k);
    CodeKept(s, Run(host, s, k), op, k);
    SimilarTransfer(host, Run(host, s, k), v, m, op);
  }

  // OTIR and OTDR end alike however they are interrupted: the same A, F, BC, DE, HL, SP and PC,
  // the same port traffic, and the same memory outside the handlers' stack bytes.  So do INIR
  // and INDR when the host's answers depend on the port traffic alone.
  lemma TransferTransparent(host: Host, s: State, op: byte, m: nat, actions: seq<Action>)
    requires Quiet(s) && !IntActive(s) && IsTransfer(op) && CodeAt(s.mem, s.r.pc, op) && CodeLasts(s, op)
    requires Disjoint(s, op, m) && (IsInput(op) ==> PortDriven(host))
    requires Repeats(actions) <= Count8(s.r.b) && Within(actions, m)
    ensures Similar(Run(host, s, Repeats(actions)), Play(host, s, actions), m)
  {
    hide Step, Run, Similar, Prepared, Disjoint, CodeAt, CodeLasts, Play, Repeats, Within, PortDriven;
    var n := Count8(s.r.b);
    forall k: nat | k <= n ensures Prepared(Run(host, s, k), m) {
      TransferStays(host, s, op, m, k);
    }
    forall k: nat, v: State | k < n && Similar(Run(host, s, k), v, m)
      ensures Similar(Step(host, Run(host, s, k)), Step(host, v), m)
    {
      TransferRepeats(host, s, op, m, k, v);
    }
    Transparent(host, s, m, n, actions);
  }
}
