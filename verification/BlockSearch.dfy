/** CPIR and CPDR over whole runs: a search for A, bounded by BC. */
module BlockSearch {
  import opened Words
  import opened Registers
  import opened Machine
  import opened Isa
  import opened Stepping
  import opened Ledger
  import opened Interrupts
  import opened Blocks
  import opened Interrupted
  import opened Ports
  import Alu

  // CPIR and CPDR
  predicate IsSearch(op: byte) { op == 0xB1 || op == 0xB9 }

  // ---- One comparison ----

  // The search ends with a match or when BC runs out.
  predicate Stops(v: byte, a: byte, left: word) { left == 0 || v == a }

  function SearchStepped(r: Registers, v: byte, op: byte): Registers {
    var up, left := Ascends(op), Word(r.Bc() - 1);
    var f := Alu.BlockCpFlags(v, r.a, left, r.f);
    r.SetHl(Along(r.Hl(), 1, up)).SetBc(left).(
      f := f, q := f, eiPending := false, r := AdvanceR(r.r, 2),
      pc := if Stops(v, r.a, left) then Word(r.pc + 2) else r.pc,
      wz := if Stops(v, r.a, left) then Along(r.wz, 1, up) else Word(r.pc + 1))
  }

  lemma BlockCpEffect(host: Host, s: State, delta: int, repeating: bool)
    requires delta == 1 || delta == -1
    ensures var u := BlockCp(host, s, delta, repeating);
      var left := Word(s.r.Bc() - 1); var up := delta == 1; var v := s.mem[s.r.Hl()];
      var ends := !repeating || Stops(v, s.r.a, left);
      && u.r == s.r.SetHl(Along(s.r.Hl(), 1, up)).SetBc(left).(
           f := Alu.BlockCpFlags(v, s.r.a, left, s.r.f),
           pc := if ends then s.r.pc else Word(s.r.pc - 2),
           wz := if ends then Along(s.r.wz, 1, up) else Word(Word(s.r.pc - 2) + 1))
      && u.mem == s.mem && u.touched && u.lines == s.lines
      && u.spent == s.spent + if ends then 8 else 13
  {
    hide Machine.Idle, Machine.Read, Alu.BlockCpFlags, Word, Pair, Hi, Lo;
  }

  lemma SearchPage(host: Host, s: State, op: byte)
    requires IsSearch(op)
    ensures ExtendedPage(host, s, op) == BlockCp(host, s, if op == 0xB1 then 1 else -1, true)
  {
    hide BlockLd, BlockCp, BlockIn, BlockOut, Extended;
  }

  lemma SearchStep(host: Host, s: State, op: byte)
    requires Executes(s) && CodeAt(s.mem, s.r.pc, op) && IsSearch(op)
    ensures var u := Step(host, s); var v := s.mem[s.r.Hl()];
      && u.r == SearchStepped(s.r, v, op)
      && u.mem == s.mem
      && u.lines == s.lines.(intPulse := false)
      && u.spent == if Stops(v, s.r.a, Word(s.r.Bc() - 1)) then 16 else 21
  {
    hide Step, Entered, BlockCp, ExtendedPage, Alu.BlockCpFlags, Word, Pair, Hi, Lo, AdvanceR, Along;
    StepEnters(host, s, op);
    EnteredKeeps(host, s);
    WordTwice(s.r.pc);
    SearchPage(host, Entered(host, s), op);
    BlockCpEffect(host, Entered(host, s), if op == 0xB1 then 1 else -1, true);
  }

  // ---- Runs ----

  // None of the first k bytes is A.
  ghost predicate Absent(s: State, op: byte, k: nat) {
    forall i: nat :: i < k ==> s.mem[Along(s.r.Hl(), i, Ascends(op))] != s.r.a
  }

  // The registers after k > 0 comparisons, the last one with v.
  function SearchedRegisters(r: Registers, v: byte, op: byte, k: nat): Registers
    requires 0 < k <= Count16(r.Bc())
  {
    var up, left := Ascends(op), Word(r.Bc() - k);
    var f := Alu.BlockCpFlags(v, r.a, left, r.f);
    r.SetHl(Along(r.Hl(), k, up)).SetBc(left).(
      f := f, q := f, eiPending := false, r := AdvanceR(r.r, 2 * k),
      pc := if Stops(v, r.a, left) then Word(r.pc + 2) else r.pc,
      wz := if !Stops(v, r.a, left) then Word(r.pc + 1)
            else Along(if k == 1 then r.wz else Word(r.pc + 1), 1, up))
  }

  lemma FirstRegisters(r: Registers, v: byte, op: byte)
    ensures SearchStepped(r, v, op) == SearchedRegisters(r, v, op, 1)
  {
    hide Word, Hi, Lo, Pair, Along, AdvanceR, Alu.BlockCpFlags;
  }

  lemma NextRegisters(r: Registers, v: byte, v': byte, op: byte, k: nat)
    requires 0 < k < Count16(r.Bc()) && v != r.a
    requires Word(r.Bc() - k) != 0
    ensures SearchStepped(SearchedRegisters(r, v, op, k), v', op) == SearchedRegisters(r, v', op, k + 1)
  {
    hide Word, Hi, Lo, Pair, Along, AdvanceR, Count16, Alu.SubFlags, Alu.SubResult, Bit, Byte;
    var up, left := Ascends(op), Word(r.Bc() - k);
    CountDown(r.Bc(), k);
    SplitWord(left);
    SplitWord(Along(r.Hl(), k, up));
    AlongNext(r.Hl(), k, up);
    AdvanceMore(r.r, 2 * k);
  }

  // u is s after k comparisons, none but the last with a match.
  ghost predicate AfterSearches(s: State, u: State, op: byte, k: nat)
    requires k <= Count16(s.r.Bc())
  {
    && u.mem == s.mem
    && (k == 0 ==> u == s)
    && (k > 0 ==> u.r == SearchedRegisters(s.r, s.mem[Along(s.r.Hl(), k - 1, Ascends(op))], op, k))
    && (k > 0 ==> u.lines == s.lines.(intPulse := false))
  }

  lemma MidSearch(s: State, t: State, op: byte, k: nat)
    requires Quiet(s) && k < Count16(s.r.Bc()) && AfterSearches(s, t, op, k) && Absent(s, op, k)
    ensures Executes(t) && t.r.pc == s.r.pc && t.r.a == s.r.a
    ensures t.r.Hl() == Along(s.r.Hl(), k, Ascends(op))
    ensures t.r.Bc() == Word(s.r.Bc() - k)
  {
    hide Word, Hi, Lo, Pair, Along, AdvanceR, Count16, Alu.BlockCpFlags;
    var up := Ascends(op);
    CountDown(s.r.Bc(), k);
    SplitWord(Word(s.r.Bc() - k));
    SplitWord(Along(s.r.Hl(), k, up));
    AlongNext(s.r.Hl(), 0, up);
  }

  lemma SearchAgain(host: Host, s: State, t: State, op: byte, k: nat)
    requires Quiet(s) && IsSearch(op) && k < Count16(s.r.Bc()) && AfterSearches(s, t, op, k) && Absent(s, op, k)
    requires CodeAt(s.mem, s.r.pc, op)
    ensures AfterSearches(s, Step(host, t), op, k + 1)
    ensures Charged(Step(host, t).log) - Charged(t.log) ==
      if k + 1 == Count16(s.r.Bc()) || s.mem[Along(s.r.Hl(), k, Ascends(op))] == s.r.a then 16 else 21
  {
    hide Step, Charged, Elapsed, WellTimed, NoWaits, Word, Pair, Along, Count16, SearchStepped, SearchedRegisters;
    var v := t.mem[t.r.Hl()];
    MidSearch(s, t, op, k);
    SearchStep(host, t, op);
    CountDown(s.r.Bc(), k);
    assert !IsPrefix(t.mem[t.r.pc]);
    StepTiming(host, t);
    if k == 0 {
      FirstRegisters(s.r, v, op);
    } else {
      NextRegisters(s.r, s.mem[Along(s.r.Hl(), k - 1, Ascends(op))], v, op, k);
    }
  }

  lemma {:induction false} SearchRun(host: Host, s: State, op: byte, k: nat)
    requires Quiet(s) && IsSearch(op) && CodeAt(s.mem, s.r.pc, op)
    requires k <= Count16(s.r.Bc()) && (k > 0 ==> Absent(s, op, k - 1))
    ensures var u := Run(host, s, k);
      && AfterSearches(s, u, op, k)
      && Charged(u.log) - Charged(s.log) == 21 * k -
           if k == Count16(s.r.Bc()) || (k > 0 && s.mem[Along(s.r.Hl(), k - 1, Ascends(op))] == s.r.a) then 5 else 0
    decreases k
  {
    hide Step, Run, Charged, Word, Pair, Along, Count16, SearchedRegisters;
    RunZero(host, s);
    if k > 0 {
      SearchRun(host, s, op, k - 1);
      RunNext(host, s, k - 1);
      SearchAgain(host, s, Run(host, s, k - 1), op, k - 1);
    }
  }

  // How many bytes a search for a looks at: up to and including the first match, n at most.
  function Examined(mem: Memory, hl: word, a: byte, up: bool, n: nat): (k: nat)
    requires n > 0
    ensures 0 < k <= n
    ensures forall i: nat :: i < k - 1 ==> mem[Along(hl, i, up)] != a
    ensures k < n ==> mem[Along(hl, k - 1, up)] == a
  {
    if n == 1 then 1 else
      var k := Examined(mem, hl, a, up, n - 1);
      if k < n - 1 || mem[Along(hl, k - 1, up)] == a then k else n
  }

  // CPIR and CPDR as a whole: the search looks at k = Examined bytes in k steps and no fewer,
  // says in Z whether it found A and in P/V whether BC is left, and disturbs neither memory
  // nor carry.
  lemma SearchWhole(host: Host, s: State, op: byte)
    requires Quiet(s) && IsSearch(op) && CodeAt(s.mem, s.r.pc, op)
    ensures var n, up := Count16(s.r.Bc()), Ascends(op);
      var k := Examined(s.mem, s.r.Hl(), s.r.a, up, n); var u := Run(host, s, k);
      && u.r.pc == Word(s.r.pc + 2)
      && u.r.Hl() == Along(s.r.Hl(), k, up) && u.r.Bc() == Word(s.r.Bc() - k)
      && (u.r.f.z <==> exists i: nat :: i < n && s.mem[Along(s.r.Hl(), i, up)] == s.r.a)
      && (u.r.f.p <==> u.r.Bc() != 0)
      && u.r.f.c == s.r.f.c && u.r.f.n && u.r.a == s.r.a && u.r.De() == s.r.De() && u.mem == s.mem
      && u.cycles - s.cycles == 21 * (k - 1) + 16 + (Waited(u.log) - Waited(s.log))
    ensures forall j: nat :: j < Examined(s.mem, s.r.Hl(), s.r.a, Ascends(op), Count16(s.r.Bc())) ==>
      Run(host, s, j).r.pc == s.r.pc
  {
    hide Run, Charged, Waited, Word, Along, Pair, Hi, Lo, AdvanceR, Examined, CodeAt, Bit;
    var n, up := Count16(s.r.Bc()), Ascends(op);
    var k := Examined(s.mem, s.r.Hl(), s.r.a, up, n);
    SearchRun(host, s, op, k);
    CountDown(s.r.Bc(), k - 1);
    SplitWord(Word(s.r.Bc() - k));
    SplitWord(Along(s.r.Hl(), k, up));
    RunWaits(host, s, k);
    ZeroOnMatch(s.mem[Along(s.r.Hl(), k - 1, up)], s.r.a);
    forall j: nat | j < k ensures Run(host, s, j).r.pc == s.r.pc {
      SearchRun(host, s, op, j);
      MidSearch(s, Run(host, s, j), op, j);
    }
  }

  lemma ZeroOnMatch(v: byte, a: byte)
    ensures Alu.SubResult(a, v, false) == 0 <==> v == a
  {
  }

  // ---- Interrupted runs ----

  lemma SearchSilent(host: Host, s: State, op: byte)
    requires Executes(s) && CodeAt(s.mem, s.r.pc, op) && IsSearch(op)
    ensures Traffic(Step(host, s).log) == Traffic(s.log)
  {
    hide Step, Entered, BlockCp, ExtendedPage, Traffic;
    StepEnters(host, s, op);
    EnteredSilent(host, s);
    SearchPage(host, Entered(host, s), op);
    BlockCpSilent(host, Entered(host, s), if op == 0xB1 then 1 else -1, true);
  }

  lemma BlockCpSilent(host: Host, s: State, delta: int, repeating: bool)
    requires delta == 1 || delta == -1
    ensures Traffic(BlockCp(host, s, delta, repeating).log) == Traffic(s.log)
  {
    hide Machine.Idle, Machine.Read, Alu.BlockCpFlags, Word, Pair, Hi, Lo, Traffic;
    AccessTraffic(host, s, s.r.Hl(), 0);
    forall t: State ensures Traffic(Idle(host, t, s.r.Hl(), 5).log) == Traffic(t.log) {
      IdleSilent(host, t, s.r.Hl(), 5);
    }
  }

  // The 2m stack bytes reach neither handler nor code nor any of n bytes looked at.
  ghost predicate Disjoint(s: State, op: byte, m: nat, n: nat) {
    && RetnHandler(s.mem, s.r.sp, m)
    && Depth(s.r.pc, s.r.sp) >= 2 * m && Depth(Word(s.r.pc + 1), s.r.sp) >= 2 * m
    && (forall i: nat :: i < n ==> Depth(Along(s.r.Hl(), i, Ascends(op)), s.r.sp) >= 2 * m)
  }

  lemma SimilarSearch(host: Host, u: State, v: State, m: nat, op: byte)
    requires Similar(u, v, m) && IsSearch(op) && Executes(u) && CodeAt(u.mem, u.r.pc, op)
    requires Depth(u.r.pc, u.r.sp) >= 2 * m && Depth(Word(u.r.pc + 1), u.r.sp) >= 2 * m
    requires Depth(u.r.Hl(), u.r.sp) >= 2 * m
    ensures Similar(Step(host, u), Step(host, v), m)
  {
    hide Step, Depth, Word, Hi, Lo, Pair, Along, AdvanceR, Alu.SubFlags, Alu.SubResult, Traffic, Bit, Byte;
    SearchStep(host, u, op);
    SearchStep(host, v, op);
    SearchSilent(host, u, op);
    SearchSilent(host, v, op);
  }

  lemma SearchRepeats(host: Host, s: State, op: byte, m: nat, n: nat, k: nat, v: State)
    requires Quiet(s) && IsSearch(op) && CodeAt(s.mem, s.r.pc, op) && Disjoint(s, op, m, n)
    requires k < n <= Count16(s.r.Bc()) && Absent(s, op, n - 1) && Similar(Run(host, s, k), v, m)
    ensures Similar(Step(host, Run(host, s, k)), Step(host, v), m)
  {
    hide Step, Run, Depth, Similar, Charged, Along, Word, Pair, Alu.BlockCpFlags, AdvanceR, Hi, Lo, Count16;
    SearchRun(host, s, op, k);
    MidSearch(s, Run(host, s, k), op, k);
    SimilarSearch(host, Run(host, s, k), v, m, op);
  }

  lemma SearchStays(host: Host, s: State, op: byte, m: nat, n: nat, k: nat)
    requires Quiet(s) && IsSearch(op) && CodeAt(s.mem, s.r.pc, op) && Disjoint(s, op, m, n)
    requires k <= n <= Count16(s.r.Bc()) && (n > 0 ==> Absent(s, op, n - 1))
    ensures Prepared(Run(host, s, k), m)
  {
    hide Run, Depth, Charged, Along, Word, Pair, Alu.BlockCpFlags, AdvanceR, Hi, Lo, Count16;
    SearchRun(host, s, op, k);
  }

  // CPIR and CPDR end alike however they are interrupted: the same A, F, BC, DE, HL, SP and PC,
  // no port touched, and the same memory outside the handlers' stack bytes.
  lemma SearchTransparent(host: Host, s: State, op: byte, m: nat, actions: seq<Action>)
    requires Quiet(s) && !IntActive(s) && IsSearch(op) && CodeAt(s.mem, s.r.pc, op) && Within(actions, m)
    requires var n := Examined(s.mem, s.r.Hl(), s.r.a, Ascends(op), Count16(s.r.Bc()));
      Disjoint(s, op, m, n) && Repeats(actions) <= n
    ensures Similar(Run(host, s, Repeats(actions)), Play(host, s, actions), m)
  {
    hide Step, Run, Similar, Prepared, Disjoint, CodeAt, Play, Repeats, Within, Examined, Along;
    var n := Examined(s.mem, s.r.Hl(), s.r.a, Ascends(op), Count16(s.r.Bc()));
    forall k: nat | k <= n ensures Prepared(Run(host, s, k), m) {
      SearchStays(host, s, op, m, n, k);
    }
    forall k: nat, v: State | k < n && Similar(Run(host, s, k), v, m)
      ensures Similar(Step(host, Run(host, s, k)), Step(host, v), m)
    {
      SearchRepeats(host, s, op, m, n, k, v);
    }
    Transparent(host, s, m, n, actions);
  }
}
