/**
 LDIR and LDDR over whole runs.  Each repetition is a step of its own that puts PC back onto
 the instruction, so what the instruction is for is a property of runs, with and without NMIs
 between the repetitions.
 */
module BlockCopy {
  import opened Words
  import opened Registers
  import opened Machine
  import opened Isa
  import opened Stepping
  import opened Ledger
  import opened Interrupts
  import opened Blocks
  import opened Interrupted
  import opened Ports
  import Alu

  // LDIR and LDDR
  predicate IsCopy(op: byte) { op == 0xB0 || op == 0xB8 }

  // ---- One repetition ----

  function CopyStepped(r: Registers, v: byte, op: byte): Registers {
    var up, left := Ascends(op), Word(r.Bc() - 1);
    var f := Alu.BlockLdFlags(v, r.a, left, r.f);
    r.SetHl(Along(r.Hl(), 1, up)).SetDe(Along(r.De(), 1, up)).SetBc(left).(
      f := f, q := f, eiPending := false, r := AdvanceR(r.r, 2),
      pc := if left != 0 then r.pc else Word(r.pc + 2),
      wz := if left != 0 then Word(r.pc + 1) else r.wz)
  }

  lemma BlockLdEffect(host: Host, s: State, delta: int, repeating: bool)
    requires delta == 1 || delta == -1
    ensures var u := BlockLd(host, s, delta, repeating);
      var left := Word(s.r.Bc() - 1); var up := delta == 1; var v := s.mem[s.r.Hl()];
      && u.r == s.r.SetHl(Along(s.r.Hl(), 1, up)).SetDe(Along(s.r.De(), 1, up)).SetBc(left).(
           f := Alu.BlockLdFlags(v, s.r.a, left, s.r.f),
           pc := if repeating && left != 0 then Word(s.r.pc - 2) else s.r.pc,
           wz := if repeating && left != 0 then Word(Word(s.r.pc - 2) + 1) else s.r.wz)
      && u.mem == s.mem[s.r.De() := v] && u.touched && u.lines == s.lines
      && u.spent == s.spent + if repeating && left != 0 then 13 else 8
  {
    hide Machine.Idle, Machine.Read, Machine.Write, Alu.BlockLdFlags, Word, Pair, Hi, Lo;
  }

  lemma CopyPage(host: Host, s: State, op: byte)
    requires IsCopy(op)
    ensures ExtendedPage(host, s, op) == BlockLd(host, s, if op == 0xB0 then 1 else -1, true)
  {
    hide BlockLd, BlockCp, BlockIn, BlockOut, Extended;
  }

  lemma CopyStep(host: Host, s: State, op: byte)
    requires Executes(s) && CodeAt(s.mem, s.r.pc, op) && IsCopy(op)
    ensures var u := Step(host, s);
      && u.r == CopyStepped(s.r, s.mem[s.r.Hl()], op)
      && u.mem == s.mem[s.r.De() := s.mem[s.r.Hl()]]
      && u.lines == s.lines.(intPulse := false)
      && u.spent == if Word(s.r.Bc() - 1) != 0 then 21 else 16
  {
    hide Step, Entered, BlockLd, ExtendedPage, Alu.BlockLdFlags, Word, Pair, Hi, Lo, AdvanceR;
    StepEnters(host, s, op);
    EnteredKeeps(host, s);
    CopyPage(host, Entered(host, s), op);
    WordTwice(s.r.pc);
    BlockLdEffect(host, Entered(host, s), if op == 0xB0 then 1 else -1, true);
  }

  // ---- Memory ----

  // Memory after n bytes have been copied one by one.
  ghost function Copied(mem: Memory, hl: word, de: word, up: bool, n: nat): Memory
    decreases n
  {
    if n == 0 then mem else
      var m := Copied(mem, hl, de, up, n - 1);
      m[Along(de, n - 1, up) := m[Along(hl, n - 1, up)]]
  }

  // How far the destination lies ahead of the source.
  function Gap(hl: word, de: word, up: bool): (d: nat)
    ensures d < 0x1_0000
  {
    if up then Word(de - hl) else Word(hl - de)
  }

  // The source byte that arrives at position i: its own, or, once the destination has run over
  // the source, the source's first Gap bytes again and again.
  function Origin(d: nat, i: nat): nat
    decreases i
  {
    if d == 0 || i < d then i else Origin(d, i - d)
  }

  lemma {:induction false} OriginModulo(d: nat, i: nat)
    requires d > 0
    ensures Origin(d, i) == i % d
    decreases i
  {
    if i >= d {
      OriginModulo(d, i - d);
      ModLess(i, d);
    } else {
      ModSmall(i, d);
    }
  }

  lemma ModSmall(i: nat, d: nat)
    requires i < d
    ensures i % d == i
  {
  }

  lemma AlongGap(hl: word, de: word, up: bool, k: nat)
    requires k < 0x1_0000
    ensures var d := Gap(hl, de, up);
      if d <= k then Along(hl, k, up) == Along(de, k - d, up) else Along(hl, k, up) == Along(de, k - d + 0x1_0000, up)
  {
    var d := Gap(hl, de, up);
    var j := if d <= k then k - d else k - d + 0x1_0000;
    GapSpan(hl, de, up);
    hide Word, Gap;
    if up {
      SameWord(hl + k, de + j);
    } else {
      SameWord(hl - k, de - j);
    }
  }

  lemma GapSpan(hl: word, de: word, up: bool)
    ensures var span := if up then de - hl else hl - de; var d := Gap(hl, de, up);
      d == span || d == span + 0x1_0000
  {
    hide Word;
    WordNear(if up then de - hl else hl - de);
  }

  lemma SameWord(x: int, y: int)
    requires y == x || y == x + 0x1_0000 || y == x - 0x1_0000
    ensures Word(x) == Word(y)
  {
    hide Word;
    WordModulo(x);
    WordModulo(y);
  }

  lemma ModLess(k: nat, d: nat)
    requires 0 < d <= k
    ensures (k - d) % d == k % d
  {
    var q, q', r, r' := (k - d) / d, k / d, (k - d) % d, k % d;
    assert k - d == d * q + r && k == d * q' + r';
    var p := q' - q - 1;
    assert d * p == r - r' by { assert d * p == d * q' - d * q - d; }
    NoMultiple(p, d);
  }

  // No multiple of d but zero lies closer to zero than d.
  lemma NoMultiple(p: int, d: int)
    requires d > 0 && -d < d * p < d
    ensures p == 0
  {
  }

  // Position i of the destination receives byte Origin(i) of the source as it was, and all
  // other bytes stay: a faithful move unless the destination starts inside the source ahead of
  // it, and then the source's first Gap bytes repeated.
  lemma {:induction false} CopiedBytes(mem: Memory, hl: word, de: word, up: bool, n: nat)
    requires n <= 0x1_0000
    ensures var m, d := Copied(mem, hl, de, up, n), Gap(hl, de, up);
      && (forall i: nat :: i < n ==> m[Along(de, i, up)] == mem[Along(hl, Origin(d, i), up)])
      && (forall a: word :: (forall i: nat :: i < n ==> a != Along(de, i, up)) ==> m[a] == mem[a])
    decreases n
  {
    hide Along, Gap;
    if n > 0 {
      var k := n - 1;
      var d := Gap(hl, de, up);
      var m := Copied(mem, hl, de, up, k);
      CopiedBytes(mem, hl, de, up, k);
      AlongGap(hl, de, up, k);
      forall i: nat {:trigger Along(de, i, up)} | i < k ensures Along(de, i, up) != Along(de, k, up) {
        AlongDistinct(de, i, k, up);
      }
      if 0 < d <= k {
        assert m[Along(hl, k, up)] == mem[Along(hl, Origin(d, k), up)];
      } else {
        var j := if d == 0 then k else k - d + 0x1_0000;
        forall i: nat {:trigger Along(de, i, up)} | i < k ensures Along(hl, k, up) != Along(de, i, up) {
          AlongDistinct(de, i, j, up);
        }
        assert m[Along(hl, k, up)] == mem[Along(hl, k, up)];
      }
    }
  }

  // ---- Runs ----

  // The instruction is still in place before each of the first k repetitions.
  ghost predicate CodeLasts(s: State, op: byte, k: nat) {
    forall i: nat :: i < k ==> CodeAt(Copied(s.mem, s.r.Hl(), s.r.De(), Ascends(op), i), s.r.pc, op)
  }

  // The registers after k > 0 repetitions, the last of which moved v.
  function CopiedRegisters(r: Registers, v: byte, op: byte, k: nat): Registers
    requires 0 < k <= Count16(r.Bc())
  {
    var up, left := Ascends(op), Word(r.Bc() - k);
    var f := Alu.BlockLdFlags(v, r.a, left, r.f);
    r.SetHl(Along(r.Hl(), k, up)).SetDe(Along(r.De(), k, up)).SetBc(left).(
      f := f, q := f, eiPending := false, r := AdvanceR(r.r, 2 * k),
      pc := if left != 0 then r.pc else Word(r.pc + 2),
      wz := if k > 1 || left != 0 then Word(r.pc + 1) else r.wz)
  }

  lemma NextRegisters(r: Registers, v: byte, v': byte, op: byte, k: nat)
    requires 0 < k < Count16(r.Bc())
    ensures CopyStepped(CopiedRegisters(r, v, op, k), v', op) == CopiedRegisters(r, v', op, k + 1)
  {
    hide Word, Hi, Lo, Pair, Along, AdvanceR, Count16;
    var up, left := Ascends(op), Word(r.Bc() - k);
    CountDown(r.Bc(), k);
    SplitWord(left);
    SplitWord(Along(r.Hl(), k, up));
    SplitWord(Along(r.De(), k, up));
    AlongNext(r.Hl(), k, up);
    AlongNext(r.De(), k, up);
    AdvanceMore(r.r, 2 * k);
  }

  lemma FirstRegisters(r: Registers, v: byte, op: byte)
    ensures CopyStepped(r, v, op) == CopiedRegisters(r, v, op, 1)
  {
    hide Word, Hi, Lo, Pair, Along, AdvanceR, Alu.BlockLdFlags;
  }

  // u is s after k repetitions, the last of which moved v: registers and lines ...
  ghost predicate Advanced(s: State, u: State, v: byte, op: byte, k: nat)
    requires k <= Count16(s.r.Bc())
  {
    && (k == 0 ==> u == s)
    && (k > 0 ==> u.r == CopiedRegisters(s.r, v, op, k))
    && (k > 0 ==> u.lines == s.lines.(intPulse := false))
  }

  // The byte moved last.
  ghost function Last(s: State, t: State, op: byte, k: nat): byte {
    if k == 0 then 0 else t.mem[Along(s.r.De(), k - 1, Ascends(op))]
  }

  // ... and memory.
  ghost predicate AfterCopies(s: State, u: State, op: byte, k: nat)
    requires k <= Count16(s.r.Bc())
  {
    var up := Ascends(op);
    && u.mem == Copied(s.mem, s.r.Hl(), s.r.De(), up, k)
    && Advanced(s, u, Last(s, u, op, k), op, k)
  }

  lemma MidCopy(s: State, t: State, v: byte, op: byte, k: nat)
    requires Quiet(s) && k < Count16(s.r.Bc()) && Advanced(s, t, v, op, k)
    requires k == 0 || Word(s.r.Bc() - k) != 0
    ensures Executes(t) && t.r.pc == s.r.pc && t.r.Bc() == Word(s.r.Bc() - k)
  {
    hide Word, Hi, Lo, Pair, Along, AdvanceR, Count16, Alu.BlockLdFlags;
    CountDown(s.r.Bc(), k);
    SplitWord(Word(s.r.Bc() - k));
  }

  lemma MidSource(s: State, t: State, v: byte, op: byte, k: nat)
    requires k < Count16(s.r.Bc()) && Advanced(s, t, v, op, k)
    ensures t.r.Hl() == Along(s.r.Hl(), k, Ascends(op))
  {
    hide Word, Hi, Lo, Pair, Along, AdvanceR, Count16, Alu.BlockLdFlags;
    SplitWord(Along(s.r.Hl(), k, Ascends(op)));
    AlongNext(s.r.Hl(), 0, Ascends(op));
  }

  lemma MidTarget(s: State, t: State, v: byte, op: byte, k: nat)
    requires k < Count16(s.r.Bc()) && Advanced(s, t, v, op, k)
    ensures t.r.De() == Along(s.r.De(), k, Ascends(op))
  {
    hide Word, Hi, Lo, Pair, Along, AdvanceR, Count16, Alu.BlockLdFlags;
    SplitWord(Along(s.r.De(), k, Ascends(op)));
    AlongNext(s.r.De(), 0, Ascends(op));
  }

  lemma NextCopied(s: State, t: State, u: State, op: byte, k: nat)
    requires Quiet(s) && k < Count16(s.r.Bc()) && AfterCopies(s, t, op, k)
    requires u.r == CopyStepped(t.r, t.mem[t.r.Hl()], op)
    requires u.mem == t.mem[t.r.De() := t.mem[t.r.Hl()]]
    requires u.lines == t.lines.(intPulse := false)
    ensures AfterCopies(s, u, op, k + 1)
  {
    hide Word, Hi, Lo, Pair, Along, Count16, CopyStepped, CopiedRegisters;
    var v := t.mem[t.r.Hl()];
    CountDown(s.r.Bc(), k);
    MidCopy(s, t, Last(s, t, op, k), op, k);
    MidSource(s, t, Last(s, t, op, k), op, k);
    MidTarget(s, t, Last(s, t, op, k), op, k);
    if k == 0 {
      FirstRegisters(s.r, v, op);
    } else {
      NextRegisters(s.r, t.mem[Along(s.r.De(), k - 1, Ascends(op))], v, op, k);
    }
  }

  // One more repetition in a run.
  lemma CopyAgain(host: Host, s: State, t: State, op: byte, k: nat)
    requires Quiet(s) && IsCopy(op) && k < Count16(s.r.Bc()) && AfterCopies(s, t, op, k)
    requires CodeAt(Copied(s.mem, s.r.Hl(), s.r.De(), Ascends(op), k), s.r.pc, op)
    ensures AfterCopies(s, Step(host, t), op, k + 1)
    ensures Charged(Step(host, t).log) - Charged(t.log) == if k + 1 == Count16(s.r.Bc()) then 16 else 21
  {
    hide Step, Charged, Elapsed, WellTimed, NoWaits, Copied, Word, Pair, Along, Count16, CopyStepped, CopiedRegisters;
    CountDown(s.r.Bc(), k);
    MidCopy(s, t, Last(s, t, op, k), op, k);
    MidSource(s, t, Last(s, t, op, k), op, k);
    MidTarget(s, t, Last(s, t, op, k), op, k);
    assert AfterCopies(s, t, op, k) ==> t.mem == Copied(s.mem, s.r.Hl(), s.r.De(), Ascends(op), k);
    CopyStep(host, t, op);
    NextCopied(s, t, Step(host, t), op, k);
    NotPrefix(t.mem, t.r.pc);
    StepTiming(host, t);
  }

  lemma NotPrefix(mem: Memory, pc: word)
    requires mem[pc] == 0xED
    ensures HasOpcode(mem)
  {
    assert !IsPrefix(mem[pc]);
  }

  // k repetitions take 21 T-states each; the one that brings BC to zero takes 16 and moves on.
  lemma {:induction false} CopyRun(host: Host, s: State, op: byte, k: nat)
    requires Quiet(s) && IsCopy(op) && k <= Count16(s.r.Bc()) && CodeLasts(s, op, k)
    ensures var u := Run(host, s, k);
      && AfterCopies(s, u, op, k)
      && Charged(u.log) - Charged(s.log) == 21 * k - if k == Count16(s.r.Bc()) then 5 else 0
    decreases k
  {
    hide Step, Run, Charged, Word, Pair, Along, Count16, CopiedRegisters;
    RunZero(host, s);
    if k > 0 {
      CopyRun(host, s, op, k - 1);
      RunNext(host, s, k - 1);
      CopyAgain(host, s, Run(host, s, k - 1), op, k - 1);
    }
  }

  // An instruction outside its own destination lasts.
  lemma CodeOutside(s: State, op: byte)
    requires CodeAt(s.mem, s.r.pc, op)
    requires var n := Count16(s.r.Bc());
      Spares(s.r.De(), Ascends(op), n, s.r.pc) && Spares(s.r.De(), Ascends(op), n, Word(s.r.pc + 1))
    ensures CodeLasts(s, op, Count16(s.r.Bc()))
  {
    hide Copied, Along, Gap, Origin, Word;
    forall i: nat {:trigger Copied(s.mem, s.r.Hl(), s.r.De(), Ascends(op), i)} | i < Count16(s.r.Bc())
      ensures CodeAt(Copied(s.mem, s.r.Hl(), s.r.De(), Ascends(op), i), s.r.pc, op)
    {
      CopiedBytes(s.mem, s.r.Hl(), s.r.De(), Ascends(op), i);
    }
  }

  // LDIR and LDDR as a whole: BC = n repetitions (0 standing for 65536) and no fewer, PC on the
  // next instruction, every byte where it belongs, 21(n - 1) + 16 T-states and the host's waits.
  lemma CopyWhole(host: Host, s: State, op: byte)
    requires Quiet(s) && IsCopy(op) && CodeLasts(s, op, Count16(s.r.Bc()))
    ensures var n, up := Count16(s.r.Bc()), Ascends(op);
      var hl, de, u := s.r.Hl(), s.r.De(), Run(host, s, n);
      && u.r.pc == Word(s.r.pc + 2) && u.r.Bc() == 0 && u.r.Hl() == Along(hl, n, up) && u.r.De() == Along(de, n, up)
      && (u.r.a, u.r.sp, u.r.f.s, u.r.f.z, u.r.f.c) == (s.r.a, s.r.sp, s.r.f.s, s.r.f.z, s.r.f.c)
      && !u.r.f.h && !u.r.f.p && !u.r.f.n
      && (forall i: nat :: i < n ==> u.mem[Along(de, i, up)] == s.mem[Along(hl, Origin(Gap(hl, de, up), i), up)])
      && (forall a: word :: Spares(de, up, n, a) ==> u.mem[a] == s.mem[a])
      && u.cycles - s.cycles == 21 * (n - 1) + 16 + (Waited(u.log) - Waited(s.log))
    ensures forall k: nat :: k < Count16(s.r.Bc()) ==>
      Run(host, s, k).r.pc == s.r.pc && (k > 0 ==> Run(host, s, k).r.Bc() != 0)
  {
    hide Run, Charged, Waited, Copied, Word, Along, Gap, Origin, Pair, Hi, Lo, CodeAt, AdvanceR;
    var n, up := Count16(s.r.Bc()), Ascends(op);
    CopyRun(host, s, op, n);
    CountDown(s.r.Bc(), n - 1);
    SplitWord(0);
    SplitWord(Along(s.r.Hl(), n, up));
    SplitWord(Along(s.r.De(), n, up));
    CopiedBytes(s.mem, s.r.Hl(), s.r.De(), up, n);
    RunWaits(host, s, n);
    forall k: nat | k < n
      ensures Run(host, s, k).r.pc == s.r.pc && (k > 0 ==> Run(host, s, k).r.Bc() != 0)
    {
      CopyUnfinished(host, s, op, k);
    }
  }

  lemma CopyUnfinished(host: Host, s: State, op: byte, k: nat)
    requires Quiet(s) && IsCopy(op) && k < Count16(s.r.Bc()) && CodeLasts(s, op, k)
    ensures Run(host, s, k).r.pc == s.r.pc && (k > 0 ==> Run(host, s, k).r.Bc() != 0)
  {
    hide Run, Charged, Copied, Word, Along, Pair, CodeLasts;
    CopyRun(host, s, op, k);
    CountDown(s.r.Bc(), k);
    MidCopy(s, Run(host, s, k), Last(s, Run(host, s, k), op, k), op, k);
  }

  // When the destination does not start inside the source, ahead of it, every byte arrives as
  // it was: the copy is a move.
  lemma CopyMoves(host: Host, s: State, op: byte)
    requires Quiet(s) && IsCopy(op) && CodeLasts(s, op, Count16(s.r.Bc()))
    requires Gap(s.r.Hl(), s.r.De(), Ascends(op)) == 0 || Gap(s.r.Hl(), s.r.De(), Ascends(op)) >= Count16(s.r.Bc())
    ensures var n, up := Count16(s.r.Bc()), Ascends(op); var u := Run(host, s, n);
      && (forall i: nat :: i < n ==> u.mem[Along(s.r.De(), i, up)] == s.mem[Along(s.r.Hl(), i, up)])
      && (forall a: word :: Spares(s.r.De(), up, n, a) ==> u.mem[a] == s.mem[a])
  {
    hide Run, Waited, Gap, Along, Word, Pair, Count16;
    var n, up := Count16(s.r.Bc()), Ascends(op);
    CopyWhole(host, s, op);
    forall i: nat {:trigger Along(s.r.De(), i, up)} | i < n
      ensures Run(host, s, n).mem[Along(s.r.De(), i, up)] == s.mem[Along(s.r.Hl(), i, up)]
    {
      assert Origin(Gap(s.r.Hl(), s.r.De(), up), i) == i;
    }
  }

  // ---- Interrupted runs ----

  lemma CopySilent(host: Host, s: State, op: byte)
    requires Executes(s) && CodeAt(s.mem, s.r.pc, op) && IsCopy(op)
    ensures Traffic(Step(host, s).log) == Traffic(s.log)
  {
    hide Step, Entered, BlockLd, ExtendedPage, Traffic;
    StepEnters(host, s, op);
    EnteredSilent(host, s);
    CopyPage(host, Entered(host, s), op);
    BlockLdSilent(host, Entered(host, s), if op == 0xB0 then 1 else -1, true);
  }

  lemma BlockLdSilent(host: Host, s: State, delta: int, repeating: bool)
    requires delta == 1 || delta == -1
    ensures Traffic(BlockLd(host, s, delta, repeating).log) == Traffic(s.log)
  {
    hide Machine.Idle, Machine.Read, Machine.Write, Alu.BlockLdFlags, Word, Pair, Hi, Lo, Traffic;
    var hl, de := s.r.Hl(), s.r.De();
    AccessTraffic(host, s, hl, 0);
    AccessTraffic(host, Read(host, s, hl), de, s.mem[hl]);
    IdleSilent(host, Write(host, Read(host, s, hl), de, s.mem[hl]), de, 2);
    forall t: State ensures Traffic(Idle(host, t, de, 5).log) == Traffic(t.log) {
      IdleSilent(host, t, de, 5);
    }
  }

  // Code, source, destination, the handler at 0066h and the 2m stack bytes do not collide.
  ghost predicate Disjoint(s: State, op: byte, m: nat) {
    var n, up, hl, de := Count16(s.r.Bc()), Ascends(op), s.r.Hl(), s.r.De();
    && RetnHandler(s.mem, s.r.sp, m)
    && Depth(s.r.pc, s.r.sp) >= 2 * m && Depth(Word(s.r.pc + 1), s.r.sp) >= 2 * m
    && (forall i: nat :: i < n ==> Depth(Along(hl, i, up), s.r.sp) >= 2 * m)
    && Spares(de, up, n, s.r.pc) && Spares(de, up, n, Word(s.r.pc + 1))
    && Spares(de, up, n, NMI_VECTOR) && Spares(de, up, n, NMI_VECTOR + 1)
  }

  // Memory outside the destination is as it was throughout.
  lemma CopySpares(s: State, op: byte, k: nat, a: word)
    requires k <= Count16(s.r.Bc()) && Spares(s.r.De(), Ascends(op), Count16(s.r.Bc()), a)
    ensures Copied(s.mem, s.r.Hl(), s.r.De(), Ascends(op), k)[a] == s.mem[a]
  {
    hide Copied, Along, Gap, Origin;
    CopiedBytes(s.mem, s.r.Hl(), s.r.De(), Ascends(op), k);
  }

  lemma SimilarCopy(host: Host, u: State, v: State, m: nat, op: byte)
    requires Similar(u, v, m) && IsCopy(op) && Executes(u) && CodeAt(u.mem, u.r.pc, op)
    requires Depth(u.r.pc, u.r.sp) >= 2 * m && Depth(Word(u.r.pc + 1), u.r.sp) >= 2 * m
    requires Depth(u.r.Hl(), u.r.sp) >= 2 * m
    ensures Similar(Step(host, u), Step(host, v), m)
  {
    hide Step, Depth, Word, Hi, Lo, Pair, Along, AdvanceR, Alu.BlockLdFlags, Traffic;
    CopyStep(host, u, op);
    CopyStep(host, v, op);
    CopySilent(host, u, op);
    CopySilent(host, v, op);
  }

  // In an uninterrupted run the handler and the instruction stay where they are.
  lemma CopyStays(host: Host, s: State, op: byte, m: nat, k: nat)
    requires Quiet(s) && IsCopy(op) && CodeAt(s.mem, s.r.pc, op) && Disjoint(s, op, m)
    requires k <= Count16(s.r.Bc())
    ensures var u := Run(host, s, k);
      AfterCopies(s, u, op, k) && u.r.sp == s.r.sp && Prepared(u, m) && CodeAt(u.mem, s.r.pc, op)
  {
    hide Run, Depth, Charged, Copied, Along, Word, AdvanceR, Count16, Hi, Lo, Pair, Alu.BlockLdFlags;
    CodeOutside(s, op);
    CopyRun(host, s, op, k);
    CopySpares(s, op, k, NMI_VECTOR);
    CopySpares(s, op, k, NMI_VECTOR + 1);
    CopySpares(s, op, k, s.r.pc);
    CopySpares(s, op, k, Word(s.r.pc + 1));
  }

  lemma CopyRepeats(host: Host, s: State, op: byte, m: nat, k: nat, v: State)
    requires Quiet(s) && IsCopy(op) && CodeAt(s.mem, s.r.pc, op) && Disjoint(s, op, m)
    requires k < Count16(s.r.Bc()) && Similar(Run(host, s, k), v, m)
    ensures Similar(Step(host, Run(host, s, k)), Step(host, v), m)
  {
    hide Step, Run, Depth, Similar, Copied, Along, RetnHandler, CodeAt, Executes, Advanced, Word, Pair;
    CopyStays(host, s, op, m, k);
    CountDown(s.r.Bc(), k);
    MidCopy(s, Run(host, s, k), Last(s, Run(host, s, k), op, k), op, k);
    MidSource(s, Run(host, s, k), Last(s, Run(host, s, k), op, k), op, k);
    SimilarCopy(host, Run(host, s, k), v, m, op);
  }

  // Transparency: wherever NMIs are taken, however often and however nested, the copy ends with
  // the same A, F, BC, DE, HL, SP and PC, no port touched, and the same memory outside the
  // handlers' stack bytes.
  lemma CopyTransparent(host: Host, s: State, op: byte, m: nat, actions: seq<Action>)
    requires Quiet(s) && !IntActive(s) && IsCopy(op) && CodeAt(s.mem, s.r.pc, op) && Disjoint(s, op, m)
    requires Repeats(actions) <= Count16(s.r.Bc()) && Within(actions, m)
    ensures Similar(Run(host, s, Repeats(actions)), Play(host, s, actions), m)
  {
    hide Step, Run, Similar, Prepared, Disjoint, CodeAt, AfterCopies, Play, Repeats, Within;
    var n := Count16(s.r.Bc());
    forall k: nat | k <= n ensures Prepared(Run(host, s, k), m) {
      CopyStays(host, s, op, m, k);
    }
    forall k: nat, v: State | k < n && Similar(Run(host, s, k), v, m)
      ensures Similar(Step(host, Run(host, s, k)), Step(host, v), m)
    {
      CopyRepeats(host, s, op, m, k, v);
    }
    Transparent(host, s, m, n, actions);
  }
}
