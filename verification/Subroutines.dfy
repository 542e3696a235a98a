/** Calls, returns, pushes and pops nested in any way: what comes back, and to where. */
module Subroutines {
  import opened Words
  import opened Registers
  import opened Machine
  import opened Isa
  import opened Stepping
  import opened Interrupts
  import opened Blocks
  import opened Steps
  import opened Branches
  import opened Moves

  // What code does, as far as the stack is concerned: nothing more; or it calls a subroutine, which
  // does its work and returns, and goes on; or it pushes a pair, pops a pair after some work, and
  // goes on; or it does other work for a step and goes on.
  datatype Play = Over | Sub(inner: Play, rest: Play) | Save(inner: Play, rest: Play) | Work(rest: Play)

  function Deeper(inner: nat, rest: nat): nat { if inner + 1 > rest then inner + 1 else rest }

  // How many words are on the stack at once.
  function Levels(w: Play): nat {
    match w
    case Over => 0
    case Sub(inner, rest) => Deeper(Levels(inner), Levels(rest))
    case Save(inner, rest) => Deeper(Levels(inner), Levels(rest))
    case Work(rest) => Levels(rest)
  }

  // The step is a call that is taken; next is the address behind it.
  predicate Calls(s: State) {
    Executes(s) && (IsRst(s.mem[s.r.pc]) || (IsCall(s.mem[s.r.pc]) && Met(s.r.f, s.mem[s.r.pc])))
  }

  function Next(s: State): word { Word(s.r.pc + if IsRst(s.mem[s.r.pc]) then 1 else 3) }

  predicate Comes(s: State) { Executes(s) && IsReturn(s.mem[s.r.pc]) && Met(s.r.f, s.mem[s.r.pc]) }

  // C5, D5, E5, F5, and C1, D1, E1, F1
  predicate Pushes(s: State) { Executes(s) && s.mem[s.r.pc] >= 0xC0 && s.mem[s.r.pc] % 0x10 == 5 }

  predicate Pops(s: State) { Executes(s) && s.mem[s.r.pc] >= 0xC0 && s.mem[s.r.pc] % 0x10 == 1 }

  ghost function Played(host: Host, s: State, w: Play): State
    decreases w
  {
    match w
    case Over => s
    case Sub(inner, rest) => Played(host, Step(host, Played(host, Step(host, s), inner)), rest)
    case Save(inner, rest) => Played(host, Step(host, Played(host, Step(host, s), inner)), rest)
    case Work(rest) => Played(host, Step(host, s), rest)
  }

  // From s on the code plays w: calls, returns, pushes and pops where w says so, and other work
  // that may change any register but SP, and memory in free alone.
  ghost predicate Obeys(host: Host, s: State, w: Play, free: set<word>)
    decreases w
  {
    match w
    case Over => true
    case Sub(inner, rest) =>
      var v := Played(host, Step(host, s), inner);
      Calls(s) && Obeys(host, Step(host, s), inner, free) && Comes(v) && Obeys(host, Step(host, v), rest, free)
    case Save(inner, rest) =>
      var v := Played(host, Step(host, s), inner);
      Pushes(s) && Obeys(host, Step(host, s), inner, free) && Pops(v) && Obeys(host, Step(host, v), rest, free)
    case Work(rest) =>
      && Step(host, s).r.sp == s.r.sp
      && (forall a: word :: a !in free ==> Step(host, s).mem[a] == s.mem[a])
      && Obeys(host, Step(host, s), rest, free)
  }

  // SP is back and no memory has changed but n words below it and what was free.
  ghost predicate Level(s: State, u: State, n: nat, free: set<word>) {
    && u.r.sp == s.r.sp
    && forall a: word :: Depth(a, s.r.sp) >= 2 * n && a !in free ==> u.mem[a] == s.mem[a]
  }

  // The free memory keeps clear of the n words below SP.
  ghost predicate Clear(s: State, n: nat, free: set<word>) {
    n <= 0x7FFF && forall a: word :: a in free ==> Depth(a, s.r.sp) >= 2 * n
  }

  lemma CallPushes(host: Host, s: State)
    requires Calls(s)
    ensures var u := Step(host, s);
      u.r.sp == Word(s.r.sp - 2) && u.mem == Pushed(s.mem, s.r.sp, Next(s))
  {
    hide Step, Executes, Met, Word, Hi, Lo, Pair, AdvanceR;
    if IsRst(s.mem[s.r.pc]) {
      RestartStep(host, s, s.mem[s.r.pc]);
    } else {
      CallStep(host, s, s.mem[s.r.pc]);
    }
  }

  lemma ReturnPops(host: Host, s: State)
    requires Comes(s)
    ensures var u := Step(host, s);
      u.r.sp == Word(s.r.sp + 2) && u.r.pc == WordAt(s.mem, s.r.sp) && u.mem == s.mem
  {
    hide Step, Executes, Met, Word, Pair, AdvanceR;
    ReturnStep(host, s, s.mem[s.r.pc]);
  }

  lemma SavePushes(host: Host, s: State)
    requires Pushes(s)
    ensures var u := Step(host, s);
      u.r.sp == Word(s.r.sp - 2) && u.mem == Pushed(s.mem, s.r.sp, Stacked(s.r, s.mem[s.r.pc]))
  {
    hide Step, Executes, Word, Hi, Lo, Pair, AdvanceR, Stacked;
    PushStep(host, s, s.mem[s.r.pc]);
  }

  lemma SavePops(host: Host, s: State)
    requires Pops(s)
    ensures var u := Step(host, s);
      && u.r.sp == Word(s.r.sp + 2) && u.mem == s.mem
      && Stacked(u.r, s.mem[s.r.pc]) == WordAt(s.mem, s.r.sp)
  {
    hide Step, Executes, Word, Pair, Hi, Lo, AdvanceR, Stacked, Unstacked, WordAt;
    var op := s.mem[s.r.pc];
    PopStep(host, s, op);
    UnstackedBack(Past(s.r, 1, 1).(sp := Word(s.r.sp + 2)), op, WordAt(s.mem, s.r.sp));
  }

  // One word on the stack: pushed in s, the work on top of it from s1 to v, taken off again by u.
  lemma WordHeld(s: State, w: word, s1: State, v: State, u: State, n: nat, free: set<word>)
    requires 0 < n && Clear(s, n, free)
    requires s1.r.sp == Word(s.r.sp - 2) && s1.mem == Pushed(s.mem, s.r.sp, w)
    requires Level(s1, v, n - 1, free)
    requires u.r.sp == Word(v.r.sp + 2) && u.mem == v.mem
    ensures WordAt(v.mem, v.r.sp) == w && Level(s, u, n, free)
  {
    hide Depth, Word, Pair, Hi, Lo;
    PushedBytes(s.mem, s.r.sp, w);
    DepthBelow(s.r.sp, s.r.sp, 2 * n);
    TopTwo(s.r.sp);
    forall a: word | Depth(a, s.r.sp) >= 2 * n && a !in free ensures u.mem[a] == s.mem[a] {
      DepthBelow(a, s.r.sp, 2 * n);
      assert Depth(a, s.r.sp) >= 2;
    }
  }

  lemma TopTwo(sp: word)
    ensures Depth(Word(sp - 1), sp) == 0 && Depth(Word(sp - 2), sp) == 1
  {
  }

  lemma ClearBelow(s: State, s1: State, n: nat, free: set<word>)
    requires 0 < n && Clear(s, n, free) && s1.r.sp == Word(s.r.sp - 2)
    ensures Clear(s1, n - 1, free)
  {
    hide Depth, Word;
    forall a: word | a in free ensures Depth(a, s1.r.sp) >= 2 * (n - 1) {
      DepthBelow(a, s.r.sp, 2 * n);
    }
  }

  // Whatever is nested in it, code that plays w leaves SP as it found it and the stack above alone.
  lemma {:induction false} PlayBalances(host: Host, s: State, w: Play, n: nat, free: set<word>)
    requires Obeys(host, s, w, free) && Levels(w) <= n && Clear(s, n, free)
    ensures Level(s, Played(host, s, w), n, free)
    decreases w
  {
    hide Step, Calls, Comes, Pushes, Pops, Clear, Depth, Word, Pair, Hi, Lo, Next, Pushed, Stacked;
    match w
    case Over =>
    case Work(rest) =>
      SameClear(s, Step(host, s), n, free);
      PlayBalances(host, Step(host, s), rest, n, free);
    case Sub(inner, rest) =>
      var v := Played(host, Step(host, s), inner);
      CallPushes(host, s);
      ClearBelow(s, Step(host, s), n, free);
      PlayBalances(host, Step(host, s), inner, n - 1, free);
      ReturnPops(host, v);
      WordHeld(s, Next(s), Step(host, s), v, Step(host, v), n, free);
      SameClear(s, Step(host, v), n, free);
      PlayBalances(host, Step(host, v), rest, n, free);
    case Save(inner, rest) =>
      var v := Played(host, Step(host, s), inner);
      SavePushes(host, s);
      ClearBelow(s, Step(host, s), n, free);
      PlayBalances(host, Step(host, s), inner, n - 1, free);
      SavePops(host, v);
      WordHeld(s, Stacked(s.r, s.mem[s.r.pc]), Step(host, s), v, Step(host, v), n, free);
      SameClear(s, Step(host, v), n, free);
      PlayBalances(host, Step(host, v), rest, n, free);
  }

  lemma SameClear(s: State, u: State, n: nat, free: set<word>)
    requires Clear(s, n, free) && u.r.sp == s.r.sp
    ensures Clear(u, n, free)
  {
  }

  // A call, by CALL, a taken CALL cc or RST, comes back to the instruction behind it with SP as it
  // was, and no memory changed but n words below SP and what the subroutine's own work may change.
  lemma CallReturns(host: Host, s: State, w: Play, n: nat, free: set<word>)
    requires Calls(s) && Obeys(host, Step(host, s), w, free) && Levels(w) < n && Clear(s, n, free)
    requires Comes(Played(host, Step(host, s), w))
    ensures var u, op := Step(host, Played(host, Step(host, s), w)), s.mem[s.r.pc];
      && u.r.sp == s.r.sp
      && u.r.pc == Word(s.r.pc + if IsRst(op) then 1 else 3)
      && forall a: word :: Depth(a, s.r.sp) >= 2 * n && a !in free ==> u.mem[a] == s.mem[a]
  {
    hide Step, Calls, Comes, Clear, Depth, Word, Pair, Hi, Lo, Pushed, Obeys, Played, Levels;
    var s1 := Step(host, s);
    var v := Played(host, s1, w);
    CallPushes(host, s);
    ClearBelow(s, s1, n, free);
    PlayBalances(host, s1, w, n - 1, free);
    ReturnPops(host, v);
    WordHeld(s, Next(s), s1, v, Step(host, v), n, free);
  }

  // A pair pushed, whatever calls, returns, pushes and pops come before the matching POP, is the
  // pair popped.
  lemma PairSaved(host: Host, s: State, w: Play, n: nat, free: set<word>)
    requires Pushes(s) && Obeys(host, Step(host, s), w, free) && Levels(w) < n && Clear(s, n, free)
    requires Pops(Played(host, Step(host, s), w))
    ensures var v := Played(host, Step(host, s), w); var u := Step(host, v);
      && Stacked(u.r, v.mem[v.r.pc]) == Stacked(s.r, s.mem[s.r.pc])
      && u.r.sp == s.r.sp
      && forall a: word :: Depth(a, s.r.sp) >= 2 * n && a !in free ==> u.mem[a] == s.mem[a]
  {
    hide Step, Pushes, Pops, Clear, Depth, Word, Pair, Hi, Lo, Pushed, Obeys, Played, Levels, Stacked, WordAt;
    var s1 := Step(host, s);
    var v := Played(host, s1, w);
    SavePushes(host, s);
    ClearBelow(s, s1, n, free);
    PlayBalances(host, s1, w, n - 1, free);
    SavePops(host, v);
    WordHeld(s, Stacked(s.r, s.mem[s.r.pc]), s1, v, Step(host, v), n, free);
  }
}
