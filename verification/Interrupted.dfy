/**
 Repeating instructions with NMIs taken between their repetitions: what an uninterrupted run
 computes, the interrupted one computes too.
 */
module Interrupted {
  import opened Words
  import opened Machine
  import opened Stepping
  import opened Ledger
  import opened Interrupts
  import opened Ports

  // One repetition, or NMIs and RETNs in any well-nested order.
  datatype Action = Repeat | Interrupt(visits: Visits)

  ghost function Perform(host: Host, s: State, action: Action): State {
    match action
    case Repeat => Step(host, s)
    case Interrupt(visits) => Visited(host, s, visits)
  }

  ghost function Play(host: Host, s: State, actions: seq<Action>): State
    decreases |actions|
  {
    if |actions| == 0 then s
    else Perform(host, Play(host, s, actions[..|actions| - 1]), actions[|actions| - 1])
  }

  function Repeats(actions: seq<Action>): nat {
    if |actions| == 0 then 0 else Repeats(actions[..|actions| - 1]) + Num(actions[|actions| - 1].Repeat?)
  }

  // No interruption is nested deeper than m.
  predicate Within(actions: seq<Action>, m: nat) {
    forall i :: 0 <= i < |actions| && actions[i].Interrupt? ==> Height(actions[i].visits) <= m
  }

  // v is u but for what NMI handlers may leave behind: 2m bytes below SP, WZ, R, Q, the EI
  // delay and IFF1.
  ghost predicate Similar(u: State, v: State, m: nat) {
    && v.r == u.r.(wz := v.r.wz, r := v.r.r, q := v.r.q, eiPending := v.r.eiPending, iff1 := v.r.iff1)
    && (forall a: word :: Depth(a, u.r.sp) >= 2 * m ==> v.mem[a] == u.mem[a])
    && !v.lines.nmiPending && !IntActive(v)
    && Traffic(v.log) == Traffic(u.log)
  }

  // n steps from s leave the handler in place, and each does the same to similar states.
  ghost predicate Steady(host: Host, s: State, m: nat, n: nat) {
    && (forall k: nat :: k <= n ==> Prepared(Run(host, s, k), m))
    && (forall k: nat, v: State :: k < n && Similar(Run(host, s, k), v, m) ==>
          Similar(Step(host, Run(host, s, k)), Step(host, v), m))
  }

  predicate Prepared(u: State, m: nat) { !u.r.halted && RetnHandler(u.mem, u.r.sp, m) }

  lemma SimilarSelf(s: State, m: nat)
    requires !s.lines.nmiPending && !IntActive(s)
    ensures Similar(s, s, m)
  {
  }

  lemma SimilarInterrupt(host: Host, u: State, v: State, m: nat, w: Visits)
    requires Similar(u, v, m) && Height(w) <= m && Prepared(u, m)
    ensures Similar(u, Visited(host, v, w), m)
  {
    hide Depth, Traffic;
    if w.Visit? {
      VisitsUnwind(host, v, w, m);
    }
  }

  // Wherever the interruptions come, however many and however they are nested, as many
  // repetitions leave a similar state.
  lemma {:induction false} Transparent(host: Host, s: State, m: nat, n: nat, actions: seq<Action>)
    requires !s.lines.nmiPending && !IntActive(s) && Steady(host, s, m, n)
    requires Repeats(actions) <= n && Within(actions, m)
    ensures Similar(Run(host, s, Repeats(actions)), Play(host, s, actions), m)
    decreases |actions|
  {
    hide Step, Run, Similar, Prepared, Visited;
    if |actions| == 0 {
      RunZero(host, s);
      SimilarSelf(s, m);
    } else {
      var before, last := actions[..|actions| - 1], actions[|actions| - 1];
      Transparent(host, s, m, n, before);
      var k, v := Repeats(before), Play(host, s, before);
      if last.Repeat? {
        RunNext(host, s, k);
      } else {
        SimilarInterrupt(host, Run(host, s, k), v, m, last.visits);
      }
    }
  }
}
