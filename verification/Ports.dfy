/** The port traffic in a bus history, and the bus accesses that add none. */
module Ports {
  import opened Words
  import opened Machine

  predicate IsPort(e: Event) { e.IoRead? || e.IoWrite? }

  ghost function Traffic(log: seq<Event>): seq<Event> {
    if |log| == 0 then [] else
      var e := log[|log| - 1];
      Traffic(log[..|log| - 1]) + if IsPort(e) then [e] else []
  }

  lemma TrafficMore(log: seq<Event>, e: Event)
    ensures Traffic(log + [e]) == Traffic(log) + if IsPort(e) then [e] else []
  {
    assert (log + [e])[..|log|] == log;
  }

  lemma {:induction false} IdleSilent(host: Host, s: State, a: word, t: nat)
    ensures Traffic(Idle(host, s, a, t).log) == Traffic(s.log)
    decreases t
  {
    if t > 0 {
      var s1 := MachineCycle(host, s, a, 1);
      TrafficMore(s.log, Cycle(s.cycles, a, 1, host.wait(s.log, a, 1)));
      IdleSilent(host, s1, a, t - 1);
    }
  }

  lemma AccessTraffic(host: Host, s: State, a: word, v: byte)
    ensures Traffic(Read(host, s, a).log) == Traffic(s.log)
    ensures Traffic(Write(host, s, a, v).log) == Traffic(s.log)
    ensures Traffic(In(host, s, a).log) == Traffic(s.log) + [IoRead(a, InValue(host, s, a))]
    ensures Traffic(Out(host, s, a, v).log) == Traffic(s.log) + [IoWrite(a, v)]
  {
    hide Traffic;
    forall t: nat ensures Traffic(MachineCycle(host, s, a, t).log) == Traffic(s.log) {
      TrafficMore(s.log, Cycle(s.cycles, a, t, host.wait(s.log, a, t)));
    }
    TrafficMore(MachineCycle(host, s, a, 3).log, MemRead(a, s.mem[a]));
    TrafficMore(MachineCycle(host, s, a, 3).log, MemWrite(a, v));
    var s1 := MachineCycle(host, s, a, 4);
    TrafficMore(s1.log, IoRead(a, host.input(s1.log, a)));
    TrafficMore(s1.log, IoWrite(a, v));
  }

  lemma FetchSilent(host: Host, s: State)
    ensures Traffic(Fetch(host, s).log) == Traffic(s.log)
  {
    hide Traffic;
    TrafficMore(s.log, Cycle(s.cycles, s.r.pc, 4, host.wait(s.log, s.r.pc, 4)));
    TrafficMore(MachineCycle(host, s, s.r.pc, 4).log, MemRead(s.r.pc, s.mem[s.r.pc]));
  }

  lemma CycleSilent(host: Host, s: State, a: word, t: nat)
    ensures Traffic(MachineCycle(host, s, a, t).log) == Traffic(s.log)
  {
    hide Traffic;
    TrafficMore(s.log, Cycle(s.cycles, a, t, host.wait(s.log, a, t)));
  }

  lemma StackSilent(host: Host, s: State, w: word)
    ensures Traffic(Push(host, s, w).log) == Traffic(s.log)
    ensures Traffic(Pop(host, s).log) == Traffic(s.log)
  {
    hide Traffic, Word, Machine.Read, Machine.Write;
    forall u: State, a: word, v: byte ensures Traffic(Write(host, u, a, v).log) == Traffic(u.log) {
      AccessTraffic(host, u, a, v);
    }
    forall u: State, a: word ensures Traffic(Read(host, u, a).log) == Traffic(u.log) {
      AccessTraffic(host, u, a, 0);
    }
  }
}
