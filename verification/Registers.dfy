/** The register file of include/z80f/registers.hpp.  F is kept as its eight named bits. */
module Registers {
  import opened Words

  datatype Flags = Flags(s: bool, z: bool, y: bool, h: bool, x: bool, p: bool, n: bool, c: bool)
  {
    function Bits(): byte { FromBits(s, z, y, h, x, p, n, c) }
  }

  const NO_FLAGS := Flags(false, false, false, false, false, false, false, false)

  function FlagsOf(v: byte): Flags {
    Flags(Bit(v, 7), Bit(v, 6), Bit(v, 5), Bit(v, 4), Bit(v, 3), Bit(v, 2), Bit(v, 1), Bit(v, 0))
  }

  datatype Registers = Registers(
    a: byte, f: Flags, b: byte, c: byte, d: byte, e: byte, h: byte, l: byte,
    aAlt: byte, fAlt: Flags, bAlt: byte, cAlt: byte, dAlt: byte, eAlt: byte, hAlt: byte, lAlt: byte,
    ix: word, iy: word, sp: word, pc: word, wz: word, i: byte, r: byte,
    iff1: bool, iff2: bool, im: byte, halted: bool, eiPending: bool, q: Flags)
  {
    function Af(): word { Pair(a, f.Bits()) }

    function Bc(): word { Pair(b, c) }

    function De(): word { Pair(d, e) }

    function Hl(): word { Pair(h, l) }

    function SetAf(w: word): Registers { this.(a := Hi(w), f := FlagsOf(Lo(w))) }

    function SetBc(w: word): Registers { this.(b := Hi(w), c := Lo(w)) }

    function SetDe(w: word): Registers { this.(d := Hi(w), e := Lo(w)) }

    function SetHl(w: word): Registers { this.(h := Hi(w), l := Lo(w)) }

    // refresh_address()
    function Ir(): word { Pair(i, r) }

    // inc_r(): bit 7 is preserved, bits 0..6 count.
    function IncR(): Registers { this.(r := r / 0x80 * 0x80 + (r + 1) % 0x80) }
  }

  // A byte and its eight flags determine each other, so PUSH AF / POP AF lose nothing.
  lemma FlagsRoundTrip(v: byte, f: Flags)
    ensures FlagsOf(v).Bits() == v
    ensures FlagsOf(f.Bits()) == f
  {
    Rebuild(v);
    BitsOf(f.s, f.z, f.y, f.h, f.x, f.p, f.n, f.c);
  }

  // Each pair reads back as written, and writing back what was read changes nothing.
  lemma PairRoundTrips(r: Registers, w: word)
    ensures r.SetAf(w).Af() == r.SetBc(w).Bc() == r.SetDe(w).De() == r.SetHl(w).Hl() == w
    ensures r.SetAf(r.Af()) == r.SetBc(r.Bc()) == r.SetDe(r.De()) == r.SetHl(r.Hl()) == r
  {
    hide Pair, Hi, Lo, FlagsOf;
    SplitWord(w);
    FlagsRoundTrip(Lo(w), r.f);
    JoinBytes(r.a, r.f.Bits());
    JoinBytes(r.b, r.c);
    JoinBytes(r.d, r.e);
    JoinBytes(r.h, r.l);
  }
}
