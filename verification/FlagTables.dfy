/** The lookup tables of src/flags.cpp hold exactly the sign, zero and parity flags of Alu. */
module FlagTables {
  import opened Words
  import opened Registers
  import Alu

  const S_FLAG: byte := 0x80
  const Z_FLAG: byte := 0x40
  const YX_FLAGS: byte := 0x28
  const P_FLAG: byte := 0x04

  // P/V is set for every byte with an even number of ones.
  ghost predicate IsParityTable(t: seq<byte>) {
    |t| == 0x100 && forall v: byte :: t[v] == if EvenParity(v) then P_FLAG else 0
  }

  ghost predicate IsSzTable(t: seq<byte>) {
    |t| == 0x100 && forall v: byte :: t[v] == Alu.Sz53(v).Bits()
  }

  // The ones among the k lowest bits.
  ghost function Ones(v: byte, k: nat): nat
    requires k <= 8
  {
    if k == 0 then 0 else Ones(v, k - 1) + Num(Bit(v, k - 1))
  }

  lemma {:induction false} OnesAndRest(v: byte, k: nat)
    requires k <= 8
    ensures Ones(v, k) + BitCount(v / Pow2(k)) == BitCount(v)
  {
    hide BitCount, Bit, Join;
    if k > 0 {
      OnesAndRest(v, k - 1);
      Halve(v, k - 1);
      CountJoin(v / Pow2(k), Bit(v, k - 1));
    }
  }

  lemma CountJoin(above: nat, b: bool)
    ensures BitCount(Join(above, b)) == BitCount(above) + Num(b)
  {
    assert Join(above, b) / 2 == above && Join(above, b) % 2 == Num(b);
  }

  lemma NoOnes(v: byte)
    ensures Ones(v, 0) == 0
  {
  }

  lemma NextOne(v: byte, k: nat)
    requires k < 8
    ensures Ones(v, k + 1) == Ones(v, k) + Num(Bit(v, k))
  {
  }

  lemma AllOnes(v: byte)
    ensures Ones(v, 8) == BitCount(v)
  {
    hide Ones;
    OnesAndRest(v, 8);
  }

  method BuildParityTable() returns (table: seq<byte>)
    ensures IsParityTable(table)
  {
    hide Bit, BitCount, Ones;
    var t := new byte[0x100];
    var i := 0;
    while i < 0x100
      invariant 0 <= i <= 0x100
      invariant forall v: byte :: v < i ==> t[v] == if EvenParity(v) then P_FLAG else 0
    {
      var p := 1;
      var b := 0;
      NoOnes(i);
      while b < 8
        invariant 0 <= b <= 8
        invariant p == if Ones(i, b) % 2 == 0 then 1 else 0
        invariant forall v: byte :: v < i ==> t[v] == if EvenParity(v) then P_FLAG else 0
      {
        if Bit(i, b) {
          p := 1 - p;
        }
        NextOne(i, b);
        b := b + 1;
      }
      AllOnes(i);
      t[i] := if p != 0 then P_FLAG else 0;
      i := i + 1;
    }
    table := t[..];
  }

  // The entry as the loop assembles it.
  function SzEntry(v: byte): byte {
    hide Or, And, Bit;
    var z := if v == 0 then Or(0, Z_FLAG) else 0;
    var s := if Bit(v, 7) then Or(z, S_FLAG) else z;
    Or(s, And(v, YX_FLAGS))
  }

  lemma SzEntryBits(v: byte)
    ensures SzEntry(v) == Alu.Sz53(v).Bits()
  {
    hide FromBits, Or, And, Bit;
    Constants();
    TopBit7(v);
    MaskYx(v);
    var yx := FromBits(false, false, Bit(v, 5), false, Bit(v, 3), false, false, false);
    var z := FromBits(false, v == 0, false, false, false, false, false, false);
    Disjoint(false, false, false, v == 0, false, false);
    Disjoint(false, v == 0, Bit(v, 7), false, false, false);
    Disjoint(Bit(v, 7), v == 0, false, false, Bit(v, 5), Bit(v, 3));
  }

  lemma TopBit7(v: byte)
    ensures Bit(v, 7) <==> v >= 0x80
  {
  }

  lemma MaskYx(v: byte)
    ensures And(v, YX_FLAGS) == FromBits(false, false, Bit(v, 5), false, Bit(v, 3), false, false, false)
  {
    hide FromBits, Bit;
    Constants();
    BitsOf(false, false, true, false, true, false, false, false);
  }

  // Flags that do not overlap are joined by Or.
  lemma Disjoint(s: bool, z: bool, s': bool, z': bool, y: bool, x: bool)
    ensures
      Or(FromBits(s, z, false, false, false, false, false, false), FromBits(s', z', y, false, x, false, false, false))
      == FromBits(s || s', z || z', y, false, x, false, false, false)
  {
    hide FromBits, Bit;
    BitsOf(s, z, false, false, false, false, false, false);
    BitsOf(s', z', y, false, x, false, false, false);
  }

  lemma Constants()
    ensures FromBits(false, false, false, false, false, false, false, false) == 0
    ensures FromBits(true, false, false, false, false, false, false, false) == S_FLAG
    ensures FromBits(false, true, false, false, false, false, false, false) == Z_FLAG
    ensures FromBits(false, false, true, false, true, false, false, false) == YX_FLAGS
    ensures FromBits(false, false, false, false, false, true, false, false) == P_FLAG
  {
  }

  method BuildSzTable() returns (table: seq<byte>)
    ensures IsSzTable(table)
  {
    hide Or, And, Bit;
    var t := new byte[0x100];
    var i := 0;
    while i < 0x100
      invariant 0 <= i <= 0x100
      invariant forall v: byte :: v < i ==> t[v] == Alu.Sz53(v).Bits()
    {
      var f: byte := 0;
      if i == 0 {
        f := Or(f, Z_FLAG);
      }
      if Bit(i, 7) {
        f := Or(f, S_FLAG);
      }
      f := Or(f, And(i, YX_FLAGS));
      SzEntryBits(i);
      t[i] := f;
      i := i + 1;
    }
    table := t[..];
  }

  // sz53_of() and sz53p_of() are the flags every operation is specified with.
  lemma Lookups(parity: seq<byte>, sz: seq<byte>, v: byte)
    requires IsParityTable(parity) && IsSzTable(sz)
    ensures FlagsOf(sz[v]) == Alu.Sz53(v)
    ensures FlagsOf(Or(sz[v], parity[v])) == Alu.Sz53p(v)
    ensures FlagsOf(parity[v]).p == EvenParity(v)
  {
    hide FromBits, EvenParity;
    Constants();
    var f, even := Alu.Sz53(v), EvenParity(v);
    BitsOf(f.s, f.z, f.y, f.h, f.x, f.p, f.n, f.c);
    BitsOf(false, false, false, false, false, even, false, false);
    BitsOf(f.s, f.z, f.y, false, f.x, even, false, false);
  }
}
