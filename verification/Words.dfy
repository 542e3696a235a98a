/** 8- and 16-bit machine words as bounded integers, with the wrap-around written out. */
module Words {
  type byte = x: int | 0 <= x < 0x100
  type word = x: int | 0 <= x < 0x1_0000

  // The truncating casts.  Dafny's % is Euclidean, so a negative argument wraps as two's complement does.
  function Byte(x: int): byte { x % 0x100 }

  // The remainder modulo 0x1_0000, turn by turn.
  function Word(x: int): word
    decreases if x < 0 then 0x1_0000 - x else x
  {
    if x < 0 then Word(x + 0x1_0000) else if x < 0x1_0000 then x else Word(x - 0x1_0000)
  }

  lemma {:induction false} WordModulo(x: int)
    ensures Word(x) == x % 0x1_0000
    decreases if x < 0 then 0x1_0000 - x else x
  {
    if x < 0 {
      WordModulo(x + 0x1_0000);
    } else if x >= 0x1_0000 {
      WordModulo(x - 0x1_0000);
    }
  }

  lemma WordNear(x: int)
    requires -0x1_0000 <= x < 0x2_0000
    ensures Word(x) == if x < 0 then x + 0x1_0000 else if x < 0x1_0000 then x else x - 0x1_0000
  {
  }

  lemma WordPlus(x: int, d: int)
    ensures Word(Word(x) + d) == Word(x + d)
    ensures 0 <= x < 0x1_0000 ==> Word(x) == x
  {
    hide Word;
    WordModulo(x);
    WordModulo(Word(x) + d);
    WordModulo(x + d);
    assert Word(x) + d == x + d - 0x1_0000 * (x / 0x1_0000);
  }

  function Hi(w: word): byte { w / 0x100 }

  function Lo(w: word): byte { w % 0x100 }

  // The guard always holds: it keeps the verifier from evaluating pairs of literals without end.
  function Pair(h: byte, l: byte): word { h * 0x100 + (if l < 0x100 then l else 0) }

  lemma SplitWord(w: word)
    ensures Pair(Hi(w), Lo(w)) == w
  {
  }

  lemma JoinBytes(h: byte, l: byte)
    ensures Hi(Pair(h, l)) == h && Lo(Pair(h, l)) == l
  {
  }

  // A byte read as int8_t.
  function Signed8(d: byte): int { if d >= 0x80 then d - 0x100 else d }

  function Signed16(w: word): int { if w >= 0x8000 then w - 0x1_0000 else w }

  function Pow2(k: nat): (r: nat)
    requires k <= 16
    ensures r > 0
  {
    match k
    case 0 => 1 case 1 => 2 case 2 => 4 case 3 => 8
    case 4 => 0x10 case 5 => 0x20 case 6 => 0x40 case 7 => 0x80
    case 8 => 0x100 case 9 => 0x200 case 10 => 0x400 case 11 => 0x800
    case 12 => 0x1000 case 13 => 0x2000 case 14 => 0x4000 case 15 => 0x8000
    case _ => 0x1_0000
  }

  // Bit k of x, i.e. (x & (1 << k)) != 0.
  predicate Bit(x: nat, k: nat)
    requires k <= 16
  {
    match k
    case 0 => x % 2 == 1 case 1 => x / 2 % 2 == 1 case 2 => x / 4 % 2 == 1 case 3 => x / 8 % 2 == 1
    case 4 => x / 0x10 % 2 == 1 case 5 => x / 0x20 % 2 == 1 case 6 => x / 0x40 % 2 == 1 case 7 => x / 0x80 % 2 == 1
    case 8 => x / 0x100 % 2 == 1 case 9 => x / 0x200 % 2 == 1 case 10 => x / 0x400 % 2 == 1
    case 11 => x / 0x800 % 2 == 1 case 12 => x / 0x1000 % 2 == 1 case 13 => x / 0x2000 % 2 == 1
    case 14 => x / 0x4000 % 2 == 1 case 15 => x / 0x8000 % 2 == 1 case _ => x / 0x1_0000 % 2 == 1
  }

  // Bit k of x ^ y ^ z.
  predicate XorBit(x: nat, y: nat, z: nat, k: nat)
    requires k <= 16
  {
    (Bit(x, k) != Bit(y, k)) != Bit(z, k)
  }

  function Num(b: bool): (r: nat)
    ensures r <= 1
  {
    if b then 1 else 0
  }

  // A number with one more bit at its low end.
  function Join(above: nat, b: bool): nat { 2 * above + Num(b) }

  function FromBits(b7: bool, b6: bool, b5: bool, b4: bool, b3: bool, b2: bool, b1: bool, b0: bool): byte {
    Join(Join(Join(Join(Join(Join(Join(Num(b7), b6), b5), b4), b3), b2), b1), b0)
  }

  // The bitwise operators, bit by bit.
  function And(x: byte, y: byte): byte {
    FromBits(Bit(x, 7) && Bit(y, 7), Bit(x, 6) && Bit(y, 6), Bit(x, 5) && Bit(y, 5), Bit(x, 4) && Bit(y, 4),
             Bit(x, 3) && Bit(y, 3), Bit(x, 2) && Bit(y, 2), Bit(x, 1) && Bit(y, 1), Bit(x, 0) && Bit(y, 0))
  }

  function Or(x: byte, y: byte): byte {
    FromBits(Bit(x, 7) || Bit(y, 7), Bit(x, 6) || Bit(y, 6), Bit(x, 5) || Bit(y, 5), Bit(x, 4) || Bit(y, 4),
             Bit(x, 3) || Bit(y, 3), Bit(x, 2) || Bit(y, 2), Bit(x, 1) || Bit(y, 1), Bit(x, 0) || Bit(y, 0))
  }

  function Xor(x: byte, y: byte): byte {
    FromBits(Bit(x, 7) != Bit(y, 7), Bit(x, 6) != Bit(y, 6), Bit(x, 5) != Bit(y, 5), Bit(x, 4) != Bit(y, 4),
             Bit(x, 3) != Bit(y, 3), Bit(x, 2) != Bit(y, 2), Bit(x, 1) != Bit(y, 1), Bit(x, 0) != Bit(y, 0))
  }

  // v | (1 << k) and v & ~(1 << k)
  function SetBit(v: byte, k: nat): byte
    requires k < 8
  {
    Or(v, Pow2(k))
  }

  function ResetBit(v: byte, k: nat): byte
    requires k < 8
  {
    And(v, 0xFF - Pow2(k))
  }

  function BitCount(v: nat): nat { if v == 0 then 0 else v % 2 + BitCount(v / 2) }

  predicate EvenParity(v: byte) { BitCount(v) % 2 == 0 }

  // v is assembled from its own bits.
  lemma Rebuild(v: byte)
    ensures FromBits(Bit(v, 7), Bit(v, 6), Bit(v, 5), Bit(v, 4), Bit(v, 3), Bit(v, 2), Bit(v, 1), Bit(v, 0)) == v
  {
    hide Bit, Join;
    Halve(v, 0); Halve(v, 1); Halve(v, 2); Halve(v, 3);
    Halve(v, 4); Halve(v, 5); Halve(v, 6);
    assert Num(Bit(v, 7)) == v / Pow2(7) by { TopBit(v); }
  }

  lemma TopBit(v: byte)
    ensures Num(Bit(v, 7)) == v / Pow2(7)
  {
  }

  lemma Halve(v: byte, k: nat)
    requires k < 8
    ensures v / Pow2(k) == Join(v / Pow2(k + 1), Bit(v, k))
  {
    hide Bit, Pow2, Join;
    if k < 4 {
      HalveLow(v, k);
    } else {
      HalveHigh(v, k);
    }
  }

  lemma HalveLow(v: byte, k: nat)
    requires k < 4
    ensures v / Pow2(k) == Join(v / Pow2(k + 1), Bit(v, k))
  {
  }

  lemma HalveHigh(v: byte, k: nat)
    requires 4 <= k < 8
    ensures v / Pow2(k) == Join(v / Pow2(k + 1), Bit(v, k))
  {
  }

  // Each bit of an assembled byte is the bit it was assembled from.
  lemma BitsOf(b7: bool, b6: bool, b5: bool, b4: bool, b3: bool, b2: bool, b1: bool, b0: bool)
    ensures var v := FromBits(b7, b6, b5, b4, b3, b2, b1, b0);
      && Bit(v, 7) == b7 && Bit(v, 6) == b6 && Bit(v, 5) == b5 && Bit(v, 4) == b4
      && Bit(v, 3) == b3 && Bit(v, 2) == b2 && Bit(v, 1) == b1 && Bit(v, 0) == b0
  {
    var v := FromBits(b7, b6, b5, b4, b3, b2, b1, b0);
    hide Bit, Join;
    var n6 := Join(Num(b7), b6);
    var n5 := Join(n6, b5);
    var n4 := Join(n5, b4);
    var n3 := Join(n4, b3);
    var n2 := Join(n3, b2);
    var n1 := Join(n2, b1);
    Peel(v, n1, b0, 0); Peel(v, n2, b1, 1); Peel(v, n3, b2, 2); Peel(v, n4, b3, 3);
    Peel(v, n5, b4, 4); Peel(v, n6, b5, 5); Peel(v, Num(b7), b6, 6);
    assert Bit(v, 7) == b7 by { TopBit(v); }
  }

  lemma Peel(v: byte, above: nat, b: bool, k: nat)
    requires k < 8
    requires v / Pow2(k) == Join(above, b)
    ensures Bit(v, k) == b
    ensures v / Pow2(k + 1) == above
  {
    hide Bit, Pow2;
    Halve(v, k);
  }
}
