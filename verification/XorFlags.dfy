/**
 The flags computed by exclusive-or of operands and result, as src/instructions.cpp does, are
 the carries, half carries and signed overflows of Alu.
 */
module XorFlags {
  import opened Words
  import opened Registers
  import Alu

  // Bit 8 of the sum is the carry, bit 4 of a ^ v ^ sum the carry out of the low nibble, and
  // ~(a ^ v) & (a ^ sum) has bit 7 exactly when the signed sum does not fit.
  lemma AddBits(a: byte, v: byte, c: nat)
    requires c <= 1
    ensures Bit(a + v + c, 8) <==> a + v + c > 0xFF
    ensures XorBit(a, v, a + v + c, 4) <==> a % 0x10 + v % 0x10 + c > 0xF
    ensures Bit(a, 7) == Bit(v, 7) && Bit(a, 7) != Bit(a + v + c, 7) <==> !Alu.Fits8(Signed8(a) + Signed8(v) + c)
  {
    HalfCarry(a, v, c, 4);
    assert XorBit(a, v, a + v + c, 4) <==> a % 0x10 + v % 0x10 + c > 0xF;
  }

  // The same for a difference held in 16 bits.
  lemma SubBits(a: byte, v: byte, c: nat)
    requires c <= 1
    ensures Lo(Word(a - v - c)) == Byte(a - v - c)
    ensures Bit(Word(a - v - c), 8) <==> a < v + c
    ensures XorBit(a, v, Word(a - v - c), 4) <==> a % 0x10 < v % 0x10 + c
    ensures Bit(a, 7) != Bit(v, 7) && Bit(a, 7) != Bit(Word(a - v - c), 7) <==> !Alu.Fits8(Signed8(a) - Signed8(v) - c)
  {
    hide Bit, XorBit, Alu.Fits8, Word;
    WordModulo(a - v - c);
    HalfBorrow(a, v, c, Word(a - v - c), 4);
    SubTop(a, v, c);
  }

  lemma SubTop(a: byte, v: byte, c: nat)
    requires c <= 1
    ensures Lo(Word(a - v - c)) == Byte(a - v - c)
    ensures Bit(Word(a - v - c), 8) <==> a < v + c
    ensures Bit(a, 7) != Bit(v, 7) && Bit(a, 7) != Bit(Word(a - v - c), 7) <==> !Alu.Fits8(Signed8(a) - Signed8(v) - c)
  {
    hide Bit, Word, Lo, Byte;
    SignBit(a);
    SignBit(v);
    Difference(a, v, c);
  }

  lemma SignBit(x: byte)
    ensures Bit(x, 7) <==> x >= 0x80
  {
  }

  lemma Difference(a: byte, v: byte, c: nat)
    requires c <= 1
    ensures var r := a - v - c + if a < v + c then 0x100 else 0; var d := Word(a - v - c);
      && Byte(a - v - c) == r && Lo(d) == r
      && (Bit(d, 8) <==> a < v + c)
      && (Bit(d, 7) <==> r >= 0x80)
  {
    hide Bit, Lo;
    if a < v + c {
      assert Word(a - v - c) == 0xFF00 + (a - v - c + 0x100);
      Bytewise(0xFF, a - v - c + 0x100);
    } else {
      assert Word(a - v - c) == a - v - c;
      Bytewise(0, a - v - c);
    }
  }

  lemma Bytewise(high: byte, r: byte)
    ensures var d := 0x100 * high + r;
      Lo(d) == r && (Bit(d, 8) <==> high % 2 == 1) && (Bit(d, 7) <==> r >= 0x80)
  {
    assert (0x100 * high + r) / 0x80 == 2 * high + r / 0x80;
  }

  // Bit k of a ^ v ^ (a + v + c), k being 4 or 12, is the carry out of the k bits below.
  lemma HalfCarry(a: nat, v: nat, c: nat, k: nat)
    requires c <= 1 && (k == 4 || k == 12)
    ensures XorBit(a, v, a + v + c, k) <==> a % Pow2(k) + v % Pow2(k) + c >= Pow2(k)
  {
    var m := Pow2(k);
    assert m == 0x10 || m == 0x1000;
    hide Pow2;
    var carry := if a % m + v % m + c >= m then 1 else 0;
    DigitSum(a, v, c, m);
    Parity(a / m, v / m, carry, (a + v + c) / m);
  }

  lemma DigitSum(a: nat, v: nat, c: nat, m: nat)
    requires c <= 1 && (m == 0x10 || m == 0x1000)
    ensures var t := a % m + v % m + c;
      && (a + v + c) / m == a / m + v / m + (if t >= m then 1 else 0)
      && (a + v + c) % m == if t >= m then t - m else t
  {
    if m == 0x10 {
      assert (a + v + c) / 0x10 == a / 0x10 + v / 0x10 + (a % 0x10 + v % 0x10 + c) / 0x10;
    } else {
      assert (a + v + c) / 0x1000 == a / 0x1000 + v / 0x1000 + (a % 0x1000 + v % 0x1000 + c) / 0x1000;
    }
  }

  lemma Parity(x: nat, y: nat, c: nat, z: nat)
    requires c <= 1 && z == x + y + c
    ensures ((x % 2 == 1) != (y % 2 == 1)) != (z % 2 == 1) <==> c == 1
  {
  }

  // Bit k of a ^ v ^ d, for d congruent to a - v - c, is the borrow into the k bits below:
  // the carry of v + d + c.
  lemma HalfBorrow(a: nat, v: nat, c: nat, d: nat, k: nat)
    requires c <= 1 && (k == 4 || k == 12)
    requires d == a - v - c || d == a - v - c + 0x1_0000 || d == a - v - c + 0x1_0000_0000
    ensures XorBit(a, v, d, k) <==> a % Pow2(k) < v % Pow2(k) + c
  {
    HalfCarry(v, d, c, k);
    Congruent(a, d + v + c, k);
    BorrowIsCarry(a, v, d, c, Pow2(k));
  }

  lemma Congruent(x: nat, y: nat, k: nat)
    requires y == x || y == x + 0x1_0000 || y == x + 0x1_0000_0000
    requires k == 4 || k == 12
    ensures Bit(x, k) == Bit(y, k)
  {
    if k == 4 {
      Lift(x, y, 0x10);
    } else {
      Lift(x, y, 0x1000);
    }
  }

  lemma Lift(x: nat, y: nat, m: nat)
    requires y == x || y == x + 0x1_0000 || y == x + 0x1_0000_0000
    requires m == 0x10 || m == 0x1000
    ensures x / m % 2 == y / m % 2
  {
    assert y / m == x / m || y / m == x / m + 0x1_0000 / m || y / m == x / m + 0x1_0000_0000 / m;
  }

  lemma BorrowIsCarry(a: nat, v: nat, d: nat, c: nat, m: nat)
    requires c <= 1 && (m == 0x10 || m == 0x1000)
    requires d + v + c == a || d + v + c == a + 0x1_0000 || d + v + c == a + 0x1_0000_0000
    ensures v % m + d % m + c >= m <==> a % m < v % m + c
  {
    var t := v % m + d % m + c;
    DigitSum(v, d, c, m);
    assert a % m == (d + v + c) % m by { WrapMod(a, d + v + c, m); }
  }

  lemma WrapMod(x: nat, y: nat, m: nat)
    requires y == x || y == x + 0x1_0000 || y == x + 0x1_0000_0000
    requires m == 0x10 || m == 0x1000
    ensures x % m == y % m
  {
  }

  lemma AddByXor(a: byte, v: byte, carry: bool)
    ensures var sum := a + v + Num(carry);
      && Alu.AddResult(a, v, carry) == Byte(sum)
      && Alu.AddFlags(a, v, carry) == Alu.Sz53(Byte(sum)).(
           h := XorBit(a, v, sum, 4), p := Bit(a, 7) == Bit(v, 7) && Bit(a, 7) != Bit(sum, 7), c := Bit(sum, 8))
  {
    hide Bit, XorBit, Alu.Fits8, Signed8, Byte;
    AddBits(a, v, Num(carry));
  }

  lemma SubByXor(a: byte, v: byte, carry: bool)
    ensures var diff := Word(a - v - Num(carry));
      && Alu.SubResult(a, v, carry) == Lo(diff)
      && Alu.SubFlags(a, v, carry) == Alu.Sz53(Lo(diff)).(
           h := XorBit(a, v, diff, 4), p := Bit(a, 7) != Bit(v, 7) && Bit(a, 7) != Bit(diff, 7),
           n := true, c := Bit(diff, 8))
  {
    hide Bit, XorBit, Alu.Fits8, Signed8, Byte, Lo, Word;
    SubBits(a, v, Num(carry));
  }

  // CP keeps bits 5 and 3 of the operand.
  lemma CpByXor(a: byte, v: byte)
    ensures var diff := Word(a - v); var result := Lo(diff);
      Alu.CpFlags(a, v) == Flags(
        s := result >= 0x80, z := result == 0, y := Bit(v, 5), h := XorBit(a, v, diff, 4), x := Bit(v, 3),
        p := Bit(a, 7) != Bit(v, 7) && Bit(a, 7) != Bit(diff, 7), n := true, c := Bit(diff, 8))
  {
    hide Bit, XorBit, Byte, Word, Lo;
    SubByXor(a, v, false);
    assert Word(a - v - Num(false)) == Word(a - v);
  }

  // CPI and CPD compare through the 16-bit difference.
  lemma CompareByXor(v: byte, a: byte, left: word, f: Flags)
    ensures var diff := Word(a - v); var result := Lo(diff); var half := XorBit(a, v, diff, 4);
      var n := Byte(result - Num(half));
      && (result == 0 <==> a == v)
      && Alu.BlockCpFlags(v, a, left, f) == Flags(
           s := result >= 0x80, z := result == 0, y := Bit(n, 1), h := half, x := Bit(n, 3),
           p := left != 0, n := true, c := f.c)
  {
    hide Bit, XorBit, Byte, Word, Lo;
    SubByXor(a, v, false);
    ZeroDifference(a, v);
    assert Word(a - v - Num(false)) == Word(a - v);
  }

  lemma ZeroDifference(a: byte, v: byte)
    ensures Lo(Word(a - v)) == 0 <==> a == v
  {
  }

  // ---- The same in 16 bits: bits 12, 15 and 16 ----

  lemma AddByXor16(a: word, v: word, f: Flags)
    ensures var sum := a + v; var r := Word(sum);
      Alu.Add16Flags(a, v, f) == Flags(
        s := f.s, z := f.z, y := Bit(Hi(r), 5), h := XorBit(a, v, sum, 12), x := Bit(Hi(r), 3),
        p := f.p, n := false, c := Bit(sum, 16))
  {
    hide Bit, XorBit, Hi, Word, Alu.Fits16;
    HalfCarry(a, v, 0, 12);
    AddTop16(a, v, 0);
    assert a + v + 0 == a + v;
  }

  lemma AdcByXor(a: word, v: word, carry: bool)
    ensures var sum := a + v + Num(carry); var r := Word(sum);
      Alu.Adc16Flags(a, v, carry) == Flags(
        s := r >= 0x8000, z := r == 0, y := Bit(Hi(r), 5), h := XorBit(a, v, sum, 12), x := Bit(Hi(r), 3),
        p := Bit(a, 15) == Bit(v, 15) && Bit(a, 15) != Bit(sum, 15), n := false, c := Bit(sum, 16))
  {
    hide Bit, XorBit, Hi, Word, Alu.Fits16, Signed16;
    HalfCarry(a, v, Num(carry), 12);
    AddTop16(a, v, Num(carry));
  }

  lemma AddTop16(a: word, v: word, c: nat)
    requires c <= 1
    ensures Bit(a + v + c, 16) <==> a + v + c > 0xFFFF
    ensures Bit(a, 15) == Bit(v, 15) && Bit(a, 15) != Bit(a + v + c, 15) <==> !Alu.Fits16(Signed16(a) + Signed16(v) + c)
  {
  }

  // The difference is held in 32 bits.
  lemma SbcByXor(a: word, v: word, carry: bool)
    ensures var diff := (a - v - Num(carry)) % 0x1_0000_0000; var r := Word(diff);
      && Alu.Sbc16Result(a, v, carry) == r
      && Alu.Sbc16Flags(a, v, carry) == Flags(
           s := r >= 0x8000, z := r == 0, y := Bit(Hi(r), 5), h := XorBit(a, v, diff, 12), x := Bit(Hi(r), 3),
           p := Bit(a, 15) != Bit(v, 15) && Bit(a, 15) != Bit(diff, 15), n := true, c := Bit(diff, 16))
  {
    hide Word;
    hide Bit, XorBit, Hi, Alu.Fits16, Signed16;
    var diff := (a - v - Num(carry)) % 0x1_0000_0000;
    SubTop16(a, v, Num(carry), diff);
    HalfBorrow(a, v, Num(carry), diff, 12);
  }

  lemma SubTop16(a: word, v: word, c: nat, diff: nat)
    requires c <= 1 && diff == (a - v - c) % 0x1_0000_0000
    ensures diff == if a < v + c then a - v - c + 0x1_0000_0000 else a - v - c
    ensures Word(diff) == Word(a - v - c)
    ensures Bit(diff, 16) <==> a < v + c
    ensures Bit(a, 15) != Bit(v, 15) && Bit(a, 15) != Bit(diff, 15) <==> !Alu.Fits16(Signed16(a) - Signed16(v) - c)
  {
    hide Word;
    WordModulo(diff);
    WordModulo(a - v - c);
    if a < v + c {
      assert diff == a - v - c + 0x1_0000_0000;
      assert diff / 0x1_0000 == 0xFFFF;
    } else {
      assert diff == a - v - c;
    }
  }

  // ---- DAA: bit 4 of a ^ new_a is the carry out of the low digit's correction ----

  lemma DaaByXor(a: byte, f: Flags)
    ensures Alu.DaaResult(a, f) == Byte(if f.n then a - Alu.DaaCorrection(a, f) else a + Alu.DaaCorrection(a, f))
    ensures var r := Alu.DaaResult(a, f);
      Alu.DaaFlags(a, f) == Alu.Sz53p(r).(h := Bit(a, 4) != Bit(r, 4), n := f.n, c := f.c || a > 0x99)
  {
    hide Bit, Byte;
    var low := if f.h || a % 0x10 > 9 then 6 else 0;
    var high := if f.c || a > 0x99 then 6 else 0;
    DaaHalf(a, low, high, f.n);
  }

  lemma DaaHalf(a: byte, low: nat, high: nat, n: bool)
    requires low == 0 || low == 6
    requires high == 0 || high == 6
    ensures var r := Byte(if n then a - (low + 0x10 * high) else a + (low + 0x10 * high));
      Bit(a, 4) != Bit(r, 4) <==> if n then a % 0x10 < low else a % 0x10 + low > 0xF
  {
    hide Bit, Byte;
    var q, d := a / 0x10, a % 0x10;
    DaaQuotient(a, q, d);
    if n {
      var borrow := Num(d < low);
      DaaQuotient(a - (low + 0x10 * high), q - high - borrow, d - low + 0x10 * borrow);
      OddShift(q, 0 - high as int, 0 - borrow as int);
    } else {
      var carry := Num(d + low > 0xF);
      DaaQuotient(a + (low + 0x10 * high), q + high + carry, d + low - 0x10 * carry);
      OddShift(q, high, carry);
    }
  }

  lemma OddShift(q: nat, even: int, c: int)
    requires even == 0 || even == 6 || even == -6
    requires -1 <= c <= 1
    ensures (q + even + c) % 2 == 1 <==> ((q % 2 == 1) != (c != 0))
  {
  }

  lemma DaaQuotient(x: int, t: int, d: nat)
    requires -0x100 <= x < 0x200 && x == 0x10 * t + d && d < 0x10
    ensures Bit(Byte(x), 4) <==> t % 2 == 1
    ensures 0 <= x < 0x100 ==> Byte(x) == x
  {
    var k := if x < 0 then 1 else if x < 0x100 then 0 else -1;
    assert Byte(x) == 0x10 * (t + 0x10 * k) + d;
    assert Byte(x) / 0x10 == t + 0x10 * k;
    assert (t + 0x10 * k) % 2 == t % 2;
  }
}
