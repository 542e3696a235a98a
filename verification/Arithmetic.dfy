/**
 What the carry contract of the ALU is for: chains of ADC or SBC over numbers of any length
 are exact, in binary and, with DAA after each, in packed decimal; and the 16-bit operations
 are two such bytes.
 */
module Arithmetic {
  import opened Words
  import opened Machine
  import opened Isa
  import opened Alu

  // ---- Numbers as little-endian bytes ----

  datatype Radix = Binary | Decimal

  function Base(radix: Radix): nat { if radix.Binary? then 0x100 else 100 }

  // The value of one byte: itself, or its two decimal digits.
  function Digits(radix: Radix, v: byte): nat {
    if radix.Binary? then v else 10 * (v / 0x10) + v % 0x10
  }

  // Both nibbles are decimal digits.
  predicate IsDigits(radix: Radix, v: byte) { radix.Decimal? ==> v / 0x10 <= 9 && v % 0x10 <= 9 }

  predicate IsNumber(radix: Radix, bytes: seq<byte>) { forall v :: v in bytes ==> IsDigits(radix, v) }

  function Value(radix: Radix, bytes: seq<byte>): nat {
    if |bytes| == 0 then 0 else Digits(radix, bytes[0]) + Base(radix) * Value(radix, bytes[1..])
  }

  // A carry out of n bytes: base ** n, or nothing.
  function CarryValue(radix: Radix, n: nat, carry: bool): nat {
    if !carry then 0 else if n == 0 then 1 else Base(radix) * CarryValue(radix, n - 1, carry)
  }

  // ---- Chains of instructions ----

  // A := x, then ADC or SBC with y, then DAA if the numbers are decimal.
  function OnByte(s: State, radix: Radix, subtract: bool, x: byte, y: byte): State {
    var s1 := s.(r := s.r.(a := x));
    var s2 := Accumulate(s1, if subtract then 3 else 1, y);
    if radix.Decimal? then AccumulatorOp(s2, 4) else s2
  }

  // From the low byte up, the carry flag linking the bytes: the bytes left in A, and the state.
  function Chain(s: State, radix: Radix, subtract: bool, x: seq<byte>, y: seq<byte>): (seq<byte>, State)
    requires |x| == |y|
    decreases |x|
  {
    hide OnByte;
    if |x| == 0 then ([], s) else
      var s1 := OnByte(s, radix, subtract, x[0], y[0]);
      var (rest, u) := Chain(s1, radix, subtract, x[1..], y[1..]);
      ([s1.r.a] + rest, u)
  }

  // ---- One byte ----

  lemma BinaryByte(s: State, subtract: bool, x: byte, y: byte)
    ensures var u := OnByte(s, Binary, subtract, x, y);
      var c, c' := Num(s.r.f.c), Num(u.r.f.c);
      if subtract then u.r.a - 0x100 * c' == x - y - c else u.r.a + 0x100 * c' == x + y + c
  {
    hide AddFlags, AddResult, SubFlags, SubResult;
    AddCarries(x, y, s.r.f.c);
    SubBorrows(x, y, s.r.f.c);
  }

  lemma AddCarries(x: byte, y: byte, c: bool)
    ensures AddResult(x, y, c) + 0x100 * Num(AddFlags(x, y, c).c) == x + y + Num(c)
  {
    hide Bit, Fits8, Signed8;
  }

  lemma SubBorrows(x: byte, y: byte, c: bool)
    ensures SubResult(x, y, c) - 0x100 * Num(SubFlags(x, y, c).c) == x - y - Num(c)
  {
    hide Bit, Fits8, Signed8;
  }

  // A decimal digit sum l is corrected by 6 when it passes 9.
  lemma DecimalAdd(x: byte, y: byte, c: bool)
    requires IsDigits(Decimal, x) && IsDigits(Decimal, y)
    ensures var a, f := AddResult(x, y, c), AddFlags(x, y, c); var r := DaaResult(a, f);
      && IsDigits(Decimal, r)
      && Digits(Decimal, r) + 100 * Num(DaaFlags(a, f).c) == Digits(Decimal, x) + Digits(Decimal, y) + Num(c)
  {
    hide Bit, Fits8, Signed8, Sz53p, Byte;
    DigitwiseSum(x, y, c);
    AddCorrected(x / 0x10 + y / 0x10, x % 0x10 + y % 0x10 + Num(c));
  }

  lemma DigitwiseSum(x: byte, y: byte, c: bool)
    ensures var t := 0x10 * (x / 0x10 + y / 0x10) + (x % 0x10 + y % 0x10 + Num(c));
      && AddResult(x, y, c) == Byte(t)
      && AddFlags(x, y, c).h == (x % 0x10 + y % 0x10 + Num(c) > 0xF)
      && AddFlags(x, y, c).c == (t > 0xFF) && !AddFlags(x, y, c).n
  {
    hide Bit, Fits8, Signed8;
  }

  // Tens h and units l, the carry between them not yet made, corrected as DAA does.
  lemma AddCorrected(h: nat, l: nat)
    requires h <= 18 && l <= 19
    ensures var t := 0x10 * h + l; var a := Byte(t);
      var correction := (if l > 0xF || a % 0x10 > 9 then 6 else 0) + (if t > 0xFF || a > 0x99 then 0x60 else 0);
      var r := Byte(a + correction); var carry := t > 0xFF || a > 0x99;
      IsDigits(Decimal, r) && Digits(Decimal, r) + 100 * Num(carry) == 10 * h + l
  {
    var t := 0x10 * h + l;
    var a := Byte(t);
    var units, over := if l > 9 then l - 10 else l, Num(l > 9);
    var carry := h + over > 9;
    var tens := if carry then h + over - 10 else h + over;
    Nibbles(h, l);
    Nibbles(tens, units);
    assert t > 0xFF || a > 0x99 <==> carry;
    WrapByte(t, (if l > 9 then 6 else 0) + (if carry then 0x60 else 0), 0x10 * tens + units);
  }

  lemma Nibbles(h: nat, l: nat)
    requires h <= 18 && l <= 19
    ensures var t := 0x10 * h + l; var a := Byte(t);
      && a == (if t > 0xFF then t - 0x100 else t)
      && a % 0x10 == (if l > 0xF then l - 0x10 else l)
      && (h <= 0xF && l <= 0xF ==> a / 0x10 == h)
  {
  }

  // The correction is added to, or taken from, the wrapped sum.
  lemma WrapByte(t: int, correction: int, v: byte)
    requires t + correction == v || t + correction == v + 0x100 || t + correction == v - 0x100
    ensures Byte(Byte(t) + correction) == v
  {
  }

  // The difference is corrected by as much, downwards.
  lemma DecimalSubtract(x: byte, y: byte, c: bool)
    requires IsDigits(Decimal, x) && IsDigits(Decimal, y)
    ensures var a, f := SubResult(x, y, c), SubFlags(x, y, c); var r := DaaResult(a, f);
      && IsDigits(Decimal, r)
      && Digits(Decimal, r) - 100 * Num(DaaFlags(a, f).c) == Digits(Decimal, x) - Digits(Decimal, y) - Num(c)
  {
    hide Bit, Fits8, Signed8, Sz53p, Byte;
    DigitwiseDifference(x, y, c);
    SubtractCorrected(x / 0x10 - y / 0x10, x % 0x10 - y % 0x10 - Num(c));
  }

  lemma DigitwiseDifference(x: byte, y: byte, c: bool)
    ensures var t := 0x10 * (x / 0x10 - y / 0x10) + (x % 0x10 - y % 0x10 - Num(c));
      && SubResult(x, y, c) == Byte(t)
      && SubFlags(x, y, c).h == (x % 0x10 - y % 0x10 - Num(c) < 0)
      && SubFlags(x, y, c).c == (t < 0) && SubFlags(x, y, c).n
  {
    hide Bit, Fits8, Signed8;
  }

  lemma SubtractCorrected(h: int, l: int)
    requires -9 <= h <= 9 && -10 <= l <= 9
    ensures var t := 0x10 * h + l; var a := Byte(t);
      var correction := (if l < 0 || a % 0x10 > 9 then 6 else 0) + (if t < 0 || a > 0x99 then 0x60 else 0);
      var r := Byte(a - correction); var carry := t < 0 || a > 0x99;
      IsDigits(Decimal, r) && Digits(Decimal, r) - 100 * Num(carry) == 10 * h + l
  {
    var t := 0x10 * h + l;
    var a := Byte(t);
    var units, under := if l < 0 then l + 10 else l, Num(l < 0);
    var carry := h - under < 0;
    var tens := if carry then h - under + 10 else h - under;
    Nibbles(tens, units);
    LowNibble(h, l);
    assert t < 0 || a > 0x99 <==> carry;
    WrapByte(t, -((if l < 0 then 6 else 0) + (if carry then 0x60 else 0)), 0x10 * tens + units);
  }

  lemma LowNibble(h: int, l: int)
    requires -9 <= h <= 9 && -10 <= l <= 9
    ensures var t := 0x10 * h + l; var a := Byte(t);
      && (l >= 0 ==> a % 0x10 == l)
      && (t >= 0 ==> a == t && a <= 0x99)
  {
  }

  lemma DecimalByte(s: State, subtract: bool, x: byte, y: byte)
    requires IsDigits(Decimal, x) && IsDigits(Decimal, y)
    ensures var u := OnByte(s, Decimal, subtract, x, y);
      var c, c' := Num(s.r.f.c), Num(u.r.f.c);
      && IsDigits(Decimal, u.r.a)
      && (if subtract then Digits(Decimal, u.r.a) - 100 * c' == Digits(Decimal, x) - Digits(Decimal, y) - c
          else Digits(Decimal, u.r.a) + 100 * c' == Digits(Decimal, x) + Digits(Decimal, y) + c)
  {
    hide AddFlags, AddResult, SubFlags, SubResult, DaaResult, DaaFlags, Digits, IsDigits;
    if subtract {
      DecimalSubtract(x, y, s.r.f.c);
    } else {
      DecimalAdd(x, y, s.r.f.c);
    }
  }

  // ---- Numbers of any length ----

  // The bytes a chain leaves in A are valid digits and, with the carry it starts from and the
  // carry it leaves, exactly the sum or the (modular) difference.
  lemma {:induction false} ChainComputes(s: State, radix: Radix, subtract: bool, x: seq<byte>, y: seq<byte>)
    requires |x| == |y| && IsNumber(radix, x) && IsNumber(radix, y)
    ensures var (r, u) := Chain(s, radix, subtract, x, y);
      && |r| == |x| && IsNumber(radix, r)
      && (if subtract
          then Value(radix, r) - CarryValue(radix, |x|, u.r.f.c) == Value(radix, x) - Value(radix, y) - Num(s.r.f.c)
          else Value(radix, r) + CarryValue(radix, |x|, u.r.f.c) == Value(radix, x) + Value(radix, y) + Num(s.r.f.c))
    decreases |x|
  {
    hide OnByte, Digits, IsDigits;
    if |x| == 0 {
    } else {
      var s1 := OnByte(s, radix, subtract, x[0], y[0]);
      var (rest, u) := Chain(s1, radix, subtract, x[1..], y[1..]);
      if radix.Binary? {
        BinaryByte(s, subtract, x[0], y[0]);
        assert forall v :: IsDigits(Binary, v) && Digits(Binary, v) == v by { ByteIsDigit(); }
      } else {
        DecimalByte(s, subtract, x[0], y[0]);
      }
      ChainComputes(s1, radix, subtract, x[1..], y[1..]);
      assert ([s1.r.a] + rest)[1..] == rest;
    }
  }

  lemma {:induction false} ValueBelow(radix: Radix, bytes: seq<byte>)
    requires IsNumber(radix, bytes)
    ensures Value(radix, bytes) < CarryValue(radix, |bytes|, true)
    decreases |bytes|
  {
    if |bytes| > 0 {
      ValueBelow(radix, bytes[1..]);
      assert bytes[0] in bytes;
    }
  }

  // The final carry says exactly whether the sum overflows its n bytes, or the difference is
  // negative.
  lemma ChainCarries(s: State, radix: Radix, subtract: bool, x: seq<byte>, y: seq<byte>)
    requires |x| == |y| && IsNumber(radix, x) && IsNumber(radix, y)
    ensures var c := Chain(s, radix, subtract, x, y).1.r.f.c;
      c <==> if subtract then Value(radix, x) < Value(radix, y) + Num(s.r.f.c)
             else Value(radix, x) + Value(radix, y) + Num(s.r.f.c) >= CarryValue(radix, |x|, true)
  {
    hide Chain, IsDigits, Value, CarryValue;
    var (r, u) := Chain(s, radix, subtract, x, y);
    ChainComputes(s, radix, subtract, x, y);
    ValueBelow(radix, r);
    NoCarry(radix, |x|);
  }

  lemma NoCarry(radix: Radix, n: nat)
    ensures CarryValue(radix, n, false) == 0
  {
  }

  lemma ByteIsDigit()
    ensures forall v: byte :: IsDigits(Binary, v) && Digits(Binary, v) == v
  {
  }

  // ---- 16-bit operations ----

  // A word addition as two bytes: the low byte's carry c1 goes into the high byte.
  lemma WordSum(a: word, v: word, c: nat)
    requires c <= 1
    ensures var c1 := if Lo(a) + Lo(v) + c > 0xFF then 1 else 0;
      && Word(a + v + c) == Pair(Byte(Hi(a) + Hi(v) + c1), Byte(Lo(a) + Lo(v) + c))
      && (a + v + c > 0xFFFF <==> Hi(a) + Hi(v) + c1 > 0xFF)
  {
    assert a == 0x100 * Hi(a) + Lo(a) && v == 0x100 * Hi(v) + Lo(v);
    hide Hi, Lo;
  }

  lemma WordHalf(a: word, v: word, c: nat)
    requires c <= 1
    ensures var c1 := if Lo(a) + Lo(v) + c > 0xFF then 1 else 0;
      a % 0x1000 + v % 0x1000 + c > 0xFFF <==> Hi(a) % 0x10 + Hi(v) % 0x10 + c1 > 0xF
  {
    assert a % 0x1000 == 0x100 * (Hi(a) % 0x10) + Lo(a);
    assert v % 0x1000 == 0x100 * (Hi(v) % 0x10) + Lo(v);
    hide Hi, Lo;
  }

  lemma WordSign(a: word)
    ensures Signed16(a) == 0x100 * Signed8(Hi(a)) + Lo(a)
    ensures a >= 0x8000 <==> Hi(a) >= 0x80
    ensures a == 0 <==> Hi(a) == 0 && Lo(a) == 0
  {
  }

  lemma WordFits(x: int, y: int, l: byte, m: byte, c: nat)
    requires c <= 1
    ensures var c1 := if l + m + c > 0xFF then 1 else 0;
      Fits16(0x100 * x + l + 0x100 * y + m + c) <==> Fits8(x + y + c1)
  {
  }

  // ADC HL,rr is the low bytes and then the high bytes added with carry, in result and in
  // every flag but Z, which is zero of the whole word.
  lemma AdcByBytes(a: word, v: word, c: bool)
    ensures var low := AddFlags(Lo(a), Lo(v), c); var high := AddFlags(Hi(a), Hi(v), low.c);
      && Adc16Result(a, v, c) == Pair(AddResult(Hi(a), Hi(v), low.c), AddResult(Lo(a), Lo(v), c))
      && Adc16Flags(a, v, c) == high.(z := Adc16Result(a, v, c) == 0)
      && (Adc16Result(a, v, c) == 0 <==> low.z && high.z)
  {
    hide Word, Byte, Pair, Hi, Lo, Bit, Fits8, Fits16, Signed8, Signed16;
    var r := Word(a + v + Num(c));
    WordSum(a, v, Num(c));
    WordHalf(a, v, Num(c));
    WordSign(a);
    WordSign(v);
    WordSign(r);
    WordFits(Signed8(Hi(a)), Signed8(Hi(v)), Lo(a), Lo(v), Num(c));
    JoinBytes(Byte(Hi(a) + Hi(v) + (if Lo(a) + Lo(v) + Num(c) > 0xFF then 1 else 0)), Byte(Lo(a) + Lo(v) + Num(c)));
  }

  lemma WordDifference(a: word, v: word, c: nat)
    requires c <= 1
    ensures var c1 := if Lo(a) < Lo(v) + c then 1 else 0;
      && Word(a - v - c) == Pair(Byte(Hi(a) - Hi(v) - c1), Byte(Lo(a) - Lo(v) - c))
      && (a < v + c <==> Hi(a) < Hi(v) + c1)
  {
    hide Word, Byte, Pair;
    var c1 := if Lo(a) < Lo(v) + c then 1 else 0;
    assert a == 0x100 * Hi(a) + Lo(a) && v == 0x100 * Hi(v) + Lo(v);
    var low := Lo(a) - Lo(v) - c + 0x100 * c1;
    ByteIs(Lo(a) - Lo(v) - c, low);
    WordOfParts(Hi(a) - Hi(v) - c1, low);
  }

  lemma ByteIs(x: int, r: byte)
    requires x == r || x == r - 0x100 || x == r + 0x100
    ensures Byte(x) == r
  {
  }

  // A word by its high part, wrapped, and its low byte.
  lemma WordOfParts(h: int, l: byte)
    requires -0x100 <= h < 0x200
    ensures Word(0x100 * h + l) == Pair(Byte(h), l)
  {
    hide Word, Byte;
    var r := if h < 0 then h + 0x100 else if h < 0x100 then h else h - 0x100;
    ByteIs(h, r);
    WordIs(0x100 * h + l, 0x100 * r + l);
  }

  lemma WordIs(x: int, r: word)
    requires x == r || x == r - 0x1_0000 || x == r + 0x1_0000
    ensures Word(x) == r
  {
  }

  lemma WordHalfBorrow(a: word, v: word, c: nat)
    requires c <= 1
    ensures var c1 := if Lo(a) < Lo(v) + c then 1 else 0;
      a % 0x1000 < v % 0x1000 + c <==> Hi(a) % 0x10 < Hi(v) % 0x10 + c1
  {
    assert a % 0x1000 == 0x100 * (Hi(a) % 0x10) + Lo(a);
    assert v % 0x1000 == 0x100 * (Hi(v) % 0x10) + Lo(v);
    hide Hi, Lo;
  }

  lemma WordFitsDifference(x: int, y: int, l: byte, m: byte, c: nat)
    requires c <= 1
    ensures var c1 := if l < m + c then 1 else 0;
      Fits16(0x100 * x + l - (0x100 * y + m) - c) <==> Fits8(x - y - c1)
  {
  }

  // ... and SBC HL,rr the bytes subtracted with borrow.
  lemma SbcByBytes(a: word, v: word, c: bool)
    ensures var low := SubFlags(Lo(a), Lo(v), c); var high := SubFlags(Hi(a), Hi(v), low.c);
      && Sbc16Result(a, v, c) == Pair(SubResult(Hi(a), Hi(v), low.c), SubResult(Lo(a), Lo(v), c))
      && Sbc16Flags(a, v, c) == high.(z := Sbc16Result(a, v, c) == 0)
      && (Sbc16Result(a, v, c) == 0 <==> low.z && high.z)
  {
    hide Word, Byte, Pair, Hi, Lo, Bit, Fits8, Fits16, Signed8, Signed16;
    var r := Word(a - v - Num(c));
    WordDifference(a, v, Num(c));
    WordHalfBorrow(a, v, Num(c));
    WordSign(a);
    WordSign(v);
    WordSign(r);
    WordFitsDifference(Signed8(Hi(a)), Signed8(Hi(v)), Lo(a), Lo(v), Num(c));
    JoinBytes(Byte(Hi(a) - Hi(v) - (if Lo(a) < Lo(v) + Num(c) then 1 else 0)), Byte(Lo(a) - Lo(v) - Num(c)));
  }
}
