/**
 Logic, rotates, shifts and single bits, bit by bit: what each leaves in every bit of its
 operand, and which undo which.
 */
module BitLaws {
  import opened Words
  import opened Registers
  import opened Machine
  import opened Isa
  import Alu
  import XorFlags

  // ---- AND, XOR, OR ----

  lemma AndBits(x: byte, y: byte, k: nat)
    requires k < 8
    ensures Bit(And(x, y), k) <==> Bit(x, k) && Bit(y, k)
  {
    hide Bit, FromBits;
    BitsOf(Bit(x, 7) && Bit(y, 7), Bit(x, 6) && Bit(y, 6), Bit(x, 5) && Bit(y, 5), Bit(x, 4) && Bit(y, 4),
           Bit(x, 3) && Bit(y, 3), Bit(x, 2) && Bit(y, 2), Bit(x, 1) && Bit(y, 1), Bit(x, 0) && Bit(y, 0));
  }

  lemma OrBits(x: byte, y: byte, k: nat)
    requires k < 8
    ensures Bit(Or(x, y), k) <==> Bit(x, k) || Bit(y, k)
  {
    hide Bit, FromBits;
    BitsOf(Bit(x, 7) || Bit(y, 7), Bit(x, 6) || Bit(y, 6), Bit(x, 5) || Bit(y, 5), Bit(x, 4) || Bit(y, 4),
           Bit(x, 3) || Bit(y, 3), Bit(x, 2) || Bit(y, 2), Bit(x, 1) || Bit(y, 1), Bit(x, 0) || Bit(y, 0));
  }

  lemma XorBits(x: byte, y: byte, k: nat)
    requires k < 8
    ensures Bit(Xor(x, y), k) <==> Bit(x, k) != Bit(y, k)
  {
    hide Bit, FromBits;
    BitsOf(Bit(x, 7) != Bit(y, 7), Bit(x, 6) != Bit(y, 6), Bit(x, 5) != Bit(y, 5), Bit(x, 4) != Bit(y, 4),
           Bit(x, 3) != Bit(y, 3), Bit(x, 2) != Bit(y, 2), Bit(x, 1) != Bit(y, 1), Bit(x, 0) != Bit(y, 0));
  }

  // A byte is its bits.
  lemma SameBits(x: byte, y: byte)
    requires forall k: nat :: k < 8 ==> Bit(x, k) == Bit(y, k)
    ensures x == y
  {
    hide Bit, FromBits;
    Rebuild(x);
    Rebuild(y);
  }

  // Bit k of A after AND, XOR or OR with v ...
  lemma LogicBits(s: State, v: byte, k: nat)
    requires k < 8
    ensures Bit(Accumulate(s, 4, v).r.a, k) <==> Bit(s.r.a, k) && Bit(v, k)
    ensures Bit(Accumulate(s, 5, v).r.a, k) <==> Bit(s.r.a, k) != Bit(v, k)
    ensures Bit(Accumulate(s, 6, v).r.a, k) <==> Bit(s.r.a, k) || Bit(v, k)
  {
    hide Bit, And, Or, Xor, EvenParity, Alu.AndFlags, Alu.Sz53p;
    AndBits(s.r.a, v, k);
    OrBits(s.r.a, v, k);
    XorBits(s.r.a, v, k);
  }

  // ... and the flags, which follow from A: H is set by AND, N and C are clear.
  lemma LogicFlags(s: State, v: byte, k: nat)
    requires 4 <= k < 7
    ensures var r := Accumulate(s, k, v).r;
      r.f == Flags(r.a >= 0x80, r.a == 0, Bit(r.a, 5), k == 4, Bit(r.a, 3), EvenParity(r.a), false, false)
  {
    hide Bit, And, Or, Xor, EvenParity;
  }

  lemma XorTwice(x: byte, y: byte)
    ensures Xor(Xor(x, y), y) == x && Xor(x, x) == 0
  {
    hide Bit, Xor;
    forall k: nat | k < 8 ensures Bit(Xor(Xor(x, y), y), k) == Bit(x, k) {
      XorBits(Xor(x, y), y, k);
      XorBits(x, y, k);
    }
    SameBits(Xor(Xor(x, y), y), x);
    forall k: nat | k < 8 ensures Bit(Xor(x, x), k) == Bit(0, k) {
      XorBits(x, x, k);
      NoBits(k);
    }
    SameBits(Xor(x, x), 0);
  }

  lemma NoBits(k: nat)
    requires k < 8
    ensures !Bit(0, k)
  {
  }

  // XOR with the same operand twice gives A back, and with A itself zero.
  lemma XorAccumulates(s: State, v: byte)
    ensures Accumulate(Accumulate(s, 5, v), 5, v).r.a == s.r.a
    ensures var r := Accumulate(s, 5, s.r.a).r; r.a == 0 && r.f.z && !r.f.s && !r.f.c
  {
    hide Xor, Bit, EvenParity;
    XorTwice(s.r.a, v);
    XorTwice(s.r.a, s.r.a);
  }

  // ---- Rotates and shifts ----

  // v one place up, b coming in at the bottom; and one place down, b coming in at the top.
  lemma ShiftUp(v: byte, b: bool)
    ensures Byte(2 * v) + Num(b) ==
      FromBits(Bit(v, 6), Bit(v, 5), Bit(v, 4), Bit(v, 3), Bit(v, 2), Bit(v, 1), Bit(v, 0), b)
    ensures Bit(v, 7) <==> v >= 0x80
  {
    hide Bit, Byte, FromBits;
    Rebuild(v);
    XorFlags.SignBit(v);
    TopApart(Bit(v, 7), Bit(v, 6), Bit(v, 5), Bit(v, 4), Bit(v, 3), Bit(v, 2), Bit(v, 1), Bit(v, 0), b);
    var low := FromBits(false, Bit(v, 6), Bit(v, 5), Bit(v, 4), Bit(v, 3), Bit(v, 2), Bit(v, 1), Bit(v, 0));
    Doubled(Bit(v, 7), low, v);
  }

  lemma TopApart(b7: bool, b6: bool, b5: bool, b4: bool, b3: bool, b2: bool, b1: bool, b0: bool, b: bool)
    ensures var low := FromBits(false, b6, b5, b4, b3, b2, b1, b0);
      && low < 0x80
      && FromBits(b7, b6, b5, b4, b3, b2, b1, b0) == 0x80 * Num(b7) + low
      && FromBits(b6, b5, b4, b3, b2, b1, b0, b) == 2 * low + Num(b)
  {
  }

  lemma Doubled(top: bool, low: byte, v: byte)
    requires low < 0x80 && v == 0x80 * Num(top) + low
    ensures Byte(2 * v) == 2 * low
  {
  }

  lemma ShiftDown(v: byte, b: bool)
    ensures v / 2 + 0x80 * Num(b) ==
      FromBits(b, Bit(v, 7), Bit(v, 6), Bit(v, 5), Bit(v, 4), Bit(v, 3), Bit(v, 2), Bit(v, 1))
    ensures Bit(v, 0) <==> v % 2 == 1
  {
    Rebuild(v);
    hide Bit;
    var half := FromBits(false, Bit(v, 7), Bit(v, 6), Bit(v, 5), Bit(v, 4), Bit(v, 3), Bit(v, 2), Bit(v, 1));
    assert v == 2 * half + Num(Bit(v, 0));
  }

  // The even operations (RLC, RL, SLA, SLL) move every bit one place up, bit 7 into carry; what
  // comes in at the bottom is bit 7, the old carry, nothing, one.
  lemma LeftBits(op: byte, v: byte, c: bool)
    requires op < 0x40 && op / 8 % 2 == 0
    ensures var r := BitResult(op, v, c);
      && Bit(r, 7) == Bit(v, 6) && Bit(r, 6) == Bit(v, 5) && Bit(r, 5) == Bit(v, 4) && Bit(r, 4) == Bit(v, 3)
      && Bit(r, 3) == Bit(v, 2) && Bit(r, 2) == Bit(v, 1) && Bit(r, 1) == Bit(v, 0)
      && Bit(r, 0) == (if op < 8 then Bit(v, 7) else if op < 0x18 then c else op >= 0x30)
    ensures Alu.RotateFlags(op / 8, v, c).c == Bit(v, 7)
  {
    hide Bit, FromBits, Byte, Alu.Sz53p;
    var b := Alu.RotateIn(op / 8, v, c);
    ShiftUp(v, b);
    BitsOf(Bit(v, 6), Bit(v, 5), Bit(v, 4), Bit(v, 3), Bit(v, 2), Bit(v, 1), Bit(v, 0), b);
  }

  // The odd ones (RRC, RR, SRA, SRL) move every bit down, bit 0 into carry; at the top comes bit
  // 0, the old carry, bit 7 again, nothing.
  lemma RightBits(op: byte, v: byte, c: bool)
    requires op < 0x40 && op / 8 % 2 == 1
    ensures var r := BitResult(op, v, c);
      && Bit(r, 6) == Bit(v, 7) && Bit(r, 5) == Bit(v, 6) && Bit(r, 4) == Bit(v, 5) && Bit(r, 3) == Bit(v, 4)
      && Bit(r, 2) == Bit(v, 3) && Bit(r, 1) == Bit(v, 2) && Bit(r, 0) == Bit(v, 1)
      && Bit(r, 7) == (if op < 0x10 then Bit(v, 0) else if op < 0x20 then c else op < 0x30 && Bit(v, 7))
    ensures Alu.RotateFlags(op / 8, v, c).c == Bit(v, 0)
  {
    hide Bit, FromBits, Byte, Alu.Sz53p;
    var b := Alu.RotateIn(op / 8, v, c);
    ShiftDown(v, b);
    ShiftUp(v, false);
    BitsOf(b, Bit(v, 7), Bit(v, 6), Bit(v, 5), Bit(v, 4), Bit(v, 3), Bit(v, 2), Bit(v, 1));
  }

  // RRC undoes RLC, and RR undoes RL, carry included.
  lemma RotatesUndo(v: byte, c: bool, c': bool)
    ensures BitResult(0x08, BitResult(0x00, v, c), c') == v
    ensures var r, out := BitResult(0x10, v, c), Alu.RotateFlags(2, v, c).c;
      BitResult(0x18, r, out) == v && Alu.RotateFlags(3, r, out).c == c
  {
    hide BitResult, Alu.RotateFlags, Bit;
    var r := BitResult(0x00, v, c);
    LeftBits(0x00, v, c);
    RightBits(0x08, r, c');
    EightBits(BitResult(0x08, r, c'), v);
    var r', out := BitResult(0x10, v, c), Alu.RotateFlags(2, v, c).c;
    LeftBits(0x10, v, c);
    RightBits(0x18, r', out);
    EightBits(BitResult(0x18, r', out), v);
  }

  lemma EightBits(x: byte, y: byte)
    requires Bit(x, 7) == Bit(y, 7) && Bit(x, 6) == Bit(y, 6) && Bit(x, 5) == Bit(y, 5) && Bit(x, 4) == Bit(y, 4)
    requires Bit(x, 3) == Bit(y, 3) && Bit(x, 2) == Bit(y, 2) && Bit(x, 1) == Bit(y, 1) && Bit(x, 0) == Bit(y, 0)
    ensures x == y
  {
    hide Bit, FromBits;
    Rebuild(x);
    Rebuild(y);
  }

  // As arithmetic: SLA doubles, SRL halves, and SRA halves a signed byte, rounding down; the
  // carry is what does not fit.
  lemma ShiftsCompute(v: byte, c: bool)
    ensures BitResult(0x20, v, c) + 0x100 * Num(Alu.RotateFlags(4, v, c).c) == 2 * v
    ensures 2 * Signed8(BitResult(0x28, v, c)) + Num(Alu.RotateFlags(5, v, c).c) == Signed8(v)
    ensures 2 * BitResult(0x38, v, c) + Num(Alu.RotateFlags(7, v, c).c) == v
    ensures BitResult(0x30, v, c) == BitResult(0x20, v, c) + 1
  {
    hide BitResult, Alu.RotateFlags;
    ShiftCarries(v, c);
    ShiftResults(v, c);
  }

  lemma ShiftCarries(v: byte, c: bool)
    ensures Alu.RotateFlags(4, v, c).c == (v >= 0x80)
    ensures Alu.RotateFlags(5, v, c).c == Alu.RotateFlags(7, v, c).c == (v % 2 == 1)
  {
    hide Alu.Sz53p, Alu.Rotate;
  }

  lemma ShiftResults(v: byte, c: bool)
    ensures BitResult(0x20, v, c) == 2 * v - (if v >= 0x80 then 0x100 else 0)
    ensures BitResult(0x30, v, c) == 2 * v + 1 - (if v >= 0x80 then 0x100 else 0)
    ensures BitResult(0x28, v, c) == v / 2 + (if v >= 0x80 then 0x80 else 0)
    ensures BitResult(0x38, v, c) == v / 2
  {
    hide Alu.Rotate;
    LeftShift(v, c);
    RightShift(v, c);
  }

  lemma LeftShift(v: byte, c: bool)
    ensures Alu.Rotate(4, v, c) == 2 * v - (if v >= 0x80 then 0x100 else 0)
    ensures Alu.Rotate(6, v, c) == 2 * v + 1 - (if v >= 0x80 then 0x100 else 0)
  {
  }

  lemma RightShift(v: byte, c: bool)
    ensures Alu.Rotate(5, v, c) == v / 2 + (if v >= 0x80 then 0x80 else 0)
    ensures Alu.Rotate(7, v, c) == v / 2
  {
  }

  // The flags of a rotate or shift: those of its result, and the bit that fell out.
  lemma ShiftFlags(op: byte, v: byte, c: bool)
    requires op < 0x40
    ensures var w := BitResult(op, v, c);
      Alu.RotateFlags(op / 8, v, c) ==
        Flags(w >= 0x80, w == 0, Bit(w, 5), false, Bit(w, 3), EvenParity(w), false,
              if op / 8 % 2 == 0 then Bit(v, 7) else Bit(v, 0))
  {
    hide Bit, EvenParity, Alu.Rotate;
    ShiftUp(v, false);
    ShiftDown(v, false);
  }

  // ---- SET, RES and BIT ----

  lemma SetBits(v: byte, k: nat, j: nat)
    requires k < 8 && j < 8
    ensures Bit(SetBit(v, k), j) <==> j == k || Bit(v, j)
    ensures Bit(ResetBit(v, k), j) <==> j != k && Bit(v, j)
  {
    hide Bit, And, Or;
    OrBits(v, Pow2(k), j);
    AndBits(v, 0xFF - Pow2(k), j);
    OneBit(k, j);
  }

  lemma OneBit(k: nat, j: nat)
    requires k < 8 && j < 8
    ensures Bit(Pow2(k), j) <==> j == k
    ensures Bit(0xFF - Pow2(k), j) <==> j != k
  {
    hide FromBits, Bit;
    var v := FromBits(k == 7, k == 6, k == 5, k == 4, k == 3, k == 2, k == 1, k == 0);
    var w := FromBits(k != 7, k != 6, k != 5, k != 4, k != 3, k != 2, k != 1, k != 0);
    BitsOf(k == 7, k == 6, k == 5, k == 4, k == 3, k == 2, k == 1, k == 0);
    BitsOf(k != 7, k != 6, k != 5, k != 4, k != 3, k != 2, k != 1, k != 0);
    OneIn(k);
  }

  lemma OneIn(k: nat)
    requires k < 8
    ensures FromBits(k == 7, k == 6, k == 5, k == 4, k == 3, k == 2, k == 1, k == 0) == Pow2(k)
    ensures FromBits(k != 7, k != 6, k != 5, k != 4, k != 3, k != 2, k != 1, k != 0) == 0xFF - Pow2(k)
  {
  }

  // The upper pages of CB: SET and RES change the bit the opcode names and no other ...
  lemma SetResBits(op: byte, v: byte, c: bool, j: nat)
    requires op >= 0x80 && j < 8
    ensures Bit(BitResult(op, v, c), j) ==
      if j != op / 8 % 8 then Bit(v, j) else op >= 0xC0
  {
    hide Bit, SetBit, ResetBit, Alu.Rotate;
    SetBits(v, op / 8 % 8, j);
  }

  // ... and BIT reports it in Z and P/V, bit 7 in S as well; carry stays.
  lemma BitTests(k: nat, v: byte, source: byte, f: Flags)
    requires k < 8
    ensures var g := Alu.BitFlags(k, v, source, f);
      && g.z == g.p == !Bit(v, k) && g.s == (k == 7 && Bit(v, 7)) && g.h && !g.n && g.c == f.c
      && g.y == Bit(source, 5) && g.x == Bit(source, 3)
  {
    XorFlags.SignBit(v);
    hide Bit;
  }

  // ---- Parity ----

  lemma JoinCounted(above: nat, b: bool)
    ensures BitCount(Join(above, b)) == BitCount(above) + Num(b)
  {
  }

  lemma OneBitCount(b: bool)
    ensures BitCount(Num(b)) == Num(b)
  {
    assert BitCount(1) == 1 + BitCount(0);
  }

  // The bits of v from bit k on, counted: those of the number they make.
  lemma {:induction false} CountedFrom(v: byte, k: nat)
    requires k <= 7
    ensures BitCount(v / Pow2(k)) == OnesFrom(v, k)
    decreases 7 - k
  {
    hide BitCount, Bit;
    if k == 7 {
      TopBit(v);
      OneBitCount(Bit(v, 7));
    } else {
      CountedFrom(v, k + 1);
      Halve(v, k);
      JoinCounted(v / Pow2(k + 1), Bit(v, k));
    }
  }

  function OnesFrom(v: byte, k: nat): nat
    decreases 8 - k
  {
    if k >= 8 then 0 else Num(Bit(v, k)) + OnesFrom(v, k + 1)
  }

  lemma {:induction false} XorOnes(x: byte, y: byte, k: nat)
    requires k <= 8
    ensures OnesFrom(Xor(x, y), k) == OnesFrom(x, k) + OnesFrom(y, k) - 2 * OnesFrom(And(x, y), k)
    decreases 8 - k
  {
    hide Bit, Xor, And;
    if k < 8 {
      XorOnes(x, y, k + 1);
      XorBits(x, y, k);
      AndBits(x, y, k);
    }
  }

  // An exclusive or has the bits of both less twice those in common ...
  lemma XorCount(x: byte, y: byte)
    ensures BitCount(Xor(x, y)) == BitCount(x) + BitCount(y) - 2 * BitCount(And(x, y))
  {
    hide BitCount, OnesFrom, Xor, And;
    XorOnes(x, y, 0);
    CountedFrom(x, 0);
    CountedFrom(y, 0);
    CountedFrom(Xor(x, y), 0);
    CountedFrom(And(x, y), 0);
  }

  // ... so that its parity is even when their parities agree.
  lemma XorParity(x: byte, y: byte)
    ensures EvenParity(Xor(x, y)) <==> EvenParity(x) == EvenParity(y)
  {
    hide Xor, And, BitCount;
    XorCount(x, y);
  }

  // The flags of a port transfer: B counted down gives S, Z and bits 5 and 3; N is the sign of
  // the byte; H and C say that the byte and the low address (or C and the step) pass FFh, and
  // P/V that the low three bits of that sum and B agree in parity.
  lemma PortFlags(v: byte, sum: nat, left: byte)
    ensures var f := Alu.BlockIoFlags(v, sum, left);
      && f.s == (left >= 0x80) && f.z == (left == 0) && f.y == Bit(left, 5) && f.x == Bit(left, 3)
      && f.h == f.c == (sum > 0xFF) && f.n == (v >= 0x80)
      && f.p == (EvenParity(sum % 8) == EvenParity(left))
  {
    hide Bit, Xor, EvenParity;
    XorParity(sum % 8, left);
  }

  // Those of a block move: P/V says that the counter has not run out, bits 5 and 3 are bits 1 and
  // 3 of the byte plus A, S, Z and C stay.
  lemma MoveFlags(v: byte, a: byte, left: word, f: Flags)
    ensures var n := Byte(v + a);
      Alu.BlockLdFlags(v, a, left, f) ==
        f.(p := left != 0, h := false, n := false, y := n % 4 >= 2, x := n % 0x10 >= 8)
  {
    hide Bit, Byte;
    LowBits(Byte(v + a));
  }

  lemma LowBits(x: byte)
    ensures Bit(x, 1) <==> x % 4 >= 2
    ensures Bit(x, 3) <==> x % 0x10 >= 8
  {
    hide Bit;
    Halve(x, 1);
    Halve(x, 3);
    assert x % 4 == 2 * Num(Bit(x, 1)) + x % 2;
    assert x % 0x10 == 8 * Num(Bit(x, 3)) + x % 8;
  }
}
