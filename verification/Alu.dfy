/**
 Arithmetic and flag results as UM0080 defines them: carries are overflows of the sum, half
 carries are overflows of the low nibble, P/V is "the signed result is out of range".
 */
module Alu {
  import opened Words
  import opened Registers

  // ---- The lookups of src/flags.cpp ----

  function Sz53(v: byte): Flags {
    Flags(v >= 0x80, v == 0, Bit(v, 5), false, Bit(v, 3), false, false, false)
  }

  function Sz53p(v: byte): Flags { Sz53(v).(p := EvenParity(v)) }

  // ---- 8-bit arithmetic ----

  predicate Fits8(x: int) { -0x80 <= x <= 0x7F }

  function AddResult(a: byte, v: byte, c: bool): byte { Byte(a + v + Num(c)) }

  function AddFlags(a: byte, v: byte, c: bool): Flags {
    Sz53(AddResult(a, v, c)).(
      h := a % 0x10 + v % 0x10 + Num(c) > 0xF,
      p := !Fits8(Signed8(a) + Signed8(v) + Num(c)),
      c := a + v + Num(c) > 0xFF)
  }

  function SubResult(a: byte, v: byte, c: bool): byte { Byte(a - v - Num(c)) }

  function SubFlags(a: byte, v: byte, c: bool): Flags {
    Sz53(SubResult(a, v, c)).(
      h := a % 0x10 < v % 0x10 + Num(c),
      p := !Fits8(Signed8(a) - Signed8(v) - Num(c)),
      n := true,
      c := a < v + Num(c))
  }

  // CP takes bits 5 and 3 from the operand.
  function CpFlags(a: byte, v: byte): Flags { SubFlags(a, v, false).(y := Bit(v, 5), x := Bit(v, 3)) }

  function IncFlags(v: byte, f: Flags): Flags {
    Sz53(Byte(v + 1)).(h := v % 0x10 == 0xF, p := v == 0x7F, c := f.c)
  }

  function DecFlags(v: byte, f: Flags): Flags {
    Sz53(Byte(v - 1)).(h := v % 0x10 == 0, p := v == 0x80, n := true, c := f.c)
  }

  function AndFlags(r: byte): Flags { Sz53p(r).(h := true) }

  // ---- DAA ----

  function DaaCorrection(a: byte, f: Flags): byte {
    (if f.h || a % 0x10 > 9 then 6 else 0) + (if f.c || a > 0x99 then 0x60 else 0)
  }

  function DaaResult(a: byte, f: Flags): byte {
    Byte(if f.n then a - DaaCorrection(a, f) else a + DaaCorrection(a, f))
  }

  // H reports the borrow or carry out of the low nibble of the correction.
  function DaaFlags(a: byte, f: Flags): Flags {
    Sz53p(DaaResult(a, f)).(
      h := if f.n then f.h && a % 0x10 < 6 else a % 0x10 > 9,
      n := f.n,
      c := f.c || a > 0x99)
  }

  // ---- 16-bit arithmetic ----

  predicate Fits16(x: int) { -0x8000 <= x <= 0x7FFF }

  function Add16Flags(a: word, v: word, f: Flags): Flags {
    var r := Word(a + v);
    f.(y := Bit(Hi(r), 5), h := a % 0x1000 + v % 0x1000 > 0xFFF, x := Bit(Hi(r), 3), n := false, c := a + v > 0xFFFF)
  }

  function Adc16Result(a: word, v: word, c: bool): word { Word(a + v + Num(c)) }

  function Adc16Flags(a: word, v: word, c: bool): Flags {
    var r := Adc16Result(a, v, c);
    Flags(
      s := r >= 0x8000, z := r == 0, y := Bit(Hi(r), 5),
      h := a % 0x1000 + v % 0x1000 + Num(c) > 0xFFF, x := Bit(Hi(r), 3),
      p := !Fits16(Signed16(a) + Signed16(v) + Num(c)),
      n := false, c := a + v + Num(c) > 0xFFFF)
  }

  function Sbc16Result(a: word, v: word, c: bool): word { Word(a - v - Num(c)) }

  function Sbc16Flags(a: word, v: word, c: bool): Flags {
    var r := Sbc16Result(a, v, c);
    Flags(
      s := r >= 0x8000, z := r == 0, y := Bit(Hi(r), 5),
      h := a % 0x1000 < v % 0x1000 + Num(c), x := Bit(Hi(r), 3),
      p := !Fits16(Signed16(a) - Signed16(v) - Num(c)),
      n := true, c := a < v + Num(c))
  }

  // ---- Rotates and shifts, numbered as in the CB opcode: RLC RRC RL RR SLA SRA SLL SRL ----

  // The bit that falls out into carry.
  function RotateCarry(k: nat, v: byte): bool { if k % 2 == 0 then v >= 0x80 else v % 2 == 1 }

  // The bit that is shifted in.
  function RotateIn(k: nat, v: byte, c: bool): bool {
    match k
    case 0 => v >= 0x80
    case 1 => v % 2 == 1
    case 2 => c
    case 3 => c
    case 5 => v >= 0x80
    case 6 => true
    case _ => false
  }

  function Rotate(k: nat, v: byte, c: bool): byte {
    if k % 2 == 0 then Byte(2 * v) + Num(RotateIn(k, v, c)) else v / 2 + 0x80 * Num(RotateIn(k, v, c))
  }

  function RotateFlags(k: nat, v: byte, c: bool): Flags { Sz53p(Rotate(k, v, c)).(c := RotateCarry(k, v)) }

  // RLCA, RRCA, RLA and RRA leave S, Z and P/V alone.
  function RotateAFlags(k: nat, a: byte, f: Flags): Flags {
    var r := Rotate(k, a, f.c);
    f.(y := Bit(r, 5), h := false, x := Bit(r, 3), n := false, c := RotateCarry(k, a))
  }

  function CplFlags(a: byte, f: Flags): Flags { f.(y := !Bit(a, 5), h := true, x := !Bit(a, 3), n := true) }

  // SCF and CCF: bits 5 and 3 are (F ^ Q) | A.
  function ScfFlags(a: byte, f: Flags, q: Flags): Flags {
    f.(y := f.y != q.y || Bit(a, 5), h := false, x := f.x != q.x || Bit(a, 3), n := false, c := true)
  }

  function CcfFlags(a: byte, f: Flags, q: Flags): Flags {
    f.(y := f.y != q.y || Bit(a, 5), h := f.c, x := f.x != q.x || Bit(a, 3), n := false, c := !f.c)
  }

  // BIT k; source supplies bits 5 and 3.
  function BitFlags(k: nat, v: byte, source: byte, f: Flags): Flags
    requires k < 8
  {
    Flags(s := k == 7 && v >= 0x80, z := !Bit(v, k), y := Bit(source, 5), h := true, x := Bit(source, 3),
          p := !Bit(v, k), n := false, c := f.c)
  }

  function NegFlags(a: byte): Flags { SubFlags(0, a, false) }

  // ---- Block instructions ----

  // LDI and friends: n is the byte moved plus A; left is BC afterwards.
  function BlockLdFlags(v: byte, a: byte, left: word, f: Flags): Flags {
    var n := Byte(v + a);
    Flags(s := f.s, z := f.z, y := Bit(n, 1), h := false, x := Bit(n, 3), p := left != 0, n := false, c := f.c)
  }

  function BlockCpFlags(v: byte, a: byte, left: word, f: Flags): Flags {
    var g := SubFlags(a, v, false);
    var n := Byte(SubResult(a, v, false) - Num(g.h));
    g.(y := Bit(n, 1), x := Bit(n, 3), p := left != 0, c := f.c)
  }

  // sum is the byte transferred plus C+-1 (input) or the new L (output); b is B afterwards.
  function BlockIoFlags(v: byte, sum: nat, b: byte): Flags {
    Sz53(b).(h := sum > 0xFF, p := EvenParity(Xor(sum % 8, b)), n := v >= 0x80, c := sum > 0xFF)
  }
}
