/** The base T-state table of src/timing.cpp, one row of sixteen opcodes at a time. */
module Timing {
  import opened Words

  // The entry of a row in the given column.
  function Column(k: nat, t0: nat, t1: nat, t2: nat, t3: nat, t4: nat, t5: nat, t6: nat, t7: nat,
                  t8: nat, t9: nat, ta: nat, tb: nat, tc: nat, td: nat, te: nat, tf: nat): nat
  {
    match k
    case 0 => t0 case 1 => t1 case 2 => t2 case 3 => t3 case 4 => t4 case 5 => t5 case 6 => t6 case 7 => t7
    case 8 => t8 case 9 => t9 case 10 => ta case 11 => tb case 12 => tc case 13 => td case 14 => te case _ => tf
  }

  function BaseTFor(op: byte): nat {
    match op / 0x10
    case 0 => Column(op % 0x10, 4, 10, 7, 6, 4, 4, 7, 4, 4, 11, 7, 6, 4, 4, 7, 4)
    case 1 => Column(op % 0x10, 8, 10, 7, 6, 4, 4, 7, 4, 12, 11, 7, 6, 4, 4, 7, 4)
    case 2 => Column(op % 0x10, 7, 10, 16, 6, 4, 4, 7, 4, 7, 11, 16, 6, 4, 4, 7, 4)
    case 3 => Column(op % 0x10, 7, 10, 13, 6, 11, 11, 10, 4, 7, 11, 13, 6, 4, 4, 7, 4)
    case 7 => Column(op % 0x10, 7, 7, 7, 7, 7, 7, 4, 7, 4, 4, 4, 4, 4, 4, 7, 4)
    case 0xC => Column(op % 0x10, 5, 10, 10, 10, 10, 11, 7, 11, 5, 10, 10, 0, 10, 17, 7, 11)
    case 0xD => Column(op % 0x10, 5, 10, 10, 11, 10, 11, 7, 11, 5, 4, 10, 11, 10, 0, 7, 11)
    case 0xE => Column(op % 0x10, 5, 10, 10, 19, 10, 11, 7, 11, 5, 4, 10, 4, 10, 0, 7, 11)
    case 0xF => Column(op % 0x10, 5, 10, 10, 4, 10, 11, 7, 11, 5, 6, 10, 4, 10, 0, 7, 11)
    // LD r,r' and arithmetic: rows 4 to 6 and 8 to B are alike
    case _ => Column(op % 0x10, 4, 4, 4, 4, 4, 4, 7, 4, 4, 4, 4, 4, 4, 4, 7, 4)
  }

  // Between 0x40 and 0xBF only a memory operand costs more than the fetch; HALT has none.
  lemma MiddleTiming(op: byte)
    requires 0x40 <= op < 0xC0
    ensures BaseTFor(op) ==
      if op != 0x76 && (op % 8 == 6 || (op < 0x80 && op / 8 % 8 == 6)) then 7 else 4
  {
    MiddleRow(op / 0x10, op % 0x10);
  }

  lemma MiddleRow(row: nat, column: nat)
    requires 4 <= row < 0xC && column < 0x10
    ensures BaseTFor(0x10 * row + column) ==
      if (row, column) != (7, 6) && (column % 8 == 6 || (row == 7 && column < 8)) then 7 else 4
  {
  }
}
