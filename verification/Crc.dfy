/**
  The CRC of net_crc.cpp: a loop over two 256-byte tables.
  It refines the bit-serial register of section 6.2.2 of the MODBUS over Serial Line Specification and
  Implementation Guide V1.02; appending it leaves a zero residue, and every burst of at most 16 bits changes it.
 */
module Crc {

  // ---------- The bit-serial register ----------

  /** One shift of the register: when a one falls out, the polynomial 0xA001 is subtracted. */
  function Shift(c: bv16): bv16 {
    if c & 1 == 1 then (c >> 1) ^ 0xA001 else c >> 1
  }

  function EightShifts(c: bv16): bv16 {
    Shift(Shift(Shift(Shift(Shift(Shift(Shift(Shift(c))))))))
  }

  function AddByte(c: bv16, m: bv8): bv16 {
    c ^ (m as bv16)
  }

  /** Section 6.2.2: exclusive-or each byte into the low byte of the register, then shift eight times. */
  function GuideCrc(c: bv16, msg: seq<bv8>): bv16
    decreases |msg|
  {
    if msg == [] then c else GuideCrc(EightShifts(AddByte(c, msg[0])), msg[1..])
  }

  function SwapBytes(c: bv16): bv16 {
    (c << 8) | (c >> 8)
  }

  /** The value `get_crc` returns: the low byte of the register is the high byte of the result. */
  function CrcOf(msg: seq<bv8>): bv16 {
    SwapBytes(GuideCrc(0xFFFF, msg))
  }

  // ---------- The two tables, written as sixteen rows of sixteen ----------

  /** `auchCRCHi` */
  function TableHi(i: bv8): bv8 {
    match i >> 4
    case 0x0 => (match i & 0xF
      case 0x0 => 0x00 case 0x1 => 0xC1 case 0x2 => 0x81 case 0x3 => 0x40 case 0x4 => 0x01 case 0x5 => 0xC0 case 0x6 => 0x80 case 0x7 => 0x41
      case 0x8 => 0x01 case 0x9 => 0xC0 case 0xA => 0x80 case 0xB => 0x41 case 0xC => 0x00 case 0xD => 0xC1 case 0xE => 0x81 case _ => 0x40)
    case 0x1 => (match i & 0xF
      case 0x0 => 0x01 case 0x1 => 0xC0 case 0x2 => 0x80 case 0x3 => 0x41 case 0x4 => 0x00 case 0x5 => 0xC1 case 0x6 => 0x81 case 0x7 => 0x40
      case 0x8 => 0x00 case 0x9 => 0xC1 case 0xA => 0x81 case 0xB => 0x40 case 0xC => 0x01 case 0xD => 0xC0 case 0xE => 0x80 case _ => 0x41)
    case 0x2 => (match i & 0xF
      case 0x0 => 0x01 case 0x1 => 0xC0 case 0x2 => 0x80 case 0x3 => 0x41 case 0x4 => 0x00 case 0x5 => 0xC1 case 0x6 => 0x81 case 0x7 => 0x40
      case 0x8 => 0x00 case 0x9 => 0xC1 case 0xA => 0x81 case 0xB => 0x40 case 0xC => 0x01 case 0xD => 0xC0 case 0xE => 0x80 case _ => 0x41)
    case 0x3 => (match i & 0xF
      case 0x0 => 0x00 case 0x1 => 0xC1 case 0x2 => 0x81 case 0x3 => 0x40 case 0x4 => 0x01 case 0x5 => 0xC0 case 0x6 => 0x80 case 0x7 => 0x41
      case 0x8 => 0x01 case 0x9 => 0xC0 case 0xA => 0x80 case 0xB => 0x41 case 0xC => 0x00 case 0xD => 0xC1 case 0xE => 0x81 case _ => 0x40)
    case 0x4 => (match i & 0xF
      case 0x0 => 0x01 case 0x1 => 0xC0 case 0x2 => 0x80 case 0x3 => 0x41 case 0x4 => 0x00 case 0x5 => 0xC1 case 0x6 => 0x81 case 0x7 => 0x40
      case 0x8 => 0x00 case 0x9 => 0xC1 case 0xA => 0x81 case 0xB => 0x40 case 0xC => 0x01 case 0xD => 0xC0 case 0xE => 0x80 case _ => 0x41)
    case 0x5 => (match i & 0xF
      case 0x0 => 0x00 case 0x1 => 0xC1 case 0x2 => 0x81 case 0x3 => 0x40 case 0x4 => 0x01 case 0x5 => 0xC0 case 0x6 => 0x80 case 0x7 => 0x41
      case 0x8 => 0x01 case 0x9 => 0xC0 case 0xA => 0x80 case 0xB => 0x41 case 0xC => 0x00 case 0xD => 0xC1 case 0xE => 0x81 case _ => 0x40)
    case 0x6 => (match i & 0xF
      case 0x0 => 0x00 case 0x1 => 0xC1 case 0x2 => 0x81 case 0x3 => 0x40 case 0x4 => 0x01 case 0x5 => 0xC0 case 0x6 => 0x80 case 0x7 => 0x41
      case 0x8 => 0x01 case 0x9 => 0xC0 case 0xA => 0x80 case 0xB => 0x41 case 0xC => 0x00 case 0xD => 0xC1 case 0xE => 0x81 case _ => 0x40)
    case 0x7 => (match i & 0xF
      case 0x0 => 0x01 case 0x1 => 0xC0 case 0x2 => 0x80 case 0x3 => 0x41 case 0x4 => 0x00 case 0x5 => 0xC1 case 0x6 => 0x81 case 0x7 => 0x40
      case 0x8 => 0x00 case 0x9 => 0xC1 case 0xA => 0x81 case 0xB => 0x40 case 0xC => 0x01 case 0xD => 0xC0 case 0xE => 0x80 case _ => 0x41)
    case 0x8 => (match i & 0xF
      case 0x0 => 0x01 case 0x1 => 0xC0 case 0x2 => 0x80 case 0x3 => 0x41 case 0x4 => 0x00 case 0x5 => 0xC1 case 0x6 => 0x81 case 0x7 => 0x40
      case 0x8 => 0x00 case 0x9 => 0xC1 case 0xA => 0x81 case 0xB => 0x40 case 0xC => 0x01 case 0xD => 0xC0 case 0xE => 0x80 case _ => 0x41)
    case 0x9 => (match i & 0xF
      case 0x0 => 0x00 case 0x1 => 0xC1 case 0x2 => 0x81 case 0x3 => 0x40 case 0x4 => 0x01 case 0x5 => 0xC0 case 0x6 => 0x80 case 0x7 => 0x41
      case 0x8 => 0x01 case 0x9 => 0xC0 case 0xA => 0x80 case 0xB => 0x41 case 0xC => 0x00 case 0xD => 0xC1 case 0xE => 0x81 case _ => 0x40)
    case 0xA => (match i & 0xF
      case 0x0 => 0x00 case 0x1 => 0xC1 case 0x2 => 0x81 case 0x3 => 0x40 case 0x4 => 0x01 case 0x5 => 0xC0 case 0x6 => 0x80 case 0x7 => 0x41
      case 0x8 => 0x01 case 0x9 => 0xC0 case 0xA => 0x80 case 0xB => 0x41 case 0xC => 0x00 case 0xD => 0xC1 case 0xE => 0x81 case _ => 0x40)
    case 0xB => (match i & 0xF
      case 0x0 => 0x01 case 0x1 => 0xC0 case 0x2 => 0x80 case 0x3 => 0x41 case 0x4 => 0x00 case 0x5 => 0xC1 case 0x6 => 0x81 case 0x7 => 0x40
      case 0x8 => 0x00 case 0x9 => 0xC1 case 0xA => 0x81 case 0xB => 0x40 case 0xC => 0x01 case 0xD => 0xC0 case 0xE => 0x80 case _ => 0x41)
    case 0xC => (match i & 0xF
      case 0x0 => 0x00 case 0x1 => 0xC1 case 0x2 => 0x81 case 0x3 => 0x40 case 0x4 => 0x01 case 0x5 => 0xC0 case 0x6 => 0x80 case 0x7 => 0x41
      case 0x8 => 0x01 case 0x9 => 0xC0 case 0xA => 0x80 case 0xB => 0x41 case 0xC => 0x00 case 0xD => 0xC1 case 0xE => 0x81 case _ => 0x40)
    case 0xD => (match i & 0xF
      case 0x0 => 0x01 case 0x1 => 0xC0 case 0x2 => 0x80 case 0x3 => 0x41 case 0x4 => 0x00 case 0x5 => 0xC1 case 0x6 => 0x81 case 0x7 => 0x40
      case 0x8 => 0x00 case 0x9 => 0xC1 case 0xA => 0x81 case 0xB => 0x40 case 0xC => 0x01 case 0xD => 0xC0 case 0xE => 0x80 case _ => 0x41)
    case 0xE => (match i & 0xF
      case 0x0 => 0x01 case 0x1 => 0xC0 case 0x2 => 0x80 case 0x3 => 0x41 case 0x4 => 0x00 case 0x5 => 0xC1 case 0x6 => 0x81 case 0x7 => 0x40
      case 0x8 => 0x00 case 0x9 => 0xC1 case 0xA => 0x81 case 0xB => 0x40 case 0xC => 0x01 case 0xD => 0xC0 case 0xE => 0x80 case _ => 0x41)
    case _ => (match i & 0xF
      case 0x0 => 0x00 case 0x1 => 0xC1 case 0x2 => 0x81 case 0x3 => 0x40 case 0x4 => 0x01 case 0x5 => 0xC0 case 0x6 => 0x80 case 0x7 => 0x41
      case 0x8 => 0x01 case 0x9 => 0xC0 case 0xA => 0x80 case 0xB => 0x41 case 0xC => 0x00 case 0xD => 0xC1 case 0xE => 0x81 case _ => 0x40)
  }

  /** `auchCRCLo` */
  function TableLo(i: bv8): bv8 {
    match i >> 4
    case 0x0 => (match i & 0xF
      case 0x0 => 0x00 case 0x1 => 0xC0 case 0x2 => 0xC1 case 0x3 => 0x01 case 0x4 => 0xC3 case 0x5 => 0x03 case 0x6 => 0x02 case 0x7 => 0xC2
      case 0x8 => 0xC6 case 0x9 => 0x06 case 0xA => 0x07 case 0xB => 0xC7 case 0xC => 0x05 case 0xD => 0xC5 case 0xE => 0xC4 case _ => 0x04)
    case 0x1 => (match i & 0xF
      case 0x0 => 0xCC case 0x1 => 0x0C case 0x2 => 0x0D case 0x3 => 0xCD case 0x4 => 0x0F case 0x5 => 0xCF case 0x6 => 0xCE case 0x7 => 0x0E
      case 0x8 => 0x0A case 0x9 => 0xCA case 0xA => 0xCB case 0xB => 0x0B case 0xC => 0xC9 case 0xD => 0x09 case 0xE => 0x08 case _ => 0xC8)
    case 0x2 => (match i & 0xF
      case 0x0 => 0xD8 case 0x1 => 0x18 case 0x2 => 0x19 case 0x3 => 0xD9 case 0x4 => 0x1B case 0x5 => 0xDB case 0x6 => 0xDA case 0x7 => 0x1A
      case 0x8 => 0x1E case 0x9 => 0xDE case 0xA => 0xDF case 0xB => 0x1F case 0xC => 0xDD case 0xD => 0x1D case 0xE => 0x1C case _ => 0xDC)
    case 0x3 => (match i & 0xF
      case 0x0 => 0x14 case 0x1 => 0xD4 case 0x2 => 0xD5 case 0x3 => 0x15 case 0x4 => 0xD7 case 0x5 => 0x17 case 0x6 => 0x16 case 0x7 => 0xD6
      case 0x8 => 0xD2 case 0x9 => 0x12 case 0xA => 0x13 case 0xB => 0xD3 case 0xC => 0x11 case 0xD => 0xD1 case 0xE => 0xD0 case _ => 0x10)
    case 0x4 => (match i & 0xF
      case 0x0 => 0xF0 case 0x1 => 0x30 case 0x2 => 0x31 case 0x3 => 0xF1 case 0x4 => 0x33 case 0x5 => 0xF3 case 0x6 => 0xF2 case 0x7 => 0x32
      case 0x8 => 0x36 case 0x9 => 0xF6 case 0xA => 0xF7 case 0xB => 0x37 case 0xC => 0xF5 case 0xD => 0x35 case 0xE => 0x34 case _ => 0xF4)
    case 0x5 => (match i & 0xF
      case 0x0 => 0x3C case 0x1 => 0xFC case 0x2 => 0xFD case 0x3 => 0x3D case 0x4 => 0xFF case 0x5 => 0x3F case 0x6 => 0x3E case 0x7 => 0xFE
      case 0x8 => 0xFA case 0x9 => 0x3A case 0xA => 0x3B case 0xB => 0xFB case 0xC => 0x39 case 0xD => 0xF9 case 0xE => 0xF8 case _ => 0x38)
    case 0x6 => (match i & 0xF
      case 0x0 => 0x28 case 0x1 => 0xE8 case 0x2 => 0xE9 case 0x3 => 0x29 case 0x4 => 0xEB case 0x5 => 0x2B case 0x6 => 0x2A case 0x7 => 0xEA
      case 0x8 => 0xEE case 0x9 => 0x2E case 0xA => 0x2F case 0xB => 0xEF case 0xC => 0x2D case 0xD => 0xED case 0xE => 0xEC case _ => 0x2C)
    case 0x7 => (match i & 0xF
      case 0x0 => 0xE4 case 0x1 => 0x24 case 0x2 => 0x25 case 0x3 => 0xE5 case 0x4 => 0x27 case 0x5 => 0xE7 case 0x6 => 0xE6 case 0x7 => 0x26
      case 0x8 => 0x22 case 0x9 => 0xE2 case 0xA => 0xE3 case 0xB => 0x23 case 0xC => 0xE1 case 0xD => 0x21 case 0xE => 0x20 case _ => 0xE0)
    case 0x8 => (match i & 0xF
      case 0x0 => 0xA0 case 0x1 => 0x60 case 0x2 => 0x61 case 0x3 => 0xA1 case 0x4 => 0x63 case 0x5 => 0xA3 case 0x6 => 0xA2 case 0x7 => 0x62
      case 0x8 => 0x66 case 0x9 => 0xA6 case 0xA => 0xA7 case 0xB => 0x67 case 0xC => 0xA5 case 0xD => 0x65 case 0xE => 0x64 case _ => 0xA4)
    case 0x9 => (match i & 0xF
      case 0x0 => 0x6C case 0x1 => 0xAC case 0x2 => 0xAD case 0x3 => 0x6D case 0x4 => 0xAF case 0x5 => 0x6F case 0x6 => 0x6E case 0x7 => 0xAE
      case 0x8 => 0xAA case 0x9 => 0x6A case 0xA => 0x6B case 0xB => 0xAB case 0xC => 0x69 case 0xD => 0xA9 case 0xE => 0xA8 case _ => 0x68)
    case 0xA => (match i & 0xF
      case 0x0 => 0x78 case 0x1 => 0xB8 case 0x2 => 0xB9 case 0x3 => 0x79 case 0x4 => 0xBB case 0x5 => 0x7B case 0x6 => 0x7A case 0x7 => 0xBA
      case 0x8 => 0xBE case 0x9 => 0x7E case 0xA => 0x7F case 0xB => 0xBF case 0xC => 0x7D case 0xD => 0xBD case 0xE => 0xBC case _ => 0x7C)
    case 0xB => (match i & 0xF
      case 0x0 => 0xB4 case 0x1 => 0x74 case 0x2 => 0x75 case 0x3 => 0xB5 case 0x4 => 0x77 case 0x5 => 0xB7 case 0x6 => 0xB6 case 0x7 => 0x76
      case 0x8 => 0x72 case 0x9 => 0xB2 case 0xA => 0xB3 case 0xB => 0x73 case 0xC => 0xB1 case 0xD => 0x71 case 0xE => 0x70 case _ => 0xB0)
    case 0xC => (match i & 0xF
      case 0x0 => 0x50 case 0x1 => 0x90 case 0x2 => 0x91 case 0x3 => 0x51 case 0x4 => 0x93 case 0x5 => 0x53 case 0x6 => 0x52 case 0x7 => 0x92
      case 0x8 => 0x96 case 0x9 => 0x56 case 0xA => 0x57 case 0xB => 0x97 case 0xC => 0x55 case 0xD => 0x95 case 0xE => 0x94 case _ => 0x54)
    case 0xD => (match i & 0xF
      case 0x0 => 0x9C case 0x1 => 0x5C case 0x2 => 0x5D case 0x3 => 0x9D case 0x4 => 0x5F case 0x5 => 0x9F case 0x6 => 0x9E case 0x7 => 0x5E
      case 0x8 => 0x5A case 0x9 => 0x9A case 0xA => 0x9B case 0xB => 0x5B case 0xC => 0x99 case 0xD => 0x59 case 0xE => 0x58 case _ => 0x98)
    case 0xE => (match i & 0xF
      case 0x0 => 0x88 case 0x1 => 0x48 case 0x2 => 0x49 case 0x3 => 0x89 case 0x4 => 0x4B case 0x5 => 0x8B case 0x6 => 0x8A case 0x7 => 0x4A
      case 0x8 => 0x4E case 0x9 => 0x8E case 0xA => 0x8F case 0xB => 0x4F case 0xC => 0x8D case 0xD => 0x4D case 0xE => 0x4C case _ => 0x8C)
    case _ => (match i & 0xF
      case 0x0 => 0x44 case 0x1 => 0x84 case 0x2 => 0x85 case 0x3 => 0x45 case 0x4 => 0x87 case 0x5 => 0x47 case 0x6 => 0x46 case 0x7 => 0x86
      case 0x8 => 0x82 case 0x9 => 0x42 case 0xA => 0x43 case 0xB => 0x83 case 0xC => 0x41 case 0xD => 0x81 case 0xE => 0x80 case _ => 0x40)
  }

  /** The two entries of index `i` are the register that eight shifts make of `i`. */
  predicate EntryIsEightShifts(i: bv8) {
    Register(TableHi(i), TableLo(i)) == EightShifts(i as bv16)
  }

  lemma TablesHoldEightShifts(i: bv8)
    ensures EntryIsEightShifts(i)
  {
    Quarter0(i);
    Quarter1(i);
    Quarter2(i);
    Quarter3(i);
  }

  lemma Quarter0(i: bv8)
    ensures i < 0x40 ==> EntryIsEightShifts(i)
  {
  }

  lemma Quarter1(i: bv8)
    ensures 0x40 <= i < 0x80 ==> EntryIsEightShifts(i)
  {
  }

  lemma Quarter2(i: bv8)
    ensures 0x80 <= i < 0xC0 ==> EntryIsEightShifts(i)
  {
  }

  lemma Quarter3(i: bv8)
    ensures 0xC0 <= i ==> EntryIsEightShifts(i)
  {
  }

  // ---------- The shift is linear and injective ----------

  function Xor(a: bv16, b: bv16): bv16 {
    a ^ b
  }

  lemma ShiftXor(a: bv16, b: bv16)
    ensures Shift(Xor(a, b)) == Xor(Shift(a), Shift(b))
  {
    XorParts(a, b);
    LowBit(a);
    LowBit(b);
    XorMask(a >> 1, b >> 1, 0xA001);
  }

  lemma XorParts(a: bv16, b: bv16)
    ensures (a ^ b) & 1 == (a & 1) ^ (b & 1)
    ensures (a ^ b) >> 1 == (a >> 1) ^ (b >> 1)
  {
  }

  lemma LowBit(a: bv16)
    ensures a & 1 == 0 || a & 1 == 1
  {
  }

  lemma XorMask(x: bv16, y: bv16, p: bv16)
    ensures (x ^ p) ^ (y ^ p) == x ^ y
    ensures (x ^ p) ^ y == (x ^ y) ^ p == x ^ (y ^ p)
  {
  }

  lemma EightShiftsXor(a: bv16, b: bv16)
    ensures EightShifts(Xor(a, b)) == Xor(EightShifts(a), EightShifts(b))
  {
    ShiftsXor(a, b, 8);
    EightAreShifts(a);
    EightAreShifts(b);
    EightAreShifts(Xor(a, b));
  }

  function Shifts(c: bv16, n: nat): bv16
    decreases n
  {
    if n == 0 then c else Shifts(Shift(c), n - 1)
  }

  lemma EightAreShifts(c: bv16)
    ensures Shifts(c, 8) == EightShifts(c)
  {
  }

  lemma {:induction false} ShiftsXor(a: bv16, b: bv16, n: nat)
    ensures Shifts(Xor(a, b), n) == Xor(Shifts(a, n), Shifts(b, n))
    decreases n
  {
    if n > 0 {
      ShiftXor(a, b);
      ShiftsXor(Shift(a), Shift(b), n - 1);
    }
  }

  lemma ShiftInjective(a: bv16, b: bv16)
    requires Shift(a) == Shift(b)
    ensures a == b
  {
  }

  lemma {:induction false} ShiftsInjective(a: bv16, b: bv16, n: nat)
    requires Shifts(a, n) == Shifts(b, n)
    ensures a == b
    decreases n
  {
    if n > 0 {
      ShiftsInjective(Shift(a), Shift(b), n - 1);
      ShiftInjective(a, b);
    }
  }

  // ---------- The table loop refines the register ----------

  /** The register whose low byte is `hi` and whose high byte is `lo`. */
  function Register(hi: bv8, lo: bv8): bv16 {
    ((lo as bv16) << 8) | (hi as bv16)
  }

  function NextHi(hi: bv8, lo: bv8, m: bv8): bv8 {
    lo ^ TableHi(hi ^ m)
  }

  function NextLo(hi: bv8, lo: bv8, m: bv8): bv8 {
    TableLo(hi ^ m)
  }

  /** The loop of `get_crc` as a recursion over the bytes that are left. */
  function TableCrc(hi: bv8, lo: bv8, msg: seq<bv8>): bv16
    decreases |msg|
  {
    if msg == [] then ((hi as bv16) << 8) | (lo as bv16)
    else TableCrc(NextHi(hi, lo, msg[0]), NextLo(hi, lo, msg[0]), msg[1..])
  }

  method GetCrc(msg: seq<bv8>) returns (crc: bv16)
    ensures crc == CrcOf(msg)
  {
    hide TableHi, TableLo;
    var crcHi: bv8, crcLo: bv8 := 0xFF, 0xFF;
    var at: nat, len: nat := 0, |msg|;
    while len != 0
      invariant at + len == |msg|
      invariant TableCrc(crcHi, crcLo, msg[at..]) == TableCrc(0xFF, 0xFF, msg)
    {
      len := len - 1;
      var index := crcHi ^ msg[at];
      assert msg[at..][1..] == msg[at + 1..];
      at := at + 1;
      crcHi := crcLo ^ TableHi(index);
      crcLo := TableLo(index);
    }
    crc := ((crcHi as bv16) << 8) | (crcLo as bv16);
    TableCrcIsSerial(0xFF, 0xFF, msg);
  }

  lemma {:induction false} TableCrcIsSerial(hi: bv8, lo: bv8, msg: seq<bv8>)
    ensures TableCrc(hi, lo, msg) == SwapBytes(GuideCrc(Register(hi, lo), msg))
    decreases |msg|
  {
    if msg == [] {
      PackedIsSwapped(hi, lo);
    } else {
      TableStep(hi, lo, msg[0]);
      TableCrcIsSerial(NextHi(hi, lo, msg[0]), NextLo(hi, lo, msg[0]), msg[1..]);
    }
  }

  lemma PackedIsSwapped(hi: bv8, lo: bv8)
    ensures ((hi as bv16) << 8) | (lo as bv16) == SwapBytes(Register(hi, lo))
  {
  }

  lemma TableStep(hi: bv8, lo: bv8, m: bv8)
    ensures Register(NextHi(hi, lo, m), NextLo(hi, lo, m)) == EightShifts(AddByte(Register(hi, lo), m))
  {
    SplitRegister(hi, lo, m);
    TableStepOnIndex(lo, hi ^ m);
    JoinRegister(lo, TableHi(hi ^ m), TableLo(hi ^ m));
  }

  lemma TableStepOnIndex(lo: bv8, i: bv8)
    ensures EightShifts(Xor(High(lo), Low(i))) == Xor(Low(lo), Register(TableHi(i), TableLo(i)))
  {
    EightShiftsXor(High(lo), Low(i));
    HighByteFallsThrough(lo);
    TablesHoldEightShifts(i);
  }

  function High(b: bv8): bv16 {
    (b as bv16) << 8
  }

  function Low(b: bv8): bv16 {
    b as bv16
  }

  lemma SplitRegister(hi: bv8, lo: bv8, m: bv8)
    ensures AddByte(Register(hi, lo), m) == Xor(High(lo), Low(hi ^ m))
  {
  }

  lemma JoinRegister(lo: bv8, h: bv8, l: bv8)
    ensures Register(lo ^ h, l) == Xor(Low(lo), Register(h, l))
  {
  }

  lemma HighByteFallsThrough(lo: bv8)
    ensures EightShifts(High(lo)) == Low(lo)
  {
  }

  // ---------- Appending the CRC leaves no residue, and nothing else does ----------

  /** A receiver that runs on over the two bytes of the result ends at zero exactly when they are the sender's. */
  lemma Residue(msg: seq<bv8>, x: bv8, y: bv8)
    ensures CrcOf(msg + [x, y]) == 0 <==> ((x as bv16) << 8) | (y as bv16) == CrcOf(msg)
  {
    hide SwapBytes, EightShifts, AddByte, Register;
    var c := GuideCrc(0xFFFF, msg);
    var c1 := EightShifts(AddByte(c, x));
    GuideCrcAppend(0xFFFF, msg, [x, y]);
    assert [x, y][1..] == [y] && [y][1..] == [];
    assert GuideCrc(c, [x, y]) == GuideCrc(c1, [y]) == EightShifts(AddByte(c1, y));
    PackedIsSwapped(x, y);
    SwapInjective(Register(x, y), c);
    SwapZero(EightShifts(AddByte(c1, y)));
    ResidueOfRegister(c, x, y);
  }

  lemma SwapInjective(a: bv16, b: bv16)
    ensures SwapBytes(a) == SwapBytes(b) <==> a == b
  {
  }

  lemma SwapZero(a: bv16)
    ensures SwapBytes(a) == 0 <==> a == 0
  {
  }

  lemma {:induction false} GuideCrcAppend(c: bv16, a: seq<bv8>, b: seq<bv8>)
    ensures GuideCrc(c, a + b) == GuideCrc(GuideCrc(c, a), b)
    decreases |a|
  {
    if a == [] {
      assert a + b == b;
    } else {
      assert (a + b)[1..] == a[1..] + b;
      GuideCrcAppend(EightShifts(AddByte(c, a[0])), a[1..], b);
    }
  }

  lemma ResidueOfRegister(c: bv16, x: bv8, y: bv8)
    ensures EightShifts(AddByte(EightShifts(AddByte(c, x)), y)) == 0 <==> Register(x, y) == c
  {
    hide EightShifts, AddByte, Register, High, Low;
    var c1 := EightShifts(AddByte(c, x));
    HighByteFallsThrough(0);
    HighByteFallsThrough(y);
    LowZero();
    AddByteCancels(c1, y);
    AddByteLeavesHigh(c, x, y);
    if EightShifts(AddByte(c1, y)) == 0 {
      EightShiftsInjective(AddByte(c1, y), High(0));
      EightShiftsInjective(AddByte(c, x), High(y));
    }
  }

  lemma EightShiftsInjective(a: bv16, b: bv16)
    requires EightShifts(a) == EightShifts(b)
    ensures a == b
  {
    hide EightShifts, Shift;
    EightAreShifts(a);
    EightAreShifts(b);
    ShiftsInjective(a, b, 8);
  }

  lemma LowZero()
    ensures Low(0) == 0
  {
  }

  lemma AddByteCancels(c: bv16, y: bv8)
    ensures AddByte(c, y) == High(0) <==> c == Low(y)
  {
  }

  lemma AddByteLeavesHigh(c: bv16, x: bv8, y: bv8)
    ensures AddByte(c, x) == High(y) <==> Register(x, y) == c
  {
    hide AddByte, Register, High;
    RegisterIsHighPlusLow(x, y);
    AddByteMoves(c, x, High(y));
  }

  lemma RegisterIsHighPlusLow(x: bv8, y: bv8)
    ensures Register(x, y) == AddByte(High(y), x)
  {
  }

  lemma AddByteMoves(a: bv16, x: bv8, c: bv16)
    ensures AddByte(a, x) == c <==> AddByte(c, x) == a
  {
    hide AddByte;
    AddByteTwice(a, x);
    AddByteTwice(c, x);
  }

  lemma AddByteTwice(a: bv16, x: bv8)
    ensures AddByte(AddByte(a, x), x) == a
  {
  }

  // ---------- Burst errors ----------

  /** Bit `k` of a message, in the order in which the register consumes them: least significant bit first. */
  function Bit(m: bv8, k: nat): bool {
    match k
    case 0 => m & 0x01 != 0
    case 1 => m & 0x02 != 0
    case 2 => m & 0x04 != 0
    case 3 => m & 0x08 != 0
    case 4 => m & 0x10 != 0
    case 5 => m & 0x20 != 0
    case 6 => m & 0x40 != 0
    case _ => m & 0x80 != 0
  }

  function Bits(msg: seq<bv8>): (bits: seq<bool>)
    ensures |bits| == 8 * |msg|
  {
    seq(8 * |msg|, k requires 0 <= k < 8 * |msg| => Bit(msg[k / 8], k % 8))
  }

  function AddBit(c: bv16, b: bool): bv16 {
    if b then c ^ 1 else c
  }

  function FeedBit(c: bv16, b: bool): bv16 {
    Shift(AddBit(c, b))
  }

  function Feed(c: bv16, bits: seq<bool>): bv16
    decreases |bits|
  {
    if bits == [] then c else Feed(FeedBit(c, bits[0]), bits[1..])
  }

  /** Up to sixteen bits as a number, first bit lowest. */
  function Pack(w: seq<bool>): bv16
    decreases |w|
  {
    if w == [] then 0 else Push(Pack(w[1..]), w[0])
  }

  function Push(p: bv16, b: bool): bv16 {
    (p << 1) | (if b then 1 else 0)
  }

  lemma {:induction false} FeedAppend(c: bv16, u: seq<bool>, v: seq<bool>)
    ensures Feed(c, u + v) == Feed(Feed(c, u), v)
    decreases |u|
  {
    if u == [] {
      assert u + v == v;
    } else {
      assert (u + v)[1..] == u[1..] + v;
      FeedAppend(FeedBit(c, u[0]), u[1..], v);
    }
  }

  lemma {:induction false} FeedInjective(a: bv16, b: bv16, w: seq<bool>)
    requires Feed(a, w) == Feed(b, w)
    ensures a == b
    decreases |w|
  {
    if w != [] {
      hide FeedBit;
      FeedInjective(FeedBit(a, w[0]), FeedBit(b, w[0]), w[1..]);
      FeedBitInjective(a, b, w[0]);
    }
  }

  lemma FeedBitInjective(a: bv16, b: bv16, bit: bool)
    requires FeedBit(a, bit) == FeedBit(b, bit)
    ensures a == b
  {
  }

  predicate Fits(p: bv16, bits: nat) {
    match bits
    case 0 => p == 0
    case 1 => p <= 0x1
    case 2 => p <= 0x3
    case 3 => p <= 0x7
    case 4 => p <= 0xF
    case 5 => p <= 0x1F
    case 6 => p <= 0x3F
    case 7 => p <= 0x7F
    case 8 => p <= 0xFF
    case 9 => p <= 0x1FF
    case 10 => p <= 0x3FF
    case 11 => p <= 0x7FF
    case 12 => p <= 0xFFF
    case 13 => p <= 0x1FFF
    case 14 => p <= 0x3FFF
    case 15 => p <= 0x7FFF
    case _ => true
  }

  lemma {:induction false} PackFits(w: seq<bool>)
    ensures Fits(Pack(w), |w|)
    decreases |w|
  {
    if w != [] {
      hide Push, Fits;
      PackFits(w[1..]);
      PushFits(Pack(w[1..]), |w| - 1, w[0]);
    }
  }

  lemma PushFits(p: bv16, n: nat, b: bool)
    requires Fits(p, n)
    ensures Fits(Push(p, b), n + 1)
  {
  }

  lemma FitsBelowTop(p: bv16, n: nat)
    requires n <= 15 && Fits(p, n)
    ensures p <= 0x7FFF
  {
  }

  /** Feeding at most sixteen bits one by one is adding them all at once and then shifting. */
  lemma {:induction false} FeedIsPackedShifts(c: bv16, w: seq<bool>)
    requires |w| <= 16
    ensures Feed(c, w) == Shifts(Xor(c, Pack(w)), |w|)
    decreases |w|
  {
    if w == [] {
      XorRightZero(c);
    } else {
      hide Xor, Shift, FeedBit, Push, Fits;
      var p := Pack(w[1..]);
      PackFits(w[1..]);
      FitsBelowTop(p, |w| - 1);
      FeedIsPackedShifts(FeedBit(c, w[0]), w[1..]);
      ShiftPushed(c, p, w[0]);
    }
  }

  lemma XorRightZero(c: bv16)
    ensures Xor(c, 0) == c
  {
  }

  lemma ShiftPushed(c: bv16, p: bv16, b: bool)
    requires p <= 0x7FFF
    ensures Shift(Xor(c, Push(p, b))) == Xor(FeedBit(c, b), p)
  {
    hide Xor, Shift, Push, AddBit;
    PushSplits(c, p, b);
    ShiftXor(AddBit(c, b), Push(p, false));
    ShiftOfDouble(p);
  }

  lemma PushSplits(c: bv16, p: bv16, b: bool)
    ensures Xor(c, Push(p, b)) == Xor(AddBit(c, b), Push(p, false))
  {
  }

  lemma ShiftOfDouble(p: bv16)
    requires p <= 0x7FFF
    ensures Shift(Push(p, false)) == p
  {
  }

  lemma {:induction false} PackInjective(u: seq<bool>, v: seq<bool>)
    requires |u| == |v| <= 16 && Pack(u) == Pack(v)
    ensures u == v
    decreases |u|
  {
    if u != [] {
      hide Push, Fits;
      PackFits(u[1..]);
      PackFits(v[1..]);
      FitsBelowTop(Pack(u[1..]), |u| - 1);
      FitsBelowTop(Pack(v[1..]), |u| - 1);
      UnpushBit(Pack(u[1..]), u[0], Pack(v[1..]), v[0]);
      PackInjective(u[1..], v[1..]);
      assert u == [u[0]] + u[1..] && v == [v[0]] + v[1..];
    }
  }

  lemma UnpushBit(p: bv16, b: bool, q: bv16, d: bool)
    requires p <= 0x7FFF && q <= 0x7FFF
    requires Push(p, b) == Push(q, d)
    ensures p == q && b == d
  {
  }

  lemma {:induction false} GuideCrcIsFeed(c: bv16, msg: seq<bv8>)
    ensures GuideCrc(c, msg) == Feed(c, Bits(msg))
    decreases |msg|
  {
    if msg != [] {
      hide EightShifts, AddByte, FeedBit, Bit;
      var w, rest := Bits(msg[..1]), Bits(msg[1..]);
      assert Bits(msg) == w + rest;
      FeedAppend(c, w, rest);
      FeedByte(c, msg[0], w);
      GuideCrcIsFeed(EightShifts(AddByte(c, msg[0])), msg[1..]);
    }
  }

  lemma FeedByte(c: bv16, m: bv8, w: seq<bool>)
    requires |w| == 8 && forall k | 0 <= k < 8 :: w[k] == Bit(m, k)
    ensures Feed(c, w) == EightShifts(AddByte(c, m))
  {
    hide EightShifts, Shift, FeedBit, Bit, Push, Xor;
    FeedIsPackedShifts(c, w);
    PackOfByte(m, w);
    AddByteIsXor(c, m);
    EightAreShifts(AddByte(c, m));
  }

  lemma AddByteIsXor(c: bv16, m: bv8)
    ensures AddByte(c, m) == Xor(c, m as bv16)
  {
  }

  lemma PackOfByte(m: bv8, w: seq<bool>)
    requires |w| == 8 && forall k | 0 <= k < 8 :: w[k] == Bit(m, k)
    ensures Pack(w) == m as bv16
  {
    hide Bit, Push;
    assert Pack(w[8..]) == 0;
    assert Pack(w[7..]) == Push(Pack(w[8..]), w[7]) by { assert w[7..][1..] == w[8..]; }
    assert Pack(w[6..]) == Push(Pack(w[7..]), w[6]) by { assert w[6..][1..] == w[7..]; }
    assert Pack(w[5..]) == Push(Pack(w[6..]), w[5]) by { assert w[5..][1..] == w[6..]; }
    assert Pack(w[4..]) == Push(Pack(w[5..]), w[4]) by { assert w[4..][1..] == w[5..]; }
    assert Pack(w[3..]) == Push(Pack(w[4..]), w[3]) by { assert w[3..][1..] == w[4..]; }
    assert Pack(w[2..]) == Push(Pack(w[3..]), w[2]) by { assert w[2..][1..] == w[3..]; }
    assert Pack(w[1..]) == Push(Pack(w[2..]), w[1]) by { assert w[1..][1..] == w[2..]; }
    BitsMakeByte(m);
  }

  lemma BitsMakeByte(m: bv8)
    ensures Push(Push(Push(Push(Push(Push(Push(Push(0, Bit(m, 7)), Bit(m, 6)), Bit(m, 5)), Bit(m, 4)),
                 Bit(m, 3)), Bit(m, 2)), Bit(m, 1)), Bit(m, 0)) == m as bv16
  {
  }

  lemma BitsDetermineByte(a: bv8, b: bv8)
    requires Bit(a, 0) == Bit(b, 0) && Bit(a, 1) == Bit(b, 1) && Bit(a, 2) == Bit(b, 2) && Bit(a, 3) == Bit(b, 3)
    requires Bit(a, 4) == Bit(b, 4) && Bit(a, 5) == Bit(b, 5) && Bit(a, 6) == Bit(b, 6) && Bit(a, 7) == Bit(b, 7)
    ensures a == b
  {
    BitsMakeByte(a);
    BitsMakeByte(b);
  }

  lemma BitsInjective(a: seq<bv8>, b: seq<bv8>)
    requires |a| == |b| && Bits(a) == Bits(b)
    ensures a == b
  {
    forall i | 0 <= i < |a|
      ensures a[i] == b[i]
    {
      hide Bit;
      forall k: nat | k < 8
        ensures Bit(a[i], k) == Bit(b[i], k)
      {
        assert (8 * i + k) / 8 == i && (8 * i + k) % 8 == k;
        assert Bits(a)[8 * i + k] == Bits(b)[8 * i + k];
      }
      BitsDetermineByte(a[i], b[i]);
    }
  }

  /** The messages have one length, and their bits agree outside `width` consecutive ones from `s` on. */
  predicate DifferWithin(a: seq<bv8>, b: seq<bv8>, s: nat, width: nat) {
    |a| == |b| && forall k | 0 <= k < 8 * |a| && !(s <= k < s + width) :: Bits(a)[k] == Bits(b)[k]
  }

  /** Two different messages that differ only within sixteen consecutive bits have different checksums. */
  lemma BurstChangesCrc(a: seq<bv8>, b: seq<bv8>, s: nat)
    requires a != b && DifferWithin(a, b, s, 16)
    ensures CrcOf(a) != CrcOf(b)
  {
    hide SwapBytes, Bits;
    GuideCrcIsFeed(0xFFFF, a);
    GuideCrcIsFeed(0xFFFF, b);
    SwapInjective(GuideCrc(0xFFFF, a), GuideCrc(0xFFFF, b));
    if CrcOf(a) == CrcOf(b) {
      WindowDetermined(0xFFFF, Bits(a), Bits(b), s);
      BitsInjective(a, b);
    }
  }

  lemma WindowDetermined(c: bv16, u: seq<bool>, v: seq<bool>, s: nat)
    requires |u| == |v| && Feed(c, u) == Feed(c, v)
    requires forall k | 0 <= k < |u| && !(s <= k < s + 16) :: u[k] == v[k]
    ensures u == v
  {
    hide *;
    var p := if s <= |u| then s else |u|;
    var q := if s + 16 <= |u| then s + 16 else |u|;
    assert u == u[..p] + u[p..q] + u[q..] && v == v[..p] + v[p..q] + v[q..];
    assert u[..p] == v[..p];
    assert u[q..] == v[q..];
    MiddleDetermined(c, u[..p], u[p..q], v[p..q], u[q..]);
  }

  lemma MiddleDetermined(c: bv16, before: seq<bool>, u: seq<bool>, v: seq<bool>, after: seq<bool>)
    requires |u| == |v| <= 16
    requires Feed(c, before + u + after) == Feed(c, before + v + after)
    ensures u == v
  {
    hide *;
    FeedAppend(c, before + u, after);
    FeedAppend(c, before + v, after);
    FeedAppend(c, before, u);
    FeedAppend(c, before, v);
    FeedInjective(Feed(c, before + u), Feed(c, before + v), after);
    SixteenBitsDetermined(Feed(c, before), u, v);
  }

  lemma SixteenBitsDetermined(c: bv16, u: seq<bool>, v: seq<bool>)
    requires |u| == |v| <= 16 && Feed(c, u) == Feed(c, v)
    ensures u == v
  {
    hide Xor, Push, Shift, FeedBit;
    FeedIsPackedShifts(c, u);
    FeedIsPackedShifts(c, v);
    ShiftsInjective(Xor(c, Pack(u)), Xor(c, Pack(v)), |u|);
    XorCancels(c, Pack(u), Pack(v));
    PackInjective(u, v);
  }

  lemma XorCancels(c: bv16, p: bv16, q: bv16)
    requires Xor(c, p) == Xor(c, q)
    ensures p == q
  {
  }

  /** The check value of this CRC, over the digits 1 to 9, and the guide's example of two bytes; the bytes of both are swapped. */
  lemma CheckValues()
    ensures CrcOf([0x31, 0x32, 0x33, 0x34, 0x35, 0x36, 0x37, 0x38, 0x39]) == 0x374B
    ensures CrcOf([0x02, 0x07]) == 0x4112
  {
  }

  /** Sixteen is sharp: two messages that differ only within seventeen bits, in the shape of the polynomial, and collide. */
  lemma BurstOfSeventeenMissed()
    ensures DifferWithin([0x00, 0x00, 0x00], [0x03, 0x40, 0x01], 0, 17)
    ensures CrcOf([0x00, 0x00, 0x00]) == CrcOf([0x03, 0x40, 0x01])
  {
    var a: seq<bv8>, b: seq<bv8> := [0x00, 0x00, 0x00], [0x03, 0x40, 0x01];
    forall k | 17 <= k < 24
      ensures Bits(a)[k] == Bits(b)[k]
    {
      assert k / 8 == 2 && 1 <= k % 8;
      UpperBitsOfOne(k % 8);
    }
    hide Bits;
  }

  lemma UpperBitsOfOne(k: nat)
    requires 1 <= k
    ensures Bit(0x01, k) == Bit(0x00, k)
  {
  }

  // ---------- The byte as an index ----------

  /** A plain `char` on a platform where it is signed, widened to the index type. */
  function SignExtended(b: bv8): bv32 {
    if b < 0x80 then b as bv32 else 0xFFFFFF00 | (b as bv32)
  }

  /** With a signed `char` the table index stays inside the table exactly for the bytes below 0x80. */
  lemma SignedIndexInTable(hi: bv8, b: bv8)
    ensures (hi as bv32) ^ SignExtended(b) < 256 <==> b < 0x80
  {
  }
}
