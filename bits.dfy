/**
 * Machine integers of the Win32 ABI and the word/byte helpers that split
 * WPARAM/LPARAM values into their halves (src/utilities.rs and its verbatim
 * copy in src/lib.rs).
 *
 * Every integer is an unbounded `int` restricted to the range of its width.
 * Rust's `as` casts between integer types keep the low bits, which is written
 * out by the `Wrap*` functions; `>>` on an unsigned value is a floor division
 * and on a signed value an arithmetic shift, which is a floor division too.
 */
module Bits {

  type u8 = x: int | 0 <= x < 0x100
  type u16 = x: int | 0 <= x < 0x1_0000
  type u32 = x: int | 0 <= x < 0x1_0000_0000
  type u64 = x: int | 0 <= x < 0x1_0000_0000_0000_0000
  type i8 = x: int | -0x80 <= x < 0x80
  type i16 = x: int | -0x8000 <= x < 0x8000
  type i32 = x: int | -0x8000_0000 <= x < 0x8000_0000
  type i64 = x: int | -0x8000_0000_0000_0000 <= x < 0x8000_0000_0000_0000

  /** `x as u8`: the low 8 bits. */
  function WrapU8(x: int): u8 { x % 0x100 }

  /** `x as u16`: the low 16 bits. */
  function WrapU16(x: int): u16 { x % 0x1_0000 }

  /** `x as u32`: the low 32 bits. */
  function WrapU32(x: int): u32 { x % 0x1_0000_0000 }

  /** `x as i8`: the low 8 bits read in two's complement. */
  function WrapI8(x: int): i8 {
    var low := x % 0x100;
    if low < 0x80 then low else low - 0x100
  }

  /** `x as i16`: the low 16 bits read in two's complement. */
  function WrapI16(x: int): i16 {
    var low := x % 0x1_0000;
    if low < 0x8000 then low else low - 0x1_0000
  }

  /** `x as i32`: the low 32 bits read in two's complement. */
  function WrapI32(x: int): i32 {
    var low := x % 0x1_0000_0000;
    if low < 0x8000_0000 then low else low - 0x1_0000_0000
  }

  // The helpers of src/utilities.rs:31-61 (repeated in src/lib.rs:10-40).

  function SignedLoWord(dword: i32): i16 { WrapI16(dword) }

  function LoWord(dword: u32): u16 { WrapU16(dword) }

  function SignedHiWord(dword: i32): i16 { WrapI16(dword / 0x1_0000) }

  function HiWord(dword: u32): u16 { WrapU16(dword / 0x1_0000) }

  function SignedLoByte(word: i16): i8 { WrapI8(word) }

  function LoByte(word: u16): u8 { WrapU8(word) }

  function SignedHiByte(word: i16): i8 { WrapI8(word / 0x100) }

  function HiByte(word: u16): u8 { WrapU8(word / 0x100) }

  /** The high and low words of a u32 are its base-65536 digits. */
  lemma WordSplit(dword: u32)
    ensures HiWord(dword) * 0x1_0000 + LoWord(dword) == dword
    ensures HiWord(dword) == dword / 0x1_0000 && LoWord(dword) == dword % 0x1_0000
  {
    assert dword / 0x1_0000 < 0x1_0000;
  }

  /** The high and low bytes of a u16 are its base-256 digits. */
  lemma ByteSplit(word: u16)
    ensures HiByte(word) * 0x100 + LoByte(word) == word
    ensures HiByte(word) == word / 0x100 && LoByte(word) == word % 0x100
  {
    assert word / 0x100 < 0x100;
  }

  /**
   * The signed low word is the low 16 bits of the dword read in two's
   * complement: it agrees with the dword modulo 2^16, and it is negative
   * exactly when bit 15 is set.
   */
  lemma SignedLoWordIsTwosComplement(dword: i32)
    ensures SignedLoWord(dword) % 0x1_0000 == dword % 0x1_0000
    ensures SignedLoWord(dword) < 0 <==> dword % 0x1_0000 >= 0x8000
  {
  }

  /**
   * The arithmetic shift of an i32 by 16 always fits in an i16, so the signed
   * high word is the exact floor of dword / 65536 and nothing is cut off.
   */
  lemma SignedHiWordIsFloor(dword: i32)
    ensures SignedHiWord(dword) == dword / 0x1_0000
    ensures SignedHiWord(dword) * 0x1_0000 <= dword < (SignedHiWord(dword) + 1) * 0x1_0000
  {
    var q := dword / 0x1_0000;
    assert -0x8000 <= q < 0x8000;
    assert q % 0x1_0000 == if q >= 0 then q else q + 0x1_0000;
  }

  /** Both words of a signed dword rebuild it: hi * 65536 + (lo mod 65536) == dword. */
  lemma SignedWordSplit(dword: i32)
    ensures SignedHiWord(dword) * 0x1_0000 + SignedLoWord(dword) % 0x1_0000 == dword
  {
    SignedHiWordIsFloor(dword);
    SignedLoWordIsTwosComplement(dword);
  }

  /** `signed_lo_word(d)` and `lo_word(d as u32)` agree modulo 2^16. */
  lemma SignedLoWordMatchesLoWord(dword: i32)
    ensures SignedLoWord(dword) % 0x1_0000 == LoWord(WrapU32(dword))
  {
    var u := WrapU32(dword);
    assert u % 0x1_0000 == dword % 0x1_0000 by {
      assert dword == (dword / 0x1_0000_0000) * 0x1_0000_0000 + u;
      assert 0x1_0000_0000 == 0x1_0000 * 0x1_0000;
      assert (dword / 0x1_0000_0000) * 0x1_0000_0000 == ((dword / 0x1_0000_0000) * 0x1_0000) * 0x1_0000;
    }
  }

  /** The signed low byte is the low 8 bits of the word in two's complement. */
  lemma SignedLoByteIsTwosComplement(word: i16)
    ensures -0x80 <= SignedLoByte(word) < 0x80
    ensures SignedLoByte(word) % 0x100 == word % 0x100
    ensures SignedLoByte(word) < 0 <==> word % 0x100 >= 0x80
  {
  }

  /** The arithmetic shift of an i16 by 8 fits in an i8: the exact floor of word / 256. */
  lemma SignedHiByteIsFloor(word: i16)
    ensures SignedHiByte(word) == word / 0x100
  {
    var q := word / 0x100;
    assert -0x80 <= q < 0x80;
    assert q % 0x100 == if q >= 0 then q else q + 0x100;
  }

  // ---------------------------------------------------------------------------
  // Bitwise operations on non-negative integers.

  /** Bitwise AND of two non-negative integers, bit by bit from the lowest. */
  function And(a: nat, b: nat): (r: nat)
    ensures r <= a && r <= b
    decreases a
  {
    if a == 0 || b == 0 then 0
    else 2 * And(a / 2, b / 2) + (if a % 2 == 1 && b % 2 == 1 then 1 else 0)
  }

  function Pow2(k: nat): (r: nat)
    ensures r >= 1
  {
    if k == 0 then 1 else 2 * Pow2(k - 1)
  }

  /**
   * `is_flag_set(value, flag)`: every bit of `flag` is set in `value`
   * (`value & flag == flag`).
   */
  predicate IsFlagSet(value: nat, flag: nat) {
    And(value, flag) == flag
  }

  /** AND with a single bit 2^k keeps exactly bit k of the value. */
  lemma {:induction false} AndSingleBit(value: nat, k: nat)
    ensures And(value, Pow2(k)) == if (value / Pow2(k)) % 2 == 1 then Pow2(k) else 0
  {
    if k == 0 {
      if value != 0 {
        assert And(value / 2, 0) == 0;
      }
    } else {
      if value != 0 {
        calc {
          And(value, Pow2(k));
          2 * And(value / 2, Pow2(k) / 2) + (if value % 2 == 1 && Pow2(k) % 2 == 1 then 1 else 0);
          { assert Pow2(k) / 2 == Pow2(k - 1) && Pow2(k) % 2 == 0; }
          2 * And(value / 2, Pow2(k - 1));
        }
        AndSingleBit(value / 2, k - 1);
        DivDiv(value, Pow2(k - 1));
      }
    }
  }

  lemma DivDiv(value: nat, p: nat)
    requires p >= 1
    ensures value / (2 * p) == (value / 2) / p
  {
    var q := value / (2 * p);
    var r := value % (2 * p);
    assert value == q * (2 * p) + r;
    assert q * (2 * p) == 2 * (q * p);
    assert value / 2 == q * p + r / 2;
    DivUnique(value / 2, p, q, r / 2);
  }

  lemma DivUnique(x: int, p: int, q: int, s: int)
    requires p >= 1 && 0 <= s < p && x == q * p + s
    ensures x / p == q
  {
    var q', s' := x / p, x % p;
    assert x == q' * p + s';
    assert (q - q') * p == s' - s;
    if q' < q {
      MulAtLeast(q - q', p);
    } else if q' > q {
      MulAtLeast(q' - q, p);
    }
  }

  lemma {:induction false} MulAtLeast(d: int, p: int)
    requires d >= 1 && p >= 1
    ensures d * p >= p
  {
    if d > 1 {
      MulAtLeast(d - 1, p);
      assert d * p == (d - 1) * p + p;
    }
  }

  /** A single-bit flag 2^k is set exactly when bit k of the value is one. */
  lemma SingleBitFlag(value: nat, k: nat)
    ensures IsFlagSet(value, Pow2(k)) <==> (value / Pow2(k)) % 2 == 1
  {
    AndSingleBit(value, k);
  }

  /** Bitwise OR of two non-negative integers, bit by bit from the lowest. */
  function Or(a: nat, b: nat): (r: nat)
    ensures r >= a && r >= b
    decreases a
  {
    if a == 0 then b
    else if b == 0 then a
    else 2 * Or(a / 2, b / 2) + (if a % 2 == 1 || b % 2 == 1 then 1 else 0)
  }

  /** OR of two values below 2^k stays below 2^k: `u16 | u16` is a u16. */
  lemma {:induction false} OrBelow(a: nat, b: nat, k: nat)
    requires a < Pow2(k) && b < Pow2(k)
    ensures Or(a, b) < Pow2(k)
  {
    if a != 0 && b != 0 {
      assert k > 0;
      OrBelow(a / 2, b / 2, k - 1);
    }
  }

  /**
   * OR-ing a value below 2^k into a multiple of 2^k is an addition: the two
   * have no bit in common (`make_code | 0xE000` for a one-byte make code).
   */
  lemma {:induction false} OrDisjoint(low: nat, high: nat, k: nat)
    requires low < Pow2(k)
    ensures Or(low, high * Pow2(k)) == high * Pow2(k) + low
  {
    if low != 0 && high != 0 {
      assert k > 0;
      assert high * Pow2(k) == 2 * (high * Pow2(k - 1));
      OrDisjoint(low / 2, high, k - 1);
    }
  }

  lemma Pow2Values()
    ensures Pow2(8) == 0x100 && Pow2(16) == 0x1_0000
  {
  }

  /**
   * `value & flag == flag` bit by bit: the lowest bit of `flag` must be set in
   * `value`, and the rest of `flag` must be set in the rest of `value`.
   */
  lemma FlagSetStep(value: nat, flag: nat)
    ensures IsFlagSet(value, flag) <==> IsFlagSet(value / 2, flag / 2) && (flag % 2 == 1 ==> value % 2 == 1)
  {
    if value == 0 && flag != 0 {
      assert And(value / 2, flag / 2) == 0;
    }
  }

  /** Every value has no flag bits to miss when the flag is zero. */
  lemma FlagSetZero(value: nat)
    ensures IsFlagSet(value, 0)
  {
  }

  /** On four-bit values, `contains` holds when every bit of the flag is set in the value. */
  lemma FlagSetFourBits(value: nat, flag: nat)
    requires value < 16 && flag < 16
    ensures IsFlagSet(value, flag) <==> (flag % 2 == 1 ==> value % 2 == 1)
                                        && ((flag / 2) % 2 == 1 ==> (value / 2) % 2 == 1)
                                        && ((flag / 2 / 2) % 2 == 1 ==> (value / 2 / 2) % 2 == 1)
                                        && ((flag / 2 / 2 / 2) % 2 == 1 ==> (value / 2 / 2 / 2) % 2 == 1)
  {
    FlagSetStep(value, flag);
    FlagSetStep(value / 2, flag / 2);
    FlagSetStep(value / 2 / 2, flag / 2 / 2);
    FlagSetStep(value / 2 / 2 / 2, flag / 2 / 2 / 2);
    assert flag / 2 / 2 / 2 / 2 == 0;
    FlagSetZero(value / 2 / 2 / 2 / 2);
  }
}
