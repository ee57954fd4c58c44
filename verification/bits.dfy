/** `get_bit(byte, pos)` of backend/bit_funcs.h: one bit of a signed `char`. */
module Bits {
  import opened Power
  import opened DivMod

  /** A C `char` on the AVR: a signed 8-bit value. */
  predicate IsChar(b: int) {
    -128 <= b < 128
  }

  /** `byte >> pos & 1`: the char is sign-extended to a 16-bit int, shifted
      arithmetically (a floor division by 2^pos) and masked to its lowest bit.
      Shifting a 16-bit int by a negative or too large count is undefined, hence
      the bound on `pos`. */
  function GetBit(byte: int, pos: int): (r: int)
    requires IsChar(byte)
    requires 0 <= pos < 16
    ensures r == 0 || r == 1
  {
    PowPositive(2, pos);
    (byte / Pow(2, pos)) % 2
  }

  /** The byte read as an unsigned 8-bit value (two's complement). */
  function Unsigned(byte: int): (u: int)
    requires IsChar(byte)
    ensures 0 <= u < 256
    ensures byte >= 0 ==> u == byte
    ensures byte < 0 ==> u == byte + 256
  {
    byte % 256
  }

  /** Bit `pos` of the unsigned reading, counting from the least significant bit. */
  function UnsignedBit(u: int, pos: nat): int
  {
    PowPositive(2, pos);
    (u / Pow(2, pos)) % 2
  }

  /** For positions 0..7, `get_bit` is bit `pos` of the byte's 8-bit pattern:
      the sign extension only reaches bits 8 and above. */
  lemma GetBitIsPatternBit(byte: int, pos: int)
    requires IsChar(byte)
    requires 0 <= pos <= 7
    ensures GetBit(byte, pos) == UnsignedBit(Unsigned(byte), pos)
  {
    var m := Pow(2, pos);
    PowPositive(2, pos);
    PowPositive(2, 7 - pos);
    PowAdd(2, pos + 1, 7 - pos);
    assert Pow(2, 8) == 256;
    assert Pow(2, pos + 1) == 2 * m;
    ModDoubleSplit(byte, m);
    ModDoubleSplit(Unsigned(byte), m);
    ModOfMultipleMod(byte, 2 * m, Pow(2, 7 - pos));
    assert (Unsigned(byte) % (2 * m)) == byte % (2 * m);
  }

  /** Bit 0 is the parity of the byte. */
  lemma GetBitZeroIsParity(byte: int)
    requires IsChar(byte)
    ensures GetBit(byte, 0) == byte % 2
    ensures GetBit(byte, 0) == Unsigned(byte) % 2
  {
  }

  /** Sum of `get_bit(byte, i) * 2^i` over the positions below k. */
  function Reassemble(byte: int, k: nat): int
    requires IsChar(byte)
    requires k <= 8
  {
    if k == 0 then 0 else Reassemble(byte, k - 1) + GetBit(byte, k - 1) * Pow(2, k - 1)
  }

  lemma {:induction false} ReassembleLowBits(byte: int, k: nat)
    requires IsChar(byte)
    requires k <= 8
    ensures Pow(2, k) > 0 && Reassemble(byte, k) == byte % Pow(2, k)
  {
    PowPositive(2, k);
    if k > 0 {
      ReassembleLowBits(byte, k - 1);
      PowPositive(2, k - 1);
      ModDoubleSplit(byte, Pow(2, k - 1));
    }
  }

  /** Splitting a byte into its eight bits with `get_bit` and putting them
      back together with place values 2^i gives the byte as an unsigned value. */
  lemma SplitThenReassemble(byte: int)
    requires IsChar(byte)
    ensures Reassemble(byte, 8) == Unsigned(byte)
  {
    ReassembleLowBits(byte, 8);
    assert Pow(2, 8) == 256;
  }
}
