/** The 16-bit write command of the Microchip MCP4822 (datasheet of the
    MCP4802/4812/4822, section 5, "Serial Interface"), as both firmware drivers
    build it in a `bool[16]` array sent first-to-last:
      bit 0: A/B select (1 = channel B)
      bit 1: ignored by the chip, never written by the drivers
      bit 2: the inverted gain select (1 = gain 1, 0 = gain 2)
      bit 3: the inverted shutdown bit (1 = output active)
      bits 4..15: the 12-bit code D, most significant bit first.
    The chip outputs 2.048 V * D / 4096 * gain. */
module DacCodec {
  import opened CInt
  import opened Power
  import opened DivMod

  /** The bits that the drivers' countdown loop writes for the places
      2^i, ..., 2^0 of `rem`: each is the C quotient of the running remainder by
      the place value, stored in a `bool` (so any non-zero quotient is 1), and
      the remainder keeps the C remainder. */
  function Digits(rem: int, i: int): (r: seq<bool>)
    requires i >= -1
    ensures |r| == i + 1
    decreases i + 1
  {
    if i < 0 then []
    else
      PowPositive(2, i);
      [CDiv(rem, Pow(2, i)) != 0] + Digits(CMod(rem, Pow(2, i)), i - 1)
  }

  /** Unfolds one level of `Digits`. */
  lemma DigitsUnfold(r: int, i: int)
    requires i >= 0
    ensures Pow(2, i) > 0
    ensures Digits(r, i) == [CDiv(r, Pow(2, i)) != 0] + Digits(CMod(r, Pow(2, i)), i - 1)
  {
    PowPositive(2, i);
  }

  /** The running remainder of the 12-bit countdown loop after its first n rounds. */
  function LoopRemainder(value: int, n: nat): int
    requires n <= 12
  {
    if n == 0 then value
    else
      PowPositive(2, 12 - n);
      CMod(LoopRemainder(value, n - 1), Pow(2, 12 - n))
  }

  /** The bits the 12-bit countdown loop has written after its first n rounds,
      in the order it writes them. */
  function LoopBits(value: int, n: nat): (r: seq<bool>)
    requires n <= 12
    ensures |r| == n
  {
    if n == 0 then []
    else
      PowPositive(2, 12 - n);
      LoopBits(value, n - 1) + [CDiv(LoopRemainder(value, n - 1), Pow(2, 12 - n)) != 0]
  }

  /** One more round of the loop: the next bit and the next remainder. */
  lemma LoopStep(value: int, n: nat)
    requires n < 12
    ensures Pow(2, 11 - n) > 0
    ensures LoopBits(value, n + 1) ==
            LoopBits(value, n) + [CDiv(LoopRemainder(value, n), Pow(2, 11 - n)) != 0]
    ensures LoopRemainder(value, n + 1) == CMod(LoopRemainder(value, n), Pow(2, 11 - n))
  {
    PowPositive(2, 11 - n);
  }

  lemma ConcatShift(a: seq<bool>, b: bool, rest: seq<bool>, d: seq<bool>)
    requires a + ([b] + rest) == d
    ensures (a + [b]) + rest == d
  {
  }

  /** After any number of rounds, the bits written so far followed by the
      digits of the remainder are the digits of the value. */
  lemma {:induction false} LoopBitsThenDigits(value: int, n: nat)
    requires n <= 12
    ensures LoopBits(value, n) + Digits(LoopRemainder(value, n), 11 - n) == Digits(value, 11)
  {
    if n > 0 {
      LoopBitsThenDigits(value, n - 1);
      var r := LoopRemainder(value, n - 1);
      DigitsUnfold(r, 12 - n);
      var b := CDiv(r, Pow(2, 12 - n)) != 0;
      ConcatShift(LoopBits(value, n - 1), b, Digits(LoopRemainder(value, n), 11 - n), Digits(value, 11));
    }
  }

  /** The loop, run to the end, writes exactly `Digits(value, 11)`. */
  lemma LoopBitsAreDigits(value: int)
    ensures LoopBits(value, 12) == Digits(value, 11)
  {
    LoopBitsThenDigits(value, 12);
    assert Digits(LoopRemainder(value, 12), -1) == [];
  }

  lemma SplitAtFour(a: seq<bool>, head: seq<bool>, tail: seq<bool>)
    requires |a| == 16 && a[..4] == head && a[4..] == tail
    ensures a == head + tail
  {
    assert a == a[..4] + a[4..];
  }

  /** A 16-bit array whose last twelve places hold the loop's bits is the
      head followed by the digits. */
  lemma HeadThenLoopBits(a: seq<bool>, head: seq<bool>, value: int)
    requires |a| == 16 && a[..4] == head && a[4..] == LoopBits(value, 12)
    ensures a == head + Digits(value, 11)
  {
    LoopBitsAreDigits(value);
    SplitAtFour(a, head, Digits(value, 11));
  }

  /** The countdown loop both drivers run to fill places 4 .. 15 of a command
      array: for i = 11 down to 0, the place value `power_int(2, i)` divides the
      remainder, the quotient is stored as a `bool` and the remainder kept. */
  method WriteCodeBits(code: array<bool>, value: int)
    requires code.Length == 16
    modifies code
    ensures code[..] == old(code[..4]) + Digits(value, 11)
  {
    var remainder := value;
    var i := 11;
    while i > -1
      invariant -1 <= i <= 11
      invariant code[..4] == old(code[..4])
      invariant code[4..15 - i] == LoopBits(value, 11 - i)
      invariant remainder == LoopRemainder(value, 11 - i)
    {
      PowTwoPlaceValues(i);
      var place := PowerInt(2, i);
      var index := 11 - i + 4;
      LoopStep(value, 11 - i);
      code[index] := CDiv(remainder, place) != 0;
      assert code[4..index + 1] == code[4..index] + [code[index]];
      remainder := CMod(remainder, place);
      i := i - 1;
    }
    assert code[4..] == code[4..15 - i];
    HeadThenLoopBits(code[..], old(code[..4]), value);
  }

  /** The number the chip reads from bits sent most significant first. */
  function BigEndian(bits: seq<bool>): nat
  {
    if bits == [] then 0
    else
      PowPositive(2, |bits| - 1);
      (if bits[0] then Pow(2, |bits| - 1) else 0) + BigEndian(bits[1..])
  }

  /** The command word: control bits followed by the digits of `value`. */
  function Word(channelB: bool, bit1: bool, gainOne: bool, value: int): (w: seq<bool>)
    ensures |w| == 16
    ensures w[0] == channelB && w[1] == bit1 && w[2] == gainOne && w[3]
    ensures w[4..] == Digits(value, 11)
  {
    [channelB, bit1, gainOne, true] + Digits(value, 11)
  }

  /** What the chip takes from a received word. */
  datatype ChipCommand = ChipCommand(channelB: bool, gain: int, active: bool, code: nat)

  function Interpret(word: seq<bool>): ChipCommand
    requires |word| == 16
  {
    ChipCommand(word[0], if word[2] then 1 else 2, word[3], BigEndian(word[4..]))
  }

  /** The output of an active channel in microvolts: 2048 mV * D / 4096 * gain. */
  function OutputMicroVolts(c: ChipCommand): int
  {
    c.code * c.gain * 500
  }

  lemma BigEndianCons(b: bool, tail: seq<bool>)
    ensures BigEndian([b] + tail) == (if b then Pow(2, |tail|) else 0) + BigEndian(tail)
  {
    assert ([b] + tail)[1..] == tail;
  }

  /** The leading digit of a value below 2m is 1 exactly when the value reaches m. */
  lemma LeadingDigit(r: int, m: int)
    requires 0 <= r < 2 * m
    ensures CDiv(r, m) == (if r >= m then 1 else 0)
    ensures CMod(r, m) == (if r >= m then r - m else r)
  {
    if r >= m {
      DivModUnique(r, m, 1, r - m);
    } else {
      DivModUnique(r, m, 0, r);
    }
  }

  /** Digits of a value that fits in i+1 bits decode back to it. */
  lemma {:induction false} DigitsRoundTrip(r: int, i: int)
    requires i >= -1
    requires 0 <= r && (i >= 0 ==> r < 2 * Pow(2, i)) && (i < 0 ==> r == 0)
    ensures BigEndian(Digits(r, i)) == r
    decreases i + 1
  {
    if i >= 0 {
      var m := Pow(2, i);
      PowPositive(2, i);
      LeadingDigit(r, m);
      var rest := CMod(r, m);
      assert 0 <= rest < m;
      assert i >= 1 ==> m == 2 * Pow(2, i - 1);
      DigitsRoundTrip(rest, i - 1);
      BigEndianCons(r >= m, Digits(rest, i - 1));
    }
  }

  /** Any value from 0 to 4095 survives the loop and the chip's decoding. */
  lemma TwelveBitRoundTrip(value: int)
    requires 0 <= value < 4096
    ensures BigEndian(Digits(value, 11)) == value
  {
    PowTwoPlaceValues(11);
    DigitsRoundTrip(value, 11);
  }

  lemma {:induction false} DigitsOfZero(i: int)
    requires i >= -1
    ensures BigEndian(Digits(0, i)) == 0
    ensures forall k :: 0 <= k <= i ==> !Digits(0, i)[k]
    decreases i + 1
  {
    if i >= 0 {
      DigitsOfZero(i - 1);
      PowPositive(2, i);
      assert Digits(0, i) == [false] + Digits(0, i - 1);
    }
  }

  /** A value of 2^(i+1) does not fit in i+1 places: the loop puts the
      quotient 2 into the top place (stored as 1) and zeros elsewhere, so the
      chip reads 2^i, half the value. */
  lemma DigitsOfFullPower(v: int, i: int)
    requires i >= 0 && v == 2 * Pow(2, i)
    ensures Digits(v, i)[0]
    ensures forall k :: 1 <= k <= i ==> !Digits(v, i)[k]
    ensures BigEndian(Digits(v, i)) == Pow(2, i)
  {
    var m := Pow(2, i);
    PowPositive(2, i);
    DivModUnique(v, m, 2, 0);
    var z := Digits(0, i - 1);
    DigitsOfZero(i - 1);
    assert Digits(v, i) == [true] + z;
    BigEndianCons(true, z);
  }

  /** For the 12-bit field: 4096 is read back as 2048. */
  lemma TwelveBitOverflow(v: int)
    requires v == 4096
    ensures BigEndian(Digits(v, 11)) == 2048
  {
    PowTwoPlaceValues(11);
    DigitsOfFullPower(v, 11);
  }

  /** The fields the chip takes from a word are the ones the driver put there. */
  lemma InterpretWord(channelB: bool, bit1: bool, gainOne: bool, value: int)
    requires 0 <= value < 4096
    ensures Interpret(Word(channelB, bit1, gainOne, value)) ==
            ChipCommand(channelB, if gainOne then 1 else 2, true, value)
  {
    var w := Word(channelB, bit1, gainOne, value);
    assert w[4..] == Digits(value, 11);
    TwelveBitRoundTrip(value);
  }
}
