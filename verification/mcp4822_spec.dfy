/** What the `Mcp4822` driver of backend/Mcp4822.h does, as functions on a
    value holding its state; the class in mcp4822.dfy is proved to follow them.
    The lemmas state what a send means for the chip. */
module Mcp4822Spec {
  import opened CInt
  import opened Power
  import opened Pins
  import opened DacCodec
  import opened Transfer

  /** The driver's state as a value. */
  datatype Dac = Dac(
    cs: int, sck: int, sdi: int, ldac: int,
    code: seq<bool>,
    gain: int,
    lastMv: int,
    wire: seq<PinEvent>)

  predicate WellFormed(d: Dac)
  {
    |d.code| == 16
  }

  /** The gain chosen for a clamped voltage: 2 strictly above 2048 mV. */
  function GainFor(mV: int): int
  {
    if mV > 2048 then 2 else 1
  }

  /** The word `update_dac_code` builds for a voltage, keeping the unwritten bit 1:
      the 12-bit field receives 2 * mV / gain. */
  function EncodeAsWritten(channelB: bool, bit1: bool, mV: int): (w: seq<bool>)
    ensures |w| == 16
  {
    var g := GainFor(mV);
    Word(channelB, bit1, g == 1, CDiv(2 * mV, g))
  }

  function UpdateDacCode(d: Dac, mV: int, useB: bool): (r: Dac)
    requires WellFormed(d)
    ensures WellFormed(r)
  {
    d.(code := EncodeAsWritten(useB, d.code[1], mV), gain := GainFor(mV))
  }

  /** `write_dac_code()`: the frame, with the LDAC pulse when `pin_ldac > -1`. */
  function WriteDacCode(d: Dac): (r: Dac)
    requires WellFormed(d)
    ensures WellFormed(r)
  {
    d.(wire := d.wire + Frame(d.code, d.cs, d.sck, d.sdi, d.ldac > -1, d.ldac))
  }

  /** The voltage actually encoded: clamped to [0, 4095]. */
  function ClampMv(mV: int): int
  {
    TransferValueToRange(mV, 0, 4095)
  }

  /** `send_to_dac(mV, use_channel_B)`. */
  function SendToDac(d: Dac, mV: int, useB: bool): (r: Dac)
    requires WellFormed(d)
    ensures WellFormed(r)
  {
    if d.cs > -1 then
      var v := ClampMv(mV);
      if v != d.lastMv then WriteDacCode(UpdateDacCode(d, v, useB)).(lastMv := v)
      else d
    else d
  }

  //
  // Properties of a send
  //

  /** With the chip-select pin left at -1 a send does nothing at all. */
  lemma SendWithoutCsIsSkipped(d: Dac, mV: int, useB: bool)
    requires WellFormed(d) && d.cs <= -1
    ensures SendToDac(d, mV, useB) == d
  {
  }

  /** With a chip-select pin, a frame goes out, and the cache takes the clamped
      voltage, exactly when the clamped voltage differs from the cached one;
      otherwise nothing changes. Pins never change. */
  lemma SendWritesIffChanged(d: Dac, mV: int, useB: bool)
    requires WellFormed(d) && d.cs > -1
    ensures 0 <= SendToDac(d, mV, useB).lastMv <= 4095 || SendToDac(d, mV, useB) == d
    ensures SendToDac(d, mV, useB).wire != d.wire <==> ClampMv(mV) != d.lastMv
    ensures ClampMv(mV) != d.lastMv ==> SendToDac(d, mV, useB).lastMv == ClampMv(mV)
    ensures ClampMv(mV) == d.lastMv ==> SendToDac(d, mV, useB) == d
  {
    var v := ClampMv(mV);
    if v != d.lastMv {
      var u := UpdateDacCode(d, v, useB);
      assert |Frame(u.code, u.cs, u.sck, u.sdi, u.ldac > -1, u.ldac)| > 0;
    }
  }

  /** The cache is shared by the two channels: sending a voltage to channel B
      right after sending the same voltage to channel A emits nothing, and
      channel B keeps its old output. */
  lemma SharedCacheSkipsOtherChannel(d: Dac, mV: int)
    requires WellFormed(d) && d.cs > -1
    ensures SendToDac(SendToDac(d, mV, false), mV, true) == SendToDac(d, mV, false)
  {
  }

  /** Repeating a send changes nothing. */
  lemma SendIsIdempotent(d: Dac, mV: int, useB: bool)
    requires WellFormed(d)
    ensures SendToDac(SendToDac(d, mV, useB), mV, useB) == SendToDac(d, mV, useB)
  {
  }

  /** The control bits of a written word: bit 0 the channel, bit 1 untouched,
      bit 2 clear (gain 2) exactly above 2048 mV, bit 3 set. */
  lemma ControlBits(d: Dac, mV: int, useB: bool)
    requires WellFormed(d)
    ensures UpdateDacCode(d, mV, useB).code[0] == useB
    ensures UpdateDacCode(d, mV, useB).code[1] == d.code[1]
    ensures UpdateDacCode(d, mV, useB).code[2] <==> mV <= 2048
    ensures UpdateDacCode(d, mV, useB).gain == (if mV > 2048 then 2 else 1)
    ensures UpdateDacCode(d, mV, useB).code[3]
  {
    var w := EncodeAsWritten(useB, d.code[1], mV);
    assert w[..4] == [useB, d.code[1], mV <= 2048, true];
  }

  /** As written, the 12-bit field fits and, times the gain, is twice the
      voltage, for every clamped voltage except 2048 mV. */
  lemma AsWrittenField(v: int)
    requires 0 <= v <= 4095 && v != 2048
    ensures 0 <= CDiv(2 * v, GainFor(v)) < 4096 && CDiv(2 * v, GainFor(v)) * GainFor(v) * 500 == 1000 * v
  {
    if v > 2048 {
      assert CDiv(2 * v, 2) == v;
    } else {
      assert CDiv(2 * v, 1) == 2 * v;
    }
  }

  /** Every clamped voltage except 2048 mV is reproduced exactly by the chip. */
  lemma AsWrittenOutputExact(channelB: bool, bit1: bool, mV: int)
    requires 0 <= mV <= 4095 && mV != 2048
    ensures Interpret(EncodeAsWritten(channelB, bit1, mV)).channelB == channelB
    ensures Interpret(EncodeAsWritten(channelB, bit1, mV)).active
    ensures OutputMicroVolts(Interpret(EncodeAsWritten(channelB, bit1, mV))) == 1000 * mV
  {
    AsWrittenField(mV);
    InterpretWord(channelB, bit1, GainFor(mV) == 1, CDiv(2 * mV, GainFor(mV)));
  }

  /** At 2048 mV the gain stays 1 and the field receives 4096, which does not
      fit in 12 bits: the chip reads code 2048 and outputs 1024 mV. */
  lemma HalfVoltageAt2048(channelB: bool, bit1: bool, mV: int)
    requires mV == 2048
    ensures CDiv(2 * mV, GainFor(mV)) == 4096
    ensures Interpret(EncodeAsWritten(channelB, bit1, mV)).code == 2048
    ensures OutputMicroVolts(Interpret(EncodeAsWritten(channelB, bit1, mV))) == 1000 * 1024
  {
    var value := CDiv(2 * mV, GainFor(mV));
    TwelveBitOverflow(value);
  }

  /** The evidently intended encoding: gain 2 from 2048 mV upward, so that the
      12-bit field always receives a value below 4096. */
  function EncodeCorrected(channelB: bool, bit1: bool, mV: int): (w: seq<bool>)
    ensures |w| == 16
  {
    var v := ClampMv(mV);
    var g := if v >= 2048 then 2 else 1;
    Word(channelB, bit1, g == 1, CDiv(2 * v, g))
  }

  /** The 12-bit field chosen with the corrected threshold fits and, times the
      gain, is twice the voltage. */
  lemma CorrectedField(v: int)
    requires 0 <= v <= 4095
    ensures var g := if v >= 2048 then 2 else 1;
      0 <= CDiv(2 * v, g) < 4096 && CDiv(2 * v, g) * g * 500 == 1000 * v
  {
    if v >= 2048 {
      assert CDiv(2 * v, 2) == v;
    } else {
      assert CDiv(2 * v, 1) == 2 * v;
    }
  }

  /** With the corrected threshold every requested voltage is reproduced
      exactly after clamping to [0, 4095]. */
  lemma CorrectedOutputExact(channelB: bool, bit1: bool, mV: int)
    ensures Interpret(EncodeCorrected(channelB, bit1, mV)).channelB == channelB
    ensures Interpret(EncodeCorrected(channelB, bit1, mV)).active
    ensures OutputMicroVolts(Interpret(EncodeCorrected(channelB, bit1, mV))) == 1000 * ClampMv(mV)
  {
    var v := ClampMv(mV);
    var g := if v >= 2048 then 2 else 1;
    CorrectedField(v);
    InterpretWord(channelB, bit1, g == 1, CDiv(2 * v, g));
  }

  /** What the chip sees of a send that goes out: with distinct CS, SCK and SDI
      pins, and an LDAC pin apart from SCK and SDI when one is set, the appended events carry the new word, and the channel picked
      outputs the clamped voltage unless that voltage is 2048 mV. */
  lemma SentFrameReachesChip(d: Dac, mV: int, useB: bool, l: Level)
    requires WellFormed(d) && d.cs > -1
    requires d.cs != d.sck && d.cs != d.sdi && d.sck != d.sdi
    requires d.ldac > -1 ==> d.ldac != d.sck && d.ldac != d.sdi
    requires ClampMv(mV) != d.lastMv
    ensures var r := SendToDac(d, mV, useB);
      && r.wire[..|d.wire|] == d.wire
      && Receive(r.wire[|d.wire|..], d.sck, d.sdi, l) == r.code
      && Interpret(r.code).channelB == useB
      && (ClampMv(mV) != 2048 ==> OutputMicroVolts(Interpret(r.code)) == 1000 * ClampMv(mV))
  {
    var v := ClampMv(mV);
    var u := UpdateDacCode(d, v, useB);
    var f := Frame(u.code, u.cs, u.sck, u.sdi, u.ldac > -1, u.ldac);
    var r := SendToDac(d, mV, useB);
    assert r.wire == d.wire + f;
    assert r.wire[|d.wire|..] == f;
    FrameReceivesBits(u.code, u.cs, u.sck, u.sdi, u.ldac > -1, u.ldac, l);
    if v != 2048 {
      AsWrittenOutputExact(useB, d.code[1], v);
    }
  }
}
