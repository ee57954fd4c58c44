/** The older MCP4822 driver of no_attack_release/mcp4822.h: two free functions
    working on a caller's `bool[16]` array. It differs from the class driver in
    three places: the voltage is clamped to [0, 4096] instead of [0, 4095], the
    12-bit value is computed as 4096 * v / gain / 2048, and the LDAC pulse is
    guarded by `PIN_LDAC > 0` instead of `> -1`. The verbose printing and the
    trailing `delay(1)` are not modelled. */
module Mcp4822Legacy {
  import opened CInt
  import opened Power
  import opened Transfer
  import opened Pins
  import opened DacCodec
  import MS = Mcp4822Spec

  /** The clamp of this driver: 4096 is allowed. */
  function ClampVolt(outVolt: int): int
  {
    TransferValueToRange(outVolt, 0, 4096)
  }

  /** The 12-bit value, `long_base * outVolt / gain / 2048` with `long_base`
      = 2^12, evaluated left to right in `long`. */
  function DacValue(v: int): int
  {
    CDiv(CDiv(4096 * v, MS.GainFor(v)), 2048)
  }

  /** The array after `update_dac_code(data, outVolt, channel)`: the channel,
      the untouched bit 1, the inverted gain bit, the active bit, and the digits
      of 2 * v / gain, which is what `DacValue` computes for every clamped
      voltage (`DacValueIsTwiceOverGain`). This is the word the class driver
      builds, for the voltage clamped to [0, 4096]. */
  function Encode(data: seq<bool>, outVolt: int, channel: bool): (w: seq<bool>)
    requires |data| == 16
    ensures |w| == 16
  {
    MS.EncodeAsWritten(channel, data[1], ClampVolt(outVolt))
  }

  /** The clamp at the head of `update_dac_code`. */
  method ClampToLegacyRange(outVolt: int) returns (v: int)
    ensures v == ClampVolt(outVolt)
    ensures 0 <= v <= 4096
  {
    v := outVolt;
    if v < 0 {
      v := 0;
    }
    if v > 4096 {
      v := 4096;
    }
  }

  /** `update_dac_code(data, outVolt, channel)`. The `long` argument is a 32-bit value. */
  method UpdateDacCode(data: array<bool>, outVolt: int, channel: bool)
    requires data.Length == 16 && IsLong(outVolt)
    modifies data
    ensures data[..] == Encode(old(data[..]), outVolt, channel)
  {
    var v := ClampToLegacyRange(outVolt);
    var gain := 1;
    data[0] := channel;
    if v > 2048 {
      data[2] := false;
      gain := 2;
    } else {
      data[2] := true;
    }
    data[3] := true;
    PowTwelveFitsLong();
    var longBase := PowerLong(2, 12);
    assert IsLong(longBase * v);
    var dacCode := CDiv(CDiv(longBase * v, gain), 2048);
    DacValueIsTwiceOverGain(v);
    assert dacCode == CDiv(2 * v, MS.GainFor(v));
    ghost var head := data[..4];
    assert head == [channel, old(data[1]), gain == 1, true];
    WriteCodeBits(data, dacCode);
  }

  lemma PowTwelveFitsLong()
    ensures Pow(2, 12) == 4096 && IsLong(Pow(2, 12))
  {
    PowTwoPlaceValues(11);
  }

  /** `write_dac_code(data, PIN_CS, PIN_SCK, PIN_SDI, PIN_LDAC)`: the frame, with
      the LDAC pulse only for a pin number above 0. `data` is not changed. */
  method WriteDacCode(data: array<bool>, cs: int, sck: int, sdi: int, ldac: int)
    returns (events: seq<PinEvent>)
    requires data.Length == 16
    ensures events == Frame(data[..], cs, sck, sdi, ldac > 0, ldac)
    ensures |events| == (if ldac > 0 then 52 else 50)
  {
    events := WriteFrame(data, cs, sck, sdi, ldac > 0, ldac);
    FrameLength(data[..], cs, sck, sdi, ldac > 0, ldac);
  }

  //
  // Properties
  //

  /** The value computed through 4096 and 2048 is the class driver's 2 * v / gain. */
  lemma DacValueIsTwiceOverGain(v: int)
    requires v >= 0
    ensures DacValue(v) == CDiv(2 * v, MS.GainFor(v))
  {
    if v > 2048 {
      assert CDiv(4096 * v, 2) == 2048 * v;
      assert CDiv(2048 * v, 2048) == v;
      assert CDiv(2 * v, 2) == v;
    } else {
      assert CDiv(4096 * v, 1) == 4096 * v;
      assert CDiv(4096 * v, 2048) == 2 * v;
    }
  }

  /** The control bits: channel in bit 0, bit 1 untouched, bit 2 clear (gain 2)
      exactly above 2048 mV after the clamp, bit 3 set. */
  lemma ControlBits(data: seq<bool>, outVolt: int, channel: bool)
    requires |data| == 16
    ensures Encode(data, outVolt, channel)[0] == channel
    ensures Encode(data, outVolt, channel)[1] == data[1]
    ensures Encode(data, outVolt, channel)[2] <==> ClampVolt(outVolt) <= 2048
    ensures Encode(data, outVolt, channel)[3]
  {
  }

  /** The chip reproduces every clamped voltage exactly except 2048 and 4096 mV,
      where the value 4096 overflows the 12-bit field and the chip outputs half
      the voltage. */
  lemma OutputOfEncode(data: seq<bool>, outVolt: int, channel: bool)
    requires |data| == 16
    ensures Interpret(Encode(data, outVolt, channel)).channelB == channel
    ensures Interpret(Encode(data, outVolt, channel)).active
    ensures ClampVolt(outVolt) != 2048 && ClampVolt(outVolt) != 4096 ==>
            OutputMicroVolts(Interpret(Encode(data, outVolt, channel))) == 1000 * ClampVolt(outVolt)
    ensures ClampVolt(outVolt) == 2048 || ClampVolt(outVolt) == 4096 ==>
            OutputMicroVolts(Interpret(Encode(data, outVolt, channel))) == 500 * ClampVolt(outVolt)
  {
    var v := ClampVolt(outVolt);
    var c := Interpret(Encode(data, outVolt, channel));
    if v == 4096 {
      FullScaleOverflow(data, outVolt, channel);
      assert OutputMicroVolts(c) == 2048 * 2 * 500;
    } else {
      assert v == MS.ClampMv(outVolt);
      if v == 2048 {
        MS.HalfVoltageAt2048(channel, data[1], v);
      } else {
        MS.AsWrittenOutputExact(channel, data[1], v);
      }
    }
  }

  /** From 4096 mV upward the gain is 2 and the value 4096, which the chip reads
      as 2048: the output is 2048 mV instead of 4096 mV. */
  lemma FullScaleOverflow(data: seq<bool>, outVolt: int, channel: bool)
    requires |data| == 16 && outVolt >= 4096
    ensures DacValue(ClampVolt(outVolt)) == 4096
    ensures Interpret(Encode(data, outVolt, channel)).gain == 2
    ensures Interpret(Encode(data, outVolt, channel)).code == 2048
  {
    var v := ClampVolt(outVolt);
    assert v == 4096;
    DacValueIsTwiceOverGain(v);
    var value := CDiv(2 * v, MS.GainFor(v));
    assert value == 4096;
    TwelveBitOverflow(value);
  }

  /** The two LDAC guards disagree only for pin 0: the class driver pulses it,
      this driver does not. */
  lemma LdacGuardsDifferOnlyAtPinZero(bits: seq<bool>, cs: int, sck: int, sdi: int, ldac: int)
    requires |bits| == 16
    ensures Frame(bits, cs, sck, sdi, ldac > -1, ldac) == Frame(bits, cs, sck, sdi, ldac > 0, ldac)
            <==> ldac != 0
  {
    if ldac == 0 {
      FrameLength(bits, cs, sck, sdi, true, ldac);
      FrameLength(bits, cs, sck, sdi, false, ldac);
    }
  }
}
