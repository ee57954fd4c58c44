/** The `Mcp4822` driver class of backend/Mcp4822.h. Pin writes are appended
    to the `wire` log instead of reaching hardware; the debug printing is not
    modelled. */
module Mcp4822Driver {
  import opened CInt
  import opened Power
  import opened Pins
  import opened DacCodec
  import MS = Mcp4822Spec

  /** The clamp at the head of `send_to_dac`: below 0 becomes 0, above 4095
      becomes 4095. */
  method ClampToDacRange(mV: int) returns (v: int)
    ensures v == MS.ClampMv(mV)
    ensures 0 <= v <= 4095
    ensures 0 <= mV <= 4095 ==> v == mV
  {
    v := mV;
    if v < 0 {
      v := 0;
    }
    if v > 4095 {
      v := 4095;
    }
  }

  class Mcp4822 {
    var pinCs: int
    var pinSck: int
    var pinSdi: int
    var pinLdac: int
    const dacCode: array<bool>
    var gain: int
    var lastMvOut: int
    /** Every pin write made so far, oldest first. */
    var wire: seq<PinEvent>

    ghost predicate Valid()
      reads this
    {
      dacCode.Length == 16
    }

    ghost function State(): MS.Dac
      reads this, dacCode
    {
      MS.Dac(pinCs, pinSck, pinSdi, pinLdac, dacCode[..], gain, lastMvOut, wire)
    }

    /** The defaults: every pin -1, all bits clear, gain 1, cache 0, no writes yet. */
    constructor ()
      ensures Valid() && fresh(dacCode)
      ensures State() == MS.Dac(-1, -1, -1, -1, seq(16, _ => false), 1, 0, [])
    {
      pinCs, pinSck, pinSdi, pinLdac := -1, -1, -1, -1;
      dacCode := new bool[16](_ => false);
      gain := 1;
      lastMvOut := 0;
      wire := [];
    }

    /** `enable_channel_A()`. */
    method EnableChannelA()
      requires Valid()
      modifies dacCode
      ensures dacCode[..] == old(dacCode[..])[0 := false]
    {
      dacCode[0] := false;
    }

    /** `enable_channel_B()`. */
    method EnableChannelB()
      requires Valid()
      modifies dacCode
      ensures dacCode[..] == old(dacCode[..])[0 := true]
    {
      dacCode[0] := true;
    }

    /** `enable_gain()`: clears the inverted gain bit. */
    method EnableGain()
      requires Valid()
      modifies this, dacCode
      ensures Valid()
      ensures State() == old(State()).(code := old(dacCode[..])[2 := false], gain := 2)
    {
      dacCode[2] := false;
      gain := 2;
    }

    /** `disable_gain()`: sets the inverted gain bit. */
    method DisableGain()
      requires Valid()
      modifies this, dacCode
      ensures Valid()
      ensures State() == old(State()).(code := old(dacCode[..])[2 := true], gain := 1)
    {
      dacCode[2] := true;
      gain := 1;
    }

    /** `turn_on_dac()`: sets the inverted shutdown bit. */
    method TurnOnDac()
      requires Valid()
      modifies dacCode
      ensures dacCode[..] == old(dacCode[..])[3 := true]
    {
      dacCode[3] := true;
    }

    /** `map_dac_value_to_dac_code(value)`: the countdown loop over the places
        2^11 .. 2^0 writes positions 4 .. 15 of `dac_code`. */
    method MapDacValueToDacCode(value: int)
      requires Valid()
      modifies dacCode
      ensures dacCode[..] == old(dacCode[..4]) + Digits(value, 11)
    {
      WriteCodeBits(dacCode, value);
    }

    /** `update_dac_code(mV_out, use_channel_B)`. */
    method UpdateDacCode(mV: int, useB: bool)
      requires Valid()
      modifies this, dacCode
      ensures Valid()
      ensures State() == MS.UpdateDacCode(old(State()), mV, useB)
    {
      TurnOnDac();
      if useB {
        EnableChannelB();
      } else {
        EnableChannelA();
      }
      if mV > 2048 {
        EnableGain();
      } else {
        DisableGain();
      }
      var dacValue := CDiv(2 * mV, gain);
      ghost var head := dacCode[..4];
      assert head == [useB, old(dacCode[1]), gain == 1, true];
      MapDacValueToDacCode(dacValue);
      assert dacCode[..] == Word(useB, old(dacCode[1]), gain == 1, dacValue);
    }

    /** `write_dac_code()`: CS low, 16 clocked bits, CS high, then the LDAC
        pulse when an LDAC pin is set (`pin_LDAC > -1`). */
    method WriteDacCode()
      requires Valid()
      modifies this
      ensures Valid()
      ensures State() == MS.WriteDacCode(old(State()))
    {
      var events := WriteFrame(dacCode, pinCs, pinSck, pinSdi, pinLdac > -1, pinLdac);
      wire := wire + events;
    }

    /** `send_to_dac(mV_out, use_channel_B)`. */
    method SendToDac(mV: int, useB: bool)
      requires Valid()
      modifies this, dacCode
      ensures Valid()
      ensures State() == MS.SendToDac(old(State()), mV, useB)
    {
      if pinCs > -1 {
        var v := ClampToDacRange(mV);
        if v != lastMvOut {
          ghost var s0 := State();
          UpdateDacCode(v, useB);
          ghost var s1 := State();
          assert s1 == MS.UpdateDacCode(s0, v, useB);
          WriteDacCode();
          ghost var s2 := State();
          assert s2 == MS.WriteDacCode(s1);
          lastMvOut := v;
          assert State() == s2.(lastMv := v);
        }
      }
    }

    /** `set_pins(cs, sck, sdi, ldac)`. */
    method SetPins(cs: int, sck: int, sdi: int, ldac: int)
      requires Valid()
      modifies this
      ensures Valid()
      ensures State() == old(State()).(cs := cs, sck := sck, sdi := sdi, ldac := ldac)
    {
      pinCs, pinSck, pinSdi, pinLdac := cs, sck, sdi, ldac;
    }

    /** `send_to_channel_A(mV_out)`. */
    method SendToChannelA(mV: int)
      requires Valid()
      modifies this, dacCode
      ensures Valid()
      ensures State() == MS.SendToDac(old(State()), mV, false)
    {
      SendToDac(mV, false);
    }

    /** `send_to_channel_B(mV_out)`. */
    method SendToChannelB(mV: int)
      requires Valid()
      modifies this, dacCode
      ensures Valid()
      ensures State() == MS.SendToDac(old(State()), mV, true)
    {
      SendToDac(mV, true);
    }
  }
}
