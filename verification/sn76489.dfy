/** The `Sn76489` class of chips/Sn76489.h. The selectors write the command
    buffer in place and the volume and tone writers update their caches;
    every call of the `write_to_chip` stub is recorded in `log`. */
module Sn76489Driver {
  import opened Transfer
  import opened Sn76489Spec

  class Sn76489 {
    /** WE, CE and D0..D7. */
    var pins: seq<int>
    const dacCode: array<bool>
    var useByte2: bool
    var masterClock: int
    var previousVolume: int
    var previousTone: int
    /** What each call of `write_to_chip` would have sent, oldest first. */
    var log: seq<ChipWrite>

    ghost predicate Valid()
      reads this
    {
      dacCode.Length == 16 && |pins| == 10
    }

    ghost function State(): Chip
      reads this, dacCode
    {
      Chip(dacCode[..], useByte2, masterClock, previousVolume, previousTone, pins, log)
    }

    /** The member initialisers; the master clock and the pins, which have
        none, are parameters. */
    constructor (clock: int, pins0: seq<int>)
      requires |pins0| == 10
      ensures Valid() && fresh(dacCode)
      ensures State() == Initial(clock, pins0)
    {
      pins := pins0;
      dacCode := new bool[16](_ => false);
      useByte2 := true;
      masterClock := clock;
      previousVolume := 0;
      previousTone := 0;
      log := [];
      new;
      assert dacCode[..] == seq(16, _ => false);
    }

    /** `enable_byte_2(value)`. */
    method EnableByte2(value: bool)
      requires Valid()
      modifies this, dacCode
      ensures Valid()
      ensures State() == Sn76489Spec.EnableByte2(old(State()), value)
    {
      useByte2 := value;
      dacCode[8] := false;
      dacCode[9] := false;
    }

    /** `use_channel_1()`, `use_channel_2()`, `use_channel_3()` and
        `use_channel_noise()`. */
    method UseChannel(ch: Channel)
      requires Valid()
      modifies dacCode
      ensures Valid()
      ensures State() == Sn76489Spec.UseChannel(old(State()), ch)
    {
      match ch {
        case Tone1 =>
          dacCode[0] := true;
          dacCode[1] := false;
          dacCode[2] := false;
        case Tone2 =>
          dacCode[0] := true;
          dacCode[1] := false;
          dacCode[2] := true;
        case Tone3 =>
          dacCode[0] := true;
          dacCode[1] := true;
          dacCode[2] := false;
        case Noise =>
          dacCode[0] := true;
          dacCode[1] := true;
          dacCode[2] := true;
      }
    }

    /** `write_to_chip()`. */
    method WriteToChip()
      requires Valid()
      modifies this
      ensures Valid()
      ensures State() == Sn76489Spec.WriteToChip(old(State()))
    {
      log := log + [ChipWrite(dacCode[..], useByte2)];
    }

    /** `map_volume_to_dac_code()`: byte 2 off; the volume bits are not
        filled in by the source. */
    method MapVolumeToDacCode()
      requires Valid()
      modifies this, dacCode
      ensures Valid()
      ensures State() == Sn76489Spec.EnableByte2(old(State()), false)
    {
      EnableByte2(false);
    }

    /** `map_tone_to_dac_code()`: byte 2 on; the tone bits are not filled in
        by the source. */
    method MapToneToDacCode()
      requires Valid()
      modifies this, dacCode
      ensures Valid()
      ensures State() == Sn76489Spec.EnableByte2(old(State()), true)
    {
      EnableByte2(true);
    }

    /** `write_volume(new_volume)`. */
    method WriteVolume(newVolume: int)
      requires Valid()
      modifies this, dacCode
      ensures Valid()
      ensures State() == Sn76489Spec.WriteVolume(old(State()), newVolume)
    {
      var v := TransferValueToRange(newVolume, 0, 31);
      v := 31 - v;
      if v != previousVolume {
        MapVolumeToDacCode();
        WriteToChip();
        previousVolume := v;
      }
    }

    /** `write_tone(new_tone)`. */
    method WriteTone(newTone: int)
      requires Valid()
      modifies this, dacCode
      ensures Valid()
      ensures State() == Sn76489Spec.WriteTone(old(State()), newTone)
    {
      if newTone != previousTone {
        MapToneToDacCode();
        WriteToChip();
        previousTone := newTone;
      }
    }

    /** `set_pins(we, ce, d0, …, d7)`. */
    method SetPins(we: int, ce: int, d0: int, d1: int, d2: int, d3: int, d4: int, d5: int, d6: int, d7: int)
      requires Valid()
      modifies this
      ensures Valid()
      ensures State() == old(State()).(pins := [we, ce, d0, d1, d2, d3, d4, d5, d6, d7])
    {
      pins := [we, ce, d0, d1, d2, d3, d4, d5, d6, d7];
    }

    /** `set_master_clock(value)`. */
    method SetMasterClock(value: int)
      requires Valid()
      modifies this
      ensures Valid()
      ensures State() == old(State()).(masterClock := value)
    {
      masterClock := value;
    }

    /** `send_volume_to_channel_*(value)`. */
    method SendVolumeToChannel(ch: Channel, value: int)
      requires Valid()
      modifies this, dacCode
      ensures Valid()
      ensures State() == SendVolume(old(State()), ch, value)
    {
      UseChannel(ch);
      WriteVolume(value);
    }

    /** `send_tone_to_channel_*(value)` as written: it selects the channel and
        calls `write_volume`, which is all `send_volume_to_channel_*` does. */
    method SendToneToChannelAsWritten(ch: Channel, value: int)
      requires Valid()
      modifies this, dacCode
      ensures Valid()
      ensures State() == SendVolume(old(State()), ch, value)
      ensures previousTone == old(previousTone)
    {
      SendVolumeToChannel(ch, value);
    }

    /** `send_tone_to_channel_*(value)` through `write_tone`. */
    method SendToneToChannel(ch: Channel, value: int)
      requires Valid()
      modifies this, dacCode
      ensures Valid()
      ensures State() == SendTone(old(State()), ch, value)
      ensures previousTone == value && previousVolume == old(previousVolume)
    {
      UseChannel(ch);
      WriteTone(value);
    }

    /** `turn_off_channel_*()`. */
    method TurnOffChannel(ch: Channel)
      requires Valid()
      modifies this, dacCode
      ensures Valid()
      ensures State() == TurnOff(old(State()), ch)
      ensures previousVolume == 31
    {
      SendVolumeToChannel(ch, 0);
    }
  }
}
