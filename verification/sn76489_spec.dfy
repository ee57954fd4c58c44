/** The register bookkeeping of the `Sn76489` sound-chip class of
    chips/Sn76489.h as functions on a value: the 16-entry command buffer
    `dac_code`, the byte-2 flag, the volume and tone caches and the pins.
    The chip write itself is a stub in the source; here every call of
    `write_to_chip` appends the buffer and the byte-2 flag it would send to a
    log, so that "the chip is written" can be stated. The class in
    sn76489.dfy is proved to follow these functions. */
module Sn76489Spec {
  import opened Transfer

  datatype Option<T> = None | Some(value: T)

  /** The four generators of the chip. */
  datatype Channel = Tone1 | Tone2 | Tone3 | Noise

  /** What one call of `write_to_chip` would send. */
  datatype ChipWrite = ChipWrite(code: seq<bool>, useByte2: bool)

  /** The class's state as a value; `pins` are WE, CE and D0..D7. */
  datatype Chip = Chip(
    code: seq<bool>,
    useByte2: bool,
    masterClock: int,
    previousVolume: int,
    previousTone: int,
    pins: seq<int>,
    log: seq<ChipWrite>)

  predicate WellFormed(c: Chip)
  {
    |c.code| == 16 && |c.pins| == 10
  }

  /** The member initialisers: a clear buffer, byte 2 in use, both caches 0
      and nothing written. The master clock and the pins have no initialiser
      and are whatever the caller says. */
  function Initial(masterClock: int, pins: seq<int>): Chip
  {
    Chip(seq(16, _ => false), true, masterClock, 0, 0, pins, [])
  }

  /** The three selector bits `use_channel_*` write to `dac_code[0..2]`:
      100, 101, 110 and 111. */
  function SelectorBits(ch: Channel): (bits: seq<bool>)
    ensures |bits| == 3 && bits[0]
  {
    match ch
    case Tone1 => [true, false, false]
    case Tone2 => [true, false, true]
    case Tone3 => [true, true, false]
    case Noise => [true, true, true]
  }

  /** The channel a buffer selects, read back from its first three bits; a
      buffer whose first bit is clear selects none. */
  function ChannelOf(code: seq<bool>): Option<Channel>
    requires |code| >= 3
  {
    if !code[0] then None
    else if !code[1] then (if !code[2] then Some(Tone1) else Some(Tone2))
    else (if !code[2] then Some(Tone3) else Some(Noise))
  }

  /** `use_channel_1()` … `use_channel_noise()`. */
  function UseChannel(c: Chip, ch: Channel): (r: Chip)
    requires WellFormed(c)
    ensures WellFormed(r)
  {
    var bits := SelectorBits(ch);
    c.(code := c.code[0 := bits[0]][1 := bits[1]][2 := bits[2]])
  }

  /** `enable_byte_2(value)`: set the flag and clear bits 8 and 9. */
  function EnableByte2(c: Chip, value: bool): (r: Chip)
    requires WellFormed(c)
    ensures WellFormed(r)
  {
    c.(useByte2 := value, code := c.code[8 := false][9 := false])
  }

  /** `write_to_chip()`: the buffer and flag are sent. */
  function WriteToChip(c: Chip): (r: Chip)
    requires WellFormed(c)
    ensures WellFormed(r)
  {
    c.(log := c.log + [ChipWrite(c.code, c.useByte2)])
  }

  /** The attenuation for a volume: the volume clamped to [0, 31], then
      inverted, so 31 is loudest and attenuation 0. */
  function Attenuation(volume: int): int
  {
    31 - TransferValueToRange(volume, 0, 31)
  }

  /** `write_volume(new_volume)`: only a changed attenuation reaches the chip
      and the cache; `map_volume_to_dac_code` only turns byte 2 off. */
  function WriteVolume(c: Chip, volume: int): (r: Chip)
    requires WellFormed(c)
    ensures WellFormed(r)
  {
    var a := Attenuation(volume);
    if a != c.previousVolume then WriteToChip(EnableByte2(c, false)).(previousVolume := a)
    else c
  }

  /** `write_tone(new_tone)`: only a changed tone reaches the chip and the
      cache; `map_tone_to_dac_code` only turns byte 2 on. */
  function WriteTone(c: Chip, tone: int): (r: Chip)
    requires WellFormed(c)
    ensures WellFormed(r)
  {
    if tone != c.previousTone then WriteToChip(EnableByte2(c, true)).(previousTone := tone)
    else c
  }

  /** `send_volume_to_channel_*(value)`, and also `send_tone_to_channel_*` as
      written, which calls `write_volume` too. */
  function SendVolume(c: Chip, ch: Channel, volume: int): (r: Chip)
    requires WellFormed(c)
    ensures WellFormed(r)
  {
    WriteVolume(UseChannel(c, ch), volume)
  }

  /** `send_tone_to_channel_*(value)` as evidently intended: through `write_tone`. */
  function SendTone(c: Chip, ch: Channel, tone: int): (r: Chip)
    requires WellFormed(c)
    ensures WellFormed(r)
  {
    WriteTone(UseChannel(c, ch), tone)
  }

  /** `turn_off_channel_*()`: volume 0. */
  function TurnOff(c: Chip, ch: Channel): (r: Chip)
    requires WellFormed(c)
    ensures WellFormed(r)
  {
    SendVolume(c, ch, 0)
  }

  //
  // Properties
  //

  /** The selector bits of a channel read back as that channel, and every
      buffer that selects a channel starts with that channel's bits: the
      encoding is one to one and covers all patterns with the first bit set. */
  lemma SelectorRoundTrip(ch: Channel, code: seq<bool>)
    requires |code| >= 3
    ensures ChannelOf(SelectorBits(ch)) == Some(ch)
    ensures ChannelOf(code).Some? <==> code[0]
    ensures ChannelOf(code).Some? ==> code[..3] == SelectorBits(ChannelOf(code).value)
  {
  }

  /** Selecting a channel sets the first three bits to its pattern and
      changes nothing else. */
  lemma UseChannelSelects(c: Chip, ch: Channel)
    requires WellFormed(c)
    ensures ChannelOf(UseChannel(c, ch).code) == Some(ch)
    ensures forall i :: 3 <= i < 16 ==> UseChannel(c, ch).code[i] == c.code[i]
    ensures UseChannel(c, ch).(code := c.code) == c
  {
    SelectorRoundTrip(ch, UseChannel(c, ch).code);
  }

  /** The attenuation is in [0, 31], is 31 - v for volumes in range, and
      turning a volume up never raises the attenuation; 31 - a turns an
      attenuation back into the volume it came from. */
  lemma AttenuationRange(v: int, w: int)
    ensures 0 <= Attenuation(v) <= 31
    ensures 0 <= v <= 31 ==> Attenuation(v) == 31 - v && 31 - Attenuation(v) == v
    ensures v <= 0 ==> Attenuation(v) == 31
    ensures v >= 31 ==> Attenuation(v) == 0
    ensures v <= w ==> Attenuation(w) <= Attenuation(v)
  {
    ClampInRange(v, 0, 31);
    if v <= w {
      ClampMonotonic(v, w, 0, 31);
    }
  }

  /** A volume write reaches the chip, with byte 2 off, exactly when the
      attenuation differs from the cached one; afterwards the cache holds the
      attenuation, and the tone cache, the selector and the pins are untouched. */
  lemma WriteVolumeCaches(c: Chip, v: int)
    requires WellFormed(c)
    ensures var r := WriteVolume(c, v);
      && r.previousVolume == Attenuation(v)
      && r.previousTone == c.previousTone && r.pins == c.pins && r.code[..3] == c.code[..3]
      && (Attenuation(v) != c.previousVolume <==> |r.log| == |c.log| + 1)
      && (Attenuation(v) == c.previousVolume ==> r == c)
      && (|r.log| == |c.log| + 1 ==> r.log[|c.log|].code[..3] == c.code[..3] && !r.log[|c.log|].useByte2)
  {
    var r := WriteVolume(c, v);
    if Attenuation(v) != c.previousVolume {
      assert r.log[|c.log|] == ChipWrite(EnableByte2(c, false).code, false);
    }
  }

  /** Writing the same volume twice writes the chip once. */
  lemma WriteVolumeIdempotent(c: Chip, v: int)
    requires WellFormed(c)
    ensures WriteVolume(WriteVolume(c, v), v) == WriteVolume(c, v)
  {
  }

  /** The volume cache is shared by the four channels: sending a volume to one
      channel right after sending the same volume to another writes nothing
      for the second, although it selects a different generator. */
  lemma SharedVolumeCache(c: Chip, ch1: Channel, ch2: Channel, v: int)
    requires WellFormed(c)
    ensures SendVolume(SendVolume(c, ch1, v), ch2, v).log == SendVolume(c, ch1, v).log
  {
  }

  /** A fresh chip never sends full volume first: volume 31 is attenuation 0,
      which equals the initial cache, so the command is dropped. */
  lemma FirstFullVolumeDropped(clock: int, pins: seq<int>, ch: Channel)
    requires |pins| == 10
    ensures SendVolume(Initial(clock, pins), ch, 31).log == []
    ensures SendVolume(Initial(clock, pins), ch, 30).log != []
  {
  }

  /** Turning a channel off sends attenuation 31, unless 31 is cached. */
  lemma TurnOffSilences(c: Chip, ch: Channel)
    requires WellFormed(c)
    ensures TurnOff(c, ch).previousVolume == 31
    ensures |TurnOff(c, ch).log| == |c.log| + (if c.previousVolume == 31 then 0 else 1)
  {
  }

  /** As written, a tone sent to a channel goes through `write_volume`: the
      tone cache never changes, and a tone is clamped into a volume. Tone 440
      on a fresh chip clamps to attenuation 0, which equals the initial volume
      cache, so nothing is written and the tone cache stays 0; the intended
      tone send writes one tone command (byte 2 on). */
  lemma ToneSentAsVolume(c: Chip, ch: Channel, tone: int, clock: int, pins: seq<int>)
    requires WellFormed(c) && |pins| == 10
    ensures SendVolume(c, ch, tone).previousTone == c.previousTone
    ensures var r := SendVolume(Initial(clock, pins), ch, 440);
      r.previousTone == 0 && r.previousVolume == 0 && r.log == []
    ensures var r := SendTone(Initial(clock, pins), ch, 440);
      r.previousTone == 440 && |r.log| == 1 && r.log[0].useByte2
  {
    assert Attenuation(440) == 0;
  }

  /** The intended tone send writes the chip, with byte 2 on and the channel
      selected, exactly when the tone differs from the cached one; the tone
      cache then holds it, and the volume cache is untouched. */
  lemma SendToneCaches(c: Chip, ch: Channel, tone: int)
    requires WellFormed(c)
    ensures var r := SendTone(c, ch, tone);
      && r.previousTone == tone && r.previousVolume == c.previousVolume
      && (tone != c.previousTone <==> |r.log| == |c.log| + 1)
      && (tone != c.previousTone ==>
            r.log[|c.log|].useByte2 && ChannelOf(r.log[|c.log|].code) == Some(ch)
            && !r.log[|c.log|].code[8] && !r.log[|c.log|].code[9])
  {
    UseChannelSelects(c, ch);
    var u := UseChannel(c, ch);
    if tone != c.previousTone {
      var e := EnableByte2(u, true);
      assert e.code[..3] == u.code[..3];
      assert SendTone(c, ch, tone).log[|c.log|] == ChipWrite(e.code, true);
    }
  }
}
