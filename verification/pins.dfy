/** Pin writes as data. A `digitalWrite(pin, level)` of the firmware is an event
    appended to a log; the bit-banged serial frame that both MCP4822 drivers send
    is a function of the 16 command bits and the pin numbers. */
module Pins {

  datatype Level = Low | High

  datatype PinEvent = Write(pin: int, level: Level)

  function LevelOf(bit: bool): Level
  {
    if bit then High else Low
  }

  /** One clocked bit: SDI set to the bit, then an SCK pulse (high, low). */
  function ClockBit(bit: bool, sck: int, sdi: int): seq<PinEvent>
  {
    [Write(sdi, LevelOf(bit)), Write(sck, High), Write(sck, Low)]
  }

  /** The bits clocked out first to last. */
  function ShiftOut(bits: seq<bool>, sck: int, sdi: int): seq<PinEvent>
  {
    if bits == [] then [] else ClockBit(bits[0], sck, sdi) + ShiftOut(bits[1..], sck, sdi)
  }

  /** The whole write: CS low, the bits, CS high, and an LDAC low-high pulse
      when the driver decides to latch. */
  function Frame(bits: seq<bool>, cs: int, sck: int, sdi: int, pulseLdac: bool, ldac: int): seq<PinEvent>
  {
    [Write(cs, Low)] + ShiftOut(bits, sck, sdi) + [Write(cs, High)]
      + (if pulseLdac then [Write(ldac, Low), Write(ldac, High)] else [])
  }

  /** Appending one bit to the bits clocked so far appends its three events;
      this is how a loop that clocks bit i after bits 0..i-1 builds `ShiftOut`. */
  lemma {:induction false} ShiftOutSnoc(bits: seq<bool>, b: bool, sck: int, sdi: int)
    ensures ShiftOut(bits + [b], sck, sdi) == ShiftOut(bits, sck, sdi) + ClockBit(b, sck, sdi)
    decreases |bits|
  {
    if bits == [] {
      assert [b][1..] == [];
    } else {
      assert (bits + [b])[0] == bits[0];
      assert (bits + [b])[1..] == bits[1..] + [b];
      ShiftOutSnoc(bits[1..], b, sck, sdi);
    }
  }

  /** A frame under construction, a leading event followed by the bits clocked
      so far, grows by one bit's events per clocked bit. */
  lemma FramePrefixSnoc(events: seq<PinEvent>, head: PinEvent, bits: seq<bool>, b: bool, sck: int, sdi: int)
    requires events == [head] + ShiftOut(bits, sck, sdi)
    ensures events + ClockBit(b, sck, sdi) == [head] + ShiftOut(bits + [b], sck, sdi)
  {
    ShiftOutSnoc(bits, b, sck, sdi);
  }

  lemma ShiftOutLength(bits: seq<bool>, sck: int, sdi: int)
    ensures |ShiftOut(bits, sck, sdi)| == 3 * |bits|
  {
  }

  //
  // The receiving side: what a chip that samples SDI on each rising SCK edge reads.
  //

  /** Bits sampled by a receiver that watches `sck` and `sdi`, starting with SDI at
      `sdiLevel`: each write to SDI changes the line, each write of High to SCK
      samples it, and writes to other pins are ignored. */
  function Receive(events: seq<PinEvent>, sck: int, sdi: int, sdiLevel: Level): seq<bool>
  {
    if events == [] then []
    else
      var e := events[0];
      if e.pin == sdi then Receive(events[1..], sck, sdi, e.level)
      else if e.pin == sck && e.level == High then [sdiLevel == High] + Receive(events[1..], sck, sdi, sdiLevel)
      else Receive(events[1..], sck, sdi, sdiLevel)
  }

  predicate Untouched(events: seq<PinEvent>, sck: int, sdi: int)
  {
    forall i :: 0 <= i < |events| ==> events[i].pin != sck && events[i].pin != sdi
  }

  lemma {:induction false} ReceiveUntouched(events: seq<PinEvent>, sck: int, sdi: int, l: Level)
    requires Untouched(events, sck, sdi)
    ensures Receive(events, sck, sdi, l) == []
    decreases |events|
  {
    if events != [] {
      assert events[0].pin != sck && events[0].pin != sdi;
      ReceiveUntouched(events[1..], sck, sdi, l);
    }
  }

  lemma {:induction false} ReceiveShiftOut(bits: seq<bool>, tail: seq<PinEvent>, sck: int, sdi: int, l: Level)
    requires sck != sdi
    requires Untouched(tail, sck, sdi)
    ensures Receive(ShiftOut(bits, sck, sdi) + tail, sck, sdi, l) == bits
    decreases |bits|
  {
    if bits == [] {
      assert ShiftOut(bits, sck, sdi) + tail == tail;
      ReceiveUntouched(tail, sck, sdi, l);
    } else {
      var rest := ShiftOut(bits[1..], sck, sdi) + tail;
      var all := ShiftOut(bits, sck, sdi) + tail;
      var b := LevelOf(bits[0]);
      assert all == [Write(sdi, b), Write(sck, High), Write(sck, Low)] + rest;
      assert all[1..] == [Write(sck, High), Write(sck, Low)] + rest;
      assert all[1..][1..] == [Write(sck, Low)] + rest;
      assert all[1..][1..][1..] == rest;
      ReceiveShiftOut(bits[1..], tail, sck, sdi, b);
      assert Receive(all[1..][1..], sck, sdi, b) == Receive(rest, sck, sdi, b);
      assert Receive(all[1..], sck, sdi, b) == [b == High] + Receive(all[1..][1..], sck, sdi, b);
      assert Receive(all, sck, sdi, l) == Receive(all[1..], sck, sdi, b);
      assert bits == [bits[0]] + bits[1..];
    }
  }

  /** The frame round-trips: with distinct CS, SCK and SDI (and an LDAC pin
      distinct from SCK and SDI when it is pulsed), the receiver reads back
      exactly the bits, in order. */
  lemma FrameReceivesBits(bits: seq<bool>, cs: int, sck: int, sdi: int, pulseLdac: bool, ldac: int, l: Level)
    requires cs != sck && cs != sdi && sck != sdi
    requires pulseLdac ==> ldac != sck && ldac != sdi
    ensures Receive(Frame(bits, cs, sck, sdi, pulseLdac, ldac), sck, sdi, l) == bits
  {
    var tail := [Write(cs, High)] + (if pulseLdac then [Write(ldac, Low), Write(ldac, High)] else []);
    var f := Frame(bits, cs, sck, sdi, pulseLdac, ldac);
    assert f == [Write(cs, Low)] + (ShiftOut(bits, sck, sdi) + tail);
    assert f[1..] == ShiftOut(bits, sck, sdi) + tail;
    ReceiveShiftOut(bits, tail, sck, sdi, l);
  }

  /** The write loop of both drivers: CS low, then for each bit SDI set to it and
      an SCK pulse, then CS high and, when `pulseLdac`, an LDAC low-high pulse.
      The writes are returned in order instead of reaching the pins. */
  method WriteFrame(bits: array<bool>, cs: int, sck: int, sdi: int, pulseLdac: bool, ldac: int)
    returns (events: seq<PinEvent>)
    ensures events == Frame(bits[..], cs, sck, sdi, pulseLdac, ldac)
  {
    events := [Write(cs, Low)];
    var i := 0;
    while i < bits.Length
      invariant 0 <= i <= bits.Length
      invariant events == [Write(cs, Low)] + ShiftOut(bits[..i], sck, sdi)
    {
      ghost var before := events;
      events := events + [Write(sdi, LevelOf(bits[i]))];
      events := events + [Write(sck, High)];
      events := events + [Write(sck, Low)];
      assert events == before + ClockBit(bits[i], sck, sdi);
      FramePrefixSnoc(before, Write(cs, Low), bits[..i], bits[i], sck, sdi);
      assert bits[..i + 1] == bits[..i] + [bits[i]];
      i := i + 1;
    }
    assert bits[..i] == bits[..];
    ghost var shifted := events;
    events := events + [Write(cs, High)];
    if pulseLdac {
      events := events + [Write(ldac, Low)];
      events := events + [Write(ldac, High)];
      assert events == shifted + [Write(cs, High)] + [Write(ldac, Low), Write(ldac, High)];
    } else {
      assert events == shifted + [Write(cs, High)] + [];
    }
  }

  /** A 16-bit frame is 50 writes, or 52 with the LDAC pulse. */
  lemma FrameLength(bits: seq<bool>, cs: int, sck: int, sdi: int, pulseLdac: bool, ldac: int)
    requires |bits| == 16
    ensures |Frame(bits, cs, sck, sdi, pulseLdac, ldac)| == (if pulseLdac then 52 else 50)
  {
    ShiftOutLength(bits, sck, sdi);
  }
}
