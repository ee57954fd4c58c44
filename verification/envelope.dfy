/** The `Envelope` class of add-ons/Envelope.h. The source derives it from
    `Timer`; here it owns a `Timer` object instead. Every stage method is proved
    to move the object exactly as the matching transition of EnvelopeSpec. */
module Envelopes {
  import opened CInt
  import opened Clock
  import ES = EnvelopeSpec

  class Envelope {
    var gateOn: bool
    const progress: array<bool>
    var wasInterrupted: bool
    var minLimit: int
    var sustainLevel: int
    var maxLimit: int
    var deltaLimit: int
    var currentValue: int
    const rate: array<int>
    const step: array<int>
    const timer: Timer

    ghost predicate Valid()
      reads this, timer
    {
      progress.Length == 4 && rate.Length == 4 && step.Length == 4 && rate != step && timer.Valid()
    }

    /** The settings as a value. */
    ghost function Config(): ES.Config
      reads this, rate, step
    {
      ES.Config(minLimit, maxLimit, deltaLimit, sustainLevel, rate[..], step[..])
    }

    /** The evolving part as a value. */
    ghost function State(): ES.State
      reads this, progress, timer
    {
      ES.State(progress[..], wasInterrupted, currentValue, timer.lastTimer)
    }

    /** The defaults of the source: range 0..4000, all rates -1 (never step),
        all steps 1 percent, idle, not interrupted. `current_value` and
        `sustain_level` have no initialiser there, so their first values are
        parameters here. */
    constructor (initialValue: int, initialSustain: int)
      ensures Valid()
      ensures Config() == ES.Config(0, 4000, 4000, initialSustain, [-1, -1, -1, -1], [1, 1, 1, 1])
      ensures State() == ES.State(ES.IDLE, false, initialValue, 0)
      ensures !gateOn && !timer.timeInMicros
      ensures fresh(progress) && fresh(rate) && fresh(step) && fresh(timer)
    {
      gateOn := false;
      progress := new bool[4](_ => false);
      wasInterrupted := false;
      minLimit := 0;
      sustainLevel := initialSustain;
      maxLimit := 4000;
      deltaLimit := 4000;
      currentValue := initialValue;
      rate := new int[4](_ => -1);
      step := new int[4](_ => 1);
      timer := new Timer();
      new;
      assert progress[..] == ES.IDLE;
      assert rate[..] == [-1, -1, -1, -1];
      assert step[..] == [1, 1, 1, 1];
    }

    /** `get_current_value()`. */
    method GetCurrentValue() returns (v: int)
      requires Valid()
      ensures v == State().value
    {
      v := currentValue;
    }

    /** `set_envelope_limits(min, max)`: the stored range becomes max - min. */
    method SetEnvelopeLimits(min: int, max: int)
      requires Valid()
      modifies this
      ensures Valid()
      ensures Config() == old(Config()).(minLimit := min, maxLimit := max, deltaLimit := max - min)
      ensures State() == old(State()) && gateOn == old(gateOn)
    {
      minLimit := min;
      maxLimit := max;
      deltaLimit := maxLimit - minLimit;
    }

    /** `set_sustain_level(level)`. */
    method SetSustainLevel(level: int)
      requires Valid()
      modifies this
      ensures Valid()
      ensures Config() == old(Config()).(sustainLevel := level)
      ensures State() == old(State()) && gateOn == old(gateOn)
    {
      sustainLevel := level;
    }

    /** `set_ADSR_rate(stage, value)`; a stage outside 0..3 would write outside the array. */
    method SetAdsrRate(stage: int, value: int)
      requires Valid() && 0 <= stage < 4
      modifies rate
      ensures Valid()
      ensures Config() == old(Config()).(rate := old(rate[..])[stage := value])
      ensures State() == old(State())
    {
      rate[stage] := value;
    }

    /** `set_ADSR_step(stage, value)`. */
    method SetAdsrStep(stage: int, value: int)
      requires Valid() && 0 <= stage < 4
      modifies step
      ensures Valid()
      ensures Config() == old(Config()).(step := old(step[..])[stage := value])
      ensures State() == old(State())
    {
      step[stage] := value;
    }

    /** `turn_on_gate()`. */
    method TurnOnGate(now: int)
      requires Valid() && IsULong(now)
      modifies this, progress, timer
      ensures Valid() && gateOn
      ensures Config() == old(Config())
      ensures State() == ES.TurnOnGate(old(Config()), old(State()), now)
      ensures timer.timeInMicros == old(timer.timeInMicros)
    {
      if currentValue > minLimit {
        wasInterrupted := true;
      }
      gateOn := true;
      progress[0] := true;
      progress[1] := false;
      progress[2] := false;
      progress[3] := false;
      timer.ResetTimer(now);
      assert progress[..] == ES.ATTACK_ONLY;
    }

    /** `turn_off_gate()`. */
    method TurnOffGate(now: int)
      requires Valid() && IsULong(now)
      modifies this, progress, timer
      ensures Valid() && !gateOn
      ensures Config() == old(Config())
      ensures State() == ES.TurnOffGate(old(Config()), old(State()), now)
      ensures timer.timeInMicros == old(timer.timeInMicros)
    {
      gateOn := false;
      progress[0] := false;
      progress[1] := false;
      progress[2] := false;
      progress[3] := true;
      timer.ResetTimer(now);
      assert progress[..] == ES.RELEASE_ONLY;
    }

    /** `end_ADSR_safely()`. */
    method EndAdsrSafely()
      requires Valid()
      modifies this
      ensures Valid() && gateOn == old(gateOn)
      ensures Config() == old(Config())
      ensures State() == ES.EndAdsrSafely(old(Config()), old(State()))
    {
      currentValue := currentValue - CDiv(15 * deltaLimit, 100);
      if currentValue <= minLimit {
        currentValue := minLimit;
        wasInterrupted := false;
      }
    }

    /** `continue_attack_as_normal()`. */
    method ContinueAttackAsNormal(now: int)
      requires Valid() && IsULong(now)
      modifies this, progress, timer
      ensures Valid() && gateOn == old(gateOn)
      ensures Config() == old(Config())
      ensures State() == ES.ContinueAttackAsNormal(old(Config()), old(State()), now)
      ensures timer.timeInMicros == old(timer.timeInMicros)
    {
      var elapsed := timer.GetTimer(now);
      if elapsed > ToULong(rate[0]) {
        currentValue := currentValue + CDiv(step[0] * deltaLimit, 100);
        if currentValue >= maxLimit {
          currentValue := maxLimit;
          progress[0] := false;
          progress[1] := true;
          progress[2] := false;
          progress[3] := false;
          assert progress[..] == ES.DECAY_ONLY;
        }
        timer.ResetTimer(now);
      }
    }

    /** `attack()`: easing out an interrupted envelope comes first. */
    method Attack(now: int)
      requires Valid() && IsULong(now)
      modifies this, progress, timer
      ensures Valid() && gateOn == old(gateOn)
      ensures Config() == old(Config())
      ensures State() == ES.Attack(old(Config()), old(State()), now)
      ensures timer.timeInMicros == old(timer.timeInMicros)
    {
      if wasInterrupted {
        EndAdsrSafely();
      } else {
        ContinueAttackAsNormal(now);
      }
    }

    /** `decay()`. */
    method Decay(now: int)
      requires Valid() && IsULong(now)
      modifies this, progress, timer
      ensures Valid() && gateOn == old(gateOn)
      ensures Config() == old(Config())
      ensures State() == ES.Decay(old(Config()), old(State()), now)
      ensures timer.timeInMicros == old(timer.timeInMicros)
    {
      var elapsed := timer.GetTimer(now);
      if elapsed > ToULong(rate[1]) {
        currentValue := currentValue - CDiv(step[1] * deltaLimit, 100);
        if currentValue <= sustainLevel {
          currentValue := sustainLevel;
          progress[0] := false;
          progress[1] := false;
          progress[2] := true;
          progress[3] := false;
          assert progress[..] == ES.SUSTAIN_ONLY;
        }
        timer.ResetTimer(now);
      }
    }

    /** `sustain()`: nothing happens while the gate is held. */
    method Sustain()
      requires Valid()
      ensures State() == old(State())
    {
    }

    /** `release()`. */
    method Release(now: int)
      requires Valid() && IsULong(now)
      modifies this, progress, timer
      ensures Valid() && gateOn == old(gateOn)
      ensures Config() == old(Config())
      ensures State() == ES.Release(old(Config()), old(State()), now)
      ensures timer.timeInMicros == old(timer.timeInMicros)
    {
      var elapsed := timer.GetTimer(now);
      if elapsed > ToULong(rate[3]) {
        currentValue := currentValue - CDiv(step[3] * deltaLimit, 100);
        if currentValue <= minLimit {
          currentValue := minLimit;
          progress[0] := false;
          progress[1] := false;
          progress[2] := false;
          progress[3] := false;
          assert progress[..] == ES.IDLE;
        }
        timer.ResetTimer(now);
      }
    }

    /** `advance_envelope()`: one tick of the host loop. */
    method AdvanceEnvelope(now: int)
      requires Valid() && IsULong(now)
      modifies this, progress, timer
      ensures Valid() && gateOn == old(gateOn)
      ensures Config() == old(Config())
      ensures State() == ES.AdvanceEnvelope(old(Config()), old(State()), now)
      ensures timer.timeInMicros == old(timer.timeInMicros)
    {
      if progress[0] {
        Attack(now);
      } else if progress[1] {
        Decay(now);
      } else if progress[2] {
        Sustain();
      } else if progress[3] {
        Release(now);
      }
    }
  }
}
