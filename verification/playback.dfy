/** The `Playback` class of add-ons/Playback.h. The source derives it from
    `Timer`; here it owns a `Timer` object instead. The audio array the source
    points at is a sequence field, since the player never writes to it. Every
    method is proved to move the object as the matching transition of
    PlaybackSpec. */
module Playbacks {
  import opened CInt
  import opened Clock
  import opened Maps
  import PS = PlaybackSpec

  class Playback {
    var rate: int
    var step: int
    var audio: seq<int>
    var audioLength: int
    var value: int
    var position: int
    var start: int
    var restarting: bool
    var increment: int
    var paused: bool
    var looping: bool
    const timer: Timer

    ghost predicate Valid()
      reads this, timer
    {
      timer.Valid()
    }

    /** Everything but the audio as a value. */
    ghost function State(): PS.State
      reads this, timer
    {
      PS.State(rate, step, audioLength, value, position, start, restarting, increment,
               paused, looping, timer.lastTimer, timer.timeInMicros)
    }

    /** The defaults of the source: a rate of 100, step 1, no audio, output and
        positions 0, ramp increment 16, neither paused nor looping, in
        milliseconds. */
    constructor ()
      ensures Valid()
      ensures State() == PS.State(100, 1, 0, 0, 0, 0, false, 16, false, false, 0, false)
      ensures audio == []
      ensures fresh(timer)
    {
      rate := 100;
      step := 1;
      audio := [];
      audioLength := 0;
      value := 0;
      position := 0;
      start := 0;
      restarting := false;
      increment := 16;
      paused := false;
      looping := false;
      timer := new Timer();
    }

    /** `set_playback_rate(value)`. */
    method SetPlaybackRate(newRate: int)
      requires Valid()
      modifies this
      ensures Valid() && audio == old(audio)
      ensures State() == old(State()).(rate := newRate)
    {
      rate := newRate;
    }

    /** `set_playback_rate_from_Hz(Hz, values_per_cycle)`: switches to
        microseconds. Neither argument may be 0, which the source would divide by. */
    method SetPlaybackRateFromHz(hz: int, valuesPerCycle: int)
      requires Valid() && hz != 0 && valuesPerCycle != 0
      modifies this, timer
      ensures Valid() && audio == old(audio)
      ensures State() == PS.SetRateFromHz(old(State()), hz, valuesPerCycle)
    {
      timer.UseMicros();
      rate := CDiv(MapHzToMicros(hz), valuesPerCycle);
    }

    /** `set_playback_step(value)`: stored, never used by the player. */
    method SetPlaybackStep(newStep: int)
      requires Valid()
      modifies this
      ensures Valid() && audio == old(audio)
      ensures State() == old(State()).(step := newStep)
    {
      step := newStep;
    }

    /** `set_audio(audio_array, audio_array_length)`: the array, its length,
        and the ramp increment back to 16. */
    method SetAudio(newAudio: seq<int>, length: int)
      requires Valid()
      modifies this
      ensures Valid() && audio == newAudio
      ensures State() == old(State()).(audioLength := length, increment := 16)
    {
      audio := newAudio;
      audioLength := length;
      increment := 16;
    }

    /** `set_start_position(value)`. */
    method SetStartPosition(newStart: int)
      requires Valid()
      modifies this
      ensures Valid() && audio == old(audio)
      ensures State() == old(State()).(start := newStart)
    {
      start := newStart;
    }

    /** `get_current_value()`. */
    method GetCurrentValue() returns (v: int)
      requires Valid()
      ensures v == State().value
    {
      v := value;
    }

    /** `is_restarting_safely()`. */
    method IsRestartingSafely() returns (b: bool)
      requires Valid()
      ensures b == State().restarting
    {
      b := restarting;
    }

    /** `pause_playback(new_value)`; the source's default argument is true. */
    method PausePlayback(newValue: bool)
      requires Valid()
      modifies this
      ensures Valid() && audio == old(audio)
      ensures State() == old(State()).(paused := newValue)
    {
      paused := newValue;
    }

    /** `unpause_playback()`. */
    method UnpausePlayback()
      requires Valid()
      modifies this
      ensures Valid() && audio == old(audio)
      ensures State() == old(State()).(paused := false)
    {
      paused := false;
    }

    /** `loop_playback(new_value)`; the source's default argument is true. */
    method LoopPlayback(newValue: bool)
      requires Valid()
      modifies this
      ensures Valid() && audio == old(audio)
      ensures State() == old(State()).(looping := newValue)
    {
      looping := newValue;
    }

    /** `unloop_playback()`. */
    method UnloopPlayback()
      requires Valid()
      modifies this
      ensures Valid() && audio == old(audio)
      ensures State() == old(State()).(looping := false)
    {
      looping := false;
    }

    /** `rewind_playback()`. */
    method RewindPlayback(now: int)
      requires Valid() && IsULong(now)
      modifies this, timer
      ensures Valid() && audio == old(audio)
      ensures State() == PS.Rewind(old(State()), now)
    {
      PausePlayback(true);
      position := start;
      timer.ResetTimer(now);
    }

    /** `loop_now()`. */
    method LoopNow(now: int)
      requires Valid() && IsULong(now)
      modifies this, timer
      ensures Valid() && audio == old(audio)
      ensures State() == PS.LoopNow(old(State()), now)
    {
      RewindPlayback(now);
      UnpausePlayback();
    }

    /** `restart_playback()`. */
    method RestartPlayback(now: int)
      requires Valid() && IsULong(now)
      modifies this, timer
      ensures Valid() && audio == old(audio)
      ensures State() == PS.Restart(old(State()), now)
    {
      RewindPlayback(now);
      UnpausePlayback();
      restarting := true;
    }

    /** `stop_playback_safely()`. */
    method StopPlaybackSafely()
      requires Valid()
      modifies this
      ensures Valid() && audio == old(audio)
      ensures State() == PS.StopSafely(old(State()))
    {
      if value >= 0 {
        value := value - increment;
        if value <= 0 {
          value := 0;
          restarting := false;
        }
      } else {
        value := value + increment;
        if value >= 0 {
          value := 0;
          restarting := false;
        }
      }
    }

    /** `continue_playback()`; the source reads `audio[current_position]`, so
        the position must lie inside the array. */
    method ContinuePlayback(now: int)
      requires Valid() && IsULong(now) && 0 <= position < |audio|
      modifies this, timer
      ensures Valid() && audio == old(audio)
      ensures State() == PS.Continue(old(State()), audio, now)
    {
      var elapsed := timer.GetTimer(now);
      if elapsed > ToULong(rate) {
        value := audio[position];
        position := position + 1;
        timer.ResetTimer(now);
      }
    }

    /** `run_playback()`. */
    method RunPlayback(now: int)
      requires Valid() && IsULong(now) && PS.CanPlay(State(), audio)
      modifies this, timer
      ensures Valid() && audio == old(audio)
      ensures State() == PS.Run(old(State()), audio, now)
    {
      if position < start {
        position := start;
      }
      if !paused {
        if restarting {
          StopPlaybackSafely();
        } else if position >= audioLength {
          if looping {
            LoopNow(now);
          } else {
            RewindPlayback(now);
          }
        } else {
          ContinuePlayback(now);
        }
      }
    }
  }
}
