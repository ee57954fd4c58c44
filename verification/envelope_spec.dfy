/** The ADSR envelope of add-ons/Envelope.h as a transition system on values:
    the state is the four stage flags, the interruption flag, the output value
    and the reset point of the envelope's stopwatch. The class in envelope.dfy
    is proved to follow these transitions; the lemmas here state what they
    promise. */
module EnvelopeSpec {
  import opened CInt
  import opened Clock

  /** Positions of the stages in the progress, rate and step arrays. */
  const ATTACK: nat := 0
  const DECAY: nat := 1
  const SUSTAIN: nat := 2
  const RELEASE: nat := 3

  const ATTACK_ONLY: seq<bool> := [true, false, false, false]
  const DECAY_ONLY: seq<bool> := [false, true, false, false]
  const SUSTAIN_ONLY: seq<bool> := [false, false, true, false]
  const RELEASE_ONLY: seq<bool> := [false, false, false, true]
  const IDLE: seq<bool> := [false, false, false, false]

  /** The settings: limits, their difference as stored, the sustain level, and
      per-stage rate (time units to wait) and step (percent of range per tick). */
  datatype Config = Config(
    minLimit: int,
    maxLimit: int,
    deltaLimit: int,
    sustainLevel: int,
    rate: seq<int>,
    step: seq<int>)

  datatype State = State(
    progress: seq<bool>,
    interrupted: bool,
    value: int,
    lastTimer: int)

  predicate WellFormed(c: Config, s: State)
  {
    |c.rate| == 4 && |c.step| == 4 && |s.progress| == 4 && IsULong(s.lastTimer)
  }

  /** At most one of the four stage flags is set; none set means idle. */
  predicate AtMostOneStage(p: seq<bool>)
  {
    |p| == 4 && forall i, j :: 0 <= i < j < 4 && p[i] ==> !p[j]
  }

  /** The increment of a timed stage: `step` percent of the stored range,
      truncated toward zero. */
  function StepSize(c: Config, stage: nat): int
    requires stage < |c.step|
  {
    CDiv(c.step[stage] * c.deltaLimit, 100)
  }

  /** The anti-click decrement: 15 percent of the stored range, truncated toward zero. */
  function EaseSize(c: Config): int
  {
    CDiv(15 * c.deltaLimit, 100)
  }

  /** A timed stage acts when `get_timer() > rate`; the signed rate is compared
      after the C conversion to `unsigned long`, so the default rate -1 reads
      as 2^32 - 1 and is never exceeded. */
  predicate Fires(c: Config, stage: nat, s: State, now: int)
    requires WellFormed(c, s) && stage < 4 && IsULong(now)
  {
    Elapsed(s.lastTimer, now) > ToULong(c.rate[stage])
  }

  /** `turn_on_gate()`. */
  function TurnOnGate(c: Config, s: State, now: int): (r: State)
    requires WellFormed(c, s) && IsULong(now)
    ensures WellFormed(c, r)
  {
    State(ATTACK_ONLY, s.interrupted || s.value > c.minLimit, s.value, now)
  }

  /** `turn_off_gate()`. */
  function TurnOffGate(c: Config, s: State, now: int): (r: State)
    requires WellFormed(c, s) && IsULong(now)
    ensures WellFormed(c, r)
  {
    s.(progress := RELEASE_ONLY, lastTimer := now)
  }

  /** `end_ADSR_safely()`: the untimed anti-click ramp toward the minimum. */
  function EndAdsrSafely(c: Config, s: State): (r: State)
    requires WellFormed(c, s)
    ensures WellFormed(c, r)
  {
    var v := s.value - EaseSize(c);
    if v <= c.minLimit then s.(value := c.minLimit, interrupted := false)
    else s.(value := v)
  }

  /** `continue_attack_as_normal()`. */
  function ContinueAttackAsNormal(c: Config, s: State, now: int): (r: State)
    requires WellFormed(c, s) && IsULong(now)
    ensures WellFormed(c, r)
  {
    if Fires(c, ATTACK, s, now) then
      var v := s.value + StepSize(c, ATTACK);
      if v >= c.maxLimit then s.(value := c.maxLimit, progress := DECAY_ONLY, lastTimer := now)
      else s.(value := v, lastTimer := now)
    else
      s.(lastTimer := LastAfterGet(s.lastTimer, now))
  }

  /** `attack()`. */
  function Attack(c: Config, s: State, now: int): (r: State)
    requires WellFormed(c, s) && IsULong(now)
    ensures WellFormed(c, r)
  {
    if s.interrupted then EndAdsrSafely(c, s) else ContinueAttackAsNormal(c, s, now)
  }

  /** `decay()`. */
  function Decay(c: Config, s: State, now: int): (r: State)
    requires WellFormed(c, s) && IsULong(now)
    ensures WellFormed(c, r)
  {
    if Fires(c, DECAY, s, now) then
      var v := s.value - StepSize(c, DECAY);
      if v <= c.sustainLevel then s.(value := c.sustainLevel, progress := SUSTAIN_ONLY, lastTimer := now)
      else s.(value := v, lastTimer := now)
    else
      s.(lastTimer := LastAfterGet(s.lastTimer, now))
  }

  /** `release()`. */
  function Release(c: Config, s: State, now: int): (r: State)
    requires WellFormed(c, s) && IsULong(now)
    ensures WellFormed(c, r)
  {
    if Fires(c, RELEASE, s, now) then
      var v := s.value - StepSize(c, RELEASE);
      if v <= c.minLimit then s.(value := c.minLimit, progress := IDLE, lastTimer := now)
      else s.(value := v, lastTimer := now)
    else
      s.(lastTimer := LastAfterGet(s.lastTimer, now))
  }

  /** `advance_envelope()`: the first set flag chooses the stage; sustain and idle do nothing. */
  function AdvanceEnvelope(c: Config, s: State, now: int): (r: State)
    requires WellFormed(c, s) && IsULong(now)
    ensures WellFormed(c, r)
  {
    if s.progress[ATTACK] then Attack(c, s, now)
    else if s.progress[DECAY] then Decay(c, s, now)
    else if s.progress[SUSTAIN] then s
    else if s.progress[RELEASE] then Release(c, s, now)
    else s
  }

  /** What the host loop can do to an envelope at a given clock reading. */
  datatype Command = GateOn(now: int) | GateOff(now: int) | Tick(now: int)

  predicate ValidCommands(cmds: seq<Command>)
  {
    forall i :: 0 <= i < |cmds| ==> IsULong(cmds[i].now)
  }

  function Step(c: Config, s: State, cmd: Command): (r: State)
    requires WellFormed(c, s) && IsULong(cmd.now)
    ensures WellFormed(c, r)
  {
    match cmd
    case GateOn(now) => TurnOnGate(c, s, now)
    case GateOff(now) => TurnOffGate(c, s, now)
    case Tick(now) => AdvanceEnvelope(c, s, now)
  }

  /** The state after running the commands in order. */
  function Run(c: Config, s: State, cmds: seq<Command>): (r: State)
    requires WellFormed(c, s) && ValidCommands(cmds)
    ensures WellFormed(c, r)
    decreases |cmds|
  {
    if cmds == [] then s else Run(c, Step(c, s, cmds[0]), cmds[1..])
  }

  /** Settings under which the value bound holds: the sustain level lies
      between the limits and no stage moves the value the wrong way. */
  predicate SaneConfig(c: Config)
  {
    && |c.rate| == 4 && |c.step| == 4
    && c.minLimit <= c.sustainLevel <= c.maxLimit
    && c.deltaLimit >= 0
    && c.step[ATTACK] >= 0 && c.step[DECAY] >= 0 && c.step[RELEASE] >= 0
  }

  predicate Inv(c: Config, s: State)
  {
    WellFormed(c, s) && AtMostOneStage(s.progress) && c.minLimit <= s.value <= c.maxLimit
  }

  //
  // Gate events
  //

  /** `turn_on_gate` makes Attack the only stage and resets the timer; it sets
      the interruption flag exactly when the value is above the minimum and
      never clears it; the value is untouched. */
  lemma TurnOnGateEffect(c: Config, s: State, now: int)
    requires WellFormed(c, s) && IsULong(now)
    ensures TurnOnGate(c, s, now).progress == ATTACK_ONLY
    ensures TurnOnGate(c, s, now).lastTimer == now
    ensures TurnOnGate(c, s, now).value == s.value
    ensures s.value > c.minLimit ==> TurnOnGate(c, s, now).interrupted
    ensures s.value <= c.minLimit ==> TurnOnGate(c, s, now).interrupted == s.interrupted
  {
  }

  /** `turn_off_gate` makes Release the only stage from any state (idle included),
      resets the timer and leaves the value and the interruption flag alone. */
  lemma TurnOffGateEffect(c: Config, s: State, now: int)
    requires WellFormed(c, s) && IsULong(now)
    ensures TurnOffGate(c, s, now).progress == RELEASE_ONLY
    ensures TurnOffGate(c, s, now).lastTimer == now
    ensures TurnOffGate(c, s, now).value == s.value
    ensures TurnOffGate(c, s, now).interrupted == s.interrupted
  {
  }

  //
  // One tick
  //

  /** In Sustain, or idle, a tick changes nothing at all: value, flags and timer. */
  lemma SustainAndIdleAreStill(c: Config, s: State, now: int)
    requires WellFormed(c, s) && IsULong(now)
    requires AtMostOneStage(s.progress)
    requires s.progress == SUSTAIN_ONLY || s.progress == IDLE
    ensures AdvanceEnvelope(c, s, now) == s
  {
  }

  /** While an interrupted Attack eases out, each tick lowers the value by the
      easing amount without looking at the timer, clamps at the minimum and
      clears the flag there, and stays in Attack. */
  lemma EasingTick(c: Config, s: State, now: int)
    requires WellFormed(c, s) && IsULong(now)
    requires s.progress[ATTACK] && s.interrupted
    ensures AdvanceEnvelope(c, s, now).progress == s.progress
    ensures AdvanceEnvelope(c, s, now).lastTimer == s.lastTimer
    ensures s.value - EaseSize(c) > c.minLimit ==>
              AdvanceEnvelope(c, s, now).value == s.value - EaseSize(c) && AdvanceEnvelope(c, s, now).interrupted
    ensures s.value - EaseSize(c) <= c.minLimit ==>
              AdvanceEnvelope(c, s, now).value == c.minLimit && !AdvanceEnvelope(c, s, now).interrupted
  {
  }

  /** The anti-click bound: during easing no tick moves the value by more than
      15 percent of the range, and it never moves up. */
  lemma EasingIsBounded(c: Config, s: State, now: int)
    requires WellFormed(c, s) && IsULong(now)
    requires SaneConfig(c)
    requires s.progress[ATTACK] && s.interrupted
    requires c.minLimit <= s.value
    ensures 0 <= s.value - AdvanceEnvelope(c, s, now).value <= EaseSize(c)
  {
  }

  /** A timed stage whose rate has not been exceeded only reads the timer: the
      value and the flags stay, and the timer moves only by its wrap-around catch. */
  lemma TimedStageWaits(c: Config, s: State, now: int, stage: nat)
    requires WellFormed(c, s) && IsULong(now) && AtMostOneStage(s.progress)
    requires stage in {ATTACK, DECAY, RELEASE} && s.progress[stage]
    requires stage == ATTACK ==> !s.interrupted
    requires !Fires(c, stage, s, now)
    ensures AdvanceEnvelope(c, s, now) == s.(lastTimer := LastAfterGet(s.lastTimer, now))
  {
  }

  /** A timed stage whose rate has been exceeded moves the value by its step and
      resets the timer; overshooting the target clamps to it and moves on:
      Attack to Decay at the maximum, Decay to Sustain at the sustain level,
      Release to idle at the minimum. */
  lemma TimedStageFires(c: Config, s: State, now: int, stage: nat)
    requires WellFormed(c, s) && IsULong(now) && AtMostOneStage(s.progress)
    requires stage in {ATTACK, DECAY, RELEASE} && s.progress[stage]
    requires stage == ATTACK ==> !s.interrupted
    requires Fires(c, stage, s, now)
    ensures AdvanceEnvelope(c, s, now).lastTimer == now
    ensures AdvanceEnvelope(c, s, now).interrupted == s.interrupted
    ensures stage == ATTACK ==>
      var v := s.value + StepSize(c, ATTACK);
      AdvanceEnvelope(c, s, now) ==
        (if v >= c.maxLimit then s.(value := c.maxLimit, progress := DECAY_ONLY, lastTimer := now)
         else s.(value := v, lastTimer := now))
    ensures stage == DECAY ==>
      var v := s.value - StepSize(c, DECAY);
      AdvanceEnvelope(c, s, now) ==
        (if v <= c.sustainLevel then s.(value := c.sustainLevel, progress := SUSTAIN_ONLY, lastTimer := now)
         else s.(value := v, lastTimer := now))
    ensures stage == RELEASE ==>
      var v := s.value - StepSize(c, RELEASE);
      AdvanceEnvelope(c, s, now) ==
        (if v <= c.minLimit then s.(value := c.minLimit, progress := IDLE, lastTimer := now)
         else s.(value := v, lastTimer := now))
  {
    assert s.progress == [s.progress[0], s.progress[1], s.progress[2], s.progress[3]];
  }

  /** A stage whose rate was left at its default -1 never steps. */
  lemma UnsetRateNeverFires(c: Config, s: State, now: int, stage: nat)
    requires WellFormed(c, s) && IsULong(now) && stage < 4
    requires c.rate[stage] == -1
    ensures !Fires(c, stage, s, now)
  {
  }

  //
  // Invariants
  //

  lemma AdvanceKeepsInv(c: Config, s: State, now: int)
    requires SaneConfig(c) && Inv(c, s) && IsULong(now)
    ensures Inv(c, AdvanceEnvelope(c, s, now))
  {
    assert s.progress == [s.progress[0], s.progress[1], s.progress[2], s.progress[3]];
  }

  lemma StepKeepsInv(c: Config, s: State, cmd: Command)
    requires SaneConfig(c) && Inv(c, s) && IsULong(cmd.now)
    ensures Inv(c, Step(c, s, cmd))
  {
    if cmd.Tick? {
      AdvanceKeepsInv(c, s, cmd.now);
    }
  }

  /** For any sequence of gate events and ticks: at most one stage flag is set
      at every point, and the value never leaves [min_limit, max_limit]. */
  lemma {:induction false} RunKeepsInv(c: Config, s: State, cmds: seq<Command>)
    requires SaneConfig(c) && Inv(c, s) && ValidCommands(cmds)
    ensures Inv(c, Run(c, s, cmds))
    decreases |cmds|
  {
    if cmds != [] {
      StepKeepsInv(c, s, cmds[0]);
      RunKeepsInv(c, Step(c, s, cmds[0]), cmds[1..]);
    }
  }

  lemma {:induction false} RunAppend(c: Config, s: State, a: seq<Command>, b: seq<Command>)
    requires WellFormed(c, s) && ValidCommands(a) && ValidCommands(b)
    ensures ValidCommands(a + b)
    ensures Run(c, s, a + b) == Run(c, Run(c, s, a), b)
    decreases |a|
  {
    if a != [] {
      assert (a + b)[0] == a[0];
      assert (a + b)[1..] == a[1..] + b;
      RunAppend(c, Step(c, s, a[0]), a[1..], b);
    } else {
      assert a + b == b;
    }
  }

  //
  // Ramps
  //

  predicate AllTicks(cmds: seq<Command>)
  {
    forall i :: 0 <= i < |cmds| ==> cmds[i].Tick?
  }

  /** Every tick comes more than `gap` time units after the one before (the
      first after `last`), and the clock does not wrap. */
  predicate Spaced(last: int, cmds: seq<Command>, gap: int)
  {
    forall i :: 0 <= i < |cmds| ==> SpacedAt(last, cmds, gap, i)
  }

  predicate SpacedAt(last: int, cmds: seq<Command>, gap: int, i: int)
    requires 0 <= i < |cmds|
  {
    IsULong(cmds[i].now) && (if i == 0 then last else cmds[i - 1].now) + gap < cmds[i].now
  }

  lemma SpacedPrefix(last: int, cmds: seq<Command>, gap: int, n: nat)
    requires n <= |cmds| && Spaced(last, cmds, gap)
    ensures Spaced(last, cmds[..n], gap)
  {
    var t := cmds[..n];
    forall i | 0 <= i < |t|
      ensures SpacedAt(last, t, gap, i)
    {
      assert t[i] == cmds[i];
      assert SpacedAt(last, cmds, gap, i);
      if i > 0 {
        assert t[i - 1] == cmds[i - 1];
      }
    }
  }

  lemma SpacedIsValid(last: int, cmds: seq<Command>, gap: int)
    requires Spaced(last, cmds, gap)
    ensures ValidCommands(cmds)
  {
    forall i | 0 <= i < |cmds|
      ensures IsULong(cmds[i].now)
    {
      assert SpacedAt(last, cmds, gap, i);
    }
  }

  function LastTime(last: int, cmds: seq<Command>): int
  {
    if cmds == [] then last else cmds[|cmds| - 1].now
  }

  lemma SpacedTail(last: int, cmds: seq<Command>, gap: int)
    requires cmds != [] && Spaced(last, cmds, gap)
    ensures Spaced(cmds[0].now, cmds[1..], gap)
    ensures LastTime(cmds[0].now, cmds[1..]) == LastTime(last, cmds)
  {
    var t := cmds[1..];
    forall i | 0 <= i < |t|
      ensures SpacedAt(cmds[0].now, t, gap, i)
    {
      assert t[i] == cmds[i + 1];
      assert SpacedAt(last, cmds, gap, i + 1);
    }
  }

  lemma MulAtLeastOne(n: int, d: int)
    requires n >= 1 && d >= 0
    ensures n * d >= d
  {
    assert n * d == (n - 1) * d + d;
    assert (n - 1) * d >= 0;
  }

  /** Attack ticks that each come after the rate has elapsed raise the value
      by one step each, as long as the maximum is not reached. */
  lemma {:induction false} AttackRamp(c: Config, s: State, cmds: seq<Command>)
    requires WellFormed(c, s) && s.progress == ATTACK_ONLY && !s.interrupted
    requires 0 <= c.rate[ATTACK] && 0 <= StepSize(c, ATTACK)
    requires AllTicks(cmds) && IsULong(s.lastTimer) && Spaced(s.lastTimer, cmds, c.rate[ATTACK])
    requires s.value + |cmds| * StepSize(c, ATTACK) < c.maxLimit
    ensures ValidCommands(cmds)
    ensures Run(c, s, cmds) ==
            s.(value := s.value + |cmds| * StepSize(c, ATTACK), lastTimer := LastTime(s.lastTimer, cmds))
    decreases |cmds|
  {
    if cmds != [] {
      var d := StepSize(c, ATTACK);
      var now := cmds[0].now;
      var s1 := s.(value := s.value + d, lastTimer := now);
      assert cmds[0] == Tick(now);
      assert SpacedAt(s.lastTimer, cmds, c.rate[ATTACK], 0);
      assert s.lastTimer + c.rate[ATTACK] < now && IsULong(now);
      assert ToULong(c.rate[ATTACK]) == c.rate[ATTACK];
      ElapsedCases(s.lastTimer, now);
      assert Fires(c, ATTACK, s, now);
      assert |cmds| * d >= d by { MulAtLeastOne(|cmds|, d); }
      assert Step(c, s, cmds[0]) == s1;
      SpacedTail(s.lastTimer, cmds, c.rate[ATTACK]);
      assert s1.value + |cmds[1..]| * d == s.value + |cmds| * d;
      AttackRamp(c, s1, cmds[1..]);
    }
  }

  /** Release ticks that each come after the rate has elapsed lower the value
      by one step each, as long as the minimum is not reached. */
  lemma {:induction false} ReleaseRamp(c: Config, s: State, cmds: seq<Command>)
    requires WellFormed(c, s) && s.progress == RELEASE_ONLY
    requires 0 <= c.rate[RELEASE] && 0 <= StepSize(c, RELEASE)
    requires AllTicks(cmds) && IsULong(s.lastTimer) && Spaced(s.lastTimer, cmds, c.rate[RELEASE])
    requires s.value - |cmds| * StepSize(c, RELEASE) > c.minLimit
    ensures ValidCommands(cmds)
    ensures Run(c, s, cmds) ==
            s.(value := s.value - |cmds| * StepSize(c, RELEASE), lastTimer := LastTime(s.lastTimer, cmds))
    decreases |cmds|
  {
    if cmds != [] {
      var d := StepSize(c, RELEASE);
      var now := cmds[0].now;
      var s1 := s.(value := s.value - d, lastTimer := now);
      assert cmds[0] == Tick(now);
      assert SpacedAt(s.lastTimer, cmds, c.rate[RELEASE], 0);
      assert s.lastTimer + c.rate[RELEASE] < now && IsULong(now);
      assert ToULong(c.rate[RELEASE]) == c.rate[RELEASE];
      ElapsedCases(s.lastTimer, now);
      assert Fires(c, RELEASE, s, now);
      assert |cmds| * d >= d by { MulAtLeastOne(|cmds|, d); }
      assert Step(c, s, cmds[0]) == s1;
      SpacedTail(s.lastTimer, cmds, c.rate[RELEASE]);
      assert s1.value - |cmds[1..]| * d == s.value - |cmds| * d;
      ReleaseRamp(c, s1, cmds[1..]);
    }
  }

  /** The last of a run of spaced ticks, starting from the state the earlier
      ones left: the stage fires. */
  lemma FinalTick(c: Config, s: State, t0: int, ticks: seq<Command>, stage: nat)
    requires WellFormed(c, s) && stage < 4 && 0 <= c.rate[stage]
    requires |ticks| >= 2 && AllTicks(ticks) && Spaced(t0, ticks, c.rate[stage])
    requires s.lastTimer == ticks[|ticks| - 2].now
    ensures ValidCommands(ticks[|ticks| - 1..])
    ensures Fires(c, stage, s, ticks[|ticks| - 1].now)
    ensures Run(c, s, ticks[|ticks| - 1..]) == AdvanceEnvelope(c, s, ticks[|ticks| - 1].now)
  {
    var n := |ticks| - 1;
    var last := ticks[n..];
    assert SpacedAt(t0, ticks, c.rate[stage], n);
    assert last[0] == ticks[n] == Tick(ticks[n].now);
    assert last[1..] == [];
    ElapsedCases(s.lastTimer, ticks[n].now);
  }

  /** Range 0..4000, attack rate 10 and step 1 percent: a gate-on from idle at 0
      followed by 100 ticks, each more than 10 time units after the previous,
      ends exactly at 4000 with Decay active. */
  lemma ScenarioFullAttack(c: Config, s: State, t0: int, ticks: seq<Command>)
    requires WellFormed(c, s)
    requires c.minLimit == 0 && c.maxLimit == 4000 && c.deltaLimit == 4000
    requires c.rate[ATTACK] == 10 && c.step[ATTACK] == 1
    requires s.progress == IDLE && s.value == 0 && !s.interrupted
    requires IsULong(t0)
    requires |ticks| == 100 && AllTicks(ticks) && Spaced(t0, ticks, 10)
    ensures ValidCommands([GateOn(t0)] + ticks)
    ensures Run(c, s, [GateOn(t0)] + ticks).value == 4000
    ensures Run(c, s, [GateOn(t0)] + ticks).progress == DECAY_ONLY
  {
    var s1 := TurnOnGate(c, s, t0);
    assert !s1.interrupted;
    var first, last := ticks[..99], ticks[99..];
    SpacedPrefix(t0, ticks, 10, |first|);
    SpacedIsValid(t0, ticks, 10);
    RunAppend(c, s, [GateOn(t0)], ticks);
    AttackRamp(c, s1, first);
    assert ticks == first + last;
    RunAppend(c, s1, first, last);
    var s2 := Run(c, s1, first);
    assert s2.value == 3960 && s2.lastTimer == ticks[98].now;
    FinalTick(c, s2, t0, ticks, ATTACK);
  }

  /** Range 0..4000, sustain at 1000, release rate 10 and step 5 percent (200 per
      tick): a gate-off in Sustain followed by five ticks, each more than 10
      time units after the previous, ends at 0 with every stage off. */
  lemma ScenarioFullRelease(c: Config, s: State, t0: int, ticks: seq<Command>)
    requires WellFormed(c, s)
    requires c.minLimit == 0 && c.maxLimit == 4000 && c.deltaLimit == 4000
    requires c.sustainLevel == 1000 && c.rate[RELEASE] == 10 && c.step[RELEASE] == 5
    requires s.progress == SUSTAIN_ONLY && s.value == 1000
    requires IsULong(t0)
    requires |ticks| == 5 && AllTicks(ticks) && Spaced(t0, ticks, 10)
    ensures ValidCommands([GateOff(t0)] + ticks)
    ensures Run(c, s, [GateOff(t0)] + ticks).value == 0
    ensures Run(c, s, [GateOff(t0)] + ticks).progress == IDLE
  {
    var s1 := TurnOffGate(c, s, t0);
    var first, last := ticks[..4], ticks[4..];
    SpacedPrefix(t0, ticks, 10, |first|);
    SpacedIsValid(t0, ticks, 10);
    RunAppend(c, s, [GateOff(t0)], ticks);
    ReleaseRamp(c, s1, first);
    assert ticks == first + last;
    RunAppend(c, s1, first, last);
    var s2 := Run(c, s1, first);
    assert s2.value == 200 && s2.lastTimer == ticks[3].now;
    FinalTick(c, s2, t0, ticks, RELEASE);
  }
}
