/** The scale logic of add-ons/Quantiser.h on values: which notes of the
    twelve-note scale are enabled, the nearest enabled note to a note number,
    and the flag `nothing_to_quantise` that lets `run` skip the search. The
    class and the search loop are in quantiser.dfy. */
module QuantiserSpec {
  import opened CInt
  import opened DivMod

  const SCALE_LENGTH := 12

  /** The place of a note number in the scale: its pitch class, wrapped into
      0..11 also for negative note numbers. */
  function NoteIndex(n: int): (i: int)
    ensures 0 <= i < SCALE_LENGTH
    ensures n >= 0 ==> i == CMod(n, SCALE_LENGTH)
  {
    n % SCALE_LENGTH
  }

  /** The place the source computes, `note % 12` in C: negative for a
      negative note number. */
  function NoteIndexAsWritten(n: int): int
  {
    CMod(n, SCALE_LENGTH)
  }

  /** Note number n is in the scale. */
  predicate InScale(scale: seq<bool>, n: int)
    requires |scale| == SCALE_LENGTH
  {
    scale[NoteIndex(n)]
  }

  predicate AnyEnabled(scale: seq<bool>)
  {
    exists i :: 0 <= i < |scale| && scale[i]
  }

  /** r is the note of the scale nearest to `note`; of two at the same
      distance, the higher one. */
  ghost predicate IsNearest(scale: seq<bool>, note: int, r: int)
    requires |scale| == SCALE_LENGTH
  {
    && InScale(scale, r)
    && forall m {:trigger InScale(scale, m)} :: InScale(scale, m) ==>
         Abs(r - note) <= Abs(m - note) && (Abs(m - note) == Abs(r - note) ==> m <= r)
  }

  /** The number of enabled notes, counted from the front as the source's loop does. */
  function CountEnabled(scale: seq<bool>): (c: nat)
    ensures c <= |scale|
  {
    if scale == [] then 0 else CountEnabled(scale[..|scale| - 1]) + (if scale[|scale| - 1] then 1 else 0)
  }

  /** The scale settings of a quantiser: the twelve notes, the stored count of
      enabled notes and the skip flag. */
  datatype Settings = Settings(scale: seq<bool>, activeNotes: int, nothingToQuantise: bool)

  /** The stored count and the flag describe the scale: `run` searches
      exactly when some note is enabled. */
  predicate Consistent(s: Settings)
  {
    |s.scale| == SCALE_LENGTH
    && s.activeNotes == CountEnabled(s.scale)
    && s.nothingToQuantise == !AnyEnabled(s.scale)
  }

  /** The member initialisers of the source: no note enabled, count 0, and the
      flag false, so `run` would search an empty scale. */
  const InitialAsWritten: Settings := Settings(seq(SCALE_LENGTH, _ => false), 0, false)

  /** The initial settings with the flag that matches the empty scale. */
  const Initial: Settings := Settings(seq(SCALE_LENGTH, _ => false), 0, true)

  /** The scale with note `note` set to `on`; indices outside 0..11 are ignored. */
  function SetNote(scale: seq<bool>, note: int, on: bool): (r: seq<bool>)
    ensures |r| == |scale|
  {
    if 0 <= note < |scale| then scale[note := on] else scale
  }

  /** The recount at the end of `disable_note`: count and flag from the scale. */
  function Recount(scale: seq<bool>): Settings
  {
    Settings(scale, CountEnabled(scale), CountEnabled(scale) == 0)
  }

  /** `enable_note(note)` as written: only the scale changes. */
  function EnableNoteAsWritten(s: Settings, note: int): Settings
  {
    s.(scale := SetNote(s.scale, note, true))
  }

  /** `enable_note(note)` followed by the recount of `disable_note`. */
  function EnableNote(s: Settings, note: int): Settings
  {
    Recount(SetNote(s.scale, note, true))
  }

  /** `disable_note(note)`. */
  function DisableNote(s: Settings, note: int): Settings
  {
    Recount(SetNote(s.scale, note, false))
  }

  //
  // Properties
  //

  /** A count of 0 means that no note is enabled. */
  lemma {:induction false} CountZeroIffNone(scale: seq<bool>)
    ensures CountEnabled(scale) == 0 <==> !AnyEnabled(scale)
  {
    if scale != [] {
      var init := scale[..|scale| - 1];
      CountZeroIffNone(init);
      if AnyEnabled(init) {
        var i :| 0 <= i < |init| && init[i];
        assert scale[i];
      }
      if AnyEnabled(scale) && !scale[|scale| - 1] {
        var i :| 0 <= i < |scale| && scale[i];
        assert init[i];
      }
    }
  }

  /** The recount describes any twelve-note scale. */
  lemma RecountIsConsistent(scale: seq<bool>)
    requires |scale| == SCALE_LENGTH
    ensures Consistent(Recount(scale))
  {
    CountZeroIffNone(scale);
  }

  /** `disable_note` always leaves count and flag describing the scale, and
      clears exactly the note asked for. */
  lemma DisableNoteIsConsistent(s: Settings, note: int)
    requires |s.scale| == SCALE_LENGTH
    ensures Consistent(DisableNote(s, note))
    ensures 0 <= note < SCALE_LENGTH ==> !DisableNote(s, note).scale[note]
    ensures forall i :: 0 <= i < SCALE_LENGTH && i != note ==> DisableNote(s, note).scale[i] == s.scale[i]
  {
    RecountIsConsistent(SetNote(s.scale, note, false));
  }

  /** The corrected `enable_note` keeps count and flag describing the scale,
      so after it `run` quantises: the flag is off. */
  lemma EnableNoteIsConsistent(s: Settings, note: int)
    requires |s.scale| == SCALE_LENGTH
    ensures Consistent(EnableNote(s, note))
    ensures 0 <= note < SCALE_LENGTH ==> EnableNote(s, note).scale[note] && !EnableNote(s, note).nothingToQuantise
    ensures forall i :: 0 <= i < SCALE_LENGTH && i != note ==> EnableNote(s, note).scale[i] == s.scale[i]
  {
    var scale := SetNote(s.scale, note, true);
    RecountIsConsistent(scale);
    if 0 <= note < SCALE_LENGTH {
      assert scale[note];
    }
  }

  /** As written, the flag goes stale: disable any note of a fresh quantiser,
      then enable note 4 (E). The scale now holds E, yet the flag still says
      there is nothing to quantise, so `run` passes the CV through. */
  lemma StaleFlagAfterEnable()
    ensures var s := EnableNoteAsWritten(DisableNote(InitialAsWritten, 0), 4);
      s.scale[4] && s.nothingToQuantise && !Consistent(s)
  {
    var d := DisableNote(InitialAsWritten, 0);
    RecountIsConsistent(SetNote(InitialAsWritten.scale, 0, false));
    var s := EnableNoteAsWritten(d, 4);
    assert s.scale[4];
    assert AnyEnabled(s.scale);
  }

  /** As written, a fresh quantiser searches an empty scale: the flag is off
      while no note is enabled, so no note is nearest to anything and the
      source's search never returns. The corrected initial settings skip the
      search instead. */
  lemma FreshQuantiserSearchesEmptyScale(note: int, r: int)
    ensures !InitialAsWritten.nothingToQuantise && !AnyEnabled(InitialAsWritten.scale)
    ensures !IsNearest(InitialAsWritten.scale, note, r)
    ensures Consistent(Initial)
  {
    assert !InitialAsWritten.scale[NoteIndex(r)];
    RecountIsConsistent(Initial.scale);
  }

  /** The nearest note is unique: the search has one right answer. */
  lemma NearestIsUnique(scale: seq<bool>, note: int, r1: int, r2: int)
    requires |scale| == SCALE_LENGTH
    requires IsNearest(scale, note, r1) && IsNearest(scale, note, r2)
    ensures r1 == r2
  {
    assert Abs(r1 - note) <= Abs(r2 - note) && Abs(r2 - note) <= Abs(r1 - note);
  }

  /** A note of the scale is its own nearest note. */
  lemma NoteInScaleIsKept(scale: seq<bool>, note: int)
    requires |scale| == SCALE_LENGTH && InScale(scale, note)
    ensures IsNearest(scale, note, note)
  {
  }

  /** With every note within distance d of `note` outside the scale, the
      nearest is d + 1 above if that is in the scale. */
  lemma NearestAbove(scale: seq<bool>, note: int, d: nat)
    requires |scale| == SCALE_LENGTH
    requires forall m {:trigger InScale(scale, m)} :: note - d <= m <= note + d ==> !InScale(scale, m)
    requires InScale(scale, note + d + 1)
    ensures IsNearest(scale, note, note + d + 1)
  {
  }

  /** With every note from d + 1 below to d + 1 above `note`, except d + 1
      below, outside the scale, the nearest is d + 1 below if that is in the scale. */
  lemma NearestBelow(scale: seq<bool>, note: int, d: nat)
    requires |scale| == SCALE_LENGTH
    requires forall m {:trigger InScale(scale, m)} :: note - d <= m <= note + d + 1 ==> !InScale(scale, m)
    requires InScale(scale, note - d - 1)
    ensures IsNearest(scale, note, note - d - 1)
  {
  }

  /** Thirteen consecutive note numbers meet every pitch class: if no note
      within distance d is in a scale that has a note, d is at most 5. This
      bounds the search to six steps each way. */
  lemma WindowBound(scale: seq<bool>, note: int, d: int)
    requires |scale| == SCALE_LENGTH && AnyEnabled(scale)
    requires forall m {:trigger InScale(scale, m)} :: note - d <= m <= note + d ==> !InScale(scale, m)
    ensures d <= 5
  {
    var i :| 0 <= i < SCALE_LENGTH && scale[i];
    var x := i - note + 6;
    var q := x / SCALE_LENGTH;
    var m := note - 6 + x % SCALE_LENGTH;
    assert m == i - q * SCALE_LENGTH;
    DivModUnique(m, SCALE_LENGTH, -q, i);
    assert InScale(scale, m);
  }

  /** The nearest note is never more than six semitones away. */
  lemma NearestWithinSixSemitones(scale: seq<bool>, note: int, r: int)
    requires |scale| == SCALE_LENGTH && IsNearest(scale, note, r)
    ensures Abs(r - note) <= 6
  {
    if Abs(r - note) > 6 {
      var d := Abs(r - note) - 1;
      assert AnyEnabled(scale) by { assert scale[NoteIndex(r)]; }
      WindowBound(scale, note, d);
    }
  }

  /** For note numbers from 0 up the source's index is the pitch class. */
  lemma IndexAgreesFromZero(n: int)
    requires n >= 0
    ensures NoteIndexAsWritten(n) == NoteIndex(n)
  {
  }

  /** As written, a low note reads outside the scale array: with only B
      (index 11) enabled, the nearest note to note 2 is note -1, which the
      search reaches by stepping down, and C's `-1 % 12` is -1. */
  lemma LowNoteIndexOutsideScale()
    ensures var scale := seq(SCALE_LENGTH, i => i == 11);
      IsNearest(scale, 2, -1) && NoteIndexAsWritten(-1) == -1
  {
    var scale := seq(SCALE_LENGTH, i => i == 11);
    assert InScale(scale, -1);
    forall m | InScale(scale, m)
      ensures Abs(-1 - 2) <= Abs(m - 2) && (Abs(m - 2) == Abs(-1 - 2) ==> m <= -1)
    {
      var q := m / SCALE_LENGTH;
      assert m == q * SCALE_LENGTH + 11;
    }
  }
}
