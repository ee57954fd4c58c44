/** `find_nearest_note_in_scale` and the `Quantiser` class of
    add-ons/Quantiser.h. The search wraps note numbers into the scale with a
    floor remainder, and `enable_note` recounts like `disable_note`; the
    as-written versions of both are in QuantiserSpec. The conversions between
    millivolts and note numbers use `float` and are parameters here. */
module Quantisers {
  import opened CInt
  import opened QuantiserSpec

  /** `find_nearest_note_in_scale(note_number, scale)`: the note itself if it
      is in the scale, otherwise one step up, one step down, two steps up, and
      so on. The scale must hold a note, or the search never ends. */
  method FindNearestNoteInScale(note: int, scale: array<bool>) returns (r: int)
    requires scale.Length == SCALE_LENGTH && AnyEnabled(scale[..])
    ensures IsNearest(scale[..], note, r)
    ensures Abs(r - note) <= 6
  {
    var higher := note;
    var lower := note;
    var index := NoteIndex(note);
    if scale[index] {
      r := note;
      NoteInScaleIsKept(scale[..], note);
      return;
    }
    while true
      invariant higher - note == note - lower && 0 <= higher - note <= 5
      invariant forall m {:trigger InScale(scale[..], m)} :: lower <= m <= higher ==> !InScale(scale[..], m)
      decreases 5 - (higher - note)
    {
      higher := higher + 1;
      index := NoteIndex(higher);
      if scale[index] {
        r := higher;
        NearestAbove(scale[..], note, higher - 1 - note);
        NearestWithinSixSemitones(scale[..], note, r);
        return;
      }
      lower := lower - 1;
      index := NoteIndex(lower);
      if scale[index] {
        r := lower;
        NearestBelow(scale[..], note, note - lower - 1);
        NearestWithinSixSemitones(scale[..], note, r);
        return;
      }
      WindowBound(scale[..], note, higher - note);
    }
  }

  class Quantiser {
    const scale: array<bool>
    var incomingTone: int
    var quantisedTone: int
    var quantisedCv: int
    var activeNotes: int
    var nothingToQuantise: bool

    /** The count and the skip flag describe the scale. */
    ghost predicate Valid()
      reads this, scale
    {
      Consistent(Settings())
    }

    ghost function Settings(): QuantiserSpec.Settings
      reads this, scale
    {
      QuantiserSpec.Settings(scale[..], activeNotes, nothingToQuantise)
    }

    /** No note enabled, so nothing to quantise; tones and CV 0. */
    constructor ()
      ensures Valid() && Settings() == Initial
      ensures incomingTone == 0 && quantisedTone == 0 && quantisedCv == 0
      ensures fresh(scale)
    {
      scale := new bool[SCALE_LENGTH](_ => false);
      incomingTone := 0;
      quantisedTone := 0;
      quantisedCv := 0;
      activeNotes := 0;
      nothingToQuantise := true;
      new;
      assert scale[..] == Initial.scale;
      FreshQuantiserSearchesEmptyScale(0, 0);
    }

    /** The loop at the end of `disable_note`: count the enabled notes and set
        the flag after each one. */
    method CountActiveNotes()
      requires scale.Length == SCALE_LENGTH
      modifies this
      ensures Settings() == Recount(old(scale[..]))
      ensures incomingTone == old(incomingTone) && quantisedTone == old(quantisedTone)
      ensures quantisedCv == old(quantisedCv)
    {
      activeNotes := 0;
      for i := 0 to SCALE_LENGTH
        invariant activeNotes == CountEnabled(scale[..i])
        invariant i > 0 ==> nothingToQuantise == (activeNotes == 0)
        invariant incomingTone == old(incomingTone) && quantisedTone == old(quantisedTone)
        invariant quantisedCv == old(quantisedCv)
      {
        assert scale[..i + 1][..i] == scale[..i];
        activeNotes := activeNotes + if scale[i] then 1 else 0;
        if activeNotes == 0 {
          nothingToQuantise := true;
        } else {
          nothingToQuantise := false;
        }
      }
      assert scale[..SCALE_LENGTH] == scale[..];
    }

    /** `enable_note(note)`, with the recount of `disable_note`. */
    method EnableNote(note: int)
      requires Valid()
      modifies this, scale
      ensures Valid()
      ensures Settings() == QuantiserSpec.EnableNote(old(Settings()), note)
      ensures incomingTone == old(incomingTone) && quantisedTone == old(quantisedTone)
      ensures quantisedCv == old(quantisedCv)
    {
      if note >= 0 && note < SCALE_LENGTH {
        scale[note] := true;
      }
      assert scale[..] == SetNote(old(scale[..]), note, true);
      CountActiveNotes();
      EnableNoteIsConsistent(old(Settings()), note);
    }

    /** `disable_note(note)`. */
    method DisableNote(note: int)
      requires Valid()
      modifies this, scale
      ensures Valid()
      ensures Settings() == QuantiserSpec.DisableNote(old(Settings()), note)
      ensures incomingTone == old(incomingTone) && quantisedTone == old(quantisedTone)
      ensures quantisedCv == old(quantisedCv)
    {
      if note >= 0 && note < SCALE_LENGTH {
        scale[note] := false;
      }
      assert scale[..] == SetNote(old(scale[..]), note, false);
      CountActiveNotes();
      DisableNoteIsConsistent(old(Settings()), note);
    }

    /** `run(incoming_cv)`. `tone` is `map_mV_to_note_number(incoming_cv)` and
        `toMv` is `map_note_number_to_mV`, both computed in `float`. With no
        note enabled the CV passes through; otherwise it becomes the nearest
        note of the scale. */
    method Run(incomingCv: int, tone: int, toMv: int -> int)
      requires Valid()
      modifies this
      ensures Valid() && Settings() == old(Settings())
      ensures nothingToQuantise ==> quantisedCv == incomingCv
      ensures nothingToQuantise ==> incomingTone == old(incomingTone) && quantisedTone == old(quantisedTone)
      ensures !nothingToQuantise ==>
        incomingTone == tone && IsNearest(scale[..], tone, quantisedTone) && quantisedCv == toMv(quantisedTone)
    {
      if nothingToQuantise {
        quantisedCv := incomingCv;
      } else {
        incomingTone := tone;
        quantisedTone := FindNearestNoteInScale(incomingTone, scale);
        quantisedCv := toMv(quantisedTone);
      }
    }

    /** `get_quantised_cv()`. */
    method GetQuantisedCv() returns (cv: int)
      ensures cv == quantisedCv
    {
      cv := quantisedCv;
    }
  }
}
