/** `update_euclid_rule(current_rule, s, b, o)` of
    euclidean_rhythms/update_euclid_rule.h: s beats spread over b slots of a
    32-entry rule array, starting at slot o. Each pass of the outer loop writes
    a beat, the rests every beat gets, and possibly one extra rest. The writes
    are described as a list (`Writes`); the method is proved to perform exactly
    those writes, and the counting lemmas are stated on the list. */
module Euclid {
  import opened DivMod

  const RULE_LENGTH := 32

  /** current_rule[index] = value. */
  datatype Write = Write(index: int, value: int)

  /** The loop variables between two passes: `counter`, `count_extra_rests`
      and `count_no_extra_rests`. */
  datatype Cursor = Cursor(counter: int, extra: int, noExtra: int)

  /** The rests after every beat, `N_0_per_int` = (b - s) / s of them. */
  function PerBeat(s: int, b: int): nat
    requires 1 <= s <= b
  {
    (b - s) / s
  }

  /** The extra rests, `count_extra_rests` = (b - s) % s at the start. */
  function Extras(s: int, b: int): nat
    requires 1 <= s <= b
  {
    (b - s) % s
  }

  /** The loop variables before the first pass. */
  function Initial(s: int, b: int, o: int): Cursor
    requires 1 <= s <= b
  {
    Cursor(o, Extras(s, b), s - Extras(s, b))
  }

  /** n rests from slot `start` on. */
  function Rests(start: int, n: nat): (w: seq<Write>)
    ensures |w| == n
  {
    seq(n, k => Write(start + k, 0))
  }

  /** The counter at the start of a pass: wrapped to slot 1 once it is past b. */
  function Wrap(b: int, counter: int): int
  {
    if counter > b then 1 else counter
  }

  /** A beat at slot c and the `per` rests after it. */
  function Beat(c: int, per: nat): (w: seq<Write>)
    ensures |w| == 1 + per
  {
    [Write(c, 1)] + Rests(c + 1, per)
  }

  /** What one pass of the outer loop writes: a beat at slot `beat`, the
      rests after it, and possibly one extra rest after those. */
  datatype Pass = Pass(beat: int, extraRest: bool)

  /** The writes of a pass with `per` rests after the beat. */
  function PassWrites(p: Pass, per: nat): (w: seq<Write>)
    ensures |w| == 1 + per + (if p.extraRest then 1 else 0)
  {
    Beat(p.beat, per) + if p.extraRest then [Write(p.beat + 1 + per, 0)] else []
  }

  /** The loop variables after a pass, and what the pass wrote. */
  datatype Step = Step(cursor: Cursor, pass: Pass)

  /** Pass number i of the outer loop: wrap the counter to 1 if it is past b,
      write the beat and the rests, then either spend a do-nothing turn (even
      passes, while any are left) or write one extra rest. */
  function NextPass(b: int, per: nat, i: int, c: Cursor): Step
  {
    var c0 := Wrap(b, c.counter);
    var c1 := c0 + 1 + per;
    if c.extra > 0 then
      if i % 2 == 0 && c.noExtra > 0 then Step(Cursor(c1, c.extra, c.noExtra - 1), Pass(c0, false))
      else Step(Cursor(c1 + 1, c.extra - 1, c.noExtra), Pass(c0, true))
    else Step(c.(counter := c1), Pass(c0, false))
  }

  /** The loop variables after some passes, and the passes made so far. */
  datatype Progress = Progress(cursor: Cursor, passes: seq<Pass>)

  /** The first n passes from `start`, with `per` rests after each beat. */
  function Passes(b: int, per: nat, start: Cursor, n: nat): (r: Progress)
    ensures |r.passes| == n
  {
    if n == 0 then Progress(start, [])
    else
      var p := Passes(b, per, start, n - 1);
      var q := NextPass(b, per, n - 1, p.cursor);
      Progress(q.cursor, p.passes + [q.pass])
  }

  /** The writes of a list of passes, in order. */
  function Flatten(ps: seq<Pass>, per: nat): seq<Write>
  {
    if ps == [] then [] else Flatten(ps[..|ps| - 1], per) + PassWrites(ps[|ps| - 1], per)
  }

  /** The loop variables and the passes of
      `update_euclid_rule(current_rule, s, b, o)`. */
  function Run(s: int, b: int, o: int): Progress
    requires 1 <= s <= b
  {
    Passes(b, PerBeat(s, b), Initial(s, b, o), s)
  }

  /** Every write of `update_euclid_rule(current_rule, s, b, o)`, in order. */
  function Writes(s: int, b: int, o: int): seq<Write>
    requires 1 <= s <= b
  {
    Flatten(Run(s, b, o).passes, PerBeat(s, b))
  }

  predicate InRange(w: seq<Write>, n: int)
  {
    forall k :: 0 <= k < |w| ==> 0 <= w[k].index < n
  }

  /** The array after the writes, in order. */
  function Apply(a: seq<int>, w: seq<Write>): (r: seq<int>)
    requires InRange(w, |a|)
    ensures |r| == |a|
  {
    if w == [] then a
    else
      var last := w[|w| - 1];
      Apply(a, w[..|w| - 1])[last.index := last.value]
  }

  /** The number of writes of value v. */
  function CountValue(w: seq<Write>, v: int): nat
  {
    if w == [] then 0 else CountValue(w[..|w| - 1], v) + (if w[|w| - 1].value == v then 1 else 0)
  }

  /** The values written, in order. */
  function Values(w: seq<Write>): (r: seq<int>)
    ensures |r| == |w|
  {
    seq(|w|, k requires 0 <= k < |w| => w[k].value)
  }

  /** One pass writes a beat and then only rests, at least `per` of them. */
  predicate Block(p: seq<Write>, per: nat)
  {
    |p| >= 1 + per && p[0].value == 1 && forall k :: 1 <= k < |p| ==> p[k].value == 0
  }

  /** Every beat in w is followed by at least `per` rests. */
  predicate RestsAfterBeats(w: seq<Write>, per: nat)
  {
    forall k :: 0 <= k < |w| && w[k].value == 1 ==>
      k + per < |w| && forall m :: k < m <= k + per ==> w[m].value == 0
  }

  //
  // The method
  //

  /** `update_euclid_rule(current_rule, s, b, o)`. The source divides by s and
      needs b - s >= 0; it writes wherever the counter points, so every write
      must land inside the 32 entries (with o = 1 and b <= 31 they do, by
      `OffsetOneFillsCycle`). */
  method UpdateEuclidRule(rule: array<int>, s: int, b: int, o: int)
    requires rule.Length == RULE_LENGTH && 1 <= s <= b
    requires InRange(Writes(s, b, o), RULE_LENGTH)
    modifies rule
    ensures rule[..] == Apply(old(rule[..]), Writes(s, b, o))
  {
    var nInt := s;
    var n0 := b - s;
    var n0PerInt := n0 / s;
    var countExtraRests := n0 % nInt;
    var countNoExtraRests := nInt - countExtraRests;
    var counter := 0 + o;
    ghost var start := Initial(s, b, o);
    assert n0PerInt == PerBeat(s, b) && start == Cursor(counter, countExtraRests, countNoExtraRests);
    FlattenInRange(Run(s, b, o).passes, n0PerInt, RULE_LENGTH);
    for i := 0 to nInt
      invariant Passes(b, n0PerInt, start, i).cursor == Cursor(counter, countExtraRests, countNoExtraRests)
      invariant InRange(Flatten(Passes(b, n0PerInt, start, i).passes, n0PerInt), RULE_LENGTH)
      invariant rule[..] == Apply(old(rule[..]), Flatten(Passes(b, n0PerInt, start, i).passes, n0PerInt))
    {
      ghost var before := Flatten(Passes(b, n0PerInt, start, i).passes, n0PerInt);
      ghost var step := NextPass(b, n0PerInt, i, Passes(b, n0PerInt, start, i).cursor);
      PassInRange(b, n0PerInt, start, i, nInt, RULE_LENGTH);
      counter, countExtraRests, countNoExtraRests :=
        WritePass(rule, b, n0PerInt, i, counter, countExtraRests, countNoExtraRests);
      ApplyAppend(old(rule[..]), before, PassWrites(step.pass, n0PerInt));
    }
  }

  /** The body of the outer loop, pass number i. */
  method WritePass(rule: array<int>, b: int, per: nat, i: int, counter0: int, extra0: int, noExtra0: int)
    returns (counter: int, extra: int, noExtra: int)
    requires InRange(PassWrites(NextPass(b, per, i, Cursor(counter0, extra0, noExtra0)).pass, per), rule.Length)
    modifies rule
    ensures Cursor(counter, extra, noExtra) == NextPass(b, per, i, Cursor(counter0, extra0, noExtra0)).cursor
    ensures rule[..] == Apply(old(rule[..]), PassWrites(NextPass(b, per, i, Cursor(counter0, extra0, noExtra0)).pass, per))
  {
    counter, extra, noExtra := counter0, extra0, noExtra0;
    if counter > b {
      counter := 1;
    }
    ghost var pass := NextPass(b, per, i, Cursor(counter0, extra0, noExtra0)).pass;
    ghost var w := PassWrites(pass, per);
    PassParts(pass, per, rule.Length);
    ghost var a0 := rule[..];
    counter := WriteBeat(rule, counter, per);
    if extra > 0 {
      if i % 2 == 0 && noExtra > 0 {
        assert w == w[..1 + per];
        noExtra := noExtra - 1;
      } else {
        WriteExtraRest(rule, counter, a0, w[..1 + per]);
        assert w == w[..1 + per] + [Write(counter, 0)];
        counter := counter + 1;
        extra := extra - 1;
      }
    } else {
      assert w == w[..1 + per];
    }
  }

  /** The extra rest after a beat and its rests. */
  method WriteExtraRest(rule: array<int>, at: int, ghost a0: seq<int>, ghost before: seq<Write>)
    requires 0 <= at < rule.Length && |a0| == rule.Length
    requires InRange(before, |a0|) && rule[..] == Apply(a0, before)
    modifies rule
    ensures InRange(before + [Write(at, 0)], |a0|)
    ensures rule[..] == Apply(a0, before + [Write(at, 0)])
  {
    rule[at] := 0;
    ApplyAppend(a0, before, [Write(at, 0)]);
  }

  /** The beat and the inner loop: a 1 at slot `start`, then `per` rests. */
  method WriteBeat(rule: array<int>, start: int, per: nat) returns (counter: int)
    requires 0 <= start && start + per < rule.Length
    modifies rule
    ensures counter == start + 1 + per
    ensures rule[..] == Apply(old(rule[..]), Beat(start, per))
  {
    ghost var a0 := rule[..];
    rule[start] := 1;
    counter := start + 1;
    assert rule[..] == Apply(a0, [Write(start, 1)]);
    ghost var a1 := rule[..];
    if per > 0 {
      counter := WriteRests(rule, counter, per);
    }
    assert rule[..] == Apply(a1, Rests(start + 1, per));
    ApplyAppend(a0, [Write(start, 1)], Rests(start + 1, per));
  }

  /** The inner loop: `per` rests from slot `start` on. */
  method WriteRests(rule: array<int>, start: int, per: nat) returns (counter: int)
    requires 0 <= start && start + per <= rule.Length
    modifies rule
    ensures counter == start + per
    ensures rule[..] == Apply(old(rule[..]), Rests(start, per))
  {
    counter := start;
    for j := 0 to per
      invariant counter == start + j
      invariant rule[..] == Apply(old(rule[..]), Rests(start, j))
    {
      assert Rests(start, j + 1) == Rests(start, j) + [Write(counter, 0)];
      rule[counter] := 0;
      counter := counter + 1;
    }
  }

  //
  // Properties
  //

  /** Applying two lists of writes is applying their concatenation. */
  lemma {:induction false} ApplyAppend(a: seq<int>, w1: seq<Write>, w2: seq<Write>)
    requires InRange(w1, |a|) && InRange(w2, |a|)
    ensures InRange(w1 + w2, |a|)
    ensures Apply(a, w1 + w2) == Apply(Apply(a, w1), w2)
    decreases |w2|
  {
    if w2 != [] {
      var init := w2[..|w2| - 1];
      var last := w2[|w2| - 1];
      assert (w1 + w2)[..|w1 + w2| - 1] == w1 + init;
      assert (w1 + w2)[|w1 + w2| - 1] == last;
      assert InRange(init, |a|);
      ApplyAppend(a, w1, init);
      calc {
        Apply(a, w1 + w2);
        Apply(a, w1 + init)[last.index := last.value];
        Apply(Apply(a, w1), init)[last.index := last.value];
        Apply(Apply(a, w1), w2);
      }
    } else {
      assert w1 + w2 == w1;
    }
  }

  /** The parts of one pass: the beat, the rests after it, and possibly one
      extra rest after those. */
  lemma PassParts(p: Pass, per: nat, n: int)
    requires InRange(PassWrites(p, per), n)
    ensures 0 <= p.beat && p.beat + per < n && InRange(Beat(p.beat, per), n)
    ensures p.extraRest ==> 0 <= p.beat + 1 + per < n
  {
    var w := PassWrites(p, per);
    assert w[0] == Write(p.beat, 1);
    assert w[per] == Beat(p.beat, per)[per];
    if p.extraRest {
      assert w[1 + per] == Write(p.beat + 1 + per, 0);
    }
    forall k | 0 <= k < |Beat(p.beat, per)|
      ensures 0 <= Beat(p.beat, per)[k].index < n
    {
      assert Beat(p.beat, per)[k] == w[k];
    }
  }

  /** The writes of one more pass follow the writes of the passes before. */
  lemma FlattenSnoc(ps: seq<Pass>, p: Pass, per: nat)
    ensures Flatten(ps + [p], per) == Flatten(ps, per) + PassWrites(p, per)
  {
    assert (ps + [p])[..|ps|] == ps;
  }

  /** The writes of some passes are in range exactly when the writes of each
      pass are. */
  lemma {:induction false} FlattenInRange(ps: seq<Pass>, per: nat, n: int)
    ensures InRange(Flatten(ps, per), n) <==> forall k :: 0 <= k < |ps| ==> InRange(PassWrites(ps[k], per), n)
  {
    if ps != [] {
      var init := ps[..|ps| - 1];
      FlattenInRange(init, per, n);
      InRangeAppend(Flatten(init, per), PassWrites(ps[|ps| - 1], per), n);
      if forall k :: 0 <= k < |init| ==> InRange(PassWrites(init[k], per), n) {
        assert forall k :: 0 <= k < |ps| - 1 ==> InRange(PassWrites(ps[k], per), n);
      }
    }
  }

  lemma InRangeAppend(w1: seq<Write>, w2: seq<Write>, n: int)
    ensures InRange(w1 + w2, n) <==> InRange(w1, n) && InRange(w2, n)
  {
    if InRange(w1 + w2, n) {
      forall k | 0 <= k < |w2|
        ensures 0 <= w2[k].index < n
      {
        assert w2[k] == (w1 + w2)[|w1| + k];
      }
      forall k | 0 <= k < |w1|
        ensures 0 <= w1[k].index < n
      {
        assert w1[k] == (w1 + w2)[k];
      }
    }
  }

  /** Pass i is the next step from the passes before it, and its writes are
      in range when the writes of all passes are. */
  lemma PassInRange(b: int, per: nat, start: Cursor, i: nat, total: nat, n: int)
    requires i < total && InRange(Flatten(Passes(b, per, start, total).passes, per), n)
    ensures var ps := Passes(b, per, start, i).passes;
      var q := NextPass(b, per, i, Passes(b, per, start, i).cursor);
      && Passes(b, per, start, i + 1) == Progress(q.cursor, ps + [q.pass])
      && Flatten(ps + [q.pass], per) == Flatten(ps, per) + PassWrites(q.pass, per)
      && InRange(PassWrites(q.pass, per), n) && InRange(Flatten(ps, per), n)
  {
    var ps := Passes(b, per, start, i).passes;
    var all := Passes(b, per, start, total).passes;
    var q := NextPass(b, per, i, Passes(b, per, start, i).cursor);
    PassesPrefix(b, per, start, i + 1, total);
    assert (ps + [q.pass])[i] == q.pass;
    FlattenInRange(all, per, n);
    FlattenInRange(ps, per, n);
    assert forall k :: 0 <= k < i ==> ps[k] == all[k];
    FlattenSnoc(ps, q.pass, per);
  }

  /** The first m passes begin the first n >= m. */
  lemma {:induction false} PassesPrefix(b: int, per: nat, start: Cursor, m: nat, n: nat)
    requires m <= n
    ensures Passes(b, per, start, m).passes == Passes(b, per, start, n).passes[..m]
    decreases n - m
  {
    if m < n {
      PassesPrefix(b, per, start, m + 1, n);
      assert Passes(b, per, start, m + 1).passes[..m] == Passes(b, per, start, m).passes;
    }
  }

  /** The bookkeeping of the extra rests, from e extra rests and s - e passes
      without one: the two counters stay non-negative, every pass while
      extra rests remain spends one of the two, and the writes are one beat
      and `per` rests per pass plus the extra rests spent so far. */
  lemma {:induction false} PassCounters(b: int, per: nat, o: int, s: int, e: int, n: nat)
    requires 0 <= e < s && n <= s
    ensures var c := Passes(b, per, Cursor(o, e, s - e), n).cursor;
      && 0 <= c.extra <= e && 0 <= c.noExtra
      && (c.extra > 0 ==> c.extra + c.noExtra == s - n)
      && |Flatten(Passes(b, per, Cursor(o, e, s - e), n).passes, per)| + c.extra == n * (1 + per) + e
  {
    if n > 0 {
      var p := Passes(b, per, Cursor(o, e, s - e), n - 1);
      PassCounters(b, per, o, s, e, n - 1);
      FlattenSnoc(p.passes, NextPass(b, per, n - 1, p.cursor).pass, per);
      MulStep(n, 1 + per);
    }
  }

  lemma MulStep(n: int, k: int)
    ensures n * k == (n - 1) * k + k
  {
  }

  /** `N_0_per_int` and `count_extra_rests` are the quotient and remainder
      of b - s by s. */
  lemma PerBeatExtras(s: int, b: int)
    requires 1 <= s <= b
    ensures b - s == s * PerBeat(s, b) + Extras(s, b) && Extras(s, b) < s
  {
  }

  /** The arithmetic of the count, with per and e the quotient and remainder
      of b - s by s: s * (1 + per) + e == b, and before pass n < s at most
      b - 1 writes have been made. */
  lemma Count(s: int, b: int, n: int, per: nat, e: nat)
    requires 0 <= n <= s && b - s == s * per + e
    ensures n * (1 + per) + e + (s - n) <= b
    ensures s * (1 + per) + e == b
  {
    assert (s - n) * per >= 0;
    assert n * (1 + per) == n + n * per;
    assert s * (1 + per) == s + s * per;
  }

  /** Every pass writes one beat (a 1) and otherwise rests (0s). */
  lemma {:induction false} FlattenCount(ps: seq<Pass>, per: nat)
    ensures CountValue(Flatten(ps, per), 1) == |ps|
    ensures forall k :: 0 <= k < |Flatten(ps, per)| ==> Flatten(ps, per)[k].value in {0, 1}
    ensures RestsAfterBeats(Flatten(ps, per), per)
  {
    if ps != [] {
      var w := Flatten(ps[..|ps| - 1], per);
      var p := PassWrites(ps[|ps| - 1], per);
      FlattenCount(ps[..|ps| - 1], per);
      CountValueAppend(w, p, 1);
      CountBlock(p);
      AppendBlock(w, p, per);
    }
  }

  /** Counting over a concatenation. */
  lemma {:induction false} CountValueAppend(w1: seq<Write>, w2: seq<Write>, v: int)
    ensures CountValue(w1 + w2, v) == CountValue(w1, v) + CountValue(w2, v)
    decreases |w2|
  {
    if w2 != [] {
      var init := w2[..|w2| - 1];
      assert (w1 + w2)[..|w1 + w2| - 1] == w1 + init;
      assert (w1 + w2)[|w1 + w2| - 1] == w2[|w2| - 1];
      CountValueAppend(w1, init, v);
    } else {
      assert w1 + w2 == w1;
    }
  }

  /** A block holds one beat. */
  lemma {:induction false} CountBlock(p: seq<Write>)
    requires |p| >= 1 && p[0].value == 1 && forall k :: 1 <= k < |p| ==> p[k].value == 0
    ensures CountValue(p, 1) == 1
    decreases |p|
  {
    if |p| > 1 {
      CountBlock(p[..|p| - 1]);
    }
  }

  /** Appending a block keeps every beat followed by its rests, and only
      beats and rests written. */
  lemma AppendBlock(w: seq<Write>, p: seq<Write>, per: nat)
    requires Block(p, per)
    ensures RestsAfterBeats(w, per) ==> RestsAfterBeats(w + p, per)
    ensures (forall k :: 0 <= k < |w| ==> w[k].value in {0, 1}) ==>
      forall k :: 0 <= k < |w + p| ==> (w + p)[k].value in {0, 1}
  {
    var v := w + p;
    forall k | |w| <= k < |v|
      ensures v[k] == p[k - |w|]
    {
    }
    forall k | 0 <= k < |w|
      ensures v[k] == w[k]
    {
    }
  }

  /** No beat lands below slot 1 when the offset is at least 1 ... */
  lemma {:induction false} BeatsFromSlotOne(b: int, per: nat, start: Cursor, n: nat)
    requires start.counter >= 1
    ensures Passes(b, per, start, n).cursor.counter >= 1
    ensures forall k :: 0 <= k < n ==> Passes(b, per, start, n).passes[k].beat >= 1
  {
    if n > 0 {
      BeatsFromSlotOne(b, per, start, n - 1);
    }
  }

  /** ... so no write does: slot 0 is never written. */
  lemma {:induction false} FlattenFromSlotOne(ps: seq<Pass>, per: nat)
    requires forall k :: 0 <= k < |ps| ==> ps[k].beat >= 1
    ensures forall k :: 0 <= k < |Flatten(ps, per)| ==> Flatten(ps, per)[k].index >= 1
  {
    if ps != [] {
      var w := Flatten(ps[..|ps| - 1], per);
      var p := PassWrites(ps[|ps| - 1], per);
      FlattenFromSlotOne(ps[..|ps| - 1], per);
      assert forall k :: 0 <= k < |p| ==> p[k].index >= 1;
      assert forall k :: 0 <= k < |w + p| ==> (w + p)[k] == if k < |w| then w[k] else p[k - |w|];
    }
  }

  /** Slot 0 is never written when the offset is at least 1. */
  lemma SlotZeroUntouched(s: int, b: int, o: int)
    requires 1 <= s <= b && o >= 1
    ensures forall k :: 0 <= k < |Writes(s, b, o)| ==> Writes(s, b, o)[k].index >= 1
  {
    BeatsFromSlotOne(b, PerBeat(s, b), Initial(s, b, o), s);
    FlattenFromSlotOne(Run(s, b, o).passes, PerBeat(s, b));
  }

  /** From slot 1, the counter never wraps while the writes leave room for
      the next beat: the writes go to slots 1, 2, 3, … in order, one slot
      each, and the counter is the next slot. */
  lemma {:induction false} OffsetOneInOrder(b: int, per: nat, start: Cursor, n: nat)
    requires start.counter == 1
    requires n > 0 ==> |Flatten(Passes(b, per, start, n - 1).passes, per)| + 1 <= b
    ensures Passes(b, per, start, n).cursor.counter == 1 + |Flatten(Passes(b, per, start, n).passes, per)|
    ensures InOrder(Flatten(Passes(b, per, start, n).passes, per), 1)
  {
    if n > 0 {
      OffsetOneInOrder(b, per, start, n - 1);
      var prev := Passes(b, per, start, n - 1);
      var q := NextPass(b, per, n - 1, prev.cursor);
      FlattenSnoc(prev.passes, q.pass, per);
      InOrderStep(Flatten(prev.passes, per), prev.cursor, b, per, n - 1);
    }
  }

  /** One pass from a counter on the slot after the last of the writes so
      far, with room left in the cycle, continues them in order. */
  lemma InOrderStep(w: seq<Write>, c: Cursor, b: int, per: nat, i: int)
    requires InOrder(w, 1) && c.counter == 1 + |w| && |w| + 1 <= b
    ensures var q := NextPass(b, per, i, c);
      q.cursor.counter == 1 + |w + PassWrites(q.pass, per)| && InOrder(w + PassWrites(q.pass, per), 1)
  {
    var q := NextPass(b, per, i, c);
    assert q.pass.beat == c.counter;
    PassInOrder(q.pass, per);
    AppendInOrder(w, PassWrites(q.pass, per), 1);
  }

  /** Before any pass fewer than b writes have been made: at least one beat
      is still to come. */
  lemma LengthBeforePass(b: int, per: nat, o: int, s: int, e: int, n: nat)
    requires 0 <= e < s && s * (1 + per) + e == b && n < s
    ensures |Flatten(Passes(b, per, Cursor(o, e, s - e), n).passes, per)| + 1 <= b
  {
    PassCounters(b, per, o, s, e, n);
    Count(s, b, n, per, e);
  }

  /** The writes go to consecutive slots from `first` on. */
  predicate InOrder(w: seq<Write>, first: int)
    decreases |w|
  {
    w == [] || (InOrder(w[..|w| - 1], first) && w[|w| - 1].index == first + |w| - 1)
  }

  /** Rests are written to consecutive slots. */
  lemma {:induction false} RestsInOrder(start: int, n: nat)
    ensures InOrder(Rests(start, n), start)
  {
    if n > 0 {
      assert Rests(start, n)[..n - 1] == Rests(start, n - 1);
      RestsInOrder(start, n - 1);
    }
  }

  /** A pass writes consecutive slots from its beat on. */
  lemma PassInOrder(p: Pass, per: nat)
    ensures InOrder(PassWrites(p, per), p.beat)
  {
    RestsInOrder(p.beat + 1, per);
    AppendInOrder([Write(p.beat, 1)], Rests(p.beat + 1, per), p.beat);
    if p.extraRest {
      AppendInOrder(Beat(p.beat, per), [Write(p.beat + 1 + per, 0)], p.beat);
    } else {
      assert PassWrites(p, per) == Beat(p.beat, per);
    }
  }

  /** Writes in order followed by writes in order from the next slot on are in order. */
  lemma {:induction false} AppendInOrder(w: seq<Write>, p: seq<Write>, first: int)
    requires InOrder(w, first) && InOrder(p, first + |w|)
    ensures InOrder(w + p, first)
    decreases |p|
  {
    if p == [] {
      assert w + p == w;
    } else {
      assert (w + p)[..|w + p| - 1] == w + p[..|p| - 1];
      AppendInOrder(w, p[..|p| - 1], first);
    }
  }

  /** All s passes spend every extra rest, so there are exactly b writes
      whatever the offset: s beats and b - s rests, of which s * ((b - s) / s)
      follow the beats and (b - s) % s are extra. Only beats (1) and rests
      (0) are written, and every beat is followed by at least (b - s) / s
      rests. */
  lemma WritesCount(s: int, b: int, o: int)
    requires 1 <= s <= b
    ensures |Writes(s, b, o)| == b
    ensures CountValue(Writes(s, b, o), 1) == s
    ensures forall k :: 0 <= k < |Writes(s, b, o)| ==> Writes(s, b, o)[k].value in {0, 1}
    ensures RestsAfterBeats(Writes(s, b, o), PerBeat(s, b))
    ensures Run(s, b, o).cursor.extra == 0
  {
    var per, e := PerBeat(s, b), Extras(s, b);
    PerBeatExtras(s, b);
    PassCounters(b, per, o, s, e, s);
    FlattenCount(Run(s, b, o).passes, per);
    Count(s, b, s, per, e);
  }

  /** The first beat goes to slot o if o <= b, otherwise to slot 1. */
  lemma FirstBeat(s: int, b: int, o: int)
    requires 1 <= s <= b
    ensures Writes(s, b, o)[0] == Write(if o > b then 1 else o, 1)
  {
    var per := PerBeat(s, b);
    var ps := Run(s, b, o).passes;
    PassesPrefix(b, per, Initial(s, b, o), 1, s);
    FlattenPrefix(ps, per, 1);
    assert ps[..1] == [ps[0]] && [ps[0]][..0] == [];
  }

  /** The writes of the first m passes begin the writes of all of them. */
  lemma {:induction false} FlattenPrefix(ps: seq<Pass>, per: nat, m: nat)
    requires m <= |ps|
    ensures Flatten(ps[..m], per) <= Flatten(ps, per)
    decreases |ps|
  {
    if m < |ps| {
      var init := ps[..|ps| - 1];
      FlattenPrefix(init, per, m);
      assert init[..m] == ps[..m];
    } else {
      assert ps[..m] == ps;
    }
  }

  /** With offset 1 the writes fill slots 1..b, each once, in order: the rule
      in slots 1..b is the list of written values, with exactly s beats and
      b - s rests; slot 0 and the slots after b keep their old values. For
      b <= 31 every write is inside the array. */
  lemma OffsetOneFillsCycle(a: seq<int>, s: int, b: int)
    requires |a| == RULE_LENGTH && 1 <= s <= b <= RULE_LENGTH - 1
    ensures InRange(Writes(s, b, 1), RULE_LENGTH)
    ensures var r := Apply(a, Writes(s, b, 1));
      && r[1..b + 1] == Values(Writes(s, b, 1))
      && r[0] == a[0] && r[b + 1..] == a[b + 1..]
    ensures CountValue(Writes(s, b, 1), 1) == s
  {
    WritesCount(s, b, 1);
    PerBeatExtras(s, b);
    Count(s, b, s, PerBeat(s, b), Extras(s, b));
    LengthBeforePass(b, PerBeat(s, b), 1, s, Extras(s, b), s - 1);
    OffsetOneInOrder(b, PerBeat(s, b), Initial(s, b, 1), s);
    var w := Writes(s, b, 1);
    ApplyInOrder(a, w);
  }

  /** Writes to slots 1, 2, 3, … in order lay their values side by side. */
  lemma {:induction false} ApplyInOrder(a: seq<int>, w: seq<Write>)
    requires |w| < |a| && InOrder(w, 1)
    ensures InRange(w, |a|)
    ensures Apply(a, w) == a[..1] + Values(w) + a[|w| + 1..]
  {
    if w != [] {
      var init := w[..|w| - 1];
      ApplyInOrder(a, init);
      assert Values(w) == Values(init) + [w[|w| - 1].value];
    }
  }

  /** Rests are never wrapped: a single beat at offset o (wrapped to 1 past
      b) is followed by b - 1 rests in the slots after it, so for 2 <= o <= b
      the last rest lands past slot b and slot 1 is not written. */
  lemma SingleBeatRunsPastCycle(b: int, o: int)
    requires 1 <= b
    ensures Writes(1, b, o) == Beat(Wrap(b, o), b - 1)
    ensures 2 <= o <= b ==> Writes(1, b, o)[b - 1].index == o + b - 1 > b
  {
    var p := Pass(Wrap(b, o), false);
    assert PerBeat(1, b) == b - 1 && Initial(1, b, o) == Cursor(o, 0, 1);
    assert Passes(b, b - 1, Cursor(o, 0, 1), 1).passes == [] + [p];
    FlattenSnoc([], p, b - 1);
  }
}
