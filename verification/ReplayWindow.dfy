/** The per-link replay window: a 64-bit bitmap anchored at the highest number
    accepted, in the node's form (a machine word) and in the reference form (an
    unbounded integer that is masked). Both are shown to be the same decision
    procedure as remembering every accepted number. */
module ReplayWindow {
  import opened Bits

  const WIDTH: nat := 64
  const WORD: nat := Pow2(WIDTH)

  // --- What the window promises ---------------------------------------------

  /** A number is accepted when it is non-zero, new, and fewer than 64 below
      everything accepted so far. */
  ghost predicate Acceptable(accepted: set<nat>, sequence: nat) {
    && sequence != 0
    && sequence !in accepted
    && forall a <- accepted :: a < sequence + WIDTH
  }

  ghost function SpecRun(accepted: set<nat>, arrivals: seq<nat>): (r: seq<bool>)
    ensures |r| == |arrivals|
    decreases |arrivals|
  {
    if arrivals == [] then []
    else
      var ok := Acceptable(accepted, arrivals[0]);
      [ok] + SpecRun(if ok then accepted + {arrivals[0]} else accepted, arrivals[1..])
  }

  // --- The two implementations as transition functions -----------------------

  datatype Window = Window(started: bool, highest: nat, bitmap: nat)

  const FRESH := Window(false, 0, 0)

  /** `bitmap<<shift | 1` on an unsigned 64-bit word. */
  function WordShift(bitmap: nat, shift: nat): nat {
    Or(Shl(bitmap, shift) % WORD, 1)
  }

  /** `((bitmap << shift) | 1) & ((1 << 64) - 1)` on an unbounded integer. */
  function MaskedShift(bitmap: nat, shift: nat): nat {
    And(Or(Shl(bitmap, shift), 1), Shl(1, WIDTH) - 1)
  }

  function Advance(w: Window, sequence: nat, shifted: (nat, nat) -> nat): (Window, bool) {
    if sequence == 0 then (w, false)
    else if !w.started then (Window(true, sequence, 1), true)
    else if sequence > w.highest then
      var shift := sequence - w.highest;
      (Window(true, sequence, if shift >= WIDTH then 1 else shifted(w.bitmap, shift)), true)
    else
      var delta := w.highest - sequence;
      if delta >= WIDTH || And(w.bitmap, Shl(1, delta)) != 0 then (w, false)
      else (w.(bitmap := Or(w.bitmap, Shl(1, delta))), true)
  }

  function WordAccept(w: Window, sequence: nat): (Window, bool) {
    Advance(w, sequence, WordShift)
  }

  function MaskedAccept(w: Window, sequence: nat): (Window, bool) {
    Advance(w, sequence, MaskedShift)
  }

  function WordRun(w: Window, arrivals: seq<nat>): (r: seq<bool>)
    ensures |r| == |arrivals|
    decreases |arrivals|
  {
    if arrivals == [] then []
    else
      var (w', ok) := WordAccept(w, arrivals[0]);
      [ok] + WordRun(w', arrivals[1..])
  }

  function MaskedRun(w: Window, arrivals: seq<nat>): (r: seq<bool>)
    ensures |r| == |arrivals|
    decreases |arrivals|
  {
    if arrivals == [] then []
    else
      var (w', ok) := MaskedAccept(w, arrivals[0]);
      [ok] + MaskedRun(w', arrivals[1..])
  }

  // --- Refinement -------------------------------------------------------------

  /** The window stands for the set of numbers accepted so far. */
  ghost predicate Represents(w: Window, accepted: set<nat>) {
    if !w.started then accepted == {}
    else
      && w.highest in accepted
      && 0 !in accepted
      && (forall a <- accepted :: a <= w.highest)
      && (forall d: nat | d < WIDTH ::
            Bit(w.bitmap, d) <==> d <= w.highest && w.highest - d in accepted)
  }

  ghost predicate ShiftsBits(shifted: (nat, nat) -> nat) {
    forall b: nat, s: nat, d: nat | 0 < s < WIDTH && d < WIDTH ::
      Bit(shifted(b, s), d) <==> d == 0 || (s <= d && Bit(b, d - s))
  }

  lemma WordShiftBits()
    ensures ShiftsBits(WordShift)
  {
    forall b: nat, s: nat, d: nat | 0 < s < WIDTH && d < WIDTH
      ensures Bit(WordShift(b, s), d) <==> d == 0 || (s <= d && Bit(b, d - s))
    {
      BitOfOr(Shl(b, s) % WORD, 1, d);
      BitOfPow2(0, d);
      BitOfTruncated(Shl(b, s), WIDTH, d);
      BitOfShl(b, s, d);
    }
  }

  lemma MaskedShiftBits()
    ensures ShiftsBits(MaskedShift)
  {
    forall b: nat, s: nat, d: nat | 0 < s < WIDTH && d < WIDTH
      ensures Bit(MaskedShift(b, s), d) <==> d == 0 || (s <= d && Bit(b, d - s))
    {
      BitOfAnd(Or(Shl(b, s), 1), Pow2(WIDTH) - 1, d);
      BitOfAllOnes(WIDTH, d);
      BitOfOr(Shl(b, s), 1, d);
      BitOfPow2(0, d);
      BitOfShl(b, s, d);
    }
  }

  lemma OnlyFirstBit(d: nat)
    ensures Bit(1, d) <==> d == 0
  {
    BitOfPow2(0, d);
  }

  /** One arrival: the decision is the promised one and the window keeps
      standing for the accepted set. */
  lemma StepRefines(w: Window, accepted: set<nat>, sequence: nat, shifted: (nat, nat) -> nat)
    requires Represents(w, accepted) && ShiftsBits(shifted)
    ensures
      var (w', ok) := Advance(w, sequence, shifted);
      && ok == Acceptable(accepted, sequence)
      && Represents(w', if ok then accepted + {sequence} else accepted)
  {
    forall d: nat { OnlyFirstBit(d); }
    if sequence != 0 && w.started {
      if sequence > w.highest {
        StepForward(w, accepted, sequence, shifted);
      } else {
        StepBack(w, accepted, sequence, shifted);
      }
    }
  }

  lemma StepForward(w: Window, accepted: set<nat>, sequence: nat, shifted: (nat, nat) -> nat)
    requires Represents(w, accepted) && ShiftsBits(shifted) && w.started && sequence > w.highest
    ensures Represents(Advance(w, sequence, shifted).0, accepted + {sequence})
  {
    var shift := sequence - w.highest;
    var w' := Advance(w, sequence, shifted).0;
    forall d: nat | d < WIDTH
      ensures Bit(w'.bitmap, d) <==> d <= sequence && sequence - d in accepted + {sequence}
    {
      if shift >= WIDTH {
        OnlyFirstBit(d);
      } else if shift <= d {
        assert Bit(w'.bitmap, d) <==> Bit(w.bitmap, d - shift);
        assert sequence - d == w.highest - (d - shift);
      }
    }
  }

  lemma StepBack(w: Window, accepted: set<nat>, sequence: nat, shifted: (nat, nat) -> nat)
    requires Represents(w, accepted) && w.started && 0 < sequence <= w.highest
    ensures
      var (w', ok) := Advance(w, sequence, shifted);
      && ok == Acceptable(accepted, sequence)
      && (ok ==> Represents(w', accepted + {sequence}))
  {
    var delta := w.highest - sequence;
    TestBit(w.bitmap, delta);
    assert w.highest - delta == sequence;
    if delta < WIDTH && !Bit(w.bitmap, delta) {
      forall d: nat | d < WIDTH
        ensures Bit(Or(w.bitmap, Shl(1, delta)), d)
            <==> d <= w.highest && w.highest - d in accepted + {sequence}
      {
        BitOfOr(w.bitmap, Pow2(delta), d);
        BitOfPow2(delta, d);
      }
    }
  }

  /** The machine-word window decides every arrival sequence exactly as the
      complete memory of accepted numbers would. */
  lemma {:induction false} WordRunIsSpec(w: Window, accepted: set<nat>, arrivals: seq<nat>)
    requires Represents(w, accepted)
    ensures WordRun(w, arrivals) == SpecRun(accepted, arrivals)
    decreases |arrivals|
  {
    if arrivals != [] {
      WordShiftBits();
      StepRefines(w, accepted, arrivals[0], WordShift);
      var (w', ok) := WordAccept(w, arrivals[0]);
      WordRunIsSpec(w', if ok then accepted + {arrivals[0]} else accepted, arrivals[1..]);
    }
  }

  lemma {:induction false} MaskedRunIsSpec(w: Window, accepted: set<nat>, arrivals: seq<nat>)
    requires Represents(w, accepted)
    ensures MaskedRun(w, arrivals) == SpecRun(accepted, arrivals)
    decreases |arrivals|
  {
    if arrivals != [] {
      MaskedShiftBits();
      StepRefines(w, accepted, arrivals[0], MaskedShift);
      var (w', ok) := MaskedAccept(w, arrivals[0]);
      MaskedRunIsSpec(w', if ok then accepted + {arrivals[0]} else accepted, arrivals[1..]);
    }
  }

  /** Both implementations, started fresh, agree with the promise and hence
      with each other on every sequence of arrivals. */
  lemma ImplementationsAgree(arrivals: seq<nat>)
    ensures WordRun(FRESH, arrivals) == SpecRun({}, arrivals) == MaskedRun(FRESH, arrivals)
  {
    WordRunIsSpec(FRESH, {}, arrivals);
    MaskedRunIsSpec(FRESH, {}, arrivals);
  }

  /** No number is ever accepted twice in one window's life. */
  lemma {:induction false} NeverTwice(accepted: set<nat>, arrivals: seq<nat>, i: nat, j: nat)
    requires i < j < |arrivals| && arrivals[i] == arrivals[j]
    ensures !(SpecRun(accepted, arrivals)[i] && SpecRun(accepted, arrivals)[j])
    decreases |arrivals|
  {
    var ok := Acceptable(accepted, arrivals[0]);
    var next := if ok then accepted + {arrivals[0]} else accepted;
    if i > 0 {
      NeverTwice(next, arrivals[1..], i - 1, j - 1);
    } else if ok {
      StaysRefused(next, arrivals[1..], j - 1);
    }
  }

  lemma {:induction false} StaysRefused(accepted: set<nat>, arrivals: seq<nat>, j: nat)
    requires j < |arrivals| && arrivals[j] in accepted
    ensures !SpecRun(accepted, arrivals)[j]
    decreases |arrivals|
  {
    if j > 0 {
      var ok := Acceptable(accepted, arrivals[0]);
      StaysRefused(if ok then accepted + {arrivals[0]} else accepted, arrivals[1..], j - 1);
    }
  }

  /** Over a whole run: a number is accepted exactly when it is not zero, was not
      accepted before, and lies fewer than 64 below every number accepted before. */
  lemma {:induction false} AcceptedIff(accepted: set<nat>, arrivals: seq<nat>, j: nat)
    requires j < |arrivals|
    ensures SpecRun(accepted, arrivals)[j] <==>
              && arrivals[j] != 0 && arrivals[j] !in accepted && (forall a <- accepted :: a < arrivals[j] + WIDTH)
              && forall i | 0 <= i < j && SpecRun(accepted, arrivals)[i] ::
                   arrivals[i] != arrivals[j] && arrivals[i] < arrivals[j] + WIDTH
    decreases |arrivals|
  {
    if j > 0 {
      var ok, rest := Acceptable(accepted, arrivals[0]), arrivals[1..];
      var next := if ok then accepted + {arrivals[0]} else accepted;
      AcceptedIff(next, rest, j - 1);
      assert forall i | 0 <= i < j - 1 :: SpecRun(next, rest)[i] == SpecRun(accepted, arrivals)[i + 1];
      AcceptedShifts(accepted, arrivals, next, j);
    }
  }

  lemma AcceptedShifts(accepted: set<nat>, arrivals: seq<nat>, next: set<nat>, j: nat)
    requires 0 < j < |arrivals|
    requires next == if Acceptable(accepted, arrivals[0]) then accepted + {arrivals[0]} else accepted
    ensures (forall i | 0 <= i < j && SpecRun(accepted, arrivals)[i] ::
               arrivals[i] != arrivals[j] && arrivals[i] < arrivals[j] + WIDTH)
       <==> && (Acceptable(accepted, arrivals[0]) ==>
                  arrivals[0] != arrivals[j] && arrivals[0] < arrivals[j] + WIDTH)
            && forall i | 0 <= i < j - 1 && SpecRun(next, arrivals[1..])[i] ::
                 arrivals[1..][i] != arrivals[j] && arrivals[1..][i] < arrivals[j] + WIDTH
  {
    var all, rest := SpecRun(accepted, arrivals), SpecRun(next, arrivals[1..]);
    assert all == [Acceptable(accepted, arrivals[0])] + rest;
    assert forall i | 0 <= i < |rest| :: rest[i] == all[i + 1] && arrivals[1..][i] == arrivals[i + 1];
    assert forall i | 0 < i < j :: all[i] == rest[i - 1] && arrivals[1..][i - 1] == arrivals[i];
  }

  // --- The objects -------------------------------------------------------

  class NodeWindow {
    var initialized: bool
    var highest: nat
    var bitmap: nat
    ghost var accepted: set<nat>

    function View(): Window
      reads this
    {
      Window(initialized, highest, bitmap)
    }

    ghost predicate Valid()
      reads this
    {
      Represents(View(), accepted)
    }

    constructor ()
      ensures Valid() && View() == FRESH && accepted == {}
    {
      initialized, highest, bitmap, accepted := false, 0, 0, {};
    }

    method Accept(sequence: nat) returns (ok: bool)
      requires Valid()
      modifies this
      ensures Valid()
      ensures ok == Acceptable(old(accepted), sequence)
      ensures accepted == if ok then old(accepted) + {sequence} else old(accepted)
      ensures (View(), ok) == WordAccept(old(View()), sequence)
    {
      WordShiftBits();
      StepRefines(View(), accepted, sequence, WordShift);
      if sequence == 0 {
        return false;
      }
      if !initialized {
        initialized, highest, bitmap, accepted := true, sequence, 1, {sequence};
        return true;
      }
      if sequence > highest {
        var shift := sequence - highest;
        if shift >= 64 {
          bitmap := 1;
        } else {
          bitmap := Or(Shl(bitmap, shift) % WORD, 1);
        }
        highest, accepted := sequence, accepted + {sequence};
        return true;
      }
      var delta := highest - sequence;
      if delta >= 64 || And(bitmap, Shl(1, delta)) != 0 {
        return false;
      }
      bitmap, accepted := Or(bitmap, Shl(1, delta)), accepted + {sequence};
      return true;
    }
  }

  /** The reference window: the same decisions on an unbounded, masked integer. */
  class ReferenceWindow {
    var started: bool
    var highest: nat
    var bitmap: nat
    ghost var accepted: set<nat>

    function View(): Window
      reads this
    {
      Window(started, highest, bitmap)
    }

    ghost predicate Valid()
      reads this
    {
      Represents(View(), accepted)
    }

    constructor ()
      ensures Valid() && View() == FRESH && accepted == {}
    {
      started, highest, bitmap, accepted := false, 0, 0, {};
    }

    method Accept(sequence: nat) returns (ok: bool)
      requires Valid()
      modifies this
      ensures Valid()
      ensures ok == Acceptable(old(accepted), sequence)
      ensures accepted == if ok then old(accepted) + {sequence} else old(accepted)
      ensures (View(), ok) == MaskedAccept(old(View()), sequence)
    {
      MaskedShiftBits();
      StepRefines(View(), accepted, sequence, MaskedShift);
      if sequence == 0 {
        return false;
      }
      if !started {
        started, highest, bitmap, accepted := true, sequence, 1, {sequence};
        return true;
      }
      if sequence > highest {
        var shift := sequence - highest;
        bitmap := if shift >= 64 then 1 else And(Or(Shl(bitmap, shift), 1), Shl(1, 64) - 1);
        highest, accepted := sequence, accepted + {sequence};
        return true;
      }
      var delta := highest - sequence;
      if delta >= 64 || And(bitmap, Shl(1, delta)) != 0 {
        return false;
      }
      bitmap, accepted := Or(bitmap, Shl(1, delta)), accepted + {sequence};
      return true;
    }
  }
}
