/** When the entry service seals: the maintenance loop reduced to the epoch it
    is on, whether that epoch is sealed, and the epochs sealed so far. */
module SealClock {
  import opened Options
  import opened Instants
  import opened Ordering
  import opened ReleaseSchedule

  datatype Clock = Clock(epoch: nat, closed: bool, log: seq<nat>)

  /** The seal part of a turn. */
  function Sealed(s: Schedule, c: Clock, now: Instant): Clock {
    if !c.closed && s.Closes(c.epoch) <= now < s.Releases(c.epoch)
    then c.(closed := true, log := c.log + [c.epoch]) else c
  }

  /** One turn of the loop: seal if due, then roll to the epoch of the instant. */
  function Ticked(s: Schedule, c: Clock, now: Instant): Clock {
    var c1 := Sealed(s, c, now);
    match s.EpochAt(now)
    case None => c1
    case Some(epoch) => if epoch != c.epoch then Clock(epoch, false, c1.log) else c1
  }

  function Run(s: Schedule, start: Clock, ticks: seq<Instant>): Clock {
    if ticks == [] then start
    else Ticked(s, Run(s, start, ticks[..|ticks| - 1]), ticks[|ticks| - 1])
  }

  function LastTick(begun: Instant, ticks: seq<Instant>): Instant {
    if ticks == [] then begun else ticks[|ticks| - 1]
  }

  /** No tick runs back, and none comes more than `gap` after the one before. */
  predicate Paced(begun: Instant, ticks: seq<Instant>, gap: int) {
    ticks == []
    || (var init := ticks[..|ticks| - 1];
        Paced(begun, init, gap)
        && LastTick(begun, init) <= ticks[|ticks| - 1] <= LastTick(begun, init) + gap)
  }

  /** The ticks of a ticker: the first within `gap` of the start, each later one
      exactly `gap` after the one before. */
  predicate Even(begun: Instant, ticks: seq<Instant>, gap: int) {
    ticks == []
    || (var init := ticks[..|ticks| - 1];
        if init == [] then begun <= ticks[0] <= begun + gap
        else Even(begun, init, gap) && ticks[|ticks| - 1] == LastTick(begun, init) + gap)
  }

  lemma {:induction false} EvenIsPaced(begun: Instant, ticks: seq<Instant>, gap: int)
    requires 0 <= gap && Even(begun, ticks, gap)
    ensures Paced(begun, ticks, gap)
  {
    if ticks != [] {
      EvenIsPaced(begun, ticks[..|ticks| - 1], gap);
    }
  }

  /** Every epoch that began and ended since `begun` was sealed. */
  ghost predicate AllSealed(s: Schedule, begun: Instant, now: Instant, log: seq<nat>) {
    forall e: nat :: e <= s.MaxEpoch() && begun <= s.Opens(e) && s.Releases(e) <= now ==> e in log
  }

  // --- Enough -------------------------------------------------------------------------------

  /** Half the period matters only where there is an epoch to roll to. */
  predicate Covers(s: Schedule, gap: int) {
    0 <= gap <= s.depositCutoff && (2 * gap <= s.period || s.MaxEpoch() == 0)
  }

  ghost predicate Inv(s: Schedule, begun: Instant, gap: int, c: Clock, now: Instant) {
    && c.epoch <= s.MaxEpoch() && Increasing(c.log)
    && (forall e <- c.log :: e <= c.epoch) && (c.closed <==> c.epoch in c.log)
    && (forall e: nat :: e < c.epoch && begun <= s.Opens(e) ==> e in c.log)
    && s.Opens(c.epoch) <= now && (now < s.Releases(c.epoch) || c.epoch == s.MaxEpoch())
    && (c.closed || s.Opens(c.epoch) < begun || now < s.Closes(c.epoch)
        || (now < s.Opens(c.epoch) + gap && 2 * gap <= s.period))
  }

  /** What holds between the seal and the roll. */
  ghost predicate Between(s: Schedule, begun: Instant, gap: int, c: Clock, next: Instant) {
    && Increasing(c.log) && (forall e <- c.log :: e <= c.epoch) && (c.closed <==> c.epoch in c.log)
    && (forall e: nat :: e < c.epoch && begun <= s.Opens(e) ==> e in c.log)
    && (c.closed || s.Opens(c.epoch) < begun || next < s.Closes(c.epoch))
  }

  lemma SealKeeps(s: Schedule, begun: Instant, gap: int, c: Clock, now: Instant, next: Instant)
    requires s.Valid() && Covers(s, gap) && Inv(s, begun, gap, c, now) && now <= next <= now + gap
    ensures Between(s, begun, gap, Sealed(s, c, next), next)
  {
    var opens := s.Opens(c.epoch);
    if !c.closed {
      SnocIncreases(c.log, c.epoch);
      assert opens < begun || next < opens + s.period || now >= s.Releases(c.epoch);
    }
  }

  lemma RollKeeps(s: Schedule, begun: Instant, gap: int, c: Clock, now: Instant, next: Instant)
    requires s.Valid() && Covers(s, gap) && Between(s, begun, gap, c, next) && c.epoch < s.MaxEpoch()
    requires now < s.Releases(c.epoch) <= next <= now + gap
    ensures s.EpochAt(next) == Some(c.epoch + 1)
    ensures Inv(s, begun, gap, Clock(c.epoch + 1, false, c.log), next)
  {
    Boundaries(s, c.epoch);
    EpochSpansInstant(s, next, c.epoch + 1);
  }

  lemma LastEpochStays(s: Schedule, c: Clock, next: Instant)
    requires s.Valid() && c.epoch == s.MaxEpoch() && s.Releases(c.epoch) <= next
    ensures s.EpochAt(next).None?
  {
    if s.EpochAt(next).Some? {
      var e := s.EpochAt(next).value;
      EpochSpansInstant(s, next, e);
      if e < c.epoch {
        OpensInOrder(s, e, c.epoch);
      }
      assert false;
    }
  }

  lemma TickKeeps(s: Schedule, begun: Instant, gap: int, c: Clock, now: Instant, next: Instant)
    requires s.Valid() && Covers(s, gap) && Inv(s, begun, gap, c, now) && now <= next <= now + gap
    ensures Inv(s, begun, gap, Ticked(s, c, next), next)
  {
    SealKeeps(s, begun, gap, c, now, next);
    var c1 := Sealed(s, c, next);
    if next < s.Releases(c.epoch) {
      EpochSpansInstant(s, next, c.epoch);
    } else if c.epoch < s.MaxEpoch() {
      RollKeeps(s, begun, gap, c1, now, next);
    } else {
      LastEpochStays(s, c, next);
    }
  }

  lemma EpochNeverFalls(s: Schedule, begun: Instant, gap: int, c: Clock, now: Instant, next: Instant)
    requires s.Valid() && Covers(s, gap) && Inv(s, begun, gap, c, now) && now <= next <= now + gap
    ensures c.epoch <= Ticked(s, c, next).epoch
  {
    SealKeeps(s, begun, gap, c, now, next);
    if next < s.Releases(c.epoch) {
      EpochSpansInstant(s, next, c.epoch);
    } else if c.epoch < s.MaxEpoch() {
      RollKeeps(s, begun, gap, Sealed(s, c, next), now, next);
    } else {
      LastEpochStays(s, c, next);
    }
  }

  lemma {:induction false} RunKeeps(s: Schedule, begun: Instant, gap: int, start: Clock, ticks: seq<Instant>)
    requires s.Valid() && Covers(s, gap) && Inv(s, begun, gap, start, begun) && Paced(begun, ticks, gap)
    ensures Inv(s, begun, gap, Run(s, start, ticks), LastTick(begun, ticks))
  {
    if ticks != [] {
      var init := ticks[..|ticks| - 1];
      RunKeeps(s, begun, gap, start, init);
      TickKeeps(s, begun, gap, Run(s, start, init), LastTick(begun, init), ticks[|ticks| - 1]);
    }
  }

  ghost function Begun(s: Schedule, begun: Instant): Clock
    requires s.EpochAt(begun).Some?
  {
    Clock(s.EpochAt(begun).value, false, [])
  }

  lemma BegunKeeps(s: Schedule, begun: Instant, gap: int)
    requires s.EpochAt(begun).Some? && Covers(s, gap)
    ensures Inv(s, begun, gap, Begun(s, begun), begun)
  {
    var c := Begun(s, begun);
    EpochSpansInstant(s, begun, c.epoch);
    forall e: nat | e < c.epoch ensures s.Opens(e) < begun {
      OpensInOrder(s, e, c.epoch);
    }
  }

  /** Ticks no further apart than the cutoff and half the period seal every epoch
      that begins and ends during the run, each exactly once and in order. */
  lemma EverySealedOnce(s: Schedule, begun: Instant, gap: int, ticks: seq<Instant>)
    requires s.EpochAt(begun).Some? && Covers(s, gap) && Paced(begun, ticks, gap)
    ensures var log := Run(s, Begun(s, begun), ticks).log;
            Increasing(log) && AllSealed(s, begun, LastTick(begun, ticks), log)
  {
    BegunKeeps(s, begun, gap);
    RunKeeps(s, begun, gap, Begun(s, begun), ticks);
    var c, now := Run(s, Begun(s, begun), ticks), LastTick(begun, ticks);
    forall e: nat | e <= s.MaxEpoch() && begun <= s.Opens(e) && s.Releases(e) <= now
      ensures e in c.log
    {
      AllSealedByNow(s, begun, gap, c, now, e);
    }
  }

  lemma AllSealedByNow(s: Schedule, begun: Instant, gap: int, c: Clock, now: Instant, e: nat)
    requires s.Valid() && Covers(s, gap) && Inv(s, begun, gap, c, now)
    requires e <= s.MaxEpoch() && begun <= s.Opens(e) && s.Releases(e) <= now
    ensures e in c.log
  {
    if c.epoch < e {
      OpensInOrder(s, c.epoch, e);
    }
  }

  // --- And no less ---------------------------------------------------------------------------

  lemma OneMore(s: Schedule, begun: Instant, gap: int, start: Clock, ticks: seq<Instant>)
    requires ticks != [] && Even(begun, ticks, gap)
    ensures var next := LastTick(begun, ticks) + gap;
            && Even(begun, ticks + [next], gap) && LastTick(begun, ticks + [next]) == next
            && Run(s, start, ticks + [next]) == Ticked(s, Run(s, start, ticks), next)
  {
    assert (ticks + [LastTick(begun, ticks) + gap])[..|ticks|] == ticks;
  }

  lemma FirstTick(s: Schedule, begun: Instant, gap: int, start: Clock, next: Instant)
    requires begun <= next <= begun + gap
    ensures Even(begun, [next], gap) && LastTick(begun, [next]) == next
    ensures Run(s, start, [next]) == Ticked(s, start, next)
  {
    assert [next][..0] == [];
  }

  lemma NothingDue(s: Schedule, now: Instant)
    requires s.Valid() && s.genesis <= now < s.Closes(0)
    ensures Ticked(s, Clock(0, false, []), now) == Clock(0, false, [])
  {
    FirstEpoch(s, now);
  }

  /** A ticker started at genesis whose phase makes a tick fall on `target`. */
  lemma {:induction false} TicksTo(s: Schedule, gap: int, target: Instant) returns (ticks: seq<Instant>)
    requires s.Valid() && 0 < gap && s.genesis <= target < s.Closes(0)
    ensures ticks != [] && Even(s.genesis, ticks, gap) && LastTick(s.genesis, ticks) == target
    ensures Run(s, Clock(0, false, []), ticks) == Clock(0, false, [])
    decreases target - s.genesis
  {
    NothingDue(s, target);
    if target - gap < s.genesis {
      ticks := [target];
      FirstTick(s, s.genesis, gap, Clock(0, false, []), target);
    } else {
      var init := TicksTo(s, gap, target - gap);
      ticks := init + [target];
      OneMore(s, s.genesis, gap, Clock(0, false, []), init);
    }
  }

  ghost predicate Misses(s: Schedule, begun: Instant, ticks: seq<Instant>) {
    s.EpochAt(begun).Some? && !AllSealed(s, begun, LastTick(begun, ticks), Run(s, Begun(s, begun), ticks).log)
  }

  /** With a gap above the cutoff one tick falls just before the seal part of the
      first epoch and the next one behind it. */
  lemma StepsOverSeal(s: Schedule, gap: int) returns (ticks: seq<Instant>)
    requires s.Valid() && s.depositCutoff < gap
    ensures Even(s.genesis, ticks, gap) && Misses(s, s.genesis, ticks)
  {
    FirstEpoch(s, s.genesis);
    var start := Clock(0, false, []);
    var init := TicksTo(s, gap, s.Closes(0) - 1);
    var late := s.Closes(0) - 1 + gap;
    ticks := init + [late];
    OneMore(s, s.genesis, gap, start, init);
    assert Run(s, start, ticks).log == [];
    assert s.Opens(0) == s.genesis && s.Releases(0) <= late && 0 <= s.MaxEpoch();
  }

  /** With a gap above half the period an epoch can see a single tick, and that one
      only rolls to it. */
  lemma RollsTooLate(s: Schedule, gap: int) returns (begun: Instant, ticks: seq<Instant>)
    requires s.Valid() && 1 <= s.MaxEpoch() && 0 < gap <= s.depositCutoff && s.period < 2 * gap
    ensures Even(begun, ticks, gap) && Misses(s, begun, ticks)
  {
    begun := s.genesis + s.period - 1;
    FirstEpoch(s, begun);
    var start, roll, late := Clock(0, false, []), begun + gap, begun + gap + gap;
    Boundaries(s, 0);
    FirstTick(s, begun, gap, start, roll);
    EpochSpansInstant(s, roll, 1);
    assert Ticked(s, start, roll) == Clock(1, false, []);
    OneMore(s, begun, gap, start, [roll]);
    ticks := [roll] + [late];
    assert s.Releases(1) <= late;
    assert 1 !in Run(s, start, ticks).log;
  }

  /** The bound is exact for a ticker, with every start and every phase: with any
      larger gap some epoch that began and ended during a run goes unsealed. */
  lemma EvenGapIsExact(s: Schedule, gap: int)
    requires s.Valid() && 0 < gap
    ensures Covers(s, gap) <==> forall begun, ticks :: Even(begun, ticks, gap) ==> !Misses(s, begun, ticks)
  {
    if Covers(s, gap) {
      forall begun, ticks | Even(begun, ticks, gap) ensures !Misses(s, begun, ticks) {
        EvenIsPaced(begun, ticks, gap);
        if s.EpochAt(begun).Some? {
          EverySealedOnce(s, begun, gap, ticks);
        }
      }
    } else if s.depositCutoff < gap {
      var ticks := StepsOverSeal(s, gap);
    } else {
      var begun, ticks := RollsTooLate(s, gap);
    }
  }

  /** And for ticks that come no later than the gap but may come early. */
  lemma GapIsExact(s: Schedule, gap: int)
    requires s.Valid() && 0 < gap
    ensures Covers(s, gap) <==> forall begun, ticks :: Paced(begun, ticks, gap) ==> !Misses(s, begun, ticks)
  {
    if Covers(s, gap) {
      forall begun, ticks | Paced(begun, ticks, gap) ensures !Misses(s, begun, ticks) {
        if s.EpochAt(begun).Some? {
          EverySealedOnce(s, begun, gap, ticks);
        }
      }
    } else {
      EvenGapIsExact(s, gap);
      var begun, ticks :| Even(begun, ticks, gap) && Misses(s, begun, ticks);
      EvenIsPaced(begun, ticks, gap);
    }
  }

  const TEN_MILLISECONDS: int := 10_000_000

  /** The ticker the loop sets itself. */
  function Interval(s: Schedule): int
    requires s.Valid()
  {
    if s.period / 20 < TEN_MILLISECONDS then TEN_MILLISECONDS else s.period / 20
  }

  /** The schedule check admits cutoffs below the loop's own interval. Its ticker
      seals every epoch it should exactly when the interval covers; for periods of a
      fifth of a second or more that is a cutoff of at least a twentieth of the period. */
  lemma OwnTickerIsEnoughIff(s: Schedule)
    requires s.Valid()
    ensures Covers(s, Interval(s)) <==>
            forall begun, ticks :: Even(begun, ticks, Interval(s)) ==> !Misses(s, begun, ticks)
    ensures 20 * TEN_MILLISECONDS <= s.period ==> (Covers(s, Interval(s)) <==> s.period / 20 <= s.depositCutoff)
  {
    EvenGapIsExact(s, Interval(s));
  }
}
