/** The public release schedule. Durations are signed 64-bit nanosecond counts
    and wrap; instants do not. */
module ReleaseSchedule {
  import opened Options
  import opened Instants

  const MAX_DURATION: int := 0x7FFF_FFFF_FFFF_FFFF
  const TWO_64: int := 0x1_0000_0000_0000_0000
  type Duration = x: int | -MAX_DURATION - 1 <= x <= MAX_DURATION

  /** A product or sum as a signed 64-bit word holds it. */
  function Wrapped(x: int): int {
    (x + MAX_DURATION + 1) % TWO_64 - (MAX_DURATION + 1)
  }

  datatype Schedule = Schedule(
    genesis: Instant, period: Duration, depositCutoff: Duration, batchSize: int, maxDepositsPerSession: int)
  {
    predicate Valid() {
      && genesis != ZERO_TIME
      && 0 < period
      && 0 < depositCutoff < period
      && 2 <= batchSize
      && 1 <= maxDepositsPerSession <= batchSize
    }

    /** The highest epoch whose release boundary does not overflow. */
    function MaxEpoch(): nat {
      if period <= 0 then 0
      else
        assert MAX_DURATION / period >= 1;
        MAX_DURATION / period - 1
    }

    // --- As the code computes it -----------------------------------------------------------

    function EpochAt(now: Instant): Option<nat> {
      if !Valid() || now < genesis then None
      else
        var elapsed := if now - genesis > MAX_DURATION then MAX_DURATION else now - genesis;
        if elapsed == MAX_DURATION then None
        else
          var epoch := elapsed / period;
          if epoch > MaxEpoch() then None else Some(epoch)
    }

    function DepositWindow(epoch: nat): Option<(Instant, Instant)> {
      if !Valid() || epoch > MaxEpoch() then None
      else
        var opens := genesis + Wrapped(Wrapped(epoch) * period);
        Some((opens, opens + Wrapped(period - depositCutoff)))
    }

    function ReleaseAt(epoch: nat): Option<Instant> {
      if !Valid() || epoch > MaxEpoch() then None else Some(genesis + Wrapped(Wrapped(epoch + 1) * period))
    }

    // --- What it means ------------------------------------------------------------------------

    function Opens(epoch: nat): Instant {
      genesis + epoch * period
    }

    function Closes(epoch: nat): Instant {
      Opens(epoch) + period - depositCutoff
    }

    function Releases(epoch: nat): Instant {
      Opens(epoch) + period
    }
  }

  lemma MulMonotone(a: int, b: int, c: int)
    requires a <= b && 0 <= c
    ensures a * c <= b * c
  {
  }

  lemma Boundaries(s: Schedule, epoch: nat)
    ensures s.Opens(epoch + 1) == s.Releases(epoch)
  {
    assert (epoch + 1) * s.period == epoch * s.period + s.period;
  }

  lemma FitsDuration(s: Schedule, epoch: nat)
    requires s.Valid() && epoch <= s.MaxEpoch()
    ensures 0 <= epoch <= epoch + 1 <= MAX_DURATION
    ensures 0 <= epoch * s.period <= (epoch + 1) * s.period <= MAX_DURATION
  {
    MulMonotone(epoch + 1, MAX_DURATION / s.period, s.period);
    MulMonotone(0, epoch, s.period);
    MulMonotone(epoch, epoch + 1, s.period);
    assert MAX_DURATION / s.period * s.period <= MAX_DURATION;
    MulMonotone(1, s.period, epoch + 1);
  }

  lemma WrappedFits(x: int)
    requires 0 <= x <= MAX_DURATION
    ensures Wrapped(x) == x
  {
  }

  lemma WindowIs(s: Schedule, epoch: nat)
    requires s.Valid() && epoch <= s.MaxEpoch()
    ensures s.DepositWindow(epoch) == Some((s.Opens(epoch), s.Closes(epoch)))
  {
    FitsDuration(s, epoch);
    WrappedFits(epoch);
    var offset := epoch * s.period;
    WrappedFits(offset);
    WrappedFits(s.period - s.depositCutoff);
  }

  lemma ReleaseIs(s: Schedule, epoch: nat)
    requires s.Valid() && epoch <= s.MaxEpoch()
    ensures s.ReleaseAt(epoch) == Some(s.Releases(epoch))
  {
    FitsDuration(s, epoch);
    WrappedFits(epoch + 1);
    var offset := (epoch + 1) * s.period;
    WrappedFits(offset);
    Boundaries(s, epoch);
    assert s.genesis + offset == s.Releases(epoch);
  }

  /** Up to the highest epoch no boundary wraps. */
  lemma NothingWraps(s: Schedule, epoch: nat)
    requires s.Valid() && epoch <= s.MaxEpoch()
    ensures s.DepositWindow(epoch) == Some((s.Opens(epoch), s.Closes(epoch)))
    ensures s.ReleaseAt(epoch) == Some(s.Releases(epoch))
    ensures s.Opens(epoch) < s.Closes(epoch) < s.Releases(epoch)
  {
    WindowIs(s, epoch);
    ReleaseIs(s, epoch);
  }

  /** The first epoch past the highest would wrap: the bound is exact. */
  lemma BoundIsExact(s: Schedule)
    requires s.Valid()
    ensures (s.MaxEpoch() + 2) * s.period > MAX_DURATION
  {
    var q := MAX_DURATION / s.period;
    assert q * s.period + MAX_DURATION % s.period == MAX_DURATION;
    assert (q + 1) * s.period == q * s.period + s.period;
  }

  /** An instant has an epoch exactly when some representable epoch spans it,
      and then it is that epoch. */
  lemma EpochSpansInstant(s: Schedule, now: Instant, epoch: nat)
    ensures s.EpochAt(now) == Some(epoch)
       <==> s.Valid() && epoch <= s.MaxEpoch() && s.Opens(epoch) <= now < s.Releases(epoch)
  {
    var elapsed := now - s.genesis;
    if s.Valid() && epoch <= s.MaxEpoch() && s.Opens(epoch) <= now < s.Releases(epoch) {
      FitsDuration(s, epoch);
      Boundaries(s, epoch);
      QuotientIs(elapsed, s.period, epoch);
    }
    if s.EpochAt(now) == Some(epoch) {
      assert epoch == elapsed / s.period;
      assert elapsed == epoch * s.period + elapsed % s.period;
    }
  }

  lemma FirstEpoch(s: Schedule, now: Instant)
    requires s.Valid() && s.genesis <= now < s.genesis + s.period
    ensures s.EpochAt(now) == Some(0) && s.Opens(0) == s.genesis
  {
    EpochSpansInstant(s, now, 0);
  }

  lemma QuotientIs(x: int, d: int, q: int)
    requires 0 < d && q * d <= x < q * d + d
    ensures x / d == q
  {
    var k := x / d - q;
    assert x == (x / d) * d + x % d;
    assert k * d == (x / d) * d - q * d;
    assert -d < k * d < d;
    assert k < 1 by { if k >= 1 { MulMonotone(1, k, d); assert false; } }
    assert k > -1 by { if k <= -1 { MulMonotone(k, -1, d); assert false; } }
  }

  /** Every instant of the schedule lies in exactly one of an epoch's deposit
      part and its seal part. */
  lemma WindowsPartition(s: Schedule, now: Instant)
    requires s.EpochAt(now).Some?
    ensures var e := s.EpochAt(now).value;
            && e <= s.MaxEpoch()
            && (s.Opens(e) <= now < s.Closes(e) || s.Closes(e) <= now < s.Releases(e))
  {
    EpochSpansInstant(s, now, s.EpochAt(now).value);
  }

  lemma OpensInOrder(s: Schedule, a: nat, b: nat)
    requires s.Valid() && a < b
    ensures s.Releases(a) <= s.Opens(b)
  {
    Boundaries(s, a);
    MulMonotone(a + 1, b, s.period);
  }
}
