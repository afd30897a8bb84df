/** The public rotation planner: what the lifecycle asks of an operator at an
    instant, and the next instant at which that can change. */
module Rotation {
  import opened Options
  import opened Instants
  import opened EpochDescriptor

  datatype Action = AwaitActivation | Idle | PrepareNext | Escalate | Retire | Halted
  datatype Plan = Plan(action: Action, epoch: nat, attempt: nat, dueAt: Instant)
  datatype Policy = Policy(prepareLead: int, retryOffsets: seq<int>, escalateAfter: int)

  ghost predicate ValidPolicy(p: Policy) {
    && 0 < p.prepareLead
    && (forall i | 0 <= i < |p.retryOffsets| :: 0 < p.retryOffsets[i] < p.prepareLead)
    && (forall i | 0 < i < |p.retryOffsets| :: p.retryOffsets[i - 1] < p.retryOffsets[i])
    && 0 < p.escalateAfter < p.prepareLead
    && (p.retryOffsets != [] ==> p.retryOffsets[|p.retryOffsets| - 1] < p.escalateAfter)
  }

  /** The epoch at the top of the chain. */
  datatype Tip = Tip(epoch: Word64, activateAt: Instant, retireAt: Instant) {
    function PrepareAt(p: Policy): Instant {
      retireAt - p.prepareLead
    }
  }

  /** How many offsets lie at or before `elapsed`. */
  function Passed(offsets: seq<int>, elapsed: int): (n: nat)
    ensures n <= |offsets|
  {
    if offsets == [] then 0
    else Passed(offsets[..|offsets| - 1], elapsed) + (if offsets[|offsets| - 1] <= elapsed then 1 else 0)
  }

  function PlanAt(tip: Tip, now: Instant, p: Policy): Plan {
    var prepareAt := tip.PrepareAt(p);
    if now < tip.activateAt then Plan(AwaitActivation, tip.epoch, 1, tip.activateAt)
    else if tip.retireAt <= now then Plan(Retire, tip.epoch, 0, tip.retireAt)
    else if now < prepareAt then Plan(Idle, tip.epoch, 0, prepareAt)
    else if prepareAt + p.escalateAfter <= now then
      Plan(Escalate, Following(tip.epoch), |p.retryOffsets| + 1, prepareAt + p.escalateAfter)
    else
      var passed := Passed(p.retryOffsets, now - prepareAt);
      Plan(PrepareNext, Following(tip.epoch), passed + 1,
           if passed == 0 then prepareAt else prepareAt + p.retryOffsets[passed - 1])
  }

  /** The plan of a whole chain. */
  function ChainPlan(halted: bool, tip: Option<Tip>, now: Instant, p: Policy): Plan {
    if halted then Plan(Halted, 0, 0, ZERO_TIME)
    else if tip.None? then Plan(Idle, 0, 0, ZERO_TIME)
    else PlanAt(tip.value, now, p)
  }

  /** Every instant the deadline is chosen from. */
  function Candidates(tip: Tip, p: Policy): seq<Instant> {
    var prepareAt := tip.PrepareAt(p);
    [tip.activateAt, tip.retireAt, prepareAt, prepareAt + p.escalateAfter]
    + seq(|p.retryOffsets|, i requires 0 <= i < |p.retryOffsets| => prepareAt + p.retryOffsets[i])
  }

  /** The code's running minimum, with the zero time standing for "none". */
  function Best(candidates: seq<Instant>, now: Instant): Instant {
    if candidates == [] then ZERO_TIME
    else
      var best := Best(candidates[..|candidates| - 1], now);
      var candidate := candidates[|candidates| - 1];
      if now < candidate && (best == ZERO_TIME || candidate < best) then candidate else best
  }

  function NextDeadline(tip: Tip, now: Instant, p: Policy): Option<Instant> {
    var best := Best(Candidates(tip, p), now);
    if best == ZERO_TIME then None else Some(best)
  }

  // --- The ladder -------------------------------------------------------------------------------

  lemma {:induction false} OffsetsIncrease(offsets: seq<int>, i: nat, j: nat)
    requires forall k | 0 < k < |offsets| :: offsets[k - 1] < offsets[k]
    requires i < j < |offsets|
    ensures offsets[i] < offsets[j]
    decreases j - i
  {
    if i < j - 1 { OffsetsIncrease(offsets, i, j - 1); }
  }

  /** The passed offsets are exactly the first ones. */
  lemma {:induction false} PassedIsPrefix(offsets: seq<int>, elapsed: int, k: nat)
    requires forall i | 0 < i < |offsets| :: offsets[i - 1] < offsets[i]
    requires k < |offsets|
    ensures offsets[k] <= elapsed <==> k < Passed(offsets, elapsed)
  {
    var n := |offsets|;
    var shorter := offsets[..n - 1];
    if k < n - 1 {
      PassedIsPrefix(shorter, elapsed, k);
      if offsets[n - 1] <= elapsed {
        AllPassed(shorter, offsets[n - 1], elapsed);
        OffsetsIncrease(offsets, k, n - 1);
      }
    } else if offsets[n - 1] <= elapsed {
      AllPassed(shorter, offsets[n - 1], elapsed);
    }
  }

  lemma {:induction false} AllPassed(offsets: seq<int>, next: int, elapsed: int)
    requires forall i | 0 < i < |offsets| :: offsets[i - 1] < offsets[i]
    requires next <= elapsed && (offsets != [] ==> offsets[|offsets| - 1] < next)
    ensures Passed(offsets, elapsed) == |offsets|
  {
    if offsets != [] { AllPassed(offsets[..|offsets| - 1], offsets[|offsets| - 1], elapsed); }
  }

  lemma {:induction false} PassedGrows(offsets: seq<int>, e1: int, e2: int)
    requires e1 <= e2
    ensures Passed(offsets, e1) <= Passed(offsets, e2)
  {
    if offsets != [] { PassedGrows(offsets[..|offsets| - 1], e1, e2); }
  }

  ghost predicate OnLadder(tip: Tip, p: Policy, t: Instant) {
    var prepareAt := tip.PrepareAt(p);
    t == prepareAt || t == prepareAt + p.escalateAfter
    || exists k | 0 <= k < |p.retryOffsets| :: t == prepareAt + p.retryOffsets[k]
  }

  /** The latest passed rung of the retry ladder. */
  lemma LatestRetry(offsets: seq<int>, elapsed: int, k: nat)
    requires forall i | 0 < i < |offsets| :: offsets[i - 1] < offsets[i]
    requires k < |offsets| && offsets[k] <= elapsed
    ensures 0 < Passed(offsets, elapsed) && offsets[k] <= offsets[Passed(offsets, elapsed) - 1] <= elapsed
  {
    var passed := Passed(offsets, elapsed);
    PassedIsPrefix(offsets, elapsed, k);
    PassedIsPrefix(offsets, elapsed, passed - 1);
    if k < passed - 1 { OffsetsIncrease(offsets, k, passed - 1); }
  }

  /** While a ceremony is due, the plan names the latest ladder instant that has
      already passed. */
  lemma DueIsLatestPassed(tip: Tip, now: Instant, p: Policy, t: Instant)
    requires ValidPolicy(p) && PlanAt(tip, now, p).action in {PrepareNext, Escalate}
    ensures OnLadder(tip, p, PlanAt(tip, now, p).dueAt) && PlanAt(tip, now, p).dueAt <= now
    ensures OnLadder(tip, p, t) && t <= now ==> t <= PlanAt(tip, now, p).dueAt
  {
    DueIsOnLadder(tip, now, p);
    var prepareAt, offsets := tip.PrepareAt(p), p.retryOffsets;
    if OnLadder(tip, p, t) && t <= now && t != prepareAt && t != prepareAt + p.escalateAfter {
      var k :| 0 <= k < |offsets| && t == prepareAt + offsets[k];
      RetryIsNotAfterDue(tip, now, p, k);
    }
  }

  lemma DueIsOnLadder(tip: Tip, now: Instant, p: Policy)
    requires ValidPolicy(p) && PlanAt(tip, now, p).action in {PrepareNext, Escalate}
    ensures OnLadder(tip, p, PlanAt(tip, now, p).dueAt) && tip.PrepareAt(p) <= PlanAt(tip, now, p).dueAt <= now
  {
    var passed := Passed(p.retryOffsets, now - tip.PrepareAt(p));
    if passed > 0 { PassedIsPrefix(p.retryOffsets, now - tip.PrepareAt(p), passed - 1); }
  }

  lemma RetryIsNotAfterDue(tip: Tip, now: Instant, p: Policy, k: nat)
    requires ValidPolicy(p) && PlanAt(tip, now, p).action in {PrepareNext, Escalate}
    requires k < |p.retryOffsets| && tip.PrepareAt(p) + p.retryOffsets[k] <= now
    ensures tip.PrepareAt(p) + p.retryOffsets[k] <= PlanAt(tip, now, p).dueAt
  {
    LatestRetry(p.retryOffsets, now - tip.PrepareAt(p), k);
    if k < |p.retryOffsets| - 1 { OffsetsIncrease(p.retryOffsets, k, |p.retryOffsets| - 1); }
  }

  // --- What a plan names ------------------------------------------------------------------------------

  ghost function TipOf(v: Verified): Tip {
    Tip(v.Epoch(), v.ActivateAt(), v.RetireAt())
  }

  /** The places of the offsets at or before `elapsed`. */
  function PassedPlaces(offsets: seq<int>, elapsed: int): set<nat> {
    set k: nat | k < |offsets| && offsets[k] <= elapsed
  }

  /** The retry rungs that have passed. */
  function RungsPassed(tip: Tip, p: Policy, now: Instant): set<nat> {
    set k: nat | k < |p.retryOffsets| && tip.PrepareAt(p) + p.retryOffsets[k] <= now
  }

  lemma {:induction false} PassedCounts(offsets: seq<int>, elapsed: int)
    ensures Passed(offsets, elapsed) == |PassedPlaces(offsets, elapsed)|
  {
    if offsets == [] {
      assert PassedPlaces(offsets, elapsed) == {};
    } else {
      var last := |offsets| - 1;
      var before := PassedPlaces(offsets[..last], elapsed);
      PassedCounts(offsets[..last], elapsed);
      assert PassedPlaces(offsets, elapsed) == if offsets[last] <= elapsed then before + {last} else before;
    }
  }

  lemma AttemptCounts(tip: Tip, now: Instant, p: Policy)
    requires ValidPolicy(p) && PlanAt(tip, now, p).action in {PrepareNext, Escalate}
    ensures PlanAt(tip, now, p).attempt == |RungsPassed(tip, p, now)| + 1
  {
    var elapsed := now - tip.PrepareAt(p);
    PassedCounts(p.retryOffsets, elapsed);
    assert RungsPassed(tip, p, now) == PassedPlaces(p.retryOffsets, elapsed);
    if PlanAt(tip, now, p).action == Escalate && p.retryOffsets != [] {
      AllPassed(p.retryOffsets, p.escalateAfter, elapsed);
    }
  }

  /** The plan over the tip's life: which action when, which epoch it is about, when
      it was or will be due, and at which attempt. */
  lemma PlanIs(tip: Tip, now: Instant, p: Policy)
    requires ValidPolicy(p)
    ensures
      var plan, prepareAt := PlanAt(tip, now, p), tip.PrepareAt(p);
      && (plan.action == AwaitActivation <==> now < tip.activateAt)
      && (plan.action == Retire <==> tip.activateAt <= now && tip.retireAt <= now)
      && (plan.action == Idle <==> tip.activateAt <= now < tip.retireAt && now < prepareAt)
      && (plan.action == Escalate <==> tip.activateAt <= now < tip.retireAt && prepareAt + p.escalateAfter <= now)
      && (plan.action in {AwaitActivation, Idle, Retire} ==> plan.epoch == tip.epoch)
      && (plan.action == AwaitActivation ==> plan.dueAt == tip.activateAt && plan.attempt == 1)
      && (plan.action == Idle ==> plan.dueAt == prepareAt && plan.attempt == 0)
      && (plan.action == Retire ==> plan.dueAt == tip.retireAt && plan.attempt == 0)
      && (plan.action in {PrepareNext, Escalate} ==> plan.attempt == |RungsPassed(tip, p, now)| + 1)
  {
    if PlanAt(tip, now, p).action in {PrepareNext, Escalate} {
      AttemptCounts(tip, now, p);
    }
  }

  /** A ceremony asked for is the one the store will accept: every descriptor that
      verifies after the tip has the number the plan names. */
  lemma PlanNamesSuccessor(c: Crypto, tip: Verified, d: Descriptor, revoked: set<Key>, now: Instant, p: Policy)
    requires Verify(c, d, Some(tip), revoked).Some? && PlanAt(TipOf(tip), now, p).action in {PrepareNext, Escalate}
    ensures d.body.topology.epoch == PlanAt(TipOf(tip), now, p).epoch
  {
  }

  // --- Time only moves the plan forward -------------------------------------------------------------

  function Stage(a: Action): nat {
    match a
    case AwaitActivation => 0
    case Idle => 1
    case PrepareNext => 2
    case Escalate => 3
    case Retire => 4
    case Halted => 5
  }

  lemma PlanAdvances(tip: Tip, now: Instant, later: Instant, p: Policy)
    requires ValidPolicy(p) && now <= later
    ensures Stage(PlanAt(tip, now, p).action) <= Stage(PlanAt(tip, later, p).action)
    ensures (&& PlanAt(tip, now, p).action in {PrepareNext, Escalate}
             && PlanAt(tip, later, p).action in {PrepareNext, Escalate})
        ==> PlanAt(tip, now, p).attempt <= PlanAt(tip, later, p).attempt
  {
    PassedGrows(p.retryOffsets, now - tip.PrepareAt(p), later - tip.PrepareAt(p));
  }

  // --- The deadline is where the plan can change ------------------------------------------------------

  /** The next candidate is the zero time, which the code cannot tell from "none". */
  ghost predicate ZeroIsNext(candidates: seq<Instant>, now: Instant) {
    now < ZERO_TIME && ZERO_TIME in candidates && forall c <- candidates :: !(now < c < ZERO_TIME)
  }

  /** Whatever the sentinel does, the running minimum is ahead of `now` and no
      candidate before the zero time is missed. */
  lemma {:induction false} BestIsAhead(candidates: seq<Instant>, now: Instant)
    ensures var best := Best(candidates, now);
      && (best != ZERO_TIME ==> best in candidates && now < best)
      && (forall c <- candidates :: now < c < ZERO_TIME ==> best != ZERO_TIME && best <= c)
      && (ZERO_TIME <= now || ZERO_TIME !in candidates ==>
            forall c <- candidates :: now < c ==> best != ZERO_TIME && best <= c)
  {
    if candidates != [] {
      var n := |candidates|;
      assert candidates == candidates[..n - 1] + [candidates[n - 1]];
      BestIsAhead(candidates[..n - 1], now);
    }
  }

  /** The running minimum is the least candidate after `now`, unless that is the zero time. */
  lemma BestIsLeast(candidates: seq<Instant>, now: Instant)
    requires !ZeroIsNext(candidates, now)
    ensures var best := Best(candidates, now);
      if best == ZERO_TIME then forall c <- candidates :: c <= now
      else best in candidates && now < best && forall c <- candidates :: now < c ==> best <= c
  {
    BestIsAhead(candidates, now);
  }

  /** No candidate lies strictly after `now` and at or before `t`. */
  ghost predicate NothingBetween(tip: Tip, p: Policy, now: Instant, t: Instant) {
    forall c <- Candidates(tip, p) :: !(now < c <= t)
  }

  lemma {:induction false} PassedUnchanged(offsets: seq<int>, e1: int, e2: int)
    requires e1 <= e2 && forall k | 0 <= k < |offsets| :: !(e1 < offsets[k] <= e2)
    ensures Passed(offsets, e1) == Passed(offsets, e2)
  {
    if offsets != [] {
      PassedUnchanged(offsets[..|offsets| - 1], e1, e2);
    }
  }

  lemma NothingChanges(tip: Tip, p: Policy, now: Instant, t: Instant)
    requires now <= t && NothingBetween(tip, p, now, t)
    ensures PlanAt(tip, now, p) == PlanAt(tip, t, p)
  {
    var cs, prepareAt := Candidates(tip, p), tip.PrepareAt(p);
    assert cs[0] in cs && cs[1] in cs && cs[2] in cs && cs[3] in cs;
    assert cs[0] == tip.activateAt && cs[1] == tip.retireAt && cs[2] == prepareAt;
    assert cs[3] == prepareAt + p.escalateAfter;
    forall k | 0 <= k < |p.retryOffsets| ensures !(now - prepareAt < p.retryOffsets[k] <= t - prepareAt) {
      assert cs[4 + k] == prepareAt + p.retryOffsets[k] && cs[4 + k] in cs;
    }
    PassedUnchanged(p.retryOffsets, now - prepareAt, t - prepareAt);
  }

  /** The candidates listed after the last zero time. */
  function AfterZero(candidates: seq<Instant>): seq<Instant> {
    if candidates == [] || candidates[|candidates| - 1] == ZERO_TIME then []
    else AfterZero(candidates[..|candidates| - 1]) + [candidates[|candidates| - 1]]
  }

  lemma {:induction false} AfterZeroMembers(candidates: seq<Instant>)
    ensures ZERO_TIME !in AfterZero(candidates) && forall c <- AfterZero(candidates) :: c in candidates
  {
    if candidates != [] {
      assert candidates == candidates[..|candidates| - 1] + [candidates[|candidates| - 1]];
      AfterZeroMembers(candidates[..|candidates| - 1]);
    }
  }

  /** When the zero time is next, choosing it resets the running minimum: what is
      listed before the last zero time is forgotten. */
  lemma {:induction false} BestSinceZero(candidates: seq<Instant>, now: Instant)
    requires ZeroIsNext(candidates, now)
    ensures Best(candidates, now) == Best(AfterZero(candidates), now)
  {
    var init, last := candidates[..|candidates| - 1], candidates[|candidates| - 1];
    assert candidates == init + [last] && forall c <- init :: c in candidates;
    BestIsAhead(init, now);
    if last != ZERO_TIME {
      BestSinceZero(init, now);
      assert AfterZero(candidates)[..|AfterZero(init)|] == AfterZero(init);
    } else {
      assert Best(init, now) == ZERO_TIME || ZERO_TIME < Best(init, now);
    }
  }

  /** The deadline comes no later than the next change: the next candidate is not
      the zero time, or the epoch activates after the zero time and a candidate
      listed after the last zero time lies no later than the activation. */
  ghost predicate WakesInTime(tip: Tip, p: Policy, now: Instant) {
    !ZeroIsNext(Candidates(tip, p), now) || (ZERO_TIME < tip.activateAt && ListedInTime(tip, p))
  }

  ghost predicate ListedInTime(tip: Tip, p: Policy) {
    exists c <- AfterZero(Candidates(tip, p)) :: ZERO_TIME < c <= tip.activateAt
  }

  lemma DeadlineSinceZero(tip: Tip, p: Policy, now: Instant)
    requires ZeroIsNext(Candidates(tip, p), now) && ZERO_TIME < tip.activateAt
    ensures (NextDeadline(tip, now, p).Some? && NextDeadline(tip, now, p).value <= tip.activateAt)
       <==> ListedInTime(tip, p)
  {
    var cs := Candidates(tip, p);
    AfterZeroMembers(cs);
    BestSinceZero(cs, now);
    BestIsLeast(AfterZero(cs), now);
    assert forall c <- AfterZero(cs) :: now < c <==> ZERO_TIME < c;
  }

  /** An operator may sleep: the plan is constant from now until just before the
      next deadline, and forever when there is none. */
  lemma PlanHoldsUntilDeadline(tip: Tip, p: Policy, now: Instant, t: Instant)
    requires WakesInTime(tip, p, now)
    requires now <= t && (NextDeadline(tip, now, p).Some? ==> t < NextDeadline(tip, now, p).value)
    ensures PlanAt(tip, t, p) == PlanAt(tip, now, p)
    ensures NextDeadline(tip, now, p).Some? ==> now < NextDeadline(tip, now, p).value
  {
    BestIsAhead(Candidates(tip, p), now);
    if ZeroIsNext(Candidates(tip, p), now) {
      DeadlineSinceZero(tip, p, now);
      assert t < tip.activateAt;
    } else {
      BestIsLeast(Candidates(tip, p), now);
      NothingChanges(tip, p, now, t);
    }
  }

  lemma {:induction false} PassedRises(offsets: seq<int>, e1: int, e2: int, k: nat)
    requires k < |offsets| && e1 < offsets[k] <= e2
    ensures Passed(offsets, e1) < Passed(offsets, e2)
  {
    var init := offsets[..|offsets| - 1];
    if k < |init| {
      PassedRises(init, e1, e2, k);
    } else {
      PassedGrows(init, e1, e2);
    }
  }

  lemma RetryAtZero(tip: Tip, p: Policy, now: Instant, k: nat)
    requires ValidPolicy(p) && tip.activateAt <= now < ZERO_TIME && k < |p.retryOffsets|
    requires tip.PrepareAt(p) <= now && tip.PrepareAt(p) + p.retryOffsets[k] == ZERO_TIME
    ensures PlanAt(tip, now, p).attempt != PlanAt(tip, ZERO_TIME, p).attempt
  {
    RetryBeforeEscalation(p, k);
    PassedRises(p.retryOffsets, now - tip.PrepareAt(p), ZERO_TIME - tip.PrepareAt(p), k);
  }

  /** The plan of an epoch active by the zero time changes there if a candidate lies there. */
  lemma ZeroChangesPlan(tip: Tip, p: Policy, now: Instant)
    requires ValidPolicy(p) && tip.activateAt < tip.retireAt && tip.activateAt <= ZERO_TIME
    requires ZeroIsNext(Candidates(tip, p), now)
    ensures PlanAt(tip, now, p) != PlanAt(tip, ZERO_TIME, p)
  {
    var cs, prepareAt := Candidates(tip, p), tip.PrepareAt(p);
    assert cs[0] in cs && cs[1] in cs && cs[2] in cs && cs[3] in cs;
    assert cs[0] == tip.activateAt && cs[1] == tip.retireAt && cs[2] == prepareAt;
    assert cs[3] == prepareAt + p.escalateAfter;
    var i :| 0 <= i < |cs| && cs[i] == ZERO_TIME;
    if i >= 4 && tip.activateAt != ZERO_TIME {
      assert prepareAt + p.retryOffsets[i - 4] == ZERO_TIME;
      RetryAtZero(tip, p, now, i - 4);
    }
  }

  lemma RetryBeforeEscalation(p: Policy, k: nat)
    requires ValidPolicy(p) && k < |p.retryOffsets|
    ensures 0 < p.retryOffsets[k] < p.escalateAfter
  {
    if k < |p.retryOffsets| - 1 {
      OffsetsIncrease(p.retryOffsets, k, |p.retryOffsets| - 1);
    }
  }

  /** Sleeping until the reported deadline misses no change of plan exactly when
      the deadline wakes in time, for every policy and every epoch. */
  lemma SleepIsSafeIff(tip: Tip, p: Policy, now: Instant)
    requires ValidPolicy(p) && tip.activateAt < tip.retireAt
    ensures WakesInTime(tip, p, now) <==>
            forall t :: now <= t && (NextDeadline(tip, now, p).Some? ==> t < NextDeadline(tip, now, p).value) ==>
              PlanAt(tip, t, p) == PlanAt(tip, now, p)
  {
    if WakesInTime(tip, p, now) {
      forall t | now <= t && (NextDeadline(tip, now, p).Some? ==> t < NextDeadline(tip, now, p).value)
        ensures PlanAt(tip, t, p) == PlanAt(tip, now, p)
      {
        PlanHoldsUntilDeadline(tip, p, now, t);
      }
    } else {
      BestIsAhead(Candidates(tip, p), now);
      if tip.activateAt <= ZERO_TIME {
        ZeroChangesPlan(tip, p, now);
      } else {
        DeadlineSinceZero(tip, p, now);
        assert PlanAt(tip, tip.activateAt, p).action != PlanAt(tip, now, p).action;
      }
    }
  }

  /** Before the zero time the sentinel misleads: with the activation at the
      zero time, the deadline skips it although the plan changes there. */
  lemma SentinelSkipsZeroTime()
    ensures
      var tip, p := Tip(1, ZERO_TIME, 100), Policy(10, [], 5);
      && ValidPolicy(p)
      && NextDeadline(tip, -5, p) == Some(90)
      && PlanAt(tip, -5, p) != PlanAt(tip, 0, p)
  {
    var tip, p := Tip(1, ZERO_TIME, 100), Policy(10, [], 5);
    var cs := Candidates(tip, p);
    assert cs == [0, 100, 90, 95];
    assert cs[..3] == [0, 100, 90] && cs[..3][..2] == [0, 100] && cs[..3][..2][..1] == [0];
    assert cs[..3][..2][..1][..0] == [];
    assert Best([], -5) == 0;
    assert Best(cs[..3][..2][..1], -5) == 0;
    assert Best(cs[..3][..2], -5) == 100;
    assert Best(cs[..3], -5) == 90;
  }

  // --- The methods -----------------------------------------------------------------------------------

  method Validate(p: Policy) returns (ok: bool)
    ensures ok == ValidPolicy(p)
  {
    if p.prepareLead <= 0 {
      return false;
    }
    for index := 0 to |p.retryOffsets|
      invariant forall i | 0 <= i < index :: 0 < p.retryOffsets[i] < p.prepareLead
      invariant forall i | 0 < i < index :: p.retryOffsets[i - 1] < p.retryOffsets[i]
    {
      var offset := p.retryOffsets[index];
      if offset <= 0 || offset >= p.prepareLead {
        return false;
      }
      if index > 0 && offset <= p.retryOffsets[index - 1] {
        return false;
      }
    }
    if p.escalateAfter <= 0 || p.escalateAfter >= p.prepareLead {
      return false;
    }
    if |p.retryOffsets| > 0 && p.escalateAfter <= p.retryOffsets[|p.retryOffsets| - 1] {
      return false;
    }
    return true;
  }

  method ComputePlan(halted: bool, tip: Option<Tip>, now: Instant, p: Policy) returns (r: Option<Plan>)
    ensures r.Some? <==> ValidPolicy(p)
    ensures r.Some? ==> r.value == ChainPlan(halted, tip, now, p)
  {
    var ok := Validate(p);
    if !ok {
      return None;
    }
    if halted {
      return Some(Plan(Halted, 0, 0, ZERO_TIME));
    }
    if tip.None? {
      return Some(Plan(Idle, 0, 0, ZERO_TIME));
    }
    var top := tip.value;
    if now < top.activateAt {
      return Some(Plan(AwaitActivation, top.epoch, 1, top.activateAt));
    }
    if !(now < top.retireAt) {
      return Some(Plan(Retire, top.epoch, 0, top.retireAt));
    }
    var prepareAt := top.retireAt - p.prepareLead;
    if now < prepareAt {
      return Some(Plan(Idle, top.epoch, 0, prepareAt));
    }
    if !(now < prepareAt + p.escalateAfter) {
      return Some(Plan(Escalate, Following(top.epoch), |p.retryOffsets| + 1, prepareAt + p.escalateAfter));
    }
    var attempt := 1;
    for index := 0 to |p.retryOffsets|
      invariant attempt == Passed(p.retryOffsets[..index], now - prepareAt) + 1
    {
      assert p.retryOffsets[..index + 1][..index] == p.retryOffsets[..index];
      if !(now < prepareAt + p.retryOffsets[index]) {
        attempt := attempt + 1;
      }
    }
    assert p.retryOffsets[..|p.retryOffsets|] == p.retryOffsets;
    var due := prepareAt;
    if attempt > 1 {
      due := prepareAt + p.retryOffsets[attempt - 2];
    }
    return Some(Plan(PrepareNext, Following(top.epoch), attempt, due));
  }

  /** None for an invalid policy, a halted or empty chain, or no instant ahead. */
  method ComputeDeadline(halted: bool, tip: Option<Tip>, now: Instant, p: Policy) returns (r: Option<Instant>)
    ensures r == if ValidPolicy(p) && !halted && tip.Some? then NextDeadline(tip.value, now, p) else None
  {
    var ok := Validate(p);
    if !ok || halted || tip.None? {
      return None;
    }
    var top := tip.value;
    var prepareAt := top.retireAt - p.prepareLead;
    var candidates := [top.activateAt, top.retireAt, prepareAt, prepareAt + p.escalateAfter];
    for index := 0 to |p.retryOffsets|
      invariant |candidates| == 4 + index
      invariant candidates == Candidates(top, p)[..4 + index]
    {
      candidates := candidates + [prepareAt + p.retryOffsets[index]];
    }
    assert candidates == Candidates(top, p);
    var best := Earliest(candidates, now);
    return if best == ZERO_TIME then None else Some(best);
  }

  method Earliest(candidates: seq<Instant>, now: Instant) returns (best: Instant)
    ensures best == Best(candidates, now)
  {
    best := ZERO_TIME;
    for index := 0 to |candidates|
      invariant best == Best(candidates[..index], now)
    {
      assert candidates[..index + 1][..index] == candidates[..index];
      var candidate := candidates[index];
      if now < candidate && (best == ZERO_TIME || candidate < best) {
        best := candidate;
      }
    }
    assert candidates[..|candidates|] == candidates;
  }
}
