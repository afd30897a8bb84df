/** Which epoch is active when. A successor either takes over exactly at its
    predecessor's retirement or, in an emergency, earlier; an activated
    emergency successor retires its predecessor on the spot. */
module EpochWindows {
  import opened Options
  import opened Instants
  import opened EpochDescriptor

  datatype State = Ready | Active | Retired

  function Rank(s: State): nat {
    match s
    case Ready => 0
    case Active => 1
    case Retired => 2
  }

  /** Windows of a chain whose every link verified. */
  ghost predicate Tiled(epochs: seq<Verified>) {
    && (forall i | 0 <= i < |epochs| :: epochs[i].ActivateAt() < epochs[i].RetireAt() && epochs[i].Epoch() != 0)
    && (forall i | 0 < i < |epochs| :: Abuts(epochs[i - 1], epochs[i]))
  }

  ghost predicate Abuts(before: Verified, after: Verified) {
    && after.Epoch() == Following(before.Epoch())
    && match after.Transition()
       case Genesis => false
       case Scheduled => after.ActivateAt() == before.RetireAt()
       case Emergency => before.ActivateAt() < after.ActivateAt() < before.RetireAt()
  }

  /** Verification makes an epoch abut the one it follows. */
  lemma VerifiedAbuts(c: Crypto, d: Descriptor, previous: Option<Verified>, revoked: set<Key>)
    requires Valid(c, d, previous, revoked)
    ensures
      var v := Verified(d, c.digest(d.body));
      && v.ActivateAt() < v.RetireAt() && v.Epoch() != 0
      && (previous.Some? ==> Abuts(previous.value, v))
  {
  }

  // --- The queries -----------------------------------------------------------------------------

  function OwnState(v: Verified, now: Instant): State {
    if now < v.ActivateAt() then Ready else if now < v.RetireAt() then Active else Retired
  }

  function StateAt(epochs: seq<Verified>, i: nat, now: Instant): State
    requires i < |epochs|
  {
    var own := OwnState(epochs[i], now);
    if own.Active? && i + 1 < |epochs| && epochs[i + 1].Transition().Emergency? && epochs[i + 1].ActivateAt() <= now
    then Retired else own
  }

  /** Walks down from place `k`; the first epoch already activated decides. */
  function ActiveBelow(epochs: seq<Verified>, k: nat, now: Instant): (r: Option<nat>)
    requires k <= |epochs|
    ensures r.Some? ==> r.value < k
  {
    if k == 0 then None
    else if now < epochs[k - 1].ActivateAt() then ActiveBelow(epochs, k - 1, now)
    else if now < epochs[k - 1].RetireAt() then Some(k - 1)
    else None
  }

  function ActiveAt(epochs: seq<Verified>, now: Instant): Option<nat> {
    ActiveBelow(epochs, |epochs|, now)
  }

  // --- Order along the chain ---------------------------------------------------------------------

  lemma {:induction false} ActivationsIncrease(epochs: seq<Verified>, i: nat, j: nat)
    requires Tiled(epochs) && i < j < |epochs|
    ensures epochs[i].ActivateAt() < epochs[j].ActivateAt()
    ensures epochs[i].Epoch() < epochs[j].Epoch()
    decreases j - i
  {
    assert Abuts(epochs[j - 1], epochs[j]);
    if i < j - 1 { ActivationsIncrease(epochs, i, j - 1); }
  }

  /** With everything after it considered, an epoch is active from its own
      activation to its successor's, and the last one to its retirement. */
  function End(epochs: seq<Verified>, i: nat): Instant
    requires i < |epochs|
  {
    if i + 1 < |epochs| then epochs[i + 1].ActivateAt() else epochs[i].RetireAt()
  }

  lemma StateIsWindow(epochs: seq<Verified>, i: nat, now: Instant)
    requires Tiled(epochs) && i < |epochs|
    ensures StateAt(epochs, i, now) ==
      if now < epochs[i].ActivateAt() then Ready else if now < End(epochs, i) then Active else Retired
  {
    if i + 1 < |epochs| { assert Abuts(epochs[i], epochs[i + 1]); }
  }

  /** Reading up the chain: retired, then at most one active, then ready. */
  lemma StatesDescend(epochs: seq<Verified>, i: nat, j: nat, now: Instant)
    requires Tiled(epochs) && i < j < |epochs|
    ensures Rank(StateAt(epochs, i, now)) >= Rank(StateAt(epochs, j, now))
    ensures !(StateAt(epochs, i, now).Active? && StateAt(epochs, j, now).Active?)
    ensures StateAt(epochs, j, now).Active? ==> StateAt(epochs, i, now).Retired?
  {
    StateIsWindow(epochs, i, now);
    StateIsWindow(epochs, j, now);
    if i + 1 < j { ActivationsIncrease(epochs, i + 1, j); }
    ActivationsIncrease(epochs, i, j);
  }

  lemma {:induction false} WalkFindsActive(epochs: seq<Verified>, k: nat, now: Instant)
    requires Tiled(epochs) && k <= |epochs|
    requires k < |epochs| ==> now < epochs[k].ActivateAt()
    ensures forall i | 0 <= i < k :: StateAt(epochs, i, now).Active? <==> ActiveBelow(epochs, k, now) == Some(i)
  {
    if k > 0 {
      StateIsWindow(epochs, k - 1, now);
      if now < epochs[k - 1].ActivateAt() {
        WalkFindsActive(epochs, k - 1, now);
      } else {
        forall i | 0 <= i < k - 1 ensures StateAt(epochs, i, now).Retired? {
          StateIsWindow(epochs, i, now);
          if i + 1 < k - 1 { ActivationsIncrease(epochs, i + 1, k - 1); }
        }
      }
    }
  }

  /** The two queries always agree. */
  lemma QueriesAgree(epochs: seq<Verified>, i: nat, now: Instant)
    requires Tiled(epochs) && i < |epochs|
    ensures StateAt(epochs, i, now).Active? <==> ActiveAt(epochs, now) == Some(i)
  {
    WalkFindsActive(epochs, |epochs|, now);
  }

  lemma {:induction false} WalkFindsSome(epochs: seq<Verified>, k: nat, now: Instant)
    requires Tiled(epochs) && 0 < k <= |epochs| && epochs[0].ActivateAt() <= now < End(epochs, k - 1)
    ensures ActiveBelow(epochs, k, now).Some?
  {
    if now < epochs[k - 1].ActivateAt() {
      WalkFindsSome(epochs, k - 1, now);
    } else if k < |epochs| {
      assert Abuts(epochs[k - 1], epochs[k]);
    }
  }

  /** The windows tile time: some epoch is active exactly from the first
      activation to the last retirement. Which one is unique. */
  lemma WindowsTile(epochs: seq<Verified>, now: Instant)
    requires Tiled(epochs) && epochs != []
    ensures ActiveAt(epochs, now).Some? <==> epochs[0].ActivateAt() <= now < epochs[|epochs| - 1].RetireAt()
    ensures forall i, j | 0 <= i < |epochs| && 0 <= j < |epochs| ::
              StateAt(epochs, i, now).Active? && StateAt(epochs, j, now).Active? ==> i == j
  {
    var n := |epochs|;
    if epochs[0].ActivateAt() <= now < epochs[n - 1].RetireAt() {
      WalkFindsSome(epochs, n, now);
    }
    WalkFindsActive(epochs, n, now);
    if ActiveAt(epochs, now).Some? {
      var i := ActiveAt(epochs, now).value;
      StateIsWindow(epochs, i, now);
      if i > 0 { ActivationsIncrease(epochs, 0, i); }
      if i + 1 < n {
        if i + 1 < n - 1 { ActivationsIncrease(epochs, i + 1, n - 1); }
      }
    }
  }

  // --- Retirement is permanent -----------------------------------------------------------------------

  /** As time passes a state only moves forward. */
  lemma StatesAdvance(epochs: seq<Verified>, i: nat, now: Instant, later: Instant)
    requires Tiled(epochs) && i < |epochs| && now <= later
    ensures Rank(StateAt(epochs, i, now)) <= Rank(StateAt(epochs, i, later))
  {
    StateIsWindow(epochs, i, now);
    StateIsWindow(epochs, i, later);
  }

  /** Appending, an emergency successor included, changes no state except that
      the former tip may go from active to retired. */
  lemma AppendsAdvance(epochs: seq<Verified>, v: Verified, i: nat, now: Instant)
    requires Tiled(epochs) && Tiled(epochs + [v]) && i < |epochs|
    ensures Rank(StateAt(epochs, i, now)) <= Rank(StateAt(epochs + [v], i, now))
    ensures StateAt(epochs + [v], i, now) != StateAt(epochs, i, now) ==>
              && i == |epochs| - 1 && v.Transition().Emergency? && v.ActivateAt() <= now
              && StateAt(epochs, i, now).Active? && StateAt(epochs + [v], i, now).Retired?
  {
    var longer := epochs + [v];
    if i + 1 < |epochs| {
      assert longer[i] == epochs[i] && longer[i + 1] == epochs[i + 1];
    }
  }

  // --- The highest retired number ---------------------------------------------------------------------

  /** Everything up to the highest retired number is retired: erasing material
      of all numbers up to it never touches an epoch still in use. */
  lemma RetiredIsAPrefix(epochs: seq<Verified>, i: nat, j: nat, now: Instant)
    requires Tiled(epochs) && j < |epochs| && StateAt(epochs, j, now).Retired?
    requires i < |epochs| && epochs[i].Epoch() <= epochs[j].Epoch()
    ensures StateAt(epochs, i, now).Retired?
  {
    if i > j { ActivationsIncrease(epochs, j, i); }
    if i < j { StatesDescend(epochs, i, j, now); }
  }
}
