/** What it takes to make an epoch: any quorum of unrevoked operators of the epoch
    before, and every operator of the new one, in any order. Verification asks for
    exactly that. */
module EpochCeremony {
  import opened Options
  import opened Instants
  import opened Bytes
  import opened EpochDescriptor

  // --- The place in the chain ---------------------------------------------------------------------------

  /** A first epoch has nothing before it; any other names its predecessor, carries
      its network and the next number, and takes over at its end or, in an emergency,
      inside its window. */
  predicate TakesPlace(body: Body, previous: Option<Verified>) {
    match previous
    case None => body.transition.Genesis? && body.previousDigest == ZERO_DIGEST
    case Some(v) =>
      && !body.transition.Genesis? && body.previousDigest == v.digest
      && body.topology.networkId == v.NetworkId() && body.topology.epoch == (v.Epoch() + 1) % U64
      && (if body.transition.Emergency? then v.ActivateAt() < body.activateAt < v.RetireAt()
          else body.activateAt == v.RetireAt())
  }

  /** The window is not empty, and throughout it, both ends included, the key
      generation is over and the topology is in force. */
  ghost predicate InForce(body: Body) {
    && body.activateAt < body.retireAt
    && forall now | body.activateAt <= now <= body.retireAt :: InForceAt(body.topology, now)
  }

  predicate InForceAt(t: Topology, now: Instant) {
    t.dkgEnd <= now && t.notBefore <= now <= t.notAfter
  }

  /** Everything that is asked of a body without its signatures. */
  ghost predicate BodyOk(c: Crypto, body: Body, previous: Option<Verified>, revoked: set<Key>) {
    && body.uplinkProfileEmpty && c.topologySigned(body.topology) && ValidTopology(body.topology)
    && c.certified(body.topology, body.certificate) && InForce(body)
    && (forall o <- body.topology.operators :: o.key !in revoked)
    && TakesPlace(body, previous)
  }

  // --- Activations in any order -----------------------------------------------------------------------------

  predicate Ordered(s: seq<Activation>) {
    forall i, j | 0 <= i < j < |s| :: s[i].index <= s[j].index
  }

  lemma {:induction false} InsertOrders(a: Activation, sorted: seq<Activation>)
    requires Ordered(sorted)
    ensures Ordered(InsertByIndex(a, sorted))
  {
    if sorted != [] && a.index > sorted[0].index {
      var rest := InsertByIndex(a, sorted[1..]);
      InsertOrders(a, sorted[1..]);
      forall k | 0 <= k < |rest| ensures sorted[0].index <= rest[k].index {
        InsertedFrom(a, sorted[1..], k);
      }
    }
  }

  lemma InsertedFrom(a: Activation, sorted: seq<Activation>, k: nat)
    requires k < |InsertByIndex(a, sorted)|
    ensures InsertByIndex(a, sorted)[k] == a || InsertByIndex(a, sorted)[k] in sorted
  {
    assert InsertByIndex(a, sorted)[k] in multiset(InsertByIndex(a, sorted));
  }

  lemma {:induction false} SortOrders(s: seq<Activation>)
    ensures Ordered(SortByIndex(s))
  {
    if s != [] {
      SortOrders(s[1..]);
      InsertOrders(s[0], SortByIndex(s[1..]));
    }
  }

  predicate Numbered(s: seq<Activation>) {
    forall i | 0 <= i < |s| :: s[i].index == i
  }

  lemma LastIsLast(a: seq<Activation>, b: seq<Activation>)
    requires Ordered(a) && Numbered(b) && multiset(a) == multiset(b) && |a| == |b| > 0
    ensures a[|a| - 1] == b[|b| - 1]
  {
    var last := |b| - 1;
    assert b[last] in multiset(a) && a[last] in multiset(b);
    var p :| 0 <= p < |a| && a[p] == b[last];
    var q :| 0 <= q < |b| && b[q] == a[last];
    assert a[p].index <= a[last].index;
  }

  /** There is only one way to put them in order. */
  lemma {:induction false} OrderIsUnique(a: seq<Activation>, b: seq<Activation>)
    requires Ordered(a) && Numbered(b) && multiset(a) == multiset(b) && |a| == |b|
    ensures a == b
  {
    if a != [] {
      LastIsLast(a, b);
      WithoutLast(a);
      WithoutLast(b);
      var last := |a| - 1;
      var a', b' := a[..last], b[..last];
      assert Ordered(a') && Numbered(b') && multiset(a') == multiset(b');
      OrderIsUnique(a', b');
      SameWithLast(a, b);
    }
  }

  lemma SameWithLast(a: seq<Activation>, b: seq<Activation>)
    requires |a| == |b| > 0 && a[..|a| - 1] == b[..|b| - 1] && a[|a| - 1] == b[|b| - 1]
    ensures a == b
  {
    assert a == a[..|a| - 1] + [a[|a| - 1]] && b == b[..|b| - 1] + [b[|b| - 1]];
  }

  lemma WithoutLast(s: seq<Activation>)
    requires s != []
    ensures multiset(s[..|s| - 1]) == multiset(s) - multiset{s[|s| - 1]}
  {
    assert s == s[..|s| - 1] + [s[|s| - 1]];
  }

  // --- The signatures ------------------------------------------------------------------------------------------

  /** A signature for each key and message, as its holder makes it. */
  type Signer = (Key, Message) -> Signature

  ghost predicate Signs(c: Crypto, sign: Signer) {
    forall key, message :: c.signed(key, message, sign(key, message))
  }

  function ApprovalBy(sign: Signer, digest: Digest, previous: Verified, i: nat): Approval
    requires i < |previous.Operators()|
  {
    var o := previous.Operators()[i];
    Approval(o.id, i, sign(o.key, ApprovalMessage(previous.digest, digest, o.key)))
  }

  function ApprovalsBy(sign: Signer, digest: Digest, previous: Verified, chosen: seq<nat>): (r: seq<Approval>)
    requires forall k | 0 <= k < |chosen| :: chosen[k] < |previous.Operators()|
    ensures |r| == |chosen|
  {
    seq(|chosen|, k requires 0 <= k < |chosen| => ApprovalBy(sign, digest, previous, chosen[k]))
  }

  function ActivationsBy(sign: Signer, digest: Digest, operators: seq<Operator>): (r: seq<Activation>)
    ensures |r| == |operators|
  {
    seq(|operators|, i requires 0 <= i < |operators| =>
      Activation(operators[i].id, i, sign(operators[i].key, ActivationMessage(digest))))
  }

  /** Distinct, unrevoked operators of the epoch before, enough for its quorum. */
  ghost predicate Quorate(previous: Verified, revoked: set<Key>, chosen: seq<nat>) {
    && ValidTopology(previous.descriptor.body.topology) && |chosen| >= QuorumOf(previous)
    && (forall k | 0 <= k < |chosen| ::
          chosen[k] < |previous.Operators()| && previous.Operators()[chosen[k]].key !in revoked)
    && (forall k, l | 0 <= k < l < |chosen| :: chosen[k] != chosen[l])
  }

  lemma QuorumApproves(c: Crypto, sign: Signer, digest: Digest, previous: Verified, revoked: set<Key>, chosen: seq<nat>)
    requires Signs(c, sign) && Quorate(previous, revoked, chosen)
    ensures var approvals := ApprovalsBy(sign, digest, previous, chosen);
            AllApprove(c, approvals, digest, previous, revoked) && |ApproverIds(approvals)| >= QuorumOf(previous)
  {
    var approvals := ApprovalsBy(sign, digest, previous, chosen);
    forall a | a in approvals ensures ApprovalOk(c, a, digest, previous, revoked) {
      var k :| 0 <= k < |approvals| && approvals[k] == a;
      assert chosen[k] % U16 == chosen[k];
    }
    forall k, l | 0 <= k < l < |approvals| ensures approvals[k].operatorId != approvals[l].operatorId {
      assert chosen[k] != chosen[l];
    }
    ApproversAreCounted(approvals);
  }

  lemma EveryoneActivates(c: Crypto, sign: Signer, d: Descriptor, digest: Digest)
    requires Signs(c, sign)
    requires multiset(d.activations) == multiset(ActivationsBy(sign, digest, d.body.topology.operators))
    ensures ActivationsOk(c, d, digest)
  {
    var expected := ActivationsBy(sign, digest, d.body.topology.operators);
    var sorted := SortByIndex(d.activations);
    SortOrders(d.activations);
    assert |multiset(sorted)| == |multiset(expected)| == |multiset(d.activations)|;
    OrderIsUnique(sorted, expected);
  }

  /** A ceremony verifies: a body in its place, approved by any quorum in any order
      and activated by everyone in any order. */
  lemma CeremonyVerifies(c: Crypto, sign: Signer, d: Descriptor, previous: Option<Verified>, revoked: set<Key>,
                         chosen: seq<nat>)
    requires Signs(c, sign) && BodyOk(c, d.body, previous, revoked)
    requires previous.None? ==> d.approvals == []
    requires previous.Some? ==>
               && Quorate(previous.value, revoked, chosen)
               && d.approvals == ApprovalsBy(sign, c.digest(d.body), previous.value, chosen)
    requires multiset(d.activations) == multiset(ActivationsBy(sign, c.digest(d.body), d.body.topology.operators))
    ensures Verify(c, d, previous, revoked) == Some(Verified(d, c.digest(d.body)))
  {
    EveryoneActivates(c, sign, d, c.digest(d.body));
    WindowIsInForce(d.body);
    PlaceLinks(d, previous);
    ApprovalsSuffice(c, sign, d, previous, revoked, chosen);
  }

  lemma WindowIsInForce(body: Body)
    ensures ValidWindow(body) <==> InForce(body)
  {
    if InForce(body) {
      assert InForceAt(body.topology, body.activateAt) && InForceAt(body.topology, body.retireAt);
    }
  }

  lemma PlaceLinks(d: Descriptor, previous: Option<Verified>)
    ensures ValidLink(d, previous) <==> TakesPlace(d.body, previous) && (previous.None? ==> d.approvals == [])
  {
  }

  lemma ApprovalsSuffice(c: Crypto, sign: Signer, d: Descriptor, previous: Option<Verified>, revoked: set<Key>,
                         chosen: seq<nat>)
    requires Signs(c, sign) && TakesPlace(d.body, previous)
    requires previous.Some? ==>
               && Quorate(previous.value, revoked, chosen)
               && d.approvals == ApprovalsBy(sign, c.digest(d.body), previous.value, chosen)
    ensures ApprovalsOk(c, d, c.digest(d.body), previous, revoked)
  {
    if previous.Some? {
      QuorumApproves(c, sign, c.digest(d.body), previous.value, revoked, chosen);
      assert Approvers(d) == ApproverIds(d.approvals);
    }
  }

  /** And nothing less does. Its own quorum can be reached by its own operators. */
  lemma VerifiedTakesPlace(c: Crypto, d: Descriptor, previous: Option<Verified>, revoked: set<Key>)
    requires Verify(c, d, previous, revoked).Some?
    ensures BodyOk(c, d.body, previous, revoked)
    ensures previous.None? ==> d.approvals == []
    ensures previous.Some? ==> |Approvers(d)| >= QuorumOf(previous.value)
    ensures 3 <= |d.activations| == |d.body.topology.operators| <= 64
    ensures 2 <= d.body.topology.threshold <= QuorumOf(Verified(d, c.digest(d.body))) <= |d.body.topology.operators|
  {
    WindowIsInForce(d.body);
    PlaceLinks(d, previous);
  }
}
