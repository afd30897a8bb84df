/** Epoch descriptors and their verification against the previous epoch.
    Decoding is taken as done: a descriptor here is a decoded one whose fields
    are in canonical form. Signatures, the descriptor digest, the topology
    authority's signature and the key-generation certificate are parameters. */
module EpochDescriptor {
  import opened Options
  import opened Instants
  import opened Bytes

  type Digest = nat
  type Key = nat
  type Signature = nat
  type Word64 = n: nat | n < U64

  const ZERO_DIGEST: Digest := 0

  datatype Transition = Genesis | Scheduled | Emergency
  datatype Operator = Operator(id: string, key: Key)

  datatype Topology = Topology(
    networkId: string, epoch: Word64, operators: seq<Operator>, threshold: nat,
    notBefore: Instant, notAfter: Instant, dkgEnd: Instant)

  /** The part the digest covers: everything but the signatures. */
  datatype Body = Body(
    previousDigest: Digest, transition: Transition, activateAt: Instant, retireAt: Instant,
    topology: Topology, certificate: nat, uplinkProfileEmpty: bool)

  datatype Approval = Approval(operatorId: string, index: nat, signature: Signature)
  datatype Activation = Activation(operatorId: string, index: nat, signature: Signature)
  datatype Descriptor = Descriptor(body: Body, approvals: seq<Approval>, activations: seq<Activation>)

  /** What an operator signs. An approval names its approver, so one signature
      cannot fill a second place in the quorum. */
  datatype Message =
    | ActivationMessage(digest: Digest)
    | ApprovalMessage(previous: Digest, digest: Digest, approver: Key)

  datatype Crypto = Crypto(
    digest: Body -> Digest,
    signed: (Key, Message, Signature) -> bool,
    topologySigned: Topology -> bool,
    certified: (Topology, nat) -> bool)

  datatype Verified = Verified(descriptor: Descriptor, digest: Digest) {
    function Epoch(): Word64 { descriptor.body.topology.epoch }
    function NetworkId(): string { descriptor.body.topology.networkId }
    function Operators(): seq<Operator> { descriptor.body.topology.operators }
    function ActivateAt(): Instant { descriptor.body.activateAt }
    function RetireAt(): Instant { descriptor.body.retireAt }
    function Transition(): Transition { descriptor.body.transition }
  }

  // --- Identifiers ------------------------------------------------------------------

  predicate LowerOrDigit(c: char) {
    'a' <= c <= 'z' || '0' <= c <= '9'
  }

  /** A lower-case letter or digit, then up to 62 of those or hyphens. */
  predicate ValidIdentifier(s: string) {
    && 1 <= |s| <= 63
    && LowerOrDigit(s[0])
    && forall c <- s :: LowerOrDigit(c) || c == '-'
  }

  // --- Checks that look at one descriptor ------------------------------------------

  predicate ValidTopology(t: Topology) {
    && ValidIdentifier(t.networkId) && t.epoch != 0
    && 3 <= |t.operators| <= 64
    && 2 <= t.threshold <= |t.operators|
    && (forall i, j | 0 <= i < j < |t.operators| ::
          t.operators[i].id != t.operators[j].id && t.operators[i].key != t.operators[j].key)
  }

  predicate ValidWindow(b: Body) {
    && b.activateAt < b.retireAt
    && b.topology.dkgEnd <= b.activateAt
    && b.topology.notBefore <= b.activateAt && b.retireAt <= b.topology.notAfter
  }

  /** Successor of a 64-bit epoch number. */
  function Following(epoch: Word64): Word64 {
    (epoch + 1) % U64
  }

  predicate ValidLink(d: Descriptor, previous: Option<Verified>) {
    match d.body.transition
    case Genesis => previous.None? && d.body.previousDigest == ZERO_DIGEST && d.approvals == []
    case Scheduled => FollowsPrevious(d, previous) && d.body.activateAt == previous.value.RetireAt()
    case Emergency =>
      FollowsPrevious(d, previous)
      && previous.value.ActivateAt() < d.body.activateAt < previous.value.RetireAt()
  }

  predicate FollowsPrevious(d: Descriptor, previous: Option<Verified>) {
    && previous.Some?
    && d.body.previousDigest == previous.value.digest
    && d.body.topology.networkId == previous.value.NetworkId()
    && d.body.topology.epoch == Following(previous.value.Epoch())
  }

  // --- Quorum of the previous epoch ---------------------------------------------------

  function ApprovalQuorum(operators: nat, threshold: nat): (q: nat)
    ensures q >= threshold && 2 * q > operators
  {
    var majority := operators / 2 + 1;
    if threshold > majority then threshold else majority
  }

  function QuorumOf(v: Verified): nat {
    ApprovalQuorum(|v.Operators()|, v.descriptor.body.topology.threshold)
  }

  predicate ApprovalOk(c: Crypto, a: Approval, digest: Digest, previous: Verified, revoked: set<Key>) {
    && a.index < |previous.Operators()|
    && var operator := previous.Operators()[a.index % U16];
       && operator.id == a.operatorId
       && operator.key !in revoked
       && c.signed(operator.key, ApprovalMessage(previous.digest, digest, operator.key), a.signature)
  }

  ghost function Approvers(d: Descriptor): set<string> {
    set a | a in d.approvals :: a.operatorId
  }

  /** Every approval holds and no operator approves twice. */
  ghost predicate AllApprove(c: Crypto, approvals: seq<Approval>, digest: Digest, previous: Verified,
                             revoked: set<Key>) {
    && (forall a <- approvals :: ApprovalOk(c, a, digest, previous, revoked))
    && (forall i, j | 0 <= i < j < |approvals| :: approvals[i].operatorId != approvals[j].operatorId)
  }

  ghost predicate ApprovalsOk(c: Crypto, d: Descriptor, digest: Digest, previous: Option<Verified>, revoked: set<Key>) {
    d.body.transition.Genesis? ||
    (&& previous.Some?
     && |d.approvals| >= QuorumOf(previous.value)
     && AllApprove(c, d.approvals, digest, previous.value, revoked)
     && |Approvers(d)| >= QuorumOf(previous.value))
  }

  // --- Activation by every operator of the epoch itself ----------------------------------

  function InsertByIndex(a: Activation, sorted: seq<Activation>): (r: seq<Activation>)
    ensures multiset(r) == multiset(sorted) + multiset{a}
  {
    if sorted == [] then [a]
    else if a.index <= sorted[0].index then [a] + sorted
    else
      assert sorted == [sorted[0]] + sorted[1..];
      [sorted[0]] + InsertByIndex(a, sorted[1..])
  }

  function SortByIndex(s: seq<Activation>): (r: seq<Activation>)
    ensures multiset(r) == multiset(s)
  {
    if s == [] then []
    else
      assert s == [s[0]] + s[1..];
      InsertByIndex(s[0], SortByIndex(s[1..]))
  }

  predicate ActivationOk(c: Crypto, a: Activation, position: nat, operator: Operator, digest: Digest) {
    a.index == position && a.operatorId == operator.id
    && c.signed(operator.key, ActivationMessage(digest), a.signature)
  }

  predicate ActivationsOk(c: Crypto, d: Descriptor, digest: Digest) {
    && |d.activations| == |d.body.topology.operators|
    && var sorted := SortByIndex(d.activations);
       && |sorted| == |d.activations|
       && forall i | 0 <= i < |sorted| :: ActivationOk(c, sorted[i], i, d.body.topology.operators[i], digest)
  }

  // --- The whole verification ------------------------------------------------------------

  ghost predicate Valid(c: Crypto, d: Descriptor, previous: Option<Verified>, revoked: set<Key>) {
    var digest := c.digest(d.body);
    && d.body.uplinkProfileEmpty
    && c.topologySigned(d.body.topology) && ValidTopology(d.body.topology)
    && c.certified(d.body.topology, d.body.certificate)
    && ValidWindow(d.body)
    && (forall o <- d.body.topology.operators :: o.key !in revoked)
    && ValidLink(d, previous)
    && ApprovalsOk(c, d, digest, previous, revoked)
    && ActivationsOk(c, d, digest)
  }

  ghost function Verify(c: Crypto, d: Descriptor, previous: Option<Verified>, revoked: set<Key>): Option<Verified> {
    if Valid(c, d, previous, revoked) then Some(Verified(d, c.digest(d.body))) else None
  }

  /** Fewer revocations never invalidate: stored history stays openable. */
  lemma HistoryOutlivesRevocation(c: Crypto, d: Descriptor, previous: Option<Verified>, revoked: set<Key>)
    requires Verify(c, d, previous, revoked).Some?
    ensures Verify(c, d, previous, {}) == Verify(c, d, previous, revoked)
  {
  }

  /** A valid descriptor carries an activation signature over its digest by
      every operator of its own topology. */
  lemma EveryOperatorActivated(c: Crypto, d: Descriptor, previous: Option<Verified>, revoked: set<Key>)
    requires Valid(c, d, previous, revoked)
    ensures forall o <- d.body.topology.operators ::
      exists a <- d.activations ::
        a.operatorId == o.id && c.signed(o.key, ActivationMessage(c.digest(d.body)), a.signature)
  {
    var operators, sorted := d.body.topology.operators, SortByIndex(d.activations);
    forall o | o in operators
      ensures exists a <- d.activations :: a.operatorId == o.id
                && c.signed(o.key, ActivationMessage(c.digest(d.body)), a.signature)
    {
      var i :| 0 <= i < |operators| && operators[i] == o;
      assert ActivationOk(c, sorted[i], i, o, c.digest(d.body));
      assert sorted[i] in multiset(sorted);
    }
  }

  /** A valid successor was approved by a quorum of the previous epoch: each approval
      is signed, over both digests and its own key, by an operator of that epoch whose
      key is not revoked, and no operator is counted twice. */
  lemma ApprovedByQuorum(c: Crypto, d: Descriptor, previous: Verified, revoked: set<Key>)
    requires Valid(c, d, Some(previous), revoked)
    ensures |Approvers(d)| >= QuorumOf(previous) && |Approvers(d)| == |d.approvals|
    ensures forall a <- d.approvals :: exists o <- previous.Operators() ::
              && o.id == a.operatorId && o.key !in revoked
              && c.signed(o.key, ApprovalMessage(previous.digest, c.digest(d.body), o.key), a.signature)
  {
    forall a | a in d.approvals
      ensures exists o <- previous.Operators() ::
                && o.id == a.operatorId && o.key !in revoked
                && c.signed(o.key, ApprovalMessage(previous.digest, c.digest(d.body), o.key), a.signature)
    {
      assert ApprovalOk(c, a, c.digest(d.body), previous, revoked);
      assert previous.Operators()[a.index % U16] in previous.Operators();
    }
    ApproversAreCounted(d.approvals);
    assert Approvers(d) == ApproverIds(d.approvals);
  }

  function ApproverIds(approvals: seq<Approval>): set<string> {
    set a | a in approvals :: a.operatorId
  }

  lemma {:induction false} ApproversAreCounted(approvals: seq<Approval>)
    requires forall i, j | 0 <= i < j < |approvals| :: approvals[i].operatorId != approvals[j].operatorId
    ensures |ApproverIds(approvals)| == |approvals|
  {
    if approvals != [] {
      var init, last := approvals[..|approvals| - 1], approvals[|approvals| - 1];
      assert approvals == init + [last];
      ApproversAreCounted(init);
      assert ApproverIds(approvals) == ApproverIds(init) + {last.operatorId};
      assert last.operatorId !in ApproverIds(init);
    }
  }

  // --- The imperative checks --------------------------------------------------------------

  lemma NextApproval(c: Crypto, approvals: seq<Approval>, digest: Digest, previous: Verified, revoked: set<Key>, k: nat)
    requires k < |approvals|
    ensures ApproverIds(approvals[..k + 1]) == ApproverIds(approvals[..k]) + {approvals[k].operatorId}
    ensures AllApprove(c, approvals[..k + 1], digest, previous, revoked) <==>
              && AllApprove(c, approvals[..k], digest, previous, revoked)
              && ApprovalOk(c, approvals[k], digest, previous, revoked)
              && approvals[k].operatorId !in ApproverIds(approvals[..k])
    ensures AllApprove(c, approvals, digest, previous, revoked) ==>
              AllApprove(c, approvals[..k + 1], digest, previous, revoked)
  {
    var before, after := approvals[..k], approvals[..k + 1];
    assert after == before + [approvals[k]];
    if AllApprove(c, after, digest, previous, revoked) {
      assert forall i | 0 <= i < k :: after[i].operatorId != after[k].operatorId;
      assert forall a <- before :: a in after;
    }
  }

  method VerifyApprovals(c: Crypto, d: Descriptor, digest: Digest, previous: Option<Verified>, revoked: set<Key>)
    returns (ok: bool)
    requires d.body.transition != Genesis ==> previous.Some?
    ensures ok == ApprovalsOk(c, d, digest, previous, revoked)
  {
    if d.body.transition.Genesis? {
      return true;
    }
    var quorum := QuorumOf(previous.value);
    if |d.approvals| < quorum {
      return false;
    }
    var members := |previous.value.Operators()|;
    var seen: set<string> := {};
    for k := 0 to |d.approvals|
      invariant seen == ApproverIds(d.approvals[..k])
      invariant AllApprove(c, d.approvals[..k], digest, previous.value, revoked)
    {
      var approval := d.approvals[k];
      NextApproval(c, d.approvals, digest, previous.value, revoked, k);
      if approval.index >= members {
        return false;
      }
      var operator := previous.value.Operators()[approval.index % U16];
      if operator.id != approval.operatorId {
        return false;
      }
      if operator.id in seen {
        return false;
      }
      seen := seen + {operator.id};
      if operator.key in revoked {
        return false;
      }
      if !c.signed(operator.key, ApprovalMessage(previous.value.digest, digest, operator.key), approval.signature) {
        return false;
      }
    }
    assert d.approvals[..|d.approvals|] == d.approvals;
    return |seen| >= quorum;
  }

  method VerifyActivations(c: Crypto, d: Descriptor, digest: Digest) returns (ok: bool)
    ensures ok == ActivationsOk(c, d, digest)
  {
    if |d.activations| != |d.body.topology.operators| {
      return false;
    }
    var sorted := SortByIndex(d.activations);
    assert |multiset(sorted)| == |multiset(d.activations)|;
    for i := 0 to |sorted|
      invariant forall k | 0 <= k < i :: ActivationOk(c, sorted[k], k, d.body.topology.operators[k], digest)
    {
      if !ActivationOk(c, sorted[i], i, d.body.topology.operators[i], digest) {
        return false;
      }
    }
    return true;
  }

  method VerifyDescriptor(c: Crypto, d: Descriptor, previous: Option<Verified>, revoked: set<Key>)
    returns (r: Option<Verified>)
    ensures r == Verify(c, d, previous, revoked)
  {
    var digest := c.digest(d.body);
    if !d.body.uplinkProfileEmpty || !c.topologySigned(d.body.topology) || !ValidTopology(d.body.topology) {
      return None;
    }
    if !c.certified(d.body.topology, d.body.certificate) || !ValidWindow(d.body) {
      return None;
    }
    for k := 0 to |d.body.topology.operators|
      invariant forall o <- d.body.topology.operators[..k] :: o.key !in revoked
    {
      assert d.body.topology.operators[..k + 1] == d.body.topology.operators[..k] + [d.body.topology.operators[k]];
      if d.body.topology.operators[k].key in revoked {
        return None;
      }
    }
    if !ValidLink(d, previous) {
      return None;
    }
    var approved := VerifyApprovals(c, d, digest, previous, revoked);
    if !approved {
      return None;
    }
    var activated := VerifyActivations(c, d, digest);
    if !activated {
      return None;
    }
    return Some(Verified(d, digest));
  }
}
