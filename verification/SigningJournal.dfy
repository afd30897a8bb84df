/** Each operator's record of what it signed, and what two competing successors
    of one epoch imply about operators that signed outside that record. */
module SigningJournal {
  import opened Options
  import opened EpochDescriptor

  datatype Role = ForActivation | ForApproval
  datatype Slot = Slot(networkId: string, epoch: Word64, role: Role)
  /** A crash during the write can leave a file that equals no digest line. */
  datatype Entry = Recorded(digest: Digest) | Torn
  type Files = map<Slot, Entry>

  /** What a reader sees, and what a power loss is certain to leave. */
  datatype Book = Book(visible: Files, durable: Files)
  const EMPTY := Book(map[], map[])

  /** How writing a new journal file ends. Only `Completed` goes on to sign. */
  datatype Ending = Completed | FailedAndRemoved | KeptUnsynced | LeftTorn

  // --- One journal --------------------------------------------------------------------

  /** An entry that is already there decides, and is not synced again. A new one is
      synced together with the whole directory. */
  function AfterRecord(book: Book, slot: Slot, digest: Digest, ending: Ending): (Book, bool) {
    if !ValidIdentifier(slot.networkId) then (book, false)
    else if slot in book.visible then (book, book.visible[slot] == Recorded(digest))
    else
      var files := book.visible[slot := Recorded(digest)];
      match ending
      case Completed => (Book(files, files), true)
      case FailedAndRemoved => (book, false)
      case KeptUnsynced => (book.(visible := files), false)
      case LeftTorn => (book.(visible := book.visible[slot := Torn]), false)
  }

  function AfterPowerLoss(book: Book, unsyncedLost: bool): Book {
    if unsyncedLost then Book(book.durable, book.durable) else Book(book.visible, book.visible)
  }

  /** What is durable is also visible, and the same. */
  predicate Consistent(book: Book) {
    forall slot <- book.durable :: slot in book.visible && book.visible[slot] == book.durable[slot]
  }

  datatype Use = Try(slot: Slot, digest: Digest, ending: Ending) | PowerLoss(unsyncedLost: bool)

  function Used(book: Book, use: Use): Book {
    match use
    case Try(slot, digest, ending) => AfterRecord(book, slot, digest, ending).0
    case PowerLoss(lost) => AfterPowerLoss(book, lost)
  }

  function AfterUses(book: Book, uses: seq<Use>): Book {
    if uses == [] then book else Used(AfterUses(book, uses[..|uses| - 1]), uses[|uses| - 1])
  }

  /** An entry is forgotten by exactly one thing: a power loss before it is durable. */
  lemma EntryStaysIff(book: Book, use: Use, slot: Slot)
    requires Consistent(book) && slot in book.visible
    ensures Consistent(Used(book, use))
    ensures slot in Used(book, use).visible && Used(book, use).visible[slot] == book.visible[slot]
       <==> !(use == PowerLoss(true) && slot !in book.durable)
    ensures slot in book.durable ==> slot in Used(book, use).durable
  {
  }

  function After(book: Book, uses: seq<Use>, n: nat): Book
    requires n <= |uses|
  {
    AfterUses(book, uses[..n])
  }

  lemma AfterNext(book: Book, uses: seq<Use>, n: nat)
    requires n < |uses|
    ensures After(book, uses, n + 1) == Used(After(book, uses, n), uses[n])
  {
    assert uses[..n + 1][..n] == uses[..n];
  }

  /** At every power loss that takes unsynced entries the slot is durable by then. */
  predicate DurableInTime(book: Book, uses: seq<Use>, slot: Slot) {
    forall i | 0 <= i < |uses| && uses[i] == PowerLoss(true) :: slot in After(book, uses, i).durable
  }

  ghost predicate KeptAt(book: Book, uses: seq<Use>, slot: Slot, n: nat)
    requires n <= |uses| && slot in book.visible
  {
    var later := After(book, uses, n);
    Consistent(later) && slot in later.visible && later.visible[slot] == book.visible[slot]
  }

  lemma {:induction false} KeptWhileDurable(book: Book, uses: seq<Use>, slot: Slot, n: nat)
    requires Consistent(book) && slot in book.visible && DurableInTime(book, uses, slot) && n <= |uses|
    ensures KeptAt(book, uses, slot, n)
  {
    if n == 0 {
      assert uses[..0] == [];
    } else {
      KeptWhileDurable(book, uses, slot, n - 1);
      AfterNext(book, uses, n - 1);
      EntryStaysIff(After(book, uses, n - 1), uses[n - 1], slot);
    }
  }

  /** An entry outlives a run of uses exactly when it is durable in time. */
  lemma EntryOutlivesIff(book: Book, uses: seq<Use>, slot: Slot)
    requires Consistent(book) && slot in book.visible
    ensures DurableInTime(book, uses, slot) <==> forall n | 0 <= n <= |uses| :: KeptAt(book, uses, slot, n)
  {
    if DurableInTime(book, uses, slot) {
      forall n | 0 <= n <= |uses| ensures KeptAt(book, uses, slot, n) {
        KeptWhileDurable(book, uses, slot, n);
      }
    }
    if forall n | 0 <= n <= |uses| :: KeptAt(book, uses, slot, n) {
      forall i | 0 <= i < |uses| && uses[i] == PowerLoss(true) ensures slot in After(book, uses, i).durable {
        AfterNext(book, uses, i);
        assert KeptAt(book, uses, slot, i + 1);
      }
    }
  }

  /** Whether a use syncs the directory: a new entry written in full, or a restart
      that finds everything still there. */
  predicate Syncs(book: Book, use: Use) {
    match use
    case Try(slot, _, ending) => ValidIdentifier(slot.networkId) && slot !in book.visible && ending == Completed
    case PowerLoss(lost) => !lost
  }

  /** A kept entry is durable exactly from the first sync of the directory on,
      whichever slot it was for. */
  lemma {:induction false} DurableIff(book: Book, uses: seq<Use>, slot: Slot, n: nat)
    requires Consistent(book) && slot in book.visible && DurableInTime(book, uses, slot) && n <= |uses|
    ensures slot in After(book, uses, n).durable <==>
            slot in book.durable || SyncedBy(book, uses, n)
  {
    if n == 0 {
      assert uses[..0] == [];
    } else {
      DurableIff(book, uses, slot, n - 1);
      KeptWhileDurable(book, uses, slot, n - 1);
      AfterNext(book, uses, n - 1);
      DurableStep(After(book, uses, n - 1), uses[n - 1], slot);
      SyncedNext(book, uses, n - 1);
    }
  }

  /** Whether one of the first `n` uses synced the directory. */
  ghost predicate SyncedBy(book: Book, uses: seq<Use>, n: nat)
    requires n <= |uses|
  {
    exists i | 0 <= i < n :: Syncs(After(book, uses, i), uses[i])
  }

  lemma SyncedNext(book: Book, uses: seq<Use>, n: nat)
    requires n < |uses|
    ensures SyncedBy(book, uses, n + 1) <==> SyncedBy(book, uses, n) || Syncs(After(book, uses, n), uses[n])
  {
  }

  lemma DurableStep(book: Book, use: Use, slot: Slot)
    requires Consistent(book) && slot in book.visible && (use == PowerLoss(true) ==> slot in book.durable)
    ensures slot in Used(book, use).durable <==> slot in book.durable || Syncs(book, use)
  {
  }

  /** The first digest allowed for a slot is the only one ever allowed, through any
      number of attempts and power losses, if and only if its entry is durable in time. */
  lemma FirstDigestWins(book: Book, uses: seq<Use>, slot: Slot, first: Digest, second: Digest)
    requires Consistent(book) && slot in book.visible && book.visible[slot] == Recorded(first) && first != second
    requires ValidIdentifier(slot.networkId)
    ensures DurableInTime(book, uses, slot) <==>
            forall n, ending | 0 <= n <= |uses| :: !AfterRecord(After(book, uses, n), slot, second, ending).1
  {
    if DurableInTime(book, uses, slot) {
      forall n, ending | 0 <= n <= |uses| ensures !AfterRecord(After(book, uses, n), slot, second, ending).1 {
        KeptWhileDurable(book, uses, slot, n);
      }
    } else {
      var i :| 0 <= i < |uses| && uses[i] == PowerLoss(true) && slot !in After(book, uses, i).durable;
      AfterNext(book, uses, i);
      assert AfterRecord(After(book, uses, i + 1), slot, second, Completed).1;
    }
  }

  /** A slot nobody wrote to allows any digest exactly when its write completes, and
      the entry is then durable. */
  lemma FreshSlotAllows(book: Book, slot: Slot, digest: Digest, ending: Ending)
    requires ValidIdentifier(slot.networkId) && slot !in book.visible
    ensures
      var (book', allowed) := AfterRecord(book, slot, digest, ending);
      && (allowed <==> ending == Completed)
      && (allowed ==> slot in book'.durable && book'.durable[slot] == book'.visible[slot] == Recorded(digest))
      && (slot !in book'.visible <==> ending == FailedAndRemoved)
  {
  }

  /** The same digest is allowed again at every later time, without writing, for as
      long as its entry is durable in time; a torn entry allows none. */
  lemma SameDigestIsAllowed(book: Book, uses: seq<Use>, slot: Slot, digest: Digest, n: nat, ending: Ending)
    requires Consistent(book) && slot in book.visible && ValidIdentifier(slot.networkId)
    requires DurableInTime(book, uses, slot) && n <= |uses|
    ensures AfterRecord(After(book, uses, n), slot, digest, ending)
         == (After(book, uses, n), book.visible[slot] == Recorded(digest))
  {
    KeptWhileDurable(book, uses, slot, n);
  }

  function SlotOf(d: Descriptor, role: Role): Slot {
    Slot(d.body.topology.networkId, d.body.topology.epoch, role)
  }

  class Journal {
    var book: Book

    constructor ()
      ensures book == EMPTY
    {
      book := EMPTY;
    }

    method Record(slot: Slot, digest: Digest, ending: Ending) returns (ok: bool)
      modifies this
      ensures (book, ok) == AfterRecord(old(book), slot, digest, ending)
    {
      if !ValidIdentifier(slot.networkId) {
        return false;
      }
      if slot in book.visible {
        return book.visible[slot] == Recorded(digest);
      }
      match ending
      case FailedAndRemoved =>
        return false;
      case LeftTorn =>
        book := book.(visible := book.visible[slot := Torn]);
        return false;
      case KeptUnsynced =>
        book := book.(visible := book.visible[slot := Recorded(digest)]);
        return false;
      case Completed =>
        book := book.(visible := book.visible[slot := Recorded(digest)]);
        book := book.(durable := book.visible);
        return true;
    }

    method ApproveWithJournal(c: Crypto, d: Descriptor, previous: Verified, key: Key, ending: Ending)
      returns (signed: Option<Message>)
      modifies this
      ensures (book, signed.Some?) == AfterRecord(old(book), SlotOf(d, ForApproval), c.digest(d.body), ending)
      ensures signed.Some? ==> signed.value == ApprovalMessage(previous.digest, c.digest(d.body), key)
    {
      var digest := c.digest(d.body);
      var ok := Record(SlotOf(d, ForApproval), digest, ending);
      return if ok then Some(ApprovalMessage(previous.digest, digest, key)) else None;
    }

    method ActivateWithJournal(c: Crypto, d: Descriptor, ending: Ending) returns (signed: Option<Message>)
      modifies this
      ensures (book, signed.Some?) == AfterRecord(old(book), SlotOf(d, ForActivation), c.digest(d.body), ending)
      ensures signed.Some? ==> signed.value == ActivationMessage(c.digest(d.body))
    {
      var digest := c.digest(d.body);
      var ok := Record(SlotOf(d, ForActivation), digest, ending);
      return if ok then Some(ActivationMessage(digest)) else None;
    }
  }

  // --- All operators over a run ------------------------------------------------------------

  datatype Event =
    | Approves(key: Key, d: Descriptor, previous: Verified, ending: Ending)
    | Activates(key: Key, d: Descriptor, ending: Ending)
    /** A signature made without consulting the journal, or after losing it. */
    | SignsOutside(key: Key, message: Message)
    | LosesJournal(key: Key, left: Files)
    | LosesPower(key: Key, unsyncedLost: bool)

  /** A digest an operator signed because its journal allowed it. */
  datatype Reliance = Reliance(key: Key, slot: Slot, digest: Digest)

  /** `outside` holds the operators that signed or lost files outside the journal's
      rules, `forgetful` those whose power failed before an entry they had signed on
      was durable. */
  datatype World = World(
    journals: map<Key, Book>, signatures: set<(Key, Message)>, relied: set<Reliance>,
    outside: set<Key>, forgetful: set<Key>)

  const START := World(map[], {}, {}, {}, {})

  function BookOf(w: World, key: Key): Book {
    if key in w.journals then w.journals[key] else EMPTY
  }

  function Attempt(w: World, key: Key, slot: Slot, digest: Digest, ending: Ending, message: Message): World {
    var (book, ok) := AfterRecord(BookOf(w, key), slot, digest, ending);
    var w1 := w.(journals := w.journals[key := book]);
    if ok then w1.(signatures := w1.signatures + {(key, message)}, relied := w1.relied + {Reliance(key, slot, digest)})
    else w1
  }

  /** Whether a power loss takes an entry that was signed on. */
  predicate Forgets(w: World, key: Key, lost: bool) {
    exists r <- w.relied :: r.key == key && r.slot !in AfterPowerLoss(BookOf(w, key), lost).visible
  }

  function Step(c: Crypto, w: World, e: Event): World {
    match e
    case Approves(key, d, previous, ending) =>
      Attempt(w, key, SlotOf(d, ForApproval), c.digest(d.body), ending,
                ApprovalMessage(previous.digest, c.digest(d.body), key))
    case Activates(key, d, ending) =>
      Attempt(w, key, SlotOf(d, ForActivation), c.digest(d.body), ending, ActivationMessage(c.digest(d.body)))
    case SignsOutside(key, message) =>
      w.(signatures := w.signatures + {(key, message)}, outside := w.outside + {key})
    case LosesJournal(key, left) =>
      w.(journals := w.journals[key := Book(left, left)], outside := w.outside + {key})
    case LosesPower(key, lost) =>
      w.(journals := w.journals[key := AfterPowerLoss(BookOf(w, key), lost)],
         forgetful := if Forgets(w, key, lost) && key !in w.outside then w.forgetful + {key} else w.forgetful)
  }

  function Run(c: Crypto, w: World, events: seq<Event>): World
    decreases |events|
  {
    if events == [] then w else Run(c, Step(c, w, events[0]), events[1..])
  }

  /** The bodies a run signs about. */
  function Bodies(events: seq<Event>): set<Body> {
    if events == [] then {}
    else
      (match events[0]
       case Approves(_, d, _, _) => {d.body}
       case Activates(_, d, _) => {d.body}
       case _ => {})
      + Bodies(events[1..])
  }

  /** No two of these bodies share a digest. */
  ghost predicate CollisionFree(c: Crypto, bodies: set<Body>) {
    forall a <- bodies, b <- bodies :: c.digest(a) == c.digest(b) ==> a == b
  }

  /** The journal slot that stands behind a signed message about `body`. */
  ghost function Behind(body: Body, m: Message): Slot {
    Slot(body.topology.networkId, body.topology.epoch, if m.ApprovalMessage? then ForApproval else ForActivation)
  }

  predicate Loose(w: World, key: Key) {
    key in w.outside || key in w.forgetful
  }

  ghost predicate Kept(w: World, r: Reliance) {
    r.slot in BookOf(w, r.key).visible && BookOf(w, r.key).visible[r.slot] == Recorded(r.digest)
  }

  /** Signatures rest on the journal, and the journal still holds what they rest on. */
  ghost predicate Inv(c: Crypto, w: World, bodies: set<Body>) {
    && (forall key <- w.journals :: key !in w.outside ==> Consistent(w.journals[key]))
    && (forall r <- w.relied :: Loose(w, r.key) || Kept(w, r))
    && (forall key, m, body | (key, m) in w.signatures && key !in w.outside
                           && body in bodies && c.digest(body) == m.digest ::
          Reliance(key, Behind(body, m), m.digest) in w.relied)
  }

  lemma RecordKeeps(c: Crypto, w: World, key: Key, d: Descriptor, role: Role, ending: Ending,
                    message: Message, bodies: set<Body>)
    requires CollisionFree(c, bodies) && d.body in bodies && Inv(c, w, bodies)
    requires message.digest == c.digest(d.body) && role == Behind(d.body, message).role
    ensures Inv(c, Attempt(w, key, SlotOf(d, role), c.digest(d.body), ending, message), bodies)
  {
    var w' := Attempt(w, key, SlotOf(d, role), c.digest(d.body), ending, message);
    forall r | r in w'.relied ensures Loose(w', r.key) || Kept(w', r) {
      assert r in w.relied ==> Loose(w, r.key) || Kept(w, r);
    }
  }

  lemma PowerKeeps(c: Crypto, w: World, key: Key, lost: bool, bodies: set<Body>)
    requires Inv(c, w, bodies)
    ensures Inv(c, Step(c, w, LosesPower(key, lost)), bodies)
  {
    var w' := Step(c, w, LosesPower(key, lost));
    forall r | r in w'.relied ensures Loose(w', r.key) || Kept(w', r) {
      assert Loose(w, r.key) || Kept(w, r);
    }
  }

  lemma {:induction false} RunKeeps(c: Crypto, w: World, events: seq<Event>, bodies: set<Body>)
    requires CollisionFree(c, bodies) && Bodies(events) <= bodies && Inv(c, w, bodies)
    ensures Inv(c, Run(c, w, events), bodies)
    decreases |events|
  {
    if events != [] {
      match events[0] {
        case Approves(key, d, previous, ending) =>
          var message := ApprovalMessage(previous.digest, c.digest(d.body), key);
          RecordKeeps(c, w, key, d, ForApproval, ending, message, bodies);
        case Activates(key, d, ending) =>
          RecordKeeps(c, w, key, d, ForActivation, ending, ActivationMessage(c.digest(d.body)), bodies);
        case SignsOutside(_, _) =>
        case LosesJournal(_, _) =>
        case LosesPower(key, lost) =>
          PowerKeeps(c, w, key, lost, bodies);
      }
      RunKeeps(c, Step(c, w, events[0]), events[1..], bodies);
    }
  }

  // --- When power failures matter ------------------------------------------------------------

  predicate KeepsUnsynced(e: Event) {
    (e.Approves? && e.ending == KeptUnsynced) || (e.Activates? && e.ending == KeptUnsynced)
  }

  ghost predicate AllDurable(w: World) {
    && w.forgetful == {}
    && forall r <- w.relied :: r.key in w.outside
         || (r.slot in BookOf(w, r.key).durable && r.slot in BookOf(w, r.key).visible)
  }

  /** Where no directory sync fails, every entry signed on is durable and no power
      failure makes an operator forget. */
  lemma {:induction false} SyncedRunsForgetNothing(c: Crypto, w: World, events: seq<Event>)
    requires AllDurable(w) && (forall i | 0 <= i < |events| :: !KeepsUnsynced(events[i]))
    requires forall key <- w.journals :: Settled(w.journals[key])
    ensures Run(c, w, events).forgetful == {}
    decreases |events|
  {
    if events != [] {
      SyncedStep(c, w, events[0]);
      SyncedRunsForgetNothing(c, Step(c, w, events[0]), events[1..]);
    }
  }

  /** Every recorded entry is durable; only torn ones may not be. */
  predicate Settled(book: Book) {
    && Consistent(book)
    && forall slot <- book.visible :: book.visible[slot].Recorded? ==> slot in book.durable
  }

  lemma SyncedStep(c: Crypto, w: World, e: Event)
    requires AllDurable(w) && !KeepsUnsynced(e) && forall key <- w.journals :: Settled(w.journals[key])
    ensures AllDurable(Step(c, w, e))
    ensures forall key <- Step(c, w, e).journals :: Settled(Step(c, w, e).journals[key])
  {
    var w' := Step(c, w, e);
    forall r | r in w'.relied
      ensures r.key in w'.outside || (r.slot in BookOf(w', r.key).durable && r.slot in BookOf(w', r.key).visible)
    {
      assert r !in w.relied || r.key in w.outside
          || (r.slot in BookOf(w, r.key).durable && r.slot in BookOf(w, r.key).visible);
    }
  }

  /** A failed directory sync, a retry that finds the entry and signs, and a power
      failure: the journal then allows a second digest for the same slot. */
  lemma ForgottenEntrySignsTwice(c: Crypto, key: Key, d1: Descriptor, d2: Descriptor, previous: Verified)
    returns (events: seq<Event>)
    requires SlotOf(d1, ForApproval) == SlotOf(d2, ForApproval) && c.digest(d1.body) != c.digest(d2.body)
    requires ValidIdentifier(d1.body.topology.networkId)
    ensures
      var w := Run(c, START, events);
      && (key, ApprovalMessage(previous.digest, c.digest(d1.body), key)) in w.signatures
      && (key, ApprovalMessage(previous.digest, c.digest(d2.body), key)) in w.signatures
      && w.outside == {} && w.forgetful == {key}
  {
    var first, retry := Approves(key, d1, previous, KeptUnsynced), Approves(key, d1, previous, Completed);
    var loss, second := LosesPower(key, true), Approves(key, d2, previous, Completed);
    events := [first, retry, loss, second];
    var w1 := Step(c, START, first);
    var w2 := Step(c, w1, retry);
    var w3 := Step(c, w2, loss);
    var w4 := Step(c, w3, second);
    var r := Reliance(key, SlotOf(d1, ForApproval), c.digest(d1.body));
    assert r in w2.relied && BookOf(w2, key).durable == map[];
    assert Forgets(w2, key, true);
    RunFour(c, START, first, retry, loss, second);
  }

  lemma RunFour(c: Crypto, w: World, a: Event, b: Event, d: Event, e: Event)
    ensures Run(c, w, [a, b, d, e]) == Step(c, Step(c, Step(c, Step(c, w, a), b), d), e)
  {
    RunCons(c, w, a, [b, d, e]);
    RunCons(c, Step(c, w, a), b, [d, e]);
    RunCons(c, Step(c, Step(c, w, a), b), d, [e]);
    RunCons(c, Step(c, Step(c, Step(c, w, a), b), d), e, []);
  }

  lemma RunCons(c: Crypto, w: World, e: Event, rest: seq<Event>)
    ensures Run(c, w, [e] + rest) == Run(c, Step(c, w, e), rest)
  {
    assert ([e] + rest)[1..] == rest;
  }

  // --- Quorum intersection -------------------------------------------------------------------

  ghost function Ids(operators: seq<Operator>): set<string> {
    set o | o in operators :: o.id
  }

  lemma {:induction false} IdsBound(operators: seq<Operator>)
    ensures |Ids(operators)| <= |operators|
  {
    if operators != [] {
      IdsBound(operators[1..]);
      assert operators == [operators[0]] + operators[1..];
      assert Ids(operators) == {operators[0].id} + Ids(operators[1..]);
    }
  }

  lemma SubsetBound<T>(a: set<T>, b: set<T>)
    requires a <= b
    ensures |a| <= |b|
  {
    assert b == a + (b - a);
  }

  lemma Overlap(a: set<string>, b: set<string>, all: set<string>)
    requires a <= all && b <= all
    ensures |a * b| >= |a| + |b| - |all|
  {
    assert |a + b| == |a| + |b| - |a * b|;
    SubsetBound(a + b, all);
  }

  lemma ApproversAreOperators(c: Crypto, d: Descriptor, previous: Verified, revoked: set<Key>)
    requires Valid(c, d, Some(previous), revoked)
    ensures Approvers(d) <= Ids(previous.Operators()) && |Approvers(d)| >= QuorumOf(previous)
  {
    forall id | id in Approvers(d) ensures id in Ids(previous.Operators()) {
      var a :| a in d.approvals && a.operatorId == id;
      assert ApprovalOk(c, a, c.digest(d.body), previous, revoked);
      assert previous.Operators()[a.index % 0x1_0000] in previous.Operators();
    }
  }

  /** At least 2q - n operators of the previous epoch approved both of any two
      valid successors, and 2q - n is at least one. */
  lemma CommonApprovers(c: Crypto, previous: Verified, d1: Descriptor, r1: set<Key>, d2: Descriptor, r2: set<Key>)
    requires Valid(c, d1, Some(previous), r1) && Valid(c, d2, Some(previous), r2)
    ensures |Approvers(d1) * Approvers(d2)| >= 2 * QuorumOf(previous) - |previous.Operators()| >= 1
  {
    ApproversAreOperators(c, d1, previous, r1);
    ApproversAreOperators(c, d2, previous, r2);
    IdsBound(previous.Operators());
    Overlap(Approvers(d1), Approvers(d2), Ids(previous.Operators()));
  }

  /** Only the holder of a key, through some recorded event, makes it sign. */
  ghost predicate Unforgeable(c: Crypto, w: World) {
    forall key: Key, m: Message, s: Signature :: c.signed(key, m, s) ==> (key, m) in w.signatures
  }

  /** Operators that signed outside their journals or forgot what they signed. */
  ghost function LooseOperators(w: World, v: Verified): set<string> {
    set o | o in v.Operators() && Loose(w, o.key) :: o.id
  }

  lemma SignedApproval(c: Crypto, w: World, d: Descriptor, previous: Verified, revoked: set<Key>, o: Operator)
    requires Unforgeable(c, w) && Valid(c, d, Some(previous), revoked)
    requires ValidTopology(previous.descriptor.body.topology)
    requires o in previous.Operators() && o.id in Approvers(d)
    ensures (o.key, ApprovalMessage(previous.digest, c.digest(d.body), o.key)) in w.signatures
  {
    var a :| a in d.approvals && a.operatorId == o.id;
    assert ApprovalOk(c, a, c.digest(d.body), previous, revoked);
    var i :| 0 <= i < |previous.Operators()| && previous.Operators()[i] == o;
    var j := a.index % 0x1_0000;
    assert previous.Operators()[j].id == previous.Operators()[i].id;
    assert i == j;
  }

  lemma ConflictIsLoose(c: Crypto, w: World, previous: Verified, bodies: set<Body>,
                        d1: Descriptor, r1: set<Key>, d2: Descriptor, r2: set<Key>, o: Operator)
    requires Inv(c, w, bodies) && d1.body in bodies && d2.body in bodies && Unforgeable(c, w)
    requires ValidTopology(previous.descriptor.body.topology)
    requires Valid(c, d1, Some(previous), r1) && Valid(c, d2, Some(previous), r2)
    requires c.digest(d1.body) != c.digest(d2.body)
    requires o in previous.Operators() && o.id in Approvers(d1) && o.id in Approvers(d2)
    ensures Loose(w, o.key)
  {
    SignedApproval(c, w, d1, previous, r1, o);
    SignedApproval(c, w, d2, previous, r2, o);
    var m1 := ApprovalMessage(previous.digest, c.digest(d1.body), o.key);
    var m2 := ApprovalMessage(previous.digest, c.digest(d2.body), o.key);
    SameSlot(c, previous, d1, r1, d2, r2, m1, m2);
    SignedTwiceIsLoose(c, w, bodies, o.key, d1.body, m1, d2.body, m2);
  }

  lemma SameSlot(c: Crypto, previous: Verified, d1: Descriptor, r1: set<Key>, d2: Descriptor, r2: set<Key>,
                 m1: Message, m2: Message)
    requires Valid(c, d1, Some(previous), r1) && Valid(c, d2, Some(previous), r2)
    requires m1.ApprovalMessage? && m2.ApprovalMessage?
    ensures Behind(d1.body, m1) == Behind(d2.body, m2)
  {
  }

  lemma SignedTwiceIsLoose(c: Crypto, w: World, bodies: set<Body>, key: Key, a: Body, m1: Message, b: Body, m2: Message)
    requires Inv(c, w, bodies) && a in bodies && b in bodies && Behind(a, m1) == Behind(b, m2)
    requires (key, m1) in w.signatures && (key, m2) in w.signatures
    requires c.digest(a) == m1.digest && c.digest(b) == m2.digest && m1.digest != m2.digest
    ensures Loose(w, key)
  {
    if key !in w.outside {
      var r, q := Reliance(key, Behind(a, m1), m1.digest), Reliance(key, Behind(b, m2), m2.digest);
      assert r in w.relied && q in w.relied;
      assert (Loose(w, key) || Kept(w, r)) && (Loose(w, key) || Kept(w, q));
    }
  }

  /** Split-brain needs journal bypass: after any run, two valid successors of one
      epoch with different digests mean that at least 2q - n of that epoch's n
      operators signed outside their journals, or signed on an entry whose directory
      sync had failed and then lost it with their power. */
  lemma SplitBrainNeedsBypass(c: Crypto, events: seq<Event>, previous: Verified,
                              d1: Descriptor, r1: set<Key>, d2: Descriptor, r2: set<Key>)
    requires CollisionFree(c, Bodies(events) + {d1.body, d2.body}) && Unforgeable(c, Run(c, START, events))
    requires ValidTopology(previous.descriptor.body.topology)
    requires Valid(c, d1, Some(previous), r1) && Valid(c, d2, Some(previous), r2)
    requires c.digest(d1.body) != c.digest(d2.body)
    ensures |LooseOperators(Run(c, START, events), previous)|
         >= 2 * QuorumOf(previous) - |previous.Operators()| >= 1
  {
    var w, bodies := Run(c, START, events), Bodies(events) + {d1.body, d2.body};
    RunKeeps(c, START, events, bodies);
    CommonApprovers(c, previous, d1, r1, d2, r2);
    ApproversAreOperators(c, d1, previous, r1);
    forall id | id in Approvers(d1) * Approvers(d2) ensures id in LooseOperators(w, previous) {
      var o :| o in previous.Operators() && o.id == id;
      ConflictIsLoose(c, w, previous, bodies, d1, r1, d2, r2, o);
    }
    SubsetBound(Approvers(d1) * Approvers(d2), LooseOperators(w, previous));
  }

  /** Where no directory sync failed, all of them signed outside their journals. */
  lemma SyncedSplitBrainNeedsBypass(c: Crypto, events: seq<Event>, previous: Verified,
                                    d1: Descriptor, r1: set<Key>, d2: Descriptor, r2: set<Key>)
    requires CollisionFree(c, Bodies(events) + {d1.body, d2.body}) && Unforgeable(c, Run(c, START, events))
    requires ValidTopology(previous.descriptor.body.topology)
    requires Valid(c, d1, Some(previous), r1) && Valid(c, d2, Some(previous), r2)
    requires c.digest(d1.body) != c.digest(d2.body) && forall i | 0 <= i < |events| :: !KeepsUnsynced(events[i])
    ensures |set o | o in previous.Operators() && o.key in Run(c, START, events).outside :: o.id|
         >= 2 * QuorumOf(previous) - |previous.Operators()| >= 1
  {
    SplitBrainNeedsBypass(c, events, previous, d1, r1, d2, r2);
    SyncedRunsForgetNothing(c, START, events);
    assert LooseOperators(Run(c, START, events), previous)
        == set o | o in previous.Operators() && o.key in Run(c, START, events).outside :: o.id;
  }
}
