/** What an append answers, said of the chain and the files and not of the order
    of checks: from every reachable state of the store, each answer exactly when
    it is due. */
module EpochStoreAnswers {
  import opened Options
  import opened EpochDescriptor
  import opened EpochStore
  import opened EpochStoreRuns
  import opened Ordering

  // --- What a refresh takes in -----------------------------------------------------------------------

  function NumberAt(epochs: seq<Verified>, i: nat): nat
    requires i <= |epochs|
  {
    if i == 0 then 1 else Following(epochs[i - 1].Epoch())
  }

  /** The element was read from the file of the number after the one before it. */
  ghost predicate ReadAt(rules: Rules, networkId: string, epochs: seq<Verified>, files: map<Word64, File>, i: nat)
    requires i < |epochs|
  {
    var n := NumberAt(epochs, i);
    && n in files && files[n] == Whole(epochs[i].descriptor) && epochs[i].NetworkId() == networkId
    && rules.check(epochs[i].descriptor, Before(epochs, i), {}) == Some(epochs[i])
  }

  /** The file of the next number is there and cannot follow. */
  ghost predicate Stuck(rules: Rules, networkId: string, epochs: seq<Verified>, files: map<Word64, File>) {
    var n := NumberAt(epochs, |epochs|);
    && n in files
    && (files[n].Whole? ==>
          var v := rules.check(files[n].descriptor, Last(epochs), {});
          v.None? || v.value.NetworkId() != networkId)
  }

  ghost predicate TakenIn(rules: Rules, networkId: string, before: seq<Verified>, after: seq<Verified>,
                          files: map<Word64, File>)
  {
    before <= after && forall i | |before| <= i < |after| :: ReadAt(rules, networkId, after, files, i)
  }

  lemma {:induction false} AdoptTakesAll(rules: Rules, networkId: string, epochs: seq<Verified>,
                                         files: map<Word64, File>)
    requires Sound(rules)
    ensures
      var (after, ok) := Adopt(rules, networkId, epochs, files);
      && TakenIn(rules, networkId, epochs, after, files)
      && (if ok then NumberAt(after, |after|) !in files else Stuck(rules, networkId, after, files))
    decreases Above(epochs)
  {
    var step := Successor(rules, networkId, epochs, files);
    if step.Adopted? {
      SuccessorIsAbove(rules, networkId, epochs, files);
      var longer := epochs + [step.verified];
      AdoptTakesAll(rules, networkId, longer, files);
      var after := Adopt(rules, networkId, longer, files).0;
      forall i | |epochs| <= i < |after| ensures ReadAt(rules, networkId, after, files, i) {
        if i == |epochs| {
          assert after[i] == longer[i] && Before(after, i) == Last(epochs);
        }
      }
    }
  }

  /** A refresh halts on a marker; otherwise it takes in every stored successor up
      to the first number that is missing, and fails at one that cannot follow. */
  lemma RefreshTakesAll(rules: Rules, networkId: string, m: Memory, disk: Disk)
    requires Sound(rules)
    ensures
      var (m', ok) := Refresh(rules, networkId, m, disk);
      && (m'.halted <==> m.halted || disk.marker.Some?)
      && (m'.halted ==> ok && m'.epochs == m.epochs)
      && (!m'.halted ==>
            && TakenIn(rules, networkId, m.epochs, m'.epochs, disk.files)
            && (if ok then NumberAt(m'.epochs, |m'.epochs|) !in disk.files
                else Stuck(rules, networkId, m'.epochs, disk.files)))
  {
    AdoptTakesAll(rules, networkId, m.epochs, disk.files);
  }

  ghost predicate HeldAt(files: map<Word64, File>, networkId: string, n: nat, v: Verified) {
    n in files && files[n] == Whole(v.descriptor) && v.NetworkId() == networkId && v.Epoch() == n
  }

  lemma {:induction false} LoadTakesAll(rules: Rules, networkId: string, files: map<Word64, File>, numbers: seq<nat>,
                                        epochs: seq<Verified>)
    requires Sound(rules) && Load(rules, networkId, files, numbers, epochs).Some?
    ensures
      var r := Load(rules, networkId, files, numbers, epochs).value;
      && |r| == |epochs| + |numbers| && epochs <= r
      && forall k | 0 <= k < |numbers| :: HeldAt(files, networkId, numbers[k], r[|epochs| + k])
    decreases |numbers|
  {
    if numbers != [] {
      var v := rules.check(files[numbers[0]].descriptor, Last(epochs), {}).value;
      var rest, longer := numbers[1..], epochs + [v];
      LoadTakesAll(rules, networkId, files, rest, longer);
      var r := Load(rules, networkId, files, numbers, epochs).value;
      forall k | 0 <= k < |numbers| ensures HeldAt(files, networkId, numbers[k], r[|epochs| + k]) {
        if k == 0 {
          assert r[|epochs|] == longer[|epochs|];
        } else {
          assert HeldAt(files, networkId, rest[k - 1], r[|longer| + (k - 1)]);
        }
      }
    }
  }

  /** An opened directory is held whole: without a marker the chain is its files,
      each once, in number order. */
  lemma OpenTakesAll(rules: Rules, networkId: string, disk: Disk)
    requires Sound(rules) && Opened(rules, networkId, disk).Some?
    ensures
      var m := Opened(rules, networkId, disk).value;
      && (m.halted <==> disk.marker.Some?) && (m.halted ==> m.epochs == [])
      && (!m.halted ==>
            && |m.epochs| == |disk.files|
            && (forall v <- m.epochs :: HeldAt(disk.files, networkId, v.Epoch(), v))
            && (forall i, j | 0 <= i < j < |m.epochs| :: m.epochs[i].Epoch() < m.epochs[j].Epoch()))
  {
    if disk.marker.None? {
      var numbers := Ascending(disk.files.Keys);
      AscendingIsSorted(disk.files.Keys);
      LoadTakesAll(rules, networkId, disk.files, numbers, []);
      assert |disk.files| == |disk.files.Keys|;
      HeldInOrder(disk.files, networkId, numbers, Opened(rules, networkId, disk).value.epochs);
    }
  }

  lemma HeldInOrder(files: map<Word64, File>, networkId: string, numbers: seq<nat>, epochs: seq<Verified>)
    requires Increasing(numbers) && |epochs| == |numbers|
    requires forall k | 0 <= k < |numbers| :: HeldAt(files, networkId, numbers[k], epochs[0 + k])
    ensures forall v <- epochs :: HeldAt(files, networkId, v.Epoch(), v)
    ensures forall i, j | 0 <= i < j < |epochs| :: epochs[i].Epoch() < epochs[j].Epoch()
  {
    forall i | 0 <= i < |epochs| ensures HeldAt(files, networkId, numbers[i], epochs[i]) {
      assert HeldAt(files, networkId, numbers[i], epochs[0 + i]);
    }
  }

  // --- What an append answers -------------------------------------------------------------------------

  /** A descriptor for the number held at place `i` that verifies in that place. */
  ghost predicate Rivals(rules: Rules, config: Config, epochs: seq<Verified>, d: Descriptor, i: nat)
    requires i < |epochs|
  {
    d.body.topology.epoch == epochs[i].Epoch() && rules.check(d, Before(epochs, i), config.revoked).Some?
  }

  ghost predicate Conflicts(rules: Rules, config: Config, epochs: seq<Verified>, d: Descriptor) {
    exists i | 0 <= i < |epochs| :: Rivals(rules, config, epochs, d, i) && epochs[i].digest != rules.digest(d.body)
  }

  ghost predicate Repeats(rules: Rules, config: Config, epochs: seq<Verified>, d: Descriptor) {
    exists i | 0 <= i < |epochs| :: Rivals(rules, config, epochs, d, i) && epochs[i].digest == rules.digest(d.body)
  }

  /** A new number, never burned, that verifies after the tip. */
  ghost predicate Continues(rules: Rules, config: Config, epochs: seq<Verified>, disk: Disk, d: Descriptor) {
    && (forall v <- epochs :: v.Epoch() != d.body.topology.epoch)
    && disk.watermark.visible < d.body.topology.epoch
    && rules.check(d, Last(epochs), config.revoked).Some?
  }

  predicate Addressed(config: Config, d: Descriptor) {
    d.body.topology.networkId == config.networkId != ""
  }

  /** The chain is linked, so its numbers rise, and of one network. */
  ghost predicate Orderly(rules: Rules, config: Config, epochs: seq<Verified>) {
    Linked(rules, epochs) && forall v <- epochs :: v.NetworkId() == config.networkId
  }

  lemma {:induction false} LinkedRises(rules: Rules, epochs: seq<Verified>, i: nat, j: nat)
    requires Sound(rules) && Linked(rules, epochs) && i < j < |epochs|
    ensures epochs[i].Epoch() < epochs[j].Epoch()
    decreases j
  {
    assert rules.check(epochs[j].descriptor, Before(epochs, j), {}) == Some(epochs[j]);
    if i < j - 1 {
      LinkedRises(rules, epochs, i, j - 1);
    }
  }

  /** The place of a held number is the only one, so the search finds it. */
  lemma SlotIsPlace(rules: Rules, epochs: seq<Verified>, i: nat)
    requires Sound(rules) && Linked(rules, epochs) && i < |epochs|
    ensures SlotFrom(epochs, epochs[i].Epoch(), 0) == Some(i)
  {
    var slot := SlotFrom(epochs, epochs[i].Epoch(), 0);
    if slot.Some? && slot.value < i {
      LinkedRises(rules, epochs, slot.value, i);
    } else if slot.Some? && i < slot.value {
      LinkedRises(rules, epochs, i, slot.value);
    }
  }

  ghost predicate DecidedRight(rules: Rules, config: Config, epochs: seq<Verified>, disk: Disk, d: Descriptor,
                               decision: Decision)
  {
    && (decision.Equivocates? <==> Addressed(config, d) && Conflicts(rules, config, epochs, d))
    && (decision.AlreadyStored? <==> Addressed(config, d) && Repeats(rules, config, epochs, d))
    && (decision.Admits? <==> Addressed(config, d) && Continues(rules, config, epochs, disk, d))
    && (decision.Equivocates? || decision.AlreadyStored? ==>
          decision.stored in epochs && decision.stored.Epoch() == d.body.topology.epoch)
    && (decision.Equivocates? ==>
          && decision.competing == Verified(d, rules.digest(d.body))
          && decision.stored.digest != decision.competing.digest)
    && (decision.Admits? ==> decision.verified == Verified(d, rules.digest(d.body)))
  }

  lemma HeldIsJudged(rules: Rules, config: Config, epochs: seq<Verified>, disk: Disk, d: Descriptor, i: nat)
    requires Sound(rules) && Orderly(rules, config, epochs) && i < |epochs|
    requires epochs[i].Epoch() == d.body.topology.epoch
    ensures DecidedRight(rules, config, epochs, disk, d, Decide(rules, config, epochs, disk, Some(d)))
  {
    SlotIsPlace(rules, epochs, i);
    forall j | 0 <= j < |epochs| && Rivals(rules, config, epochs, d, j) ensures j == i {
      SlotIsPlace(rules, epochs, j);
    }
    assert epochs[i] in epochs;
    assert Rivals(rules, config, epochs, d, i) <==> rules.check(d, Before(epochs, i), config.revoked).Some?;
  }

  lemma NewIsJudged(rules: Rules, config: Config, epochs: seq<Verified>, disk: Disk, d: Descriptor)
    requires Sound(rules) && Orderly(rules, config, epochs)
    requires forall v <- epochs :: v.Epoch() != d.body.topology.epoch
    ensures DecidedRight(rules, config, epochs, disk, d, Decide(rules, config, epochs, disk, Some(d)))
  {
    assert forall i | 0 <= i < |epochs| :: epochs[i] in epochs;
    assert SlotFrom(epochs, d.body.topology.epoch, 0).None?;
    var v := rules.check(d, Last(epochs), config.revoked);
    if v.Some? && epochs != [] {
      assert d.body.topology.epoch == Following(epochs[|epochs| - 1].Epoch());
    }
  }

  /** The decision on a candidate, whichever of the code's checks comes first. */
  lemma DecisionIsRight(rules: Rules, config: Config, epochs: seq<Verified>, disk: Disk, d: Descriptor)
    requires Sound(rules) && Orderly(rules, config, epochs)
    ensures DecidedRight(rules, config, epochs, disk, d, Decide(rules, config, epochs, disk, Some(d)))
  {
    if v :| v in epochs && v.Epoch() == d.body.topology.epoch {
      var i :| 0 <= i < |epochs| && epochs[i] == v;
      HeldIsJudged(rules, config, epochs, disk, d, i);
    } else {
      NewIsJudged(rules, config, epochs, disk, d);
    }
  }

  /** What is on hand for one candidate: whether it conflicts with the chain, repeats
      it, or continues it. */
  datatype Standing = Standing(conflicts: bool, repeats: bool, continues: bool)

  ghost function StandingOf(rules: Rules, config: Config, m: Memory, ok: bool, disk: Disk, d: Descriptor): Standing {
    var live := ok && !m.halted && Addressed(config, d);
    Standing(live && Conflicts(rules, config, m.epochs, d), live && Repeats(rules, config, m.epochs, d),
             live && Continues(rules, config, m.epochs, disk, d))
  }

  /** The marker is there and names the number and both digests. */
  predicate Marked(marker: Option<Marker>, v: Verified) {
    && marker.Some? && marker.value.Complete?
    && var e := marker.value.evidence;
       e.epoch == v.Epoch() && e.offeredDigest == v.digest != e.storedDigest && e.offered == v.descriptor
  }

  /** Answer, memory and disk, in terms of that standing and the refreshed memory. */
  ghost predicate AnsweredRight(standing: Standing, m: Memory, disk: Disk, v: Verified,
                                raise: Write, store: Write, mark: Write, outcome: (Memory, Disk, Result))
  {
    var (m', disk', r) := outcome;
    && (r == Equivocation <==> standing.conflicts)
    && (r.Known? <==> standing.repeats)
    && (r.Accepted? <==> standing.continues && raise.Written? && store.Written? && v.Epoch() !in disk.files)
    && (r == Equivocation ==>
          && m' == m.(halted := true) && disk'.files == disk.files && disk'.watermark == disk.watermark
          && (mark.Written? || mark.WrittenUnsynced? ==> Marked(disk'.marker, v)))
    && (r.Known? ==> r.verified in m.epochs && r.verified.Epoch() == v.Epoch())
    && (r.Accepted? ==>
          && r.verified == v && m' == m.(epochs := m.epochs + [v])
          && disk' == Disk(disk.marker, Level(v.Epoch(), v.Epoch()), disk.files[v.Epoch() := Whole(v.descriptor)]))
    && (r.Known? || r.Failed? ==> m' == m)
    && (!standing.conflicts && !standing.continues ==> disk' == disk)
  }

  lemma AdmissionAnswers(m: Memory, disk: Disk, v: Verified, raise: Write, store: Write, mark: Write)
    requires disk.watermark.visible < v.Epoch()
    ensures AnsweredRight(Standing(false, false, true), m, disk, v, raise, store, mark,
                          AfterAdmission(m, disk, v, raise, store))
  {
  }

  lemma HaltAnswers(m: Memory, disk: Disk, stored: Verified, v: Verified, raise: Write, store: Write, mark: Write)
    requires disk.marker.None? && stored.Epoch() == v.Epoch() && stored.digest != v.digest
    ensures AnsweredRight(Standing(true, false, false), m, disk, v, raise, store, mark,
                          (m.(halted := true), AfterMarker(disk, stored, v, mark), Equivocation))
  {
  }

  lemma DecisionAnswers(rules: Rules, config: Config, m: Memory, disk: Disk, d: Descriptor, decision: Decision,
                        raise: Write, store: Write, mark: Write)
    requires DecidedRight(rules, config, m.epochs, disk, d, decision) && !m.halted && disk.marker.None?
    ensures AnsweredRight(StandingOf(rules, config, m, true, disk, d), m, disk, Verified(d, rules.digest(d.body)),
                          raise, store, mark, AfterDecision(m, disk, decision, raise, store, mark))
  {
    var v, standing := Verified(d, rules.digest(d.body)), StandingOf(rules, config, m, true, disk, d);
    assert standing == Standing(decision.Equivocates?, decision.AlreadyStored?, decision.Admits?);
    match decision
    case Refused =>
    case AlreadyStored(_) =>
    case Equivocates(stored, _) => HaltAnswers(m, disk, stored, v, raise, store, mark);
    case Admits(_) => AdmissionAnswers(m, disk, v, raise, store, mark);
  }

  lemma AppendAnswers(rules: Rules, config: Config, m: Memory, disk: Disk, d: Descriptor,
                      raise: Write, store: Write, mark: Write)
    requires Sound(rules)
    requires Orderly(rules, config, Refresh(rules, config.networkId, m, disk).0.epochs)
    ensures
      var (m1, ok) := Refresh(rules, config.networkId, m, disk);
      AnsweredRight(StandingOf(rules, config, m1, ok, disk, d), m1, disk, Verified(d, rules.digest(d.body)),
                    raise, store, mark, AfterAppend(rules, config, m, disk, Some(d), raise, store, mark))
  {
    var (m1, ok) := Refresh(rules, config.networkId, m, disk);
    RefreshTakesAll(rules, config.networkId, m, disk);
    if ok && !m1.halted {
      DecisionIsRight(rules, config, m1.epochs, disk, d);
      var decision := Decide(rules, config, m1.epochs, disk, Some(d));
      DecisionAnswers(rules, config, m1, disk, d, decision, raise, store, mark);
    }
  }

  // --- From every reachable state ----------------------------------------------------------------------

  /** Every process holds, and is about to store, descriptors of its own network. */
  ghost predicate OneNetwork(pr: Process) {
    && (forall v <- pr.memory.epochs :: v.NetworkId() == pr.config.networkId)
    && (pr.phase.Raising? || pr.phase.Storing? ==> pr.phase.verified.NetworkId() == pr.config.networkId)
  }

  ghost predicate Networks(w: World) {
    forall p <- w.processes :: OneNetwork(w.processes[p])
  }

  lemma RefreshedNetwork(rules: Rules, m: Memory, disk: Disk, networkId: string)
    requires Sound(rules) && forall v <- m.epochs :: v.NetworkId() == networkId
    ensures forall v <- Refresh(rules, networkId, m, disk).0.epochs :: v.NetworkId() == networkId
  {
    RefreshTakesAll(rules, networkId, m, disk);
    var after := Refresh(rules, networkId, m, disk).0.epochs;
    forall v | v in after ensures v.NetworkId() == networkId {
      var i :| 0 <= i < |after| && after[i] == v;
      if i < |m.epochs| {
        assert m.epochs[i] == v;
      } else {
        assert ReadAt(rules, networkId, after, disk.files, i);
      }
    }
  }

  lemma DecidingNetworks(rules: Rules, w: World, p: nat, candidate: Option<Descriptor>)
    requires Sound(rules) && p in w.processes && Networks(w)
    ensures Networks(Deciding(rules, w, p, candidate))
  {
    assert OneNetwork(w.processes[p]);
  }

  lemma BeginningNetworks(rules: Rules, w: World, p: nat, candidate: Option<Descriptor>)
    requires Sound(rules) && Networks(w)
    ensures Networks(Beginning(rules, w, p, candidate))
  {
    if p in w.processes {
      var pr := w.processes[p];
      assert OneNetwork(pr);
      RefreshedNetwork(rules, pr.memory, w.disk, pr.config.networkId);
      var m := Refresh(rules, pr.config.networkId, pr.memory, w.disk).0;
      DecidingNetworks(rules, w.(processes := w.processes[p := pr.(memory := m)]), p, candidate);
    }
  }

  lemma OpeningNetworks(rules: Rules, w: World, p: nat, config: Config)
    requires Sound(rules) && Networks(w)
    ensures Networks(Opening(rules, w, p, config))
  {
    if Opened(rules, config.networkId, w.disk).Some? {
      OpenTakesAll(rules, config.networkId, w.disk);
    }
  }

  lemma {:induction false} RunNetworks(rules: Rules, w: World, events: seq<Event>)
    requires Sound(rules) && Networks(w)
    ensures Networks(Run(rules, w, events))
    decreases |events|
  {
    if events != [] {
      match events[0] {
        case Open(p, config) => OpeningNetworks(rules, w, p, config);
        case Begin(p, candidate) => BeginningNetworks(rules, w, p, candidate);
        case _ =>
      }
      RunNetworks(rules, Step(rules, w, events[0]), events[1..]);
    }
  }

  /** From every reachable state, with the lock free: an append halts the store
      exactly for a verified descriptor that competes with a held one, wherever in
      the chain; repeats exactly a held one; and accepts exactly the next one, when
      its writes succeed. The machine's steps end in that outcome. */
  lemma AppendAnswersOverRuns(rules: Rules, events: seq<Event>, p: nat, d: Descriptor,
                              raise: Write, store: Write, mark: Write)
    requires Sound(rules)
    requires p in Run(rules, EMPTY, events).processes && Run(rules, EMPTY, events).lock.None?
    ensures
      var w := Run(rules, EMPTY, events);
      var pr := w.processes[p];
      var (m, ok) := Refresh(rules, pr.config.networkId, pr.memory, w.disk);
      var outcome := AfterAppend(rules, pr.config, pr.memory, w.disk, Some(d), raise, store, mark);
      && AnsweredRight(StandingOf(rules, pr.config, m, ok, w.disk, d), m, w.disk, Verified(d, rules.digest(d.body)),
                       raise, store, mark, outcome)
      && Shows(w, Finishing(Beginning(rules, w, p, Some(d)), p, raise, store, mark), p, outcome)
  {
    var w := Run(rules, EMPTY, events);
    var pr := w.processes[p];
    RunKeeps(rules, EMPTY, events);
    RunNetworks(rules, EMPTY, events);
    assert ProcessOk(rules, w, p, pr) && OneNetwork(pr);
    RefreshedLinked(rules, w, p);
    RefreshedNetwork(rules, pr.memory, w.disk, pr.config.networkId);
    AppendAnswers(rules, pr.config, pr.memory, w.disk, d, raise, store, mark);
    AppendIsItsSteps(rules, w, p, Some(d), raise, store, mark);
  }

  lemma RefreshedLinked(rules: Rules, w: World, p: nat)
    requires Sound(rules) && Inv(rules, w) && p in w.processes && w.lock.None?
    ensures Linked(rules, Refresh(rules, w.processes[p].config.networkId, w.processes[p].memory, w.disk).0.epochs)
  {
    RefreshingKeeps(rules, w, p);
    var pr := w.processes[p];
    var m := Refresh(rules, pr.config.networkId, pr.memory, w.disk).0;
    var w' := w.(processes := w.processes[p := pr.(memory := m)]);
    assert ProcessOk(rules, w', p, w'.processes[p]);
  }
}
