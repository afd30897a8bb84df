/** One store directory over its whole life: several processes that append under
    a lock, opens without the lock, kills between any two writes, power losses,
    restarts and removed descriptor files. */
module EpochStoreRuns {
  import opened Options
  import opened EpochDescriptor
  import opened EpochStore
  import opened Ordering
  import EpochWindows

  // --- The machine ----------------------------------------------------------------------------

  /** Where a lock holder is between two durable writes. */
  datatype Phase =
    | Idle
    | Raising(verified: Verified)
    | Storing(verified: Verified)
    | Marking(conflict: Conflict)

  datatype Process = Process(config: Config, memory: Memory, phase: Phase)

  /** Two descriptors for one epoch number, with what they verify against. */
  datatype Conflict = Conflict(stored: Verified, competing: Verified, previous: Option<Verified>, revoked: set<Key>)

  /** `accepted`, `history` and `conflicts` record the past: descriptors newly
      accepted, descriptors ever stored whole, equivocations ever observed.
      `unsynced` holds the files whose writer was killed before it synced them. */
  datatype World = World(
    disk: Disk, lock: Option<nat>, processes: map<nat, Process>,
    accepted: seq<Verified>, history: map<Word64, Verified>, conflicts: set<Conflict>, unsynced: set<Word64>)

  /** How much of an interrupted write remains. */
  datatype Leaves = Nothing | Part | All

  datatype Event =
    | Open(p: nat, config: Config)
    | Begin(p: nat, candidate: Option<Descriptor>)
    | Raise(p: nat, write: Write)
    | Store(p: nat, write: Write)
    | Mark(p: nat, write: Write)
    | Kill(p: nat, leaves: Leaves)
    | PowerLoss(unsyncedLost: bool, markerLost: bool, torn: set<Word64>)
    | Delete(number: Word64)

  const EMPTY := World(Disk(None, Level(0, 0), map[]), None, map[], [], map[], {}, {})

  ghost function Opening(rules: Rules, w: World, p: nat, config: Config): World {
    if p in w.processes then w
    else
      match Opened(rules, config.networkId, w.disk)
      case None => w
      case Some(m) => w.(processes := w.processes[p := Process(config, m, Idle)])
  }

  ghost function Beginning(rules: Rules, w: World, p: nat, candidate: Option<Descriptor>): World
    requires Sound(rules)
  {
    if p !in w.processes || w.lock.Some? then w
    else
      var pr := w.processes[p];
      var (m, ok) := Refresh(rules, pr.config.networkId, pr.memory, w.disk);
      var w1 := w.(processes := w.processes[p := pr.(memory := m)]);
      if !ok || m.halted then w1 else Deciding(rules, w1, p, candidate)
  }

  ghost function Deciding(rules: Rules, w: World, p: nat, candidate: Option<Descriptor>): World
    requires p in w.processes
  {
    var pr := w.processes[p];
    var m := pr.memory;
    match Decide(rules, pr.config, m.epochs, w.disk, candidate)
    case Refused => w
    case AlreadyStored(_) => w
    case Equivocates(stored, competing) =>
      var slot := SlotFrom(m.epochs, stored.Epoch(), 0);
      var previous := if slot.Some? then Before(m.epochs, slot.value) else None;
      var x := Conflict(stored, competing, previous, pr.config.revoked);
      w.(lock := Some(p), conflicts := w.conflicts + {x},
         processes := w.processes[p := Process(pr.config, m.(halted := true), Marking(x))])
    case Admits(v) =>
      w.(lock := Some(p), processes := w.processes[p := pr.(phase := Raising(v))])
  }

  function Release(w: World, p: nat, pr: Process): World {
    w.(lock := None, processes := w.processes[p := pr.(phase := Idle)])
  }

  function RaisingStep(w: World, p: nat, write: Write): World {
    if p !in w.processes || !w.processes[p].phase.Raising? then w
    else
      var pr := w.processes[p];
      var (disk, ok) := AfterRaise(w.disk, pr.phase.verified.Epoch(), write);
      if ok then w.(disk := disk, processes := w.processes[p := pr.(phase := Storing(pr.phase.verified))])
      else Release(w.(disk := disk), p, pr)
  }

  function StoringStep(w: World, p: nat, write: Write): World {
    if p !in w.processes || !w.processes[p].phase.Storing? then w
    else
      var pr, v := w.processes[p], w.processes[p].phase.verified;
      var (disk, ok) := AfterStore(w.disk, v, write);
      var w1 := w.(disk := disk,
                   history := if v.Epoch() !in w.disk.files && (write.Written? || write.WrittenUnsynced?)
                              then w.history[v.Epoch() := v] else w.history);
      if ok then
        Release(w1.(accepted := w.accepted + [v]), p, pr.(memory := pr.memory.(epochs := pr.memory.epochs + [v])))
      else Release(w1, p, pr)
  }

  function MarkingStep(w: World, p: nat, write: Write): World {
    if p !in w.processes || !w.processes[p].phase.Marking? then w
    else
      var pr, x := w.processes[p], w.processes[p].phase.conflict;
      Release(w.(disk := AfterMarker(w.disk, x.stored, x.competing, write)), p, pr)
  }

  /** What a killed process's interrupted write leaves on disk. */
  function Remains(disk: Disk, phase: Phase, leaves: Leaves): Disk {
    match phase
    case Idle => disk
    case Raising(v) =>
      if leaves.Nothing? then disk
      else AfterRaise(disk, v.Epoch(), if leaves.Part? then WrittenUnsynced else Written).0
    case Storing(v) =>
      if leaves.Nothing? || v.Epoch() in disk.files then disk
      else disk.(files := disk.files[v.Epoch() := if leaves.Part? then Torn else Whole(v.descriptor)])
    case Marking(x) =>
      AfterMarker(disk, x.stored, x.competing,
                  match leaves case Nothing => NotWritten case Part => LeftTorn case All => Written)
  }

  function Killing(w: World, p: nat, leaves: Leaves): World {
    if p !in w.processes then w
    else
      var phase := w.processes[p].phase;
      var disk := Remains(w.disk, phase, leaves);
      w.(disk := disk, processes := w.processes - {p},
         lock := if w.lock == Some(p) then None else w.lock,
         history := if phase.Storing? && leaves.All? && disk != w.disk
                    then w.history[phase.verified.Epoch() := phase.verified] else w.history,
         unsynced := if phase.Storing? && leaves.All? then w.unsynced + {phase.verified.Epoch()} else w.unsynced)
  }

  /** What a power loss makes of the files: one that was never synced may be torn. */
  function Damaged(w: World, torn: set<Word64>): map<Word64, File> {
    map n | n in w.disk.files :: if n in torn && n in w.unsynced then Torn else w.disk.files[n]
  }

  /** The marker's directory entry is never synced, so a power loss may take it. */
  function LosingPower(w: World, lost: bool, markerLost: bool, torn: set<Word64>): World {
    var kept := if lost then w.disk.watermark.durable else w.disk.watermark.visible;
    w.(disk := Disk(if markerLost then None else w.disk.marker, Level(kept, kept), Damaged(w, torn)),
       processes := map[], lock := None, unsynced := {})
  }

  function Deleting(w: World, number: Word64): World {
    w.(disk := w.disk.(files := w.disk.files - {number}))
  }

  ghost function Step(rules: Rules, w: World, e: Event): World
    requires Sound(rules)
  {
    match e
    case Open(p, config) => Opening(rules, w, p, config)
    case Begin(p, candidate) => Beginning(rules, w, p, candidate)
    case Raise(p, write) => RaisingStep(w, p, write)
    case Store(p, write) => StoringStep(w, p, write)
    case Mark(p, write) => MarkingStep(w, p, write)
    case Kill(p, leaves) => Killing(w, p, leaves)
    case PowerLoss(lost, markerLost, torn) => LosingPower(w, lost, markerLost, torn)
    case Delete(number) => Deleting(w, number)
  }

  ghost function Run(rules: Rules, w: World, events: seq<Event>): World
    requires Sound(rules)
    decreases |events|
  {
    if events == [] then w else Run(rules, Step(rules, w, events[0]), events[1..])
  }

  // --- What every step keeps -------------------------------------------------------------------

  /** Every element verifies against the one before it, revocations aside. */
  ghost predicate Linked(rules: Rules, epochs: seq<Verified>) {
    forall i {:trigger Before(epochs, i)} | 0 <= i < |epochs| ::
      rules.check(epochs[i].descriptor, Before(epochs, i), {}) == Some(epochs[i])
  }

  ghost predicate Recorded(v: Verified, history: map<Word64, Verified>) {
    v.Epoch() in history && history[v.Epoch()] == v
  }

  ghost predicate DiskOk(rules: Rules, disk: Disk, history: map<Word64, Verified>) {
    && disk.watermark.durable <= disk.watermark.visible
    && (forall n <- disk.files :: 0 < n <= disk.watermark.durable)
    && (forall n <- disk.files | disk.files[n].Whole? ::
          n in history && history[n] == Verified(disk.files[n].descriptor, rules.digest(disk.files[n].descriptor.body)))
    && (forall n <- history :: 0 < n <= disk.watermark.durable && history[n].Epoch() == n)
  }

  /** What was stored under a number verified against nothing, or against what
      was stored under the number before. */
  ghost predicate Anchored(rules: Rules, history: map<Word64, Verified>, n: Word64)
    requires n in history
  {
    || rules.check(history[n].descriptor, None, {}) == Some(history[n])
    || (n > 0 && n - 1 in history
        && rules.check(history[n].descriptor, Some(history[n - 1]), {}) == Some(history[n]))
  }

  ghost predicate HistoryOk(rules: Rules, history: map<Word64, Verified>) {
    forall n <- history :: Anchored(rules, history, n)
  }

  ghost predicate AcceptedOk(accepted: seq<Verified>, history: map<Word64, Verified>) {
    && (forall v <- accepted :: Recorded(v, history))
    && (forall i, j | 0 <= i < j < |accepted| :: accepted[i].Epoch() < accepted[j].Epoch())
  }

  ghost predicate ChainOk(rules: Rules, epochs: seq<Verified>, history: map<Word64, Verified>) {
    Linked(rules, epochs) && forall v <- epochs :: Recorded(v, history)
  }

  ghost predicate PhaseOk(rules: Rules, w: World, pr: Process) {
    match pr.phase
    case Idle => true
    case Raising(v) =>
      && w.disk.marker.None? && w.disk.watermark.visible < v.Epoch()
      && rules.check(v.descriptor, Last(pr.memory.epochs), {}) == Some(v)
    case Storing(v) =>
      && w.disk.marker.None? && w.disk.watermark == Level(v.Epoch(), v.Epoch())
      && v.Epoch() !in w.history && v.Epoch() !in w.disk.files && 0 < v.Epoch()
      && rules.check(v.descriptor, Last(pr.memory.epochs), {}) == Some(v)
    case Marking(x) =>
      && w.disk.marker.None? && pr.memory.halted && x in w.conflicts
  }

  /** Both sides of a conflict verify against the same predecessor. */
  ghost predicate Genuine(rules: Rules, x: Conflict) {
    && x.stored.Epoch() == x.competing.Epoch() && x.stored.NetworkId() == x.competing.NetworkId()
    && x.stored.digest != x.competing.digest
    && rules.check(x.stored.descriptor, x.previous, {}) == Some(x.stored)
    && rules.check(x.competing.descriptor, x.previous, x.revoked) == Some(x.competing)
  }

  /** The evidence is about this conflict: number, both digests, the offered
      descriptor, and the stored one unless its file was gone or damaged. */
  ghost predicate Names(e: Evidence, x: Conflict) {
    && e.epoch == x.stored.Epoch() && e.storedDigest == x.stored.digest && e.offeredDigest == x.competing.digest
    && e.offered == x.competing.descriptor
    && (e.stored.Some? && e.stored.value.Whole? ==> e.stored.value.descriptor == x.stored.descriptor)
  }

  ghost predicate MarkerOk(w: World) {
    match w.disk.marker
    case None => true
    case Some(Partial) => w.conflicts != {}
    case Some(Complete(e)) => exists x <- w.conflicts :: Names(e, x)
  }

  /** What concerns the directory and the past, whoever is running. */
  ghost predicate Shared(rules: Rules, w: World) {
    && DiskOk(rules, w.disk, w.history) && HistoryOk(rules, w.history)
    && AcceptedOk(w.accepted, w.history)
    && (forall x <- w.conflicts :: Genuine(rules, x) && Recorded(x.stored, w.history))
    && MarkerOk(w)
  }

  ghost predicate ProcessOk(rules: Rules, w: World, p: nat, pr: Process) {
    && ChainOk(rules, pr.memory.epochs, w.history)
    && (pr.memory.halted ==> w.disk.marker.Some? || exists x <- w.conflicts :: x.stored in pr.memory.epochs)
    && PhaseOk(rules, w, pr)
    && (pr.phase.Idle? <==> w.lock != Some(p))
  }

  ghost predicate Inv(rules: Rules, w: World) {
    && Shared(rules, w)
    && (forall p <- w.processes :: ProcessOk(rules, w, p, w.processes[p]))
    && (w.lock.Some? ==> w.lock.value in w.processes)
  }

  ghost predicate Extends(h: map<Word64, Verified>, h': map<Word64, Verified>) {
    forall n <- h :: n in h' && h'[n] == h[n]
  }

  lemma ChainKeeps(rules: Rules, epochs: seq<Verified>, h: map<Word64, Verified>, h': map<Word64, Verified>)
    requires ChainOk(rules, epochs, h) && Extends(h, h')
    ensures ChainOk(rules, epochs, h')
  {
  }

  /** A step of `p` alone leaves every other process as it should be: the others
      do not hold the lock, so they are between appends. */
  lemma OthersKeep(rules: Rules, w: World, w': World, p: nat, q: nat)
    requires Inv(rules, w) && Extends(w.history, w'.history) && w.conflicts <= w'.conflicts
    requires w.disk.marker.Some? ==> w'.disk.marker.Some?
    requires q in w.processes && q != p && w.lock != Some(q) && w'.lock != Some(q)
    ensures ProcessOk(rules, w', q, w.processes[q])
  {
    ChainKeeps(rules, w.processes[q].memory.epochs, w.history, w'.history);
  }

  /** Enough for a step of `p` to keep everything. */
  lemma StepOf(rules: Rules, w: World, w': World, p: nat)
    requires Inv(rules, w) && Shared(rules, w')
    requires Extends(w.history, w'.history) && w.conflicts <= w'.conflicts
    requires w.disk.marker.Some? ==> w'.disk.marker.Some?
    requires w.lock == None || w.lock == Some(p)
    requires w'.lock == None || (w'.lock == Some(p) && p in w'.processes)
    requires w'.processes.Keys - {p} <= w.processes.Keys
    requires forall q <- w'.processes | q != p :: w'.processes[q] == w.processes[q]
    requires p in w'.processes ==> ProcessOk(rules, w', p, w'.processes[p])
    ensures Inv(rules, w')
  {
    forall q | q in w'.processes ensures ProcessOk(rules, w', q, w'.processes[q]) {
      if q != p {
        assert q in w'.processes.Keys - {p};
        OthersKeep(rules, w, w', p, q);
      }
    }
  }

  // --- Chains read from disk ----------------------------------------------------------------------

  lemma LinkedExtends(rules: Rules, epochs: seq<Verified>, v: Verified)
    requires Linked(rules, epochs) && rules.check(v.descriptor, Last(epochs), {}) == Some(v)
    ensures Linked(rules, epochs + [v])
  {
    var longer := epochs + [v];
    forall i | 0 <= i < |longer|
      ensures rules.check(longer[i].descriptor, Before(longer, i), {}) == Some(longer[i])
    {
      if i < |epochs| {
        assert longer[i] == epochs[i] && Before(longer, i) == Before(epochs, i);
      } else {
        assert Before(longer, i) == Last(epochs);
      }
    }
  }

  lemma ChainExtends(rules: Rules, epochs: seq<Verified>, v: Verified, history: map<Word64, Verified>)
    requires ChainOk(rules, epochs, history) && rules.check(v.descriptor, Last(epochs), {}) == Some(v)
    requires Recorded(v, history)
    ensures ChainOk(rules, epochs + [v], history)
  {
    LinkedExtends(rules, epochs, v);
  }

  lemma {:induction false} AdoptOk(rules: Rules, networkId: string, epochs: seq<Verified>, disk: Disk,
                                   history: map<Word64, Verified>)
    requires Sound(rules) && DiskOk(rules, disk, history) && ChainOk(rules, epochs, history)
    ensures ChainOk(rules, Adopt(rules, networkId, epochs, disk.files).0, history)
    decreases Above(epochs)
  {
    var step := Successor(rules, networkId, epochs, disk.files);
    if step.Adopted? {
      SuccessorIsAbove(rules, networkId, epochs, disk.files);
      ChainExtends(rules, epochs, step.verified, history);
      AdoptOk(rules, networkId, epochs + [step.verified], disk, history);
    }
  }

  lemma {:induction false} LoadOk(rules: Rules, networkId: string, disk: Disk, history: map<Word64, Verified>,
                                  numbers: seq<nat>, epochs: seq<Verified>)
    requires Sound(rules) && DiskOk(rules, disk, history) && ChainOk(rules, epochs, history)
    ensures var r := Load(rules, networkId, disk.files, numbers, epochs);
            r.Some? ==> ChainOk(rules, r.value, history)
    decreases |numbers|
  {
    if numbers != [] && numbers[0] in disk.files && disk.files[numbers[0]].Whole? {
      var v := rules.check(disk.files[numbers[0]].descriptor, Last(epochs), {});
      if v.Some? && v.value.Epoch() == numbers[0] {
        ChainExtends(rules, epochs, v.value, history);
        LoadOk(rules, networkId, disk, history, numbers[1..], epochs + [v.value]);
      }
    }
  }

  // --- Step by step ----------------------------------------------------------------------------------

  lemma OpeningKeeps(rules: Rules, w: World, p: nat, config: Config)
    requires Sound(rules) && Inv(rules, w)
    ensures Inv(rules, Opening(rules, w, p, config))
  {
    LoadOk(rules, config.networkId, w.disk, w.history, Ascending(w.disk.files.Keys), []);
    var w' := Opening(rules, w, p, config);
    forall q | q in w'.processes ensures ProcessOk(rules, w', q, w'.processes[q]) {
      if q in w.processes { assert ProcessOk(rules, w, q, w.processes[q]); }
    }
  }

  lemma EquivocationIsGenuine(rules: Rules, config: Config, epochs: seq<Verified>, disk: Disk,
                              candidate: Option<Descriptor>)
    requires Sound(rules) && Linked(rules, epochs) && Decide(rules, config, epochs, disk, candidate).Equivocates?
    ensures
      var stored := Decide(rules, config, epochs, disk, candidate).stored;
      var slot := SlotFrom(epochs, stored.Epoch(), 0);
      && slot.Some?
      && Genuine(rules, Conflict(stored, Decide(rules, config, epochs, disk, candidate).competing,
                                 Before(epochs, slot.value), config.revoked))
  {
  }

  lemma AdmissionOk(rules: Rules, config: Config, epochs: seq<Verified>, disk: Disk, candidate: Option<Descriptor>)
    requires Sound(rules) && Decide(rules, config, epochs, disk, candidate).Admits?
    ensures
      var v := Decide(rules, config, epochs, disk, candidate).verified;
      v.Epoch() > disk.watermark.visible && rules.check(v.descriptor, Last(epochs), {}) == Some(v)
  {
  }

  lemma RefreshingKeeps(rules: Rules, w: World, p: nat)
    requires Sound(rules) && Inv(rules, w) && p in w.processes && w.lock.None?
    ensures
      var pr := w.processes[p];
      var m := Refresh(rules, pr.config.networkId, pr.memory, w.disk).0;
      && Inv(rules, w.(processes := w.processes[p := pr.(memory := m)]))
      && (w.disk.marker.Some? ==> m.halted)
  {
    var pr := w.processes[p];
    assert ProcessOk(rules, w, p, pr);
    AdoptOk(rules, pr.config.networkId, pr.memory.epochs, w.disk, w.history);
    var m := Refresh(rules, pr.config.networkId, pr.memory, w.disk).0;
    StepOf(rules, w, w.(processes := w.processes[p := pr.(memory := m)]), p);
  }

  lemma AdmittingKeeps(rules: Rules, w: World, p: nat, v: Verified)
    requires Inv(rules, w) && p in w.processes && w.lock.None? && w.disk.marker.None?
    requires v.Epoch() > w.disk.watermark.visible
    requires rules.check(v.descriptor, Last(w.processes[p].memory.epochs), {}) == Some(v)
    ensures Inv(rules, w.(lock := Some(p), processes := w.processes[p := w.processes[p].(phase := Raising(v))]))
  {
    assert ProcessOk(rules, w, p, w.processes[p]);
    StepOf(rules, w, w.(lock := Some(p), processes := w.processes[p := w.processes[p].(phase := Raising(v))]), p);
  }

  lemma ConflictingKeeps(rules: Rules, w: World, p: nat, x: Conflict)
    requires Inv(rules, w) && p in w.processes && w.lock.None? && w.disk.marker.None? && Genuine(rules, x)
    requires x.stored in w.processes[p].memory.epochs
    ensures
      var pr := w.processes[p];
      Inv(rules, w.(lock := Some(p), conflicts := w.conflicts + {x},
                    processes := w.processes[p := Process(pr.config, pr.memory.(halted := true), Marking(x))]))
  {
    var pr := w.processes[p];
    assert ProcessOk(rules, w, p, pr);
    var w' := w.(lock := Some(p), conflicts := w.conflicts + {x},
                 processes := w.processes[p := Process(pr.config, pr.memory.(halted := true), Marking(x))]);
    assert x in w'.conflicts;
    StepOf(rules, w, w', p);
  }

  lemma DecidingKeeps(rules: Rules, w: World, p: nat, candidate: Option<Descriptor>)
    requires Sound(rules) && Inv(rules, w) && p in w.processes && w.lock.None? && w.disk.marker.None?
    ensures Inv(rules, Deciding(rules, w, p, candidate))
  {
    var pr := w.processes[p];
    var m := pr.memory;
    assert ProcessOk(rules, w, p, pr);
    match Decide(rules, pr.config, m.epochs, w.disk, candidate) {
      case Refused =>
      case AlreadyStored(_) =>
      case Equivocates(stored, competing) =>
        EquivocationIsGenuine(rules, pr.config, m.epochs, w.disk, candidate);
        var slot := SlotFrom(m.epochs, stored.Epoch(), 0);
        ConflictingKeeps(rules, w, p, Conflict(stored, competing, Before(m.epochs, slot.value), pr.config.revoked));
      case Admits(v) =>
        AdmissionOk(rules, pr.config, m.epochs, w.disk, candidate);
        AdmittingKeeps(rules, w, p, v);
    }
  }

  lemma BeginningKeeps(rules: Rules, w: World, p: nat, candidate: Option<Descriptor>)
    requires Sound(rules) && Inv(rules, w)
    ensures Inv(rules, Beginning(rules, w, p, candidate))
  {
    if p in w.processes && w.lock.None? {
      var pr := w.processes[p];
      var (m, ok) := Refresh(rules, pr.config.networkId, pr.memory, w.disk);
      RefreshingKeeps(rules, w, p);
      if ok && !m.halted {
        DecidingKeeps(rules, w.(processes := w.processes[p := pr.(memory := m)]), p, candidate);
      }
    }
  }

  lemma RaisingKeeps(rules: Rules, w: World, p: nat, write: Write)
    requires Inv(rules, w)
    ensures Inv(rules, RaisingStep(w, p, write))
  {
    if p in w.processes && w.processes[p].phase.Raising? {
      assert ProcessOk(rules, w, p, w.processes[p]);
      StepOf(rules, w, RaisingStep(w, p, write), p);
    }
  }

  lemma AcceptanceOk(accepted: seq<Verified>, history: map<Word64, Verified>, v: Verified)
    requires AcceptedOk(accepted, history) && forall n <- history :: n < v.Epoch()
    ensures AcceptedOk(accepted + [v], history[v.Epoch() := v])
    ensures AcceptedOk(accepted, history[v.Epoch() := v])
  {
    forall i | 0 <= i < |accepted| ensures accepted[i].Epoch() < v.Epoch() {
      assert Recorded(accepted[i], history);
    }
    assert forall u <- accepted + [v] :: u in accepted || u == v;
  }

  /** Storing a descriptor whose number is the watermark and is not in the past. */
  lemma StoredOk(rules: Rules, disk: Disk, history: map<Word64, Verified>, v: Verified)
    requires DiskOk(rules, disk, history) && v == Verified(v.descriptor, rules.digest(v.descriptor.body))
    requires disk.watermark == Level(v.Epoch(), v.Epoch()) && 0 < v.Epoch() && v.Epoch() !in history
    ensures DiskOk(rules, disk.(files := disk.files[v.Epoch() := Whole(v.descriptor)]), history[v.Epoch() := v])
    ensures DiskOk(rules, disk.(files := disk.files[v.Epoch() := Torn]), history)
    ensures forall n <- history :: n < v.Epoch()
  {
  }

  lemma AnchorsExtend(rules: Rules, history: map<Word64, Verified>, epochs: seq<Verified>, v: Verified)
    requires Sound(rules) && HistoryOk(rules, history) && ChainOk(rules, epochs, history)
    requires rules.check(v.descriptor, Last(epochs), {}) == Some(v) && v.Epoch() !in history
    ensures HistoryOk(rules, history[v.Epoch() := v])
  {
    var history' := history[v.Epoch() := v];
    forall n | n in history' ensures Anchored(rules, history', n) {
      if n != v.Epoch() {
        assert Anchored(rules, history, n);
      } else if epochs != [] {
        assert Recorded(epochs[|epochs| - 1], history);
      }
    }
  }

  lemma StoredShared(rules: Rules, w: World, p: nat, write: Write)
    requires Sound(rules) && Shared(rules, w) && p in w.processes && ProcessOk(rules, w, p, w.processes[p])
    requires w.processes[p].phase.Storing?
    ensures Shared(rules, StoringStep(w, p, write)) && Extends(w.history, StoringStep(w, p, write).history)
  {
    var v := w.processes[p].phase.verified;
    StoredOk(rules, w.disk, w.history, v);
    AcceptanceOk(w.accepted, w.history, v);
    AnchorsExtend(rules, w.history, w.processes[p].memory.epochs, v);
  }

  lemma StoringKeeps(rules: Rules, w: World, p: nat, write: Write)
    requires Sound(rules) && Inv(rules, w)
    ensures Inv(rules, StoringStep(w, p, write))
  {
    if p in w.processes && w.processes[p].phase.Storing? {
      var pr := w.processes[p];
      var v := pr.phase.verified;
      assert ProcessOk(rules, w, p, pr);
      StoredShared(rules, w, p, write);
      var history := w.history[v.Epoch() := v];
      ChainKeeps(rules, pr.memory.epochs, w.history, history);
      ChainExtends(rules, pr.memory.epochs, v, history);
      StepOf(rules, w, StoringStep(w, p, write), p);
    }
  }

  lemma EvidenceNames(rules: Rules, w: World, x: Conflict)
    requires Shared(rules, w) && x in w.conflicts
    ensures Names(EvidenceOf(w.disk, x.stored, x.competing), x)
  {
  }

  lemma MarkingKeeps(rules: Rules, w: World, p: nat, write: Write)
    requires Inv(rules, w)
    ensures Inv(rules, MarkingStep(w, p, write))
  {
    if p in w.processes && w.processes[p].phase.Marking? {
      assert ProcessOk(rules, w, p, w.processes[p]);
      EvidenceNames(rules, w, w.processes[p].phase.conflict);
      StepOf(rules, w, MarkingStep(w, p, write), p);
    }
  }

  lemma RemovingKeeps(rules: Rules, w: World, p: nat)
    requires Inv(rules, w) && w.lock != Some(p)
    ensures Inv(rules, w.(processes := w.processes - {p}))
  {
    var w' := w.(processes := w.processes - {p});
    forall q | q in w'.processes ensures ProcessOk(rules, w', q, w'.processes[q]) {
      assert ProcessOk(rules, w, q, w.processes[q]);
    }
  }

  lemma KillingKeeps(rules: Rules, w: World, p: nat, leaves: Leaves)
    requires Sound(rules) && Inv(rules, w)
    ensures Inv(rules, Killing(w, p, leaves))
  {
    if p in w.processes {
      var phase := w.processes[p].phase;
      assert ProcessOk(rules, w, p, w.processes[p]);
      if phase.Idle? {
        RemovingKeeps(rules, w, p);
      } else {
        KilledShared(rules, w, p, leaves);
        StepOf(rules, w, Killing(w, p, leaves), p);
      }
    }
  }

  lemma KilledShared(rules: Rules, w: World, p: nat, leaves: Leaves)
    requires Sound(rules) && Inv(rules, w) && p in w.processes && !w.processes[p].phase.Idle?
    ensures Shared(rules, Killing(w, p, leaves)) && Extends(w.history, Killing(w, p, leaves).history)
  {
    assert ProcessOk(rules, w, p, w.processes[p]);
    match w.processes[p].phase
    case Raising(_) =>
    case Storing(v) =>
      KilledStoring(rules, w, p, leaves);
    case Marking(x) =>
      EvidenceNames(rules, w, x);
  }

  lemma KilledStoring(rules: Rules, w: World, p: nat, leaves: Leaves)
    requires Sound(rules) && Shared(rules, w) && p in w.processes && ProcessOk(rules, w, p, w.processes[p])
    requires w.processes[p].phase.Storing?
    ensures Shared(rules, Killing(w, p, leaves)) && Extends(w.history, Killing(w, p, leaves).history)
  {
    var v := w.processes[p].phase.verified;
    StoredOk(rules, w.disk, w.history, v);
    AcceptanceOk(w.accepted, w.history, v);
    AnchorsExtend(rules, w.history, w.processes[p].memory.epochs, v);
  }

  lemma DamageKeeps(rules: Rules, w: World, torn: set<Word64>)
    requires Shared(rules, w)
    ensures DiskOk(rules, w.disk.(files := Damaged(w, torn)), w.history)
  {
  }

  lemma DeletingKeeps(rules: Rules, w: World, number: Word64)
    requires Sound(rules) && Inv(rules, w)
    ensures Inv(rules, Deleting(w, number))
  {
    var w' := Deleting(w, number);
    forall q | q in w'.processes ensures ProcessOk(rules, w', q, w'.processes[q]) {
      assert ProcessOk(rules, w, q, w.processes[q]);
    }
  }

  lemma StepKeeps(rules: Rules, w: World, e: Event)
    requires Sound(rules) && Inv(rules, w)
    ensures Inv(rules, Step(rules, w, e))
  {
    match e
    case Open(p, config) => OpeningKeeps(rules, w, p, config);
    case Begin(p, candidate) => BeginningKeeps(rules, w, p, candidate);
    case Raise(p, write) => RaisingKeeps(rules, w, p, write);
    case Store(p, write) => StoringKeeps(rules, w, p, write);
    case Mark(p, write) => MarkingKeeps(rules, w, p, write);
    case Kill(p, leaves) => KillingKeeps(rules, w, p, leaves);
    case PowerLoss(_, _, torn) => DamageKeeps(rules, w, torn);
    case Delete(number) => DeletingKeeps(rules, w, number);
  }

  // --- What holds over whole runs ------------------------------------------------------------------------

  lemma {:induction false} RunKeeps(rules: Rules, w: World, events: seq<Event>)
    requires Sound(rules) && Inv(rules, w)
    ensures Inv(rules, Run(rules, w, events))
    decreases |events|
  {
    if events != [] {
      StepKeeps(rules, w, events[0]);
      RunKeeps(rules, Step(rules, w, events[0]), events[1..]);
    }
  }

  /** Each number is newly accepted at most once, in increasing order, and is
      never above the durable watermark; neither is any stored file. */
  lemma AcceptedOnce(rules: Rules, events: seq<Event>)
    requires Sound(rules)
    ensures
      var w := Run(rules, EMPTY, events);
      && (forall i, j | 0 <= i < j < |w.accepted| :: w.accepted[i].Epoch() < w.accepted[j].Epoch())
      && (forall v <- w.accepted :: v.Epoch() <= w.disk.watermark.durable)
      && (forall n <- w.disk.files :: n <= w.disk.watermark.durable <= w.disk.watermark.visible)
  {
    RunKeeps(rules, EMPTY, events);
    var w := Run(rules, EMPTY, events);
    forall v | v in w.accepted ensures v.Epoch() <= w.disk.watermark.durable {
      assert Recorded(v, w.history);
    }
  }

  /** The past is never rewritten, the durable watermark never falls, and a
      marker freezes the store for as long as it is there. */
  ghost predicate Forward(w: World, w': World) {
    && Extends(w.history, w'.history)
    && w.accepted <= w'.accepted
    && w.disk.watermark.durable <= w'.disk.watermark.durable
    && (w.disk.marker.Some? ==> w'.accepted == w.accepted && w'.disk.files.Keys <= w.disk.files.Keys
                                && (w'.disk.marker.Some? ==> w'.disk.marker == w.disk.marker))
  }

  predicate TakesMarker(e: Event) {
    e.PowerLoss? && e.markerLost
  }

  lemma RaiseGoesForward(rules: Rules, w: World, p: nat, write: Write)
    requires Inv(rules, w)
    ensures Forward(w, RaisingStep(w, p, write))
  {
    if p in w.processes { assert ProcessOk(rules, w, p, w.processes[p]); }
  }

  lemma StoreGoesForward(rules: Rules, w: World, p: nat, write: Write)
    requires Inv(rules, w)
    ensures Forward(w, StoringStep(w, p, write))
  {
    if p in w.processes { assert ProcessOk(rules, w, p, w.processes[p]); }
  }

  lemma MarkGoesForward(rules: Rules, w: World, p: nat, write: Write)
    requires Inv(rules, w)
    ensures Forward(w, MarkingStep(w, p, write)) && (w.disk.marker.Some? ==> MarkingStep(w, p, write).disk.marker.Some?)
  {
    if p in w.processes { assert ProcessOk(rules, w, p, w.processes[p]); }
  }

  lemma KillsGoForward(rules: Rules, w: World, p: nat, leaves: Leaves)
    requires Inv(rules, w)
    ensures Forward(w, Killing(w, p, leaves))
  {
    if p in w.processes { assert ProcessOk(rules, w, p, w.processes[p]); }
  }

  lemma BeginningIsQuiet(rules: Rules, w: World, p: nat, candidate: Option<Descriptor>)
    requires Sound(rules)
    ensures
      var w' := Beginning(rules, w, p, candidate);
      w'.disk == w.disk && w'.history == w.history && w'.accepted == w.accepted
  {
  }

  lemma StepIsForward(rules: Rules, w: World, e: Event)
    requires Sound(rules) && Inv(rules, w)
    ensures Forward(w, Step(rules, w, e))
    ensures w.disk.marker.Some? ==> (Step(rules, w, e).disk.marker.None? <==> TakesMarker(e))
  {
    match e
    case Open(_, _) =>
    case Begin(p, candidate) => BeginningIsQuiet(rules, w, p, candidate);
    case Raise(p, write) => RaiseGoesForward(rules, w, p, write);
    case Store(p, write) => StoreGoesForward(rules, w, p, write);
    case Mark(p, write) => MarkGoesForward(rules, w, p, write);
    case Kill(p, leaves) => KillsGoForward(rules, w, p, leaves);
    case PowerLoss(_, _, _) =>
    case Delete(_) =>
  }

  lemma {:induction false} RunIsMonotone(rules: Rules, w: World, events: seq<Event>)
    requires Sound(rules) && Inv(rules, w)
    ensures
      var w' := Run(rules, w, events);
      && Extends(w.history, w'.history)
      && w.accepted <= w'.accepted
      && w.disk.watermark.durable <= w'.disk.watermark.durable
    decreases |events|
  {
    if events != [] {
      StepKeeps(rules, w, events[0]);
      StepIsForward(rules, w, events[0]);
      RunIsMonotone(rules, Step(rules, w, events[0]), events[1..]);
    }
  }

  lemma FollowingInjective(a: Word64, b: Word64)
    requires Following(a) == Following(b)
    ensures a == b
  {
  }

  lemma SamePredecessor(rules: Rules, d: Descriptor, x: Option<Verified>, y: Option<Verified>)
    requires Sound(rules) && rules.check(d, x, {}).Some? && rules.check(d, y, {}).Some?
    ensures x.Some? == y.Some? && (x.Some? ==> x.value.Epoch() == y.value.Epoch())
  {
    if x.Some? && y.Some? {
      FollowingInjective(x.value.Epoch(), y.value.Epoch());
    }
  }

  lemma LinkedAt(rules: Rules, epochs: seq<Verified>, i: nat)
    requires Linked(rules, epochs) && i < |epochs|
    ensures rules.check(epochs[i].descriptor, Before(epochs, i), {}).Some?
  {
  }

  lemma SameNumberSameLink(rules: Rules, a: seq<Verified>, b: seq<Verified>, history: map<Word64, Verified>,
                           i: nat, j: nat)
    requires Sound(rules) && ChainOk(rules, a, history) && ChainOk(rules, b, history)
    requires i < |a| && j < |b| && a[i].Epoch() == b[j].Epoch()
    ensures a[i] == b[j] && (i == 0 <==> j == 0) && (i > 0 ==> a[i - 1].Epoch() == b[j - 1].Epoch())
  {
    assert a[i] == b[j] by {
      assert Recorded(a[i], history) && Recorded(b[j], history);
    }
    LinkedAt(rules, a, i);
    LinkedAt(rules, b, j);
    SamePredecessor(rules, a[i].descriptor, Before(a, i), Before(b, j));
  }

  /** Two chains with one past that hold one number hold the same genesis and the
      same descriptors up to that number. */
  lemma {:induction false} ChainsShareTheirPast(rules: Rules, a: seq<Verified>, b: seq<Verified>,
                                                history: map<Word64, Verified>, i: nat, j: nat)
    requires Sound(rules) && ChainOk(rules, a, history) && ChainOk(rules, b, history)
    requires i < |a| && j < |b| && a[i].Epoch() == b[j].Epoch()
    ensures i == j && forall k | 0 <= k <= i :: a[k] == b[k]
  {
    SameNumberSameLink(rules, a, b, history, i, j);
    if i > 0 {
      ChainsShareTheirPast(rules, a, b, history, i - 1, j - 1);
    }
  }

  /** No two processes, at the same time or at different times of one store's
      life, ever disagree: chains that share a number share everything up to it. */
  lemma ProcessesAgree(rules: Rules, events: seq<Event>, later: seq<Event>, p: nat, q: nat, i: nat, j: nat)
    requires Sound(rules)
    requires p in Run(rules, EMPTY, events).processes && i < |Run(rules, EMPTY, events).processes[p].memory.epochs|
    requires q in Run(rules, Run(rules, EMPTY, events), later).processes
    requires j < |Run(rules, Run(rules, EMPTY, events), later).processes[q].memory.epochs|
    requires Run(rules, EMPTY, events).processes[p].memory.epochs[i].Epoch()
          == Run(rules, Run(rules, EMPTY, events), later).processes[q].memory.epochs[j].Epoch()
    ensures
      var a := Run(rules, EMPTY, events).processes[p].memory.epochs;
      var b := Run(rules, Run(rules, EMPTY, events), later).processes[q].memory.epochs;
      Linked(rules, a) && i == j && forall k | 0 <= k <= i :: a[k] == b[k]
  {
    var w := Run(rules, EMPTY, events);
    var w' := Run(rules, w, later);
    RunKeeps(rules, EMPTY, events);
    RunKeeps(rules, w, later);
    RunIsMonotone(rules, w, later);
    assert ProcessOk(rules, w, p, w.processes[p]) && ProcessOk(rules, w', q, w'.processes[q]);
    var a, b := w.processes[p].memory.epochs, w'.processes[q].memory.epochs;
    ChainKeeps(rules, a, w.history, w'.history);
    ChainsShareTheirPast(rules, a, b, w'.history, i, j);
  }

  /** A halt, in memory or on disk, has two fully verified descriptors with
      different digests for one epoch behind it. A marker read back whole names
      them; without a marker each halted process holds one of them in its chain. */
  lemma HaltIsJustified(rules: Rules, events: seq<Event>, p: nat) returns (x: Conflict)
    requires Sound(rules)
    requires
      var w := Run(rules, EMPTY, events);
      w.disk.marker.Some? || (p in w.processes && w.processes[p].memory.halted)
    ensures
      var w := Run(rules, EMPTY, events);
      && x in w.conflicts && Genuine(rules, x) && Recorded(x.stored, w.history)
      && (w.disk.marker.Some? && w.disk.marker.value.Complete? ==> Names(w.disk.marker.value.evidence, x))
      && (w.disk.marker.None? ==> x.stored in w.processes[p].memory.epochs)
  {
    var w := Run(rules, EMPTY, events);
    RunKeeps(rules, EMPTY, events);
    match w.disk.marker
    case None =>
      assert ProcessOk(rules, w, p, w.processes[p]);
      x :| x in w.conflicts && x.stored in w.processes[p].memory.epochs;
    case Some(Partial) =>
      x :| x in w.conflicts;
    case Some(Complete(e)) =>
      x :| x in w.conflicts && Names(e, x);
  }

  /** Once the marker is on disk nothing is ever accepted or stored again, and
      every process opened from then on starts halted. */
  lemma {:induction false} HaltIsPermanent(rules: Rules, w: World, events: seq<Event>)
    requires Sound(rules) && Inv(rules, w) && w.disk.marker.Some? && forall e <- events :: !TakesMarker(e)
    ensures
      var w' := Run(rules, w, events);
      && w'.disk.marker == w.disk.marker && w'.accepted == w.accepted
      && w'.disk.files.Keys <= w.disk.files.Keys
      && (forall networkId :: Opened(rules, networkId, w'.disk) == Some(Memory([], true)))
    decreases |events|
  {
    if events != [] {
      StepKeeps(rules, w, events[0]);
      StepIsForward(rules, w, events[0]);
      assert events[0] in events;
      HaltIsPermanent(rules, Step(rules, w, events[0]), events[1..]);
    }
  }

  /** The machine's writes after a decision, one after the other. */
  function Finishing(w: World, p: nat, raise: Write, store: Write, mark: Write): World {
    MarkingStep(StoringStep(RaisingStep(w, p, raise), p, store), p, mark)
  }

  /** The world holds this memory and disk, and this was newly accepted. */
  ghost predicate Shows(w: World, w': World, p: nat, outcome: (Memory, Disk, Result)) {
    && w'.disk == outcome.1 && w'.lock == None && p in w'.processes && w'.processes[p].memory == outcome.0
    && w'.accepted == w.accepted + (if outcome.2.Accepted? then [outcome.2.verified] else [])
  }

  lemma AdmissionIsItsSteps(w: World, p: nat, v: Verified, raise: Write, store: Write, mark: Write)
    requires p in w.processes && w.processes[p].phase.Idle? && w.lock.None?
    ensures
      var w1 := w.(lock := Some(p), processes := w.processes[p := w.processes[p].(phase := Raising(v))]);
      Shows(w, Finishing(w1, p, raise, store, mark), p, AfterAdmission(w.processes[p].memory, w.disk, v, raise, store))
  {
    var w1 := w.(lock := Some(p), processes := w.processes[p := w.processes[p].(phase := Raising(v))]);
    WritesOfAdmission(w1, p, raise, store, mark);
  }

  lemma HaltIsItsStep(w: World, p: nat, x: Conflict, raise: Write, store: Write, mark: Write)
    requires p in w.processes && w.processes[p].phase.Idle? && w.lock.None?
    ensures
      var pr := w.processes[p];
      var w1 := w.(lock := Some(p), conflicts := w.conflicts + {x},
                   processes := w.processes[p := Process(pr.config, pr.memory.(halted := true), Marking(x))]);
      Shows(w, Finishing(w1, p, raise, store, mark), p,
            (pr.memory.(halted := true), AfterMarker(w.disk, x.stored, x.competing, mark), Equivocation))
  {
    var pr := w.processes[p];
    var w1 := w.(lock := Some(p), conflicts := w.conflicts + {x},
                 processes := w.processes[p := Process(pr.config, pr.memory.(halted := true), Marking(x))]);
    NothingButMark(w1, p, raise, store, mark);
  }

  lemma DecisionIsItsSteps(rules: Rules, w: World, p: nat, candidate: Option<Descriptor>, raise: Write,
                           store: Write, mark: Write)
    requires p in w.processes && w.processes[p].phase.Idle? && w.lock.None?
    ensures
      var pr := w.processes[p];
      var decision := Decide(rules, pr.config, pr.memory.epochs, w.disk, candidate);
      Shows(w, Finishing(Deciding(rules, w, p, candidate), p, raise, store, mark), p,
            AfterDecision(pr.memory, w.disk, decision, raise, store, mark))
  {
    var pr := w.processes[p];
    match Decide(rules, pr.config, pr.memory.epochs, w.disk, candidate)
    case Refused => NothingToWrite(w, p, raise, store, mark);
    case AlreadyStored(_) => NothingToWrite(w, p, raise, store, mark);
    case Equivocates(_, _) =>
      HaltIsItsStep(w, p, Deciding(rules, w, p, candidate).processes[p].phase.conflict, raise, store, mark);
    case Admits(v) => AdmissionIsItsSteps(w, p, v, raise, store, mark);
  }

  /** An append that is not interrupted is exactly its steps in sequence. */
  lemma AppendIsItsSteps(rules: Rules, w: World, p: nat, candidate: Option<Descriptor>, raise: Write,
                         store: Write, mark: Write)
    requires Sound(rules) && p in w.processes && w.processes[p].phase.Idle? && w.lock.None?
    ensures
      var pr := w.processes[p];
      Shows(w, Finishing(Beginning(rules, w, p, candidate), p, raise, store, mark), p,
            AfterAppend(rules, pr.config, pr.memory, w.disk, candidate, raise, store, mark))
  {
    var pr := w.processes[p];
    var (m, ok) := Refresh(rules, pr.config.networkId, pr.memory, w.disk);
    var w1 := w.(processes := w.processes[p := pr.(memory := m)]);
    if ok && !m.halted {
      DecisionIsItsSteps(rules, w1, p, candidate, raise, store, mark);
    } else {
      NothingToWrite(w1, p, raise, store, mark);
    }
  }

  lemma NothingToWrite(w: World, p: nat, raise: Write, store: Write, mark: Write)
    requires p in w.processes && w.processes[p].phase.Idle?
    ensures Finishing(w, p, raise, store, mark) == w
  {
  }

  lemma NothingButMark(w: World, p: nat, raise: Write, store: Write, mark: Write)
    requires p in w.processes && w.processes[p].phase.Marking?
    ensures Finishing(w, p, raise, store, mark) == MarkingStep(w, p, mark)
  {
  }

  lemma WritesOfAdmission(w: World, p: nat, raise: Write, store: Write, mark: Write)
    requires p in w.processes && w.processes[p].phase.Raising?
    ensures
      var v := w.processes[p].phase.verified;
      var w' := Finishing(w, p, raise, store, mark);
      var (disk1, raised) := AfterRaise(w.disk, v.Epoch(), raise);
      var (disk2, stored) := AfterStore(disk1, v, store);
      && p in w'.processes && w'.lock == None
      && w'.disk == (if raised then disk2 else disk1)
      && w'.accepted == w.accepted + (if raised && stored then [v] else [])
      && var memory := w.processes[p].memory;
      w'.processes[p].memory == (if raised && stored then memory.(epochs := memory.epochs + [v]) else memory)
  {
    var w1 := RaisingStep(w, p, raise);
    var w2 := StoringStep(w1, p, store);
    assert MarkingStep(w2, p, mark) == w2;
  }

  /** The marker on disk, for as long as it is there, carries the stored
      descriptor exactly when its file was there and whole at the time of the halt;
      the evidence is self-contained only then. */
  lemma EvidenceIsCompleteWhenStored(rules: Rules, events: seq<Event>, p: nat, write: Write, later: seq<Event>)
    requires Sound(rules) && (write.Written? || write.WrittenUnsynced?) && forall e <- later :: !TakesMarker(e)
    requires p in Run(rules, EMPTY, events).processes && Run(rules, EMPTY, events).processes[p].phase.Marking?
    ensures
      var w := Run(rules, EMPTY, events);
      var x := w.processes[p].phase.conflict;
      var marker := Run(rules, MarkingStep(w, p, write), later).disk.marker;
      && marker.Some? && marker.value.Complete? && Genuine(rules, x) && Names(marker.value.evidence, x)
      && (marker.value.evidence.stored == Some(Whole(x.stored.descriptor)) <==>
            x.stored.Epoch() in w.disk.files && w.disk.files[x.stored.Epoch()].Whole?)
      && (marker.value.evidence.stored == None <==> x.stored.Epoch() !in w.disk.files)
  {
    var w := Run(rules, EMPTY, events);
    RunKeeps(rules, EMPTY, events);
    assert ProcessOk(rules, w, p, w.processes[p]);
    EvidenceNames(rules, w, w.processes[p].phase.conflict);
    MarkingKeeps(rules, w, p, write);
    HaltIsPermanent(rules, MarkingStep(w, p, write), later);
  }

  /** All of it for the store's own verification. */
  lemma StoreIsSafe(c: Crypto, events: seq<Event>)
    ensures Sound(RulesOf(c)) && Inv(RulesOf(c), Run(RulesOf(c), EMPTY, events))
  {
    VerificationIsSound(c);
    RunKeeps(RulesOf(c), EMPTY, events);
  }

  /** Every chain any process ever holds has windows that tile time. */
  lemma ReachableChainsTile(c: Crypto, events: seq<Event>, p: nat)
    requires p in (VerificationIsSound(c); Run(RulesOf(c), EMPTY, events)).processes
    ensures EpochWindows.Tiled((VerificationIsSound(c); Run(RulesOf(c), EMPTY, events)).processes[p].memory.epochs)
  {
    StoreIsSafe(c, events);
    var rules, w := RulesOf(c), Run(RulesOf(c), EMPTY, events);
    assert ProcessOk(rules, w, p, w.processes[p]);
    LinkedTiles(c, w.processes[p].memory.epochs);
  }

  lemma LinkedTiles(c: Crypto, epochs: seq<Verified>)
    requires Linked(RulesOf(c), epochs)
    ensures EpochWindows.Tiled(epochs)
  {
    forall i | 0 <= i < |epochs|
      ensures epochs[i].ActivateAt() < epochs[i].RetireAt() && epochs[i].Epoch() != 0
      ensures i > 0 ==> EpochWindows.Abuts(epochs[i - 1], epochs[i])
    {
      assert Verify(c, epochs[i].descriptor, Before(epochs, i), {}) == Some(epochs[i]);
      EpochWindows.VerifiedAbuts(c, epochs[i].descriptor, Before(epochs, i), {});
    }
  }
}
