/** The persisted, append-only store of epoch descriptors: its files, the chain
    one process holds in memory, and the steps of opening and appending. */
module EpochStore {
  import opened Options
  import opened Instants
  import opened EpochDescriptor
  import opened Ordering
  import Windows = EpochWindows

  // --- State ------------------------------------------------------------------------------

  /** A crash while a descriptor is written leaves a file that never verifies. */
  datatype File = Whole(descriptor: Descriptor) | Torn

  /** What a reader sees now, and what a power loss is certain to leave. */
  datatype Level = Level(visible: Word64, durable: Word64)

  /** The evidence behind a halt. The stored descriptor is re-read from disk for
      it, and is missing when its file has been removed. */
  datatype Evidence = Evidence(epoch: Word64, storedDigest: Digest, offeredDigest: Digest,
                               stored: Option<File>, offered: Descriptor)
  datatype Marker = Complete(evidence: Evidence) | Partial

  datatype Disk = Disk(marker: Option<Marker>, watermark: Level, files: map<Word64, File>)

  datatype Config = Config(networkId: string, revoked: set<Key>)
  datatype Memory = Memory(epochs: seq<Verified>, halted: bool)

  /** How a durable write ends. `LeftTorn` is a failed write whose removal fails
      too: the process goes on beside a damaged file. */
  datatype Write = Written | NotWritten | WrittenUnsynced | LeftTorn

  function Last(epochs: seq<Verified>): Option<Verified> {
    if epochs == [] then None else Some(epochs[|epochs| - 1])
  }

  function Before(epochs: seq<Verified>, index: nat): Option<Verified>
    requires index < |epochs|
  {
    if index == 0 then None else Some(epochs[index - 1])
  }

  /** Digest and verification, as functions. */
  datatype Rules = Rules(
    digest: Body -> Digest,
    check: (Descriptor, Option<Verified>, set<Key>) -> Option<Verified>)

  ghost function RulesOf(c: Crypto): Rules {
    Rules(c.digest, (d, previous, revoked) => Verify(c, d, previous, revoked))
  }

  /** What the store relies on: a verified descriptor is the one offered, exactly
      a genesis has no predecessor, any other carries its predecessor's network and
      the number after it, and revocation only removes. */
  ghost predicate Sound(rules: Rules) {
    forall d, previous, revoked | rules.check(d, previous, revoked).Some? ::
      && rules.check(d, previous, revoked).value == Verified(d, rules.digest(d.body))
      && d.body.topology.epoch != 0
      && (previous.None? <==> d.body.transition.Genesis?)
      && (previous.Some? ==> d.body.topology.epoch == Following(previous.value.Epoch())
                             && d.body.topology.networkId == previous.value.NetworkId())
      && rules.check(d, previous, {}) == rules.check(d, previous, revoked)
  }

  lemma VerificationIsSound(c: Crypto)
    ensures Sound(RulesOf(c))
  {
    forall d, previous, revoked | Verify(c, d, previous, revoked).Some?
      ensures Verify(c, d, previous, {}) == Verify(c, d, previous, revoked)
    {
      HistoryOutlivesRevocation(c, d, previous, revoked);
    }
  }

  // --- Adopting what other processes appended ------------------------------------------------

  function NextNumber(epochs: seq<Verified>): Word64 {
    if epochs == [] then 1 else Following(epochs[|epochs| - 1].Epoch())
  }

  datatype Adoption = NoneLeft | Broken | Adopted(verified: Verified)

  /** The stored successor of a chain, read without the revocation set. */
  ghost function Successor(rules: Rules, networkId: string, epochs: seq<Verified>, files: map<Word64, File>): Adoption {
    var next := NextNumber(epochs);
    if next !in files then NoneLeft
    else if files[next].Torn? then Broken
    else
      var v := rules.check(files[next].descriptor, Last(epochs), {});
      if v.None? || v.value.NetworkId() != networkId then Broken else Adopted(v.value)
  }

  /** What is left of the number space above a chain. */
  function Above(epochs: seq<Verified>): nat {
    if epochs == [] then 0x1_0000_0000_0000_0001
    else 0x1_0000_0000_0000_0000 - epochs[|epochs| - 1].Epoch()
  }

  lemma SuccessorIsAbove(rules: Rules, networkId: string, epochs: seq<Verified>, files: map<Word64, File>)
    requires Sound(rules) && Successor(rules, networkId, epochs, files).Adopted?
    ensures Above(epochs + [Successor(rules, networkId, epochs, files).verified]) < Above(epochs)
  {
    var v := Successor(rules, networkId, epochs, files).verified;
    assert rules.check(v.descriptor, Last(epochs), {}).Some?;
  }

  /** Reads successors until one is missing; fails on one that does not verify. */
  ghost function Adopt(rules: Rules, networkId: string, epochs: seq<Verified>,
                       files: map<Word64, File>): (seq<Verified>, bool)
    requires Sound(rules)
    decreases Above(epochs)
  {
    match Successor(rules, networkId, epochs, files)
    case NoneLeft => (epochs, true)
    case Broken => (epochs, false)
    case Adopted(v) =>
      SuccessorIsAbove(rules, networkId, epochs, files);
      Adopt(rules, networkId, epochs + [v], files)
  }

  ghost function Refresh(rules: Rules, networkId: string, m: Memory, disk: Disk): (Memory, bool)
    requires Sound(rules)
  {
    if m.halted then (m, true)
    else if disk.marker.Some? then (m.(halted := true), true)
    else
      var (epochs, ok) := Adopt(rules, networkId, m.epochs, disk.files);
      (m.(epochs := epochs), ok)
  }

  // --- Deciding on a candidate ----------------------------------------------------------------

  function SlotFrom(epochs: seq<Verified>, number: nat, from: nat): (r: Option<nat>)
    ensures r.Some? ==> from <= r.value < |epochs| && epochs[r.value].Epoch() == number
    ensures r.None? ==> forall i | from <= i < |epochs| :: epochs[i].Epoch() != number
    decreases |epochs| - from
  {
    if from >= |epochs| then None
    else if epochs[from].Epoch() == number then Some(from)
    else SlotFrom(epochs, number, from + 1)
  }

  datatype Decision =
    | Refused
    | AlreadyStored(stored: Verified)
    | Equivocates(stored: Verified, competing: Verified)
    | Admits(verified: Verified)

  /** A candidate for a number the chain holds is compared with the holder;
      any other number must be above the burned mark and extend the tip. */
  ghost function Decide(rules: Rules, config: Config, epochs: seq<Verified>, disk: Disk,
                        candidate: Option<Descriptor>): Decision {
    if candidate.None? then Refused
    else
      var d := candidate.value;
      var number := d.body.topology.epoch;
      if number == 0 || d.body.topology.networkId == "" || d.body.topology.networkId != config.networkId then Refused
      else
        var slot := SlotFrom(epochs, number, 0);
        if slot.Some? then
          var stored := epochs[slot.value];
          var v := rules.check(d, Before(epochs, slot.value), config.revoked);
          if v.None? then Refused
          else if stored.digest == rules.digest(d.body) then AlreadyStored(stored)
          else if v.value.NetworkId() != stored.NetworkId() then Refused
          else Equivocates(stored, v.value)
        else if number <= disk.watermark.visible then Refused
        else
          var v := rules.check(d, Last(epochs), config.revoked);
          if v.None? then Refused
          else if epochs != [] && v.value.Epoch() <= epochs[|epochs| - 1].Epoch() then Refused
          else Admits(v.value)
  }

  // --- The durable writes ------------------------------------------------------------------------

  function AfterRaise(disk: Disk, number: Word64, write: Write): (Disk, bool) {
    if number <= disk.watermark.visible then (disk, false)
    else match write
         case Written => (disk.(watermark := Level(number, number)), true)
         case WrittenUnsynced => (disk.(watermark := disk.watermark.(visible := number)), false)
         case NotWritten | LeftTorn => (disk, false)
  }

  /** The file is created exclusively, so an existing one is an error. */
  function AfterStore(disk: Disk, v: Verified, write: Write): (Disk, bool) {
    if v.Epoch() in disk.files then (disk, false)
    else match write
         case Written => (disk.(files := disk.files[v.Epoch() := Whole(v.descriptor)]), true)
         case NotWritten => (disk, false)
         case WrittenUnsynced => (disk.(files := disk.files[v.Epoch() := Whole(v.descriptor)]), false)
         case LeftTorn => (disk.(files := disk.files[v.Epoch() := Torn]), false)
  }

  function EvidenceOf(disk: Disk, stored: Verified, competing: Verified): Evidence {
    Evidence(stored.Epoch(), stored.digest, competing.digest,
             if stored.Epoch() in disk.files then Some(disk.files[stored.Epoch()]) else None,
             competing.descriptor)
  }

  /** The marker is created exclusively too; its directory is never synced. */
  function AfterMarker(disk: Disk, stored: Verified, competing: Verified, write: Write): Disk {
    if disk.marker.Some? || write.NotWritten? then disk
    else if write.LeftTorn? then disk.(marker := Some(Partial))
    else disk.(marker := Some(Complete(EvidenceOf(disk, stored, competing))))
  }

  // --- One undisturbed append -----------------------------------------------------------------------

  datatype Result = Accepted(verified: Verified) | Known(verified: Verified) | Equivocation | Failed

  ghost function AfterAppend(rules: Rules, config: Config, m: Memory, disk: Disk, candidate: Option<Descriptor>,
                             raise: Write, store: Write, mark: Write): (Memory, Disk, Result)
    requires Sound(rules)
  {
    var (m1, ok) := Refresh(rules, config.networkId, m, disk);
    if !ok || m1.halted then (m1, disk, Failed)
    else AfterDecision(m1, disk, Decide(rules, config, m1.epochs, disk, candidate), raise, store, mark)
  }

  function AfterDecision(m: Memory, disk: Disk, decision: Decision, raise: Write, store: Write, mark: Write)
    : (Memory, Disk, Result)
  {
    match decision
    case Refused => (m, disk, Failed)
    case AlreadyStored(stored) => (m, disk, Known(stored))
    case Equivocates(stored, competing) =>
      (m.(halted := true), AfterMarker(disk, stored, competing, mark), Equivocation)
    case Admits(v) => AfterAdmission(m, disk, v, raise, store)
  }

  /** The mark is raised before the file is written. */
  function AfterAdmission(m: Memory, disk: Disk, v: Verified, raise: Write, store: Write): (Memory, Disk, Result) {
    var (disk1, raised) := AfterRaise(disk, v.Epoch(), raise);
    if !raised then (m, disk1, Failed)
    else
      var (disk2, stored) := AfterStore(disk1, v, store);
      if !stored then (m, disk2, Failed)
      else (m.(epochs := m.epochs + [v]), disk2, Accepted(v))
  }

  // --- Opening -------------------------------------------------------------------------------------

  ghost function Load(rules: Rules, networkId: string, files: map<Word64, File>, numbers: seq<nat>,
                      epochs: seq<Verified>)
    : Option<seq<Verified>>
    decreases |numbers|
  {
    if numbers == [] then Some(epochs)
    else
      var number := numbers[0];
      if number !in files || files[number].Torn? then None
      else
        var v := rules.check(files[number].descriptor, Last(epochs), {});
        if v.None? || v.value.Epoch() != number || v.value.NetworkId() != networkId then None
        else Load(rules, networkId, files, numbers[1..], epochs + [v.value])
  }

  ghost function Opened(rules: Rules, networkId: string, disk: Disk): Option<Memory> {
    if disk.marker.Some? then Some(Memory([], true))
    else
      match Load(rules, networkId, disk.files, Ascending(disk.files.Keys), [])
      case None => None
      case Some(epochs) => Some(Memory(epochs, false))
  }

  // --- The objects ------------------------------------------------------------------------------------

  class Directory {
    var disk: Disk

    constructor (disk: Disk)
      ensures this.disk == disk
    {
      this.disk := disk;
    }
  }

  /** One process's chain over a shared directory. Its methods run under the
      directory lock; the outcome of each durable write is a parameter. */
  class Chain {
    const crypto: Crypto
    ghost const rules: Rules
    const config: Config
    const directory: Directory
    var epochs: seq<Verified>
    var halted: bool

    function View(): Memory
      reads this
    {
      Memory(epochs, halted)
    }

    ghost predicate Ready() {
      rules == RulesOf(crypto) && Sound(rules)
    }

    constructor (crypto: Crypto, config: Config, directory: Directory)
      ensures Ready()
      ensures this.crypto == crypto && this.config == config && this.directory == directory
      ensures View() == Memory([], false)
    {
      this.crypto, this.config, this.directory := crypto, config, directory;
      rules := RulesOf(crypto);
      epochs, halted := [], false;
      VerificationIsSound(crypto);
    }

    method Check(d: Descriptor, previous: Option<Verified>, revoked: set<Key>) returns (r: Option<Verified>)
      requires Ready()
      ensures r == rules.check(d, previous, revoked)
    {
      r := VerifyDescriptor(crypto, d, previous, revoked);
    }

    /** Loads and re-verifies the stored descriptors in number order. */
    method Open() returns (ok: bool)
      requires Ready() && View() == Memory([], false)
      modifies this
      ensures ok == Opened(rules, config.networkId, directory.disk).Some?
      ensures ok ==> Some(View()) == Opened(rules, config.networkId, directory.disk)
    {
      if directory.disk.marker.Some? {
        halted := true;
        return true;
      }
      var numbers := SortedNumbers(directory.disk.files.Keys);
      ghost var outcome := Load(rules, config.networkId, directory.disk.files, numbers, []);
      for k := 0 to |numbers|
        invariant !halted
        invariant Load(rules, config.networkId, directory.disk.files, numbers[k..], epochs) == outcome
      {
        assert numbers[k..][0] == numbers[k] && numbers[k..][1..] == numbers[k + 1..];
        assert numbers[k] in numbers;
        var number := numbers[k];
        if directory.disk.files[number].Torn? {
          return false;
        }
        var v := Check(directory.disk.files[number].descriptor, Last(epochs), {});
        if v.None? || v.value.Epoch() != number || v.value.NetworkId() != config.networkId {
          return false;
        }
        epochs := epochs + [v.value];
      }
      return true;
    }

    method RefreshLocked() returns (ok: bool)
      requires Ready()
      modifies this
      ensures (View(), ok) == Refresh(rules, config.networkId, old(View()), directory.disk)
    {
      if halted {
        return true;
      }
      if directory.disk.marker.Some? {
        halted := true;
        return true;
      }
      ghost var outcome := Adopt(rules, config.networkId, epochs, directory.disk.files);
      while true
        invariant !halted
        invariant Adopt(rules, config.networkId, epochs, directory.disk.files) == outcome
        decreases Above(epochs)
      {
        var step := ReadSuccessor();
        match step
        case NoneLeft => return true;
        case Broken => return false;
        case Adopted(v) =>
          SuccessorIsAbove(rules, config.networkId, epochs, directory.disk.files);
          epochs := epochs + [v];
      }
    }

    method ReadSuccessor() returns (step: Adoption)
      requires Ready()
      ensures step == Successor(rules, config.networkId, epochs, directory.disk.files)
    {
      var next := NextNumber(epochs);
      if next !in directory.disk.files {
        return NoneLeft;
      }
      if directory.disk.files[next].Torn? {
        return Broken;
      }
      var v := Check(directory.disk.files[next].descriptor, Last(epochs), {});
      if v.None? || v.value.NetworkId() != config.networkId {
        return Broken;
      }
      return Adopted(v.value);
    }

    method LookupSlot(number: nat) returns (slot: Option<nat>)
      ensures slot == SlotFrom(epochs, number, 0)
    {
      for index := 0 to |epochs|
        invariant SlotFrom(epochs, number, 0) == SlotFrom(epochs, number, index)
      {
        if epochs[index].Epoch() == number {
          return Some(index);
        }
      }
      return None;
    }

    method Judge(candidate: Option<Descriptor>) returns (decision: Decision)
      requires Ready()
      ensures decision == Decide(rules, config, epochs, directory.disk, candidate)
    {
      if candidate.None? {
        return Refused;
      }
      var d := candidate.value;
      var digest := crypto.digest(d.body);
      var number := d.body.topology.epoch;
      if number == 0 || d.body.topology.networkId == "" {
        return Refused;
      }
      if d.body.topology.networkId != config.networkId {
        return Refused;
      }
      var slot := LookupSlot(number);
      if slot.Some? {
        var stored := epochs[slot.value];
        var competing := Check(d, Before(epochs, slot.value), config.revoked);
        if competing.None? {
          return Refused;
        }
        if stored.digest == digest {
          return AlreadyStored(stored);
        }
        if competing.value.NetworkId() != stored.NetworkId() {
          return Refused;
        }
        return Equivocates(stored, competing.value);
      }
      if number <= directory.disk.watermark.visible {
        return Refused;
      }
      var verified := Check(d, Last(epochs), config.revoked);
      if verified.None? {
        return Refused;
      }
      if epochs != [] && verified.value.Epoch() <= epochs[|epochs| - 1].Epoch() {
        return Refused;
      }
      return Admits(verified.value);
    }

    method Append(candidate: Option<Descriptor>, raise: Write, store: Write, mark: Write) returns (r: Result)
      requires Ready()
      modifies this, directory
      ensures (View(), directory.disk, r)
           == AfterAppend(rules, config, old(View()), old(directory.disk), candidate, raise, store, mark)
    {
      var ok := RefreshLocked();
      if !ok || halted {
        return Failed;
      }
      var decision := Judge(candidate);
      r := Settle(decision, raise, store, mark);
    }

    method Settle(decision: Decision, raise: Write, store: Write, mark: Write) returns (r: Result)
      modifies this, directory
      ensures (View(), directory.disk, r)
           == AfterDecision(old(View()), old(directory.disk), decision, raise, store, mark)
    {
      match decision
      case Refused =>
        return Failed;
      case AlreadyStored(stored) =>
        return Known(stored);
      case Equivocates(stored, competing) =>
        halted := true;
        directory.disk := AfterMarker(directory.disk, stored, competing, mark);
        return Equivocation;
      case Admits(v) =>
        r := Admit(v, raise, store);
    }

    method Admit(v: Verified, raise: Write, store: Write) returns (r: Result)
      modifies this, directory
      ensures (View(), directory.disk, r) == AfterAdmission(old(View()), old(directory.disk), v, raise, store)
    {
      var (disk1, raised) := AfterRaise(directory.disk, v.Epoch(), raise);
      directory.disk := disk1;
      if !raised {
        return Failed;
      }
      var (disk2, stored) := AfterStore(directory.disk, v, store);
      directory.disk := disk2;
      if !stored {
        return Failed;
      }
      epochs := epochs + [v];
      return Accepted(v);
    }

    /** The epoch active at an instant, walking down from the tip. */
    method ActiveAt(now: Instant) returns (r: Option<Verified>)
      ensures r == if halted || Windows.ActiveAt(epochs, now).None? then None
                   else Some(epochs[Windows.ActiveAt(epochs, now).value])
    {
      if halted {
        return None;
      }
      for index := |epochs| downto 0
        invariant Windows.ActiveAt(epochs, now) == Windows.ActiveBelow(epochs, index, now)
      {
        var candidate := epochs[index];
        if now < candidate.ActivateAt() {
          continue;
        }
        if now < candidate.RetireAt() {
          return Some(candidate);
        }
        return None;
      }
      return None;
    }

    /** The state of a stored number; none when halted or not stored. */
    method StateOf(number: Word64, now: Instant) returns (r: Option<Windows.State>)
      ensures
        match SlotFrom(epochs, number, 0)
        case Some(i) => r == if halted then None else Some(Windows.StateAt(epochs, i, now))
        case None => r == None
    {
      if halted {
        return None;
      }
      for index := 0 to |epochs|
        invariant SlotFrom(epochs, number, 0) == SlotFrom(epochs, number, index)
      {
        var stored := epochs[index];
        if stored.Epoch() != number {
          continue;
        }
        var state := Windows.OwnState(stored, now);
        if state == Windows.Active && index + 1 < |epochs| {
          var successor := epochs[index + 1];
          if successor.Transition() == Emergency && successor.ActivateAt() <= now {
            return Some(Windows.Retired);
          }
        }
        return Some(state);
      }
      return None;
    }

    /** The highest retired number, or zero. A halt does not stop this query. */
    method HighestRetired(now: Instant) returns (highest: nat)
      ensures forall i | 0 <= i < |epochs| && Windows.StateAt(epochs, i, now).Retired? :: epochs[i].Epoch() <= highest
      ensures highest == 0 || exists i | 0 <= i < |epochs| ::
                Windows.StateAt(epochs, i, now).Retired? && epochs[i].Epoch() == highest
    {
      highest := 0;
      for index := 0 to |epochs|
        invariant forall i | 0 <= i < index && Windows.StateAt(epochs, i, now).Retired? :: epochs[i].Epoch() <= highest
        invariant highest == 0 || exists i | 0 <= i < index ::
                    Windows.StateAt(epochs, i, now).Retired? && epochs[i].Epoch() == highest
      {
        var state := Windows.OwnState(epochs[index], now);
        if state == Windows.Active && index + 1 < |epochs| {
          var successor := epochs[index + 1];
          if successor.Transition() == Emergency && successor.ActivateAt() <= now {
            state := Windows.Retired;
          }
        }
        assert state == Windows.StateAt(epochs, index, now);
        if state == Windows.Retired && epochs[index].Epoch() > highest {
          highest := epochs[index].Epoch();
        }
      }
    }
  }
}
