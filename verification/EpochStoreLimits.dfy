/** What the epoch store does not promise: when a directory opens again, and
    runs that leave incomplete evidence, lose a halt, or cannot be reopened. */
module EpochStoreLimits {
  import opened Options
  import opened EpochDescriptor
  import opened EpochStore
  import opened EpochStoreRuns
  import opened Ordering

  // --- When a directory opens again -----------------------------------------------------------------

  /** What remains to be read: every file not yet behind the tip. */
  ghost predicate Remaining(w: World, numbers: seq<nat>, epochs: seq<Verified>) {
    && Increasing(numbers)
    && (forall n <- numbers :: n in w.disk.files && (epochs != [] ==> Last(epochs).value.Epoch() < n))
    && (epochs != [] ==> Recorded(Last(epochs).value, w.history))
  }

  predicate Follows(n: nat, epochs: seq<Verified>) {
    epochs != [] && n == epochs[|epochs| - 1].Epoch() + 1
  }

  /** A whole file verifies next exactly when it is a genesis in first place, or
      another descriptor whose number is one above the one before. */
  lemma HeadVerifies(rules: Rules, w: World, n: Word64, epochs: seq<Verified>)
    requires Sound(rules) && Shared(rules, w) && n in w.disk.files && w.disk.files[n].Whole?
    requires epochs != [] ==> Recorded(Last(epochs).value, w.history) && Last(epochs).value.Epoch() < n
    ensures
      var d := w.disk.files[n].descriptor;
      && n in w.history && w.history[n].descriptor == d && w.history[n].Epoch() == n
      && rules.check(d, Last(epochs), {})
         == (if d.body.transition.Genesis? && epochs == [] then Some(w.history[n])
             else if !d.body.transition.Genesis? && Follows(n, epochs) then Some(w.history[n])
             else None)
  {
    var v := w.history[n];
    assert Anchored(rules, w.history, n);
    assert v.descriptor == w.disk.files[n].descriptor && v.Epoch() == n;
    if epochs == [] {
      assert rules.check(v.descriptor, None, {}).Some? ==> v.descriptor.body.transition.Genesis?;
    } else {
      var previous := Last(epochs).value;
      assert rules.check(v.descriptor, Some(previous), {}).Some? ==>
          !v.descriptor.body.transition.Genesis? && n == Following(previous.Epoch());
      if n == previous.Epoch() + 1 {
        assert w.history[n - 1] == previous;
      }
    }
  }

  /** The file a directory reads next, after the number before it. */
  predicate ReadsOn(w: World, networkId: string, n: Word64, previous: Option<nat>)
    requires n in w.disk.files
  {
    && w.disk.files[n].Whole?
    && w.disk.files[n].descriptor.body.topology.networkId == networkId
    && (w.disk.files[n].descriptor.body.transition.Genesis? <==> previous.None?)
    && (previous.Some? ==> n == previous.value + 1)
  }

  predicate Readable(w: World, networkId: string, numbers: seq<nat>, previous: Option<nat>) {
    numbers == []
    || (numbers[0] in w.disk.files && ReadsOn(w, networkId, numbers[0], previous)
        && Readable(w, networkId, numbers[1..], Some(numbers[0])))
  }

  function TipNumber(epochs: seq<Verified>): Option<nat> {
    if epochs == [] then None else Some(epochs[|epochs| - 1].Epoch())
  }

  lemma HeadDecides(rules: Rules, w: World, networkId: string, numbers: seq<nat>, epochs: seq<Verified>)
    requires Sound(rules) && Shared(rules, w) && numbers != [] && Remaining(w, numbers, epochs)
    ensures
      var n := numbers[0];
      && n in w.disk.files
      && (!ReadsOn(w, networkId, n, TipNumber(epochs)) ==>
            Load(rules, networkId, w.disk.files, numbers, epochs).None?)
      && (ReadsOn(w, networkId, n, TipNumber(epochs)) ==>
            && n in w.history && w.history[n].Epoch() == n
            && Load(rules, networkId, w.disk.files, numbers, epochs)
               == Load(rules, networkId, w.disk.files, numbers[1..], epochs + [w.history[n]]))
  {
    var n := numbers[0];
    assert n in numbers;
    if w.disk.files[n].Whole? {
      HeadVerifies(rules, w, n, epochs);
    }
  }

  lemma HeadRead(w: World, numbers: seq<nat>, epochs: seq<Verified>)
    requires numbers != [] && Remaining(w, numbers, epochs) && numbers[0] in w.history
    requires w.history[numbers[0]].Epoch() == numbers[0]
    ensures Remaining(w, numbers[1..], epochs + [w.history[numbers[0]]])
  {
    var n, rest := numbers[0], numbers[1..];
    assert Last(epochs + [w.history[n]]) == Some(w.history[n]);
    IncreasingTail(numbers);
  }

  lemma {:induction false} LoadsIff(rules: Rules, w: World, networkId: string, numbers: seq<nat>, epochs: seq<Verified>)
    requires Sound(rules) && Shared(rules, w) && Remaining(w, numbers, epochs)
    ensures Load(rules, networkId, w.disk.files, numbers, epochs).Some?
       <==> Readable(w, networkId, numbers, TipNumber(epochs))
    decreases |numbers|
  {
    if numbers == [] {
      return;
    }
    HeadDecides(rules, w, networkId, numbers, epochs);
    if ReadsOn(w, networkId, numbers[0], TipNumber(epochs)) {
      HeadRead(w, numbers, epochs);
      LoadsIff(rules, w, networkId, numbers[1..], epochs + [w.history[numbers[0]]]);
    }
  }

  /** Every file is whole and of the network, exactly the lowest is a genesis, and
      each other one has the number below it stored as well. */
  ghost predicate Unbroken(files: map<Word64, File>, networkId: string) {
    forall n <- files :: UnbrokenAt(files, networkId, n)
  }

  ghost predicate UnbrokenAt(files: map<Word64, File>, networkId: string, n: Word64)
    requires n in files
  {
    && files[n].Whole? && files[n].descriptor.body.topology.networkId == networkId
    && (files[n].descriptor.body.transition.Genesis? <==> IsLowest(files, n))
    && (IsLowest(files, n) || (n > 0 && n - 1 in files))
  }

  ghost predicate IsLowest(files: map<Word64, File>, n: nat) {
    forall m <- files :: n <= m
  }

  /** Whatever was deleted, torn or lost before, a directory without a marker opens
      again exactly when what it holds is unbroken. */
  lemma ReopensIff(rules: Rules, events: seq<Event>, networkId: string)
    requires Sound(rules) && Run(rules, EMPTY, events).disk.marker.None?
    ensures var disk := Run(rules, EMPTY, events).disk;
            Opened(rules, networkId, disk).Some? <==> Unbroken(disk.files, networkId)
  {
    var w := Run(rules, EMPTY, events);
    RunKeeps(rules, EMPTY, events);
    var numbers := Ascending(w.disk.files.Keys);
    AscendingIsSorted(w.disk.files.Keys);
    LoadsIff(rules, w, networkId, numbers, []);
    ReadableIsUnbroken(w, networkId, numbers);
  }

  /** The same, number by number. */
  predicate InPlace(w: World, networkId: string, numbers: seq<nat>, previous: Option<nat>, n: nat)
    requires numbers != []
  {
    && n in w.disk.files
    && if n == numbers[0] then ReadsOn(w, networkId, n, previous)
       else n > 0 && n - 1 in numbers && ReadsOn(w, networkId, n, Some(n - 1))
  }

  lemma {:induction false} ReadableInPlace(w: World, networkId: string, numbers: seq<nat>, previous: Option<nat>)
    requires Increasing(numbers) && numbers != []
    ensures Readable(w, networkId, numbers, previous) <==> AllInPlace(w, networkId, numbers, previous, numbers)
  {
    var first, rest := numbers[0], numbers[1..];
    IncreasingTail(numbers);
    FirstThenRest(w, networkId, numbers, previous);
    if rest != [] {
      ReadableInPlace(w, networkId, rest, Some(first));
      RestAgrees(w, networkId, numbers, previous);
    }
  }

  predicate AllInPlace(w: World, networkId: string, numbers: seq<nat>, previous: Option<nat>, among: seq<nat>)
    requires numbers != []
  {
    forall n <- among :: InPlace(w, networkId, numbers, previous, n)
  }

  lemma FirstThenRest(w: World, networkId: string, numbers: seq<nat>, previous: Option<nat>)
    requires numbers != []
    ensures AllInPlace(w, networkId, numbers, previous, numbers) <==>
            (numbers[0] in w.disk.files && ReadsOn(w, networkId, numbers[0], previous))
            && AllInPlace(w, networkId, numbers, previous, numbers[1..])
  {
    assert numbers == [numbers[0]] + numbers[1..];
    assert InPlace(w, networkId, numbers, previous, numbers[0])
      <==> numbers[0] in w.disk.files && ReadsOn(w, networkId, numbers[0], previous);
  }

  lemma RestAgrees(w: World, networkId: string, numbers: seq<nat>, previous: Option<nat>)
    requires Increasing(numbers) && |numbers| > 1
    ensures AllInPlace(w, networkId, numbers, previous, numbers[1..])
       <==> AllInPlace(w, networkId, numbers[1..], Some(numbers[0]), numbers[1..])
  {
    forall n | n in numbers[1..]
      ensures InPlace(w, networkId, numbers, previous, n) <==> InPlace(w, networkId, numbers[1..], Some(numbers[0]), n)
    {
      PlacesAgree(w, networkId, numbers, previous, n);
    }
  }

  lemma PlacesAgree(w: World, networkId: string, numbers: seq<nat>, previous: Option<nat>, n: nat)
    requires Increasing(numbers) && |numbers| > 1 && n in numbers[1..]
    ensures InPlace(w, networkId, numbers, previous, n) <==> InPlace(w, networkId, numbers[1..], Some(numbers[0]), n)
  {
    var first, rest := numbers[0], numbers[1..];
    assert numbers == [first] + rest && forall x :: x in numbers <==> x == first || x in rest;
    IncreasingTail(numbers);
    FirstIsLeast(rest);
    assert first < rest[0] <= n;
    if n == rest[0] {
      assert n - 1 in numbers <==> n - 1 == first;
    } else {
      assert n - 1 != first;
    }
  }

  lemma FirstIsLeast(numbers: seq<nat>)
    requires Increasing(numbers) && numbers != []
    ensures forall x <- numbers :: numbers[0] <= x
  {
  }

  lemma ReadableIsUnbroken(w: World, networkId: string, numbers: seq<nat>)
    requires Increasing(numbers) && forall n :: n in numbers <==> n in w.disk.files
    ensures Readable(w, networkId, numbers, None) <==> Unbroken(w.disk.files, networkId)
  {
    if numbers != [] {
      ReadableInPlace(w, networkId, numbers, None);
      FirstIsLeast(numbers);
      assert numbers[0] in numbers;
      forall n | n in w.disk.files
        ensures n in numbers && (IsLowest(w.disk.files, n) <==> n == numbers[0])
        ensures InPlace(w, networkId, numbers, None, n) <==> UnbrokenAt(w.disk.files, networkId, n)
      {
        assert n in numbers;
      }
    }
  }

  // --- When a store goes on ---------------------------------------------------------------------------

  /** Nothing new since `w0`, the durable mark on a number never stored, and no
      process about to store anything but a genesis. */
  ghost predicate Blocked(rules: Rules, w0: World, w: World) {
    && Inv(rules, w) && w.history == w0.history && w.accepted == w0.accepted
    && w.disk.watermark.durable !in w.history
    && forall p <- w.processes :: OnlyGenesis(w.processes[p].phase)
  }

  predicate OnlyGenesis(phase: Phase) {
    phase.Raising? || phase.Storing? ==> phase.verified.Transition().Genesis?
  }

  ghost predicate GenesisSince(w0: World, w: World) {
    exists n <- w.history :: n !in w0.history && w.history[n].Transition().Genesis?
  }

  /** Only the number after a stored one can be admitted, and all stored ones are
      below the durable mark. */
  lemma BlockedAdmitsGenesis(rules: Rules, w: World, epochs: seq<Verified>, v: Verified)
    requires Sound(rules) && DiskOk(rules, w.disk, w.history) && ChainOk(rules, epochs, w.history)
    requires w.disk.watermark.durable !in w.history && w.disk.watermark.visible < v.Epoch()
    requires rules.check(v.descriptor, Last(epochs), {}) == Some(v)
    ensures v.Transition().Genesis?
  {
    forall i | 0 <= i < |epochs| ensures epochs[i].Epoch() < w.disk.watermark.durable {
      assert Recorded(epochs[i], w.history);
    }
  }

  lemma BlockedBegins(rules: Rules, w0: World, w: World, p: nat, candidate: Option<Descriptor>)
    requires Sound(rules) && Blocked(rules, w0, w)
    ensures Blocked(rules, w0, Beginning(rules, w, p, candidate))
  {
    var w' := Beginning(rules, w, p, candidate);
    BeginningKeeps(rules, w, p, candidate);
    BeginningIsQuiet(rules, w, p, candidate);
    forall q | q in w'.processes ensures OnlyGenesis(w'.processes[q].phase) {
      var pr := w'.processes[q];
      assert ProcessOk(rules, w', q, pr);
      if pr.phase.Raising? {
        BlockedAdmitsGenesis(rules, w', pr.memory.epochs, pr.phase.verified);
      }
    }
  }

  lemma BlockedStep(rules: Rules, w0: World, w: World, e: Event)
    requires Sound(rules) && Blocked(rules, w0, w)
    ensures Blocked(rules, w0, Step(rules, w, e)) || GenesisSince(w0, Step(rules, w, e))
  {
    StepKeeps(rules, w, e);
    match e
    case Open(p, config) => BlockedOpens(rules, w0, w, p, config);
    case Begin(p, candidate) => BlockedBegins(rules, w0, w, p, candidate);
    case Raise(p, write) => BlockedRaises(rules, w0, w, p, write);
    case Store(p, write) => BlockedStores(rules, w0, w, p, write);
    case Mark(p, write) => BlockedMarks(rules, w0, w, p, write);
    case Kill(p, leaves) => BlockedDies(rules, w0, w, p, leaves);
    case PowerLoss(lost, markerLost, torn) => BlockedLosesPower(rules, w0, w, lost, markerLost, torn);
    case Delete(number) => BlockedDeletes(rules, w0, w, number);
  }

  lemma BlockedDeletes(rules: Rules, w0: World, w: World, number: Word64)
    requires Blocked(rules, w0, w) && Inv(rules, Deleting(w, number))
    ensures Blocked(rules, w0, Deleting(w, number))
  {
  }

  lemma BlockedOpens(rules: Rules, w0: World, w: World, p: nat, config: Config)
    requires Blocked(rules, w0, w) && Inv(rules, Opening(rules, w, p, config))
    ensures Blocked(rules, w0, Opening(rules, w, p, config))
  {
  }

  lemma BlockedMarks(rules: Rules, w0: World, w: World, p: nat, write: Write)
    requires Blocked(rules, w0, w) && Inv(rules, MarkingStep(w, p, write))
    ensures Blocked(rules, w0, MarkingStep(w, p, write))
  {
  }

  lemma BlockedLosesPower(rules: Rules, w0: World, w: World, lost: bool, markerLost: bool, torn: set<Word64>)
    requires Blocked(rules, w0, w) && Inv(rules, LosingPower(w, lost, markerLost, torn))
    ensures Blocked(rules, w0, LosingPower(w, lost, markerLost, torn))
  {
  }

  lemma BlockedRaises(rules: Rules, w0: World, w: World, p: nat, write: Write)
    requires Blocked(rules, w0, w) && Inv(rules, RaisingStep(w, p, write))
    ensures Blocked(rules, w0, RaisingStep(w, p, write))
  {
    if p in w.processes {
      assert ProcessOk(rules, w, p, w.processes[p]);
    }
  }

  lemma BlockedStores(rules: Rules, w0: World, w: World, p: nat, write: Write)
    requires Blocked(rules, w0, w) && Inv(rules, StoringStep(w, p, write))
    ensures Blocked(rules, w0, StoringStep(w, p, write)) || GenesisSince(w0, StoringStep(w, p, write))
  {
    var w' := StoringStep(w, p, write);
    if p in w.processes && w.processes[p].phase.Storing? {
      var v := w.processes[p].phase.verified;
      assert ProcessOk(rules, w, p, w.processes[p]);
      if w'.history != w.history {
        assert v.Epoch() in w'.history && v.Epoch() !in w0.history;
      }
    }
  }

  lemma BlockedDies(rules: Rules, w0: World, w: World, p: nat, leaves: Leaves)
    requires Blocked(rules, w0, w) && Inv(rules, Killing(w, p, leaves))
    ensures Blocked(rules, w0, Killing(w, p, leaves)) || GenesisSince(w0, Killing(w, p, leaves))
  {
    var w' := Killing(w, p, leaves);
    if p in w.processes {
      assert ProcessOk(rules, w, p, w.processes[p]);
      if w'.history != w.history {
        var v := w.processes[p].phase.verified;
        assert v.Epoch() in w'.history && v.Epoch() !in w0.history;
      }
    }
  }

  lemma {:induction false} BlockedRun(rules: Rules, w0: World, w: World, events: seq<Event>)
    requires Sound(rules) && Blocked(rules, w0, w)
    ensures Blocked(rules, w0, Run(rules, w, events)) || GenesisSince(w0, Run(rules, w, events))
    decreases |events|
  {
    if events != [] {
      BlockedStep(rules, w0, w, events[0]);
      var w1 := Step(rules, w, events[0]);
      if Blocked(rules, w0, w1) {
        BlockedRun(rules, w0, w1, events[1..]);
      } else {
        StepKeeps(rules, w, events[0]);
        RunIsMonotone(rules, w1, events[1..]);
        var n :| n in w1.history && n !in w0.history && w1.history[n].Transition().Genesis?;
        assert n in Run(rules, w1, events[1..]).history;
      }
    }
  }

  /** Progress is not promised: once the durable mark has burned a number that was
      never stored, nothing more is stored or accepted before a genesis is. */
  lemma BurnedNumberBlocks(rules: Rules, events: seq<Event>, later: seq<Event>)
    requires Sound(rules)
    requires var w := Run(rules, EMPTY, events); w.lock.None? && w.disk.watermark.durable !in w.history
    ensures
      var w := Run(rules, EMPTY, events);
      var w' := Run(rules, w, later);
      (w'.history == w.history && w'.accepted == w.accepted) || GenesisSince(w, w')
  {
    var w := Run(rules, EMPTY, events);
    RunKeeps(rules, EMPTY, events);
    forall p | p in w.processes ensures OnlyGenesis(w.processes[p].phase) {
      assert ProcessOk(rules, w, p, w.processes[p]);
    }
    BlockedRun(rules, w, w, later);
  }

  // --- Runs -------------------------------------------------------------------------------------------

  lemma {:induction false} RunConcat(rules: Rules, w: World, a: seq<Event>, b: seq<Event>)
    requires Sound(rules)
    ensures Run(rules, w, a + b) == Run(rules, Run(rules, w, a), b)
    decreases |a|
  {
    if a == [] {
      assert a + b == b;
    } else {
      assert (a + b)[0] == a[0] && (a + b)[1..] == a[1..] + b;
      RunConcat(rules, Step(rules, w, a[0]), a[1..], b);
    }
  }

  /** A process that holds nothing and finds no epoch 1. */
  predicate Blank(w: World, p: nat) {
    && p in w.processes && w.lock.None? && w.disk.marker.None? && 1 !in w.disk.files
    && w.processes[p].phase.Idle? && w.processes[p].memory == Memory([], false)
  }

  /** A descriptor that verifies as a genesis for the process's network. */
  predicate Bootstraps(rules: Rules, config: Config, v: Verified) {
    && v.Epoch() != 0 && config.networkId != "" && v.NetworkId() == config.networkId
    && rules.check(v.descriptor, None, config.revoked) == Some(v)
  }

  function Appending(p: nat, v: Verified): seq<Event> {
    [Begin(p, Some(v.descriptor)), Raise(p, Written), Store(p, Written)]
  }

  function Appended(w: World, p: nat, v: Verified): World
    requires p in w.processes
  {
    w.(disk := w.disk.(watermark := Level(v.Epoch(), v.Epoch()),
                       files := w.disk.files[v.Epoch() := Whole(v.descriptor)]),
       processes := w.processes[p := w.processes[p].(memory := Memory([v], false))],
       accepted := w.accepted + [v], history := w.history[v.Epoch() := v])
  }

  lemma BlankBegins(rules: Rules, w: World, p: nat, v: Verified)
    requires Sound(rules) && Blank(w, p) && Bootstraps(rules, w.processes[p].config, v)
    requires w.disk.watermark.visible < v.Epoch()
    ensures Beginning(rules, w, p, Some(v.descriptor))
         == w.(lock := Some(p), processes := w.processes[p := w.processes[p].(phase := Raising(v))])
  {
    var pr := w.processes[p];
    assert Adopt(rules, pr.config.networkId, [], w.disk.files) == ([], true);
    assert w.processes[p := pr.(memory := Memory([], false))] == w.processes;
  }

  lemma AppendWrites(w: World, p: nat, v: Verified)
    requires p in w.processes && w.lock.None? && w.processes[p].phase.Idle?
    requires w.processes[p].memory == Memory([], false)
    requires w.disk.watermark.visible < v.Epoch() && v.Epoch() !in w.disk.files
    ensures
      var w1 := w.(lock := Some(p), processes := w.processes[p := w.processes[p].(phase := Raising(v))]);
      StoringStep(RaisingStep(w1, p, Written), p, Written) == Appended(w, p, v)
  {
    var pr := w.processes[p];
    var w1 := w.(lock := Some(p), processes := w.processes[p := pr.(phase := Raising(v))]);
    var w2 := RaisingStep(w1, p, Written);
    assert w2.processes == w.processes[p := pr.(phase := Storing(v))];
    var w3 := StoringStep(w2, p, Written);
    assert [] + [v] == [v];
    assert w3.processes[p] == pr.(memory := Memory([v], false));
    assert w3.processes == w.processes[p := pr.(memory := Memory([v], false))];
  }

  lemma RunThree(rules: Rules, w: World, a: Event, b: Event, c: Event)
    requires Sound(rules)
    ensures Run(rules, w, [a, b, c]) == Step(rules, Step(rules, Step(rules, w, a), b), c)
  {
    RunCons(rules, w, a, [b, c]);
    RunCons(rules, Step(rules, w, a), b, [c]);
    RunCons(rules, Step(rules, Step(rules, w, a), b), c, []);
  }

  lemma RunCons(rules: Rules, w: World, a: Event, rest: seq<Event>)
    requires Sound(rules)
    ensures Run(rules, w, [a] + rest) == Run(rules, Step(rules, w, a), rest)
  {
    assert ([a] + rest)[1..] == rest;
  }

  lemma RunParts(rules: Rules, w: World, a: seq<Event>, b: seq<Event>, c: seq<Event>)
    requires Sound(rules)
    ensures Run(rules, w, a + b + c) == Run(rules, Run(rules, Run(rules, w, a), b), c)
  {
    RunConcat(rules, w, a + b, c);
    RunConcat(rules, w, a, b);
  }

  lemma BlankAppends(rules: Rules, w: World, p: nat, v: Verified)
    requires Sound(rules) && Blank(w, p) && Bootstraps(rules, w.processes[p].config, v)
    requires w.disk.watermark.visible < v.Epoch() && v.Epoch() !in w.disk.files
    ensures Run(rules, w, Appending(p, v)) == Appended(w, p, v)
  {
    BlankBegins(rules, w, p, v);
    AppendWrites(w, p, v);
    RunThree(rules, w, Begin(p, Some(v.descriptor)), Raise(p, Written), Store(p, Written));
  }

  lemma OpensBlank(rules: Rules, w: World, p: nat, config: Config)
    requires p !in w.processes && w.disk.marker.None? && w.disk.files == map[]
    ensures Opening(rules, w, p, config)
         == w.(processes := w.processes[p := Process(config, Memory([], false), Idle)])
  {
    assert w.disk.files.Keys == {};
    assert Opened(rules, config.networkId, w.disk) == Some(Memory([], false));
  }

  lemma OpensOne(rules: Rules, config: Config)
    requires Sound(rules)
    ensures Run(rules, EMPTY, [Open(0, config)])
         == EMPTY.(processes := map[0 := Process(config, Memory([], false), Idle)])
  {
    RunCons(rules, EMPTY, Open(0, config), []);
    OpensBlank(rules, EMPTY, 0, config);
  }

  lemma OpensTwo(rules: Rules, config: Config)
    requires Sound(rules)
    ensures
      var pr := Process(config, Memory([], false), Idle);
      Run(rules, EMPTY, [Open(1, config), Open(2, config)]) == EMPTY.(processes := map[1 := pr, 2 := pr])
  {
    var pr := Process(config, Memory([], false), Idle);
    var one := EMPTY.(processes := map[1 := pr]);
    OpensBlank(rules, EMPTY, 1, config);
    OpensBlank(rules, one, 2, config);
    assert map[1 := pr][2 := pr] == map[1 := pr, 2 := pr];
    RunCons(rules, EMPTY, Open(1, config), [Open(2, config)]);
    RunCons(rules, one, Open(2, config), []);
  }

  /** Two processes that opened an empty directory can each store a genesis, one at
      5 and one at 6; no process opens the directory again. */
  lemma TwoGenesesCannotReopen(rules: Rules, config: Config, v5: Verified, v6: Verified) returns (events: seq<Event>)
    requires Sound(rules) && v5.Epoch() == 5 && v6.Epoch() == 6
    requires Bootstraps(rules, config, v5) && Bootstraps(rules, config, v6)
    ensures Run(rules, EMPTY, events).accepted == [v5, v6]
    ensures Opened(rules, config.networkId, Run(rules, EMPTY, events).disk).None?
  {
    var opens := [Open(1, config), Open(2, config)];
    OpensTwo(rules, config);
    var w0 := Run(rules, EMPTY, opens);
    var w1 := Appended(w0, 1, v5);
    BlankAppends(rules, w0, 1, v5);
    var w2 := Appended(w1, 2, v6);
    BlankAppends(rules, w1, 2, v6);
    events := opens + Appending(1, v5) + Appending(2, v6);
    RunParts(rules, EMPTY, opens, Appending(1, v5), Appending(2, v6));
    TwoGeneses(rules, w2, v5, v6, config);
    ReopensIff(rules, events, config.networkId);
  }

  lemma TwoGeneses(rules: Rules, w: World, v5: Verified, v6: Verified, config: Config)
    requires Sound(rules) && v5.Epoch() == 5 && v6.Epoch() == 6
    requires Bootstraps(rules, config, v5) && Bootstraps(rules, config, v6)
    requires w.disk.files == map[5 := Whole(v5.descriptor), 6 := Whole(v6.descriptor)]
    ensures !Unbroken(w.disk.files, config.networkId)
  {
    assert 5 in w.disk.files && 6 in w.disk.files && !IsLowest(w.disk.files, 6);
    assert w.disk.files[6].descriptor.body.transition.Genesis?;
  }

  /** A run that halts the store with evidence no third party can check: the
      stored descriptor's file was gone when the marker was written. */
  lemma EvidenceCanLackTheStored(rules: Rules, config: Config, v: Verified, other: Verified)
    returns (events: seq<Event>)
    requires Sound(rules) && Bootstraps(rules, config, v) && Bootstraps(rules, config, other)
    requires v.Epoch() == other.Epoch() && v.digest != other.digest
    ensures
      var marker := Run(rules, EMPTY, events).disk.marker;
      && marker.Some? && marker.value.Complete?
      && marker.value.evidence.stored == None && marker.value.evidence.offered == other.descriptor
      && Run(rules, EMPTY, events).accepted == [v]
  {
    OpensOne(rules, config);
    var w0 := Run(rules, EMPTY, [Open(0, config)]);
    BlankAppends(rules, w0, 0, v);
    var halting := [Delete(v.Epoch()), Begin(0, Some(other.descriptor)), Mark(0, Written)];
    events := [Open(0, config)] + Appending(0, v) + halting;
    RunParts(rules, EMPTY, [Open(0, config)], Appending(0, v), halting);
    DeletesAndHalts(rules, Appended(w0, 0, v), v, other);
  }

  lemma DeletesAndHalts(rules: Rules, w: World, v: Verified, other: Verified)
    requires Sound(rules) && 0 in w.processes && w.lock.None? && w.disk.marker.None?
    requires w.disk.files == map[v.Epoch() := Whole(v.descriptor)]
    requires w.processes[0].phase.Idle? && w.processes[0].memory == Memory([v], false)
    requires Bootstraps(rules, w.processes[0].config, v) && Bootstraps(rules, w.processes[0].config, other)
    requires v.Epoch() == other.Epoch() && v.digest != other.digest
    ensures
      var w' := Run(rules, w, [Delete(v.Epoch()), Begin(0, Some(other.descriptor)), Mark(0, Written)]);
      w'.disk.marker == Some(Complete(Evidence(v.Epoch(), v.digest, other.digest, None, other.descriptor)))
      && w'.accepted == w.accepted
  {
    RunThree(rules, w, Delete(v.Epoch()), Begin(0, Some(other.descriptor)), Mark(0, Written));
    HaltsWithoutFile(rules, Deleting(w, v.Epoch()), v, other);
  }

  lemma HaltsWithoutFile(rules: Rules, w: World, v: Verified, other: Verified)
    requires Sound(rules) && 0 in w.processes && w.lock.None? && w.disk.marker.None? && w.disk.files == map[]
    requires w.processes[0].phase.Idle? && w.processes[0].memory == Memory([v], false)
    requires Bootstraps(rules, w.processes[0].config, v) && Bootstraps(rules, w.processes[0].config, other)
    requires v.Epoch() == other.Epoch() && v.digest != other.digest
    ensures
      var w' := MarkingStep(Beginning(rules, w, 0, Some(other.descriptor)), 0, Written);
      w'.disk.marker == Some(Complete(Evidence(v.Epoch(), v.digest, other.digest, None, other.descriptor)))
      && w'.accepted == w.accepted
  {
    var pr := w.processes[0];
    assert Adopt(rules, pr.config.networkId, [v], w.disk.files) == ([v], true);
    assert SlotFrom([v], other.Epoch(), 0) == Some(0);
    assert Decide(rules, pr.config, [v], w.disk, Some(other.descriptor)) == Equivocates(v, other);
  }

  /** A power loss that takes the marker undoes the halt: what the files load to
      is served again. */
  lemma PowerLossCanUnhalt(rules: Rules, w: World, networkId: string, lost: bool)
    requires Sound(rules) && w.disk.marker.Some?
    ensures
      var w' := Run(rules, w, [PowerLoss(lost, true, {})]);
      && Opened(rules, networkId, w.disk) == Some(Memory([], true))
      && Opened(rules, networkId, w'.disk) ==
         (match Load(rules, networkId, w.disk.files, Ascending(w.disk.files.Keys), [])
          case None => None
          case Some(epochs) => Some(Memory(epochs, false)))
  {
    assert [PowerLoss(lost, true, {})][1..] == [];
    assert Damaged(w, {}) == w.disk.files;
  }
}
