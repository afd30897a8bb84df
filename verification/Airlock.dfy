/** One release epoch's mailbox at an entry operator.

    A column is the ciphertext region of a mix cell; the fresh padding after it
    is left out. Sessions and deposit identifiers are 32-byte values read as
    numbers. What the mix library decides is a parameter. */
module Airlock {
  import opened Options
  import opened Instants
  import opened Bytes
  import opened Ordering
  import opened Images
  import opened ReleaseSchedule
  import opened ColumnShuffle

  type Session = nat
  type Id = nat
  type Column = String

  datatype Mix = Mix(
    depositID: (Session, nat) -> Id,
    wellFormed: Column -> bool,
    parses: Column -> bool,
    digest: seq<Column> -> nat)

  /** The sessions and sequence numbers at hand. */
  type Slots = set<(Session, nat)>

  /** The hash does not collide on these slots, and a column that passes the arrival
      check parses. */
  ghost predicate Sound(mix: Mix, slots: Slots) {
    && (forall s, q, s', q' | (s, q) in slots && (s', q') in slots && mix.depositID(s, q) == mix.depositID(s', q') ::
          s == s' && q == q')
    && (forall c :: mix.wellFormed(c) ==> mix.parses(c))
  }

  datatype Box = Box(
    schedule: Schedule, epoch: nat, opens: Instant, closes: Instant,
    deposits: map<Id, Column>, sessions: map<Session, nat>, cover: seq<Column>,
    closed: bool, droppedFull: nat, droppedSession: nat)

  function Spent(sessions: map<Session, nat>, session: Session): nat {
    if session in sessions then sessions[session] else 0
  }

  /** A mailbox as `New` makes it, given its freshly encrypted cover. */
  function Opened(schedule: Schedule, epoch: nat, cover: seq<Column>): Option<Box> {
    var window := schedule.DepositWindow(epoch);
    if window.None? then None
    else Some(Box(schedule, epoch, window.value.0, window.value.1, map[], map[], cover, false, 0, 0))
  }

  /** What never changes about an open mailbox. */
  ghost predicate Usable(mix: Mix, box: Box) {
    && box.schedule.Valid() && box.epoch <= box.schedule.MaxEpoch()
    && box.opens == box.schedule.Opens(box.epoch) && box.closes == box.schedule.Closes(box.epoch)
    && |box.cover| == box.schedule.batchSize
    && forall i :: 0 <= i < |box.cover| ==> mix.parses(box.cover[i])
  }

  predicate SameTerms(box: Box, box': Box) {
    && box'.schedule == box.schedule && box'.epoch == box.epoch && box'.opens == box.opens
    && box'.closes == box.closes && box'.cover == box.cover
  }

  datatype Outcome = Done | AlreadySealed | WindowClosed | Conflict | Malformed

  function AfterDeposit(mix: Mix, box: Box, session: Session, sequence: nat, payload: Column, now: Instant)
    : (Box, Outcome)
  {
    var id := mix.depositID(session, sequence);
    if box.closed then (box, AlreadySealed)
    else if now < box.opens || box.closes <= now then (box, WindowClosed)
    else if id in box.deposits then
      (box, if box.deposits[id] == payload then Done else Conflict)
    else if Spent(box.sessions, session) >= box.schedule.maxDepositsPerSession then
      (box.(droppedSession := box.droppedSession + 1), Done)
    else if |box.deposits| >= box.schedule.batchSize then
      (box.(droppedFull := box.droppedFull + 1), Done)
    else if !mix.wellFormed(payload) then (box, Malformed)
    else
      (box.(deposits := box.deposits[id := payload],
            sessions := box.sessions[session := Spent(box.sessions, session) + 1]), Done)
  }

  datatype Batch = Batch(releaseEpoch: nat, digest: nat, columns: seq<Column>)
  datatype Sealing = Sealed(batch: Batch) | Refused(reason: Outcome) | TooEarly | Broken

  function Held(deposits: map<Id, Column>): Id --> Column {
    id requires id in deposits => deposits[id]
  }

  function Chosen(deposits: map<Id, Column>, ids: seq<Id>): (r: seq<Column>)
    requires forall id <- ids :: id in deposits
    ensures |r| == |ids|
  {
    Image(Held(deposits), ids)
  }

  /** Deposits by identifier, then cover up to the fixed size. */
  ghost function Filled(box: Box): seq<Column> {
    Chosen(box.deposits, Ascending(box.deposits.Keys))
    + (if |box.deposits| < |box.cover| then box.cover[|box.deposits|..] else [])
  }

  ghost function AfterSeal(mix: Mix, box: Box, now: Instant, draws: seq<Option<nat>>): (Box, Sealing) {
    var release := box.schedule.ReleaseAt(box.epoch);
    if box.closed then (box, Refused(AlreadySealed))
    else if now < box.closes then (box, TooEarly)
    else if release.None? then (box, Broken)
    else if release.value <= now then (box, Refused(WindowClosed))
    else
      var columns := Filled(box);
      if !Answered(draws, |columns|) then (box, Broken)
      else
        var shuffled := Shuffled(columns, Values(draws, |columns|));
        if exists c <- shuffled :: !mix.parses(c) then (box, Broken)
        else (box.(closed := true), Sealed(Batch(box.epoch, mix.digest(shuffled), shuffled)))
  }

  // --- The ledger: what a mailbox means, without identifiers, counters or maps ----------------

  datatype Entry = Entry(session: Session, sequence: nat, payload: Column)
  datatype Event = Offer(entry: Entry, now: Instant) | Close(now: Instant, draws: seq<Option<nat>>)
  datatype Ledger = Ledger(entries: seq<Entry>, closed: bool)

  function Find(entries: seq<Entry>, session: Session, sequence: nat): Option<Column> {
    if entries == [] then None
    else
      var last := entries[|entries| - 1];
      if last.session == session && last.sequence == sequence then Some(last.payload)
      else Find(entries[..|entries| - 1], session, sequence)
  }

  function CountOf(entries: seq<Entry>, session: Session): nat {
    if entries == [] then 0
    else
      CountOf(entries[..|entries| - 1], session)
      + (if entries[|entries| - 1].session == session then 1 else 0)
  }

  function Recorded(mix: Mix, schedule: Schedule, epoch: nat, ledger: Ledger, event: Event): (Ledger, Outcome)
    requires schedule.Valid()
  {
    match event
    case Offer(e, now) =>
      if ledger.closed then (ledger, AlreadySealed)
      else if !(schedule.Opens(epoch) <= now < schedule.Closes(epoch)) then (ledger, WindowClosed)
      else if Find(ledger.entries, e.session, e.sequence).Some? then
        (ledger, if Find(ledger.entries, e.session, e.sequence) == Some(e.payload) then Done else Conflict)
      else if CountOf(ledger.entries, e.session) >= schedule.maxDepositsPerSession
           || |ledger.entries| >= schedule.batchSize then (ledger, Done)
      else if !mix.wellFormed(e.payload) then (ledger, Malformed)
      else (ledger.(entries := ledger.entries + [e]), Done)
    case Close(now, draws) =>
      var seals := schedule.Closes(epoch) <= now < schedule.Releases(epoch) && Answered(draws, schedule.batchSize);
      (ledger.(closed := ledger.closed || seals), Done)
  }

  predicate NoRepeat(entries: seq<Entry>) {
    entries == []
    || (var init, last := entries[..|entries| - 1], entries[|entries| - 1];
        NoRepeat(init) && Find(init, last.session, last.sequence).None?)
  }

  predicate Named(entries: seq<Entry>, slots: Slots) {
    forall i | 0 <= i < |entries| :: (entries[i].session, entries[i].sequence) in slots
  }

  function Indexed(mix: Mix, entries: seq<Entry>): map<Id, Column> {
    if entries == [] then map[]
    else
      var last := entries[|entries| - 1];
      Indexed(mix, entries[..|entries| - 1])[mix.depositID(last.session, last.sequence) := last.payload]
  }

  /** The mailbox holds exactly the ledger's entries, each charged to its session. */
  ghost predicate Represents(mix: Mix, slots: Slots, box: Box, ledger: Ledger) {
    && NoRepeat(ledger.entries) && Named(ledger.entries, slots)
    && box.deposits == Indexed(mix, ledger.entries)
    && (forall s :: Spent(box.sessions, s) == CountOf(ledger.entries, s))
    && (forall e <- ledger.entries :: mix.wellFormed(e.payload))
    && |ledger.entries| <= box.schedule.batchSize
    && (forall s :: CountOf(ledger.entries, s) <= box.schedule.maxDepositsPerSession)
    && box.closed == ledger.closed
  }

  lemma {:induction false} IndexedFinds(mix: Mix, slots: Slots, entries: seq<Entry>, session: Session, sequence: nat)
    requires Named(entries, slots) && (session, sequence) in slots
    requires Sound(mix, slots)
    ensures var id := mix.depositID(session, sequence);
            && (id in Indexed(mix, entries) <==> Find(entries, session, sequence).Some?)
            && (id in Indexed(mix, entries) ==> Find(entries, session, sequence) == Some(Indexed(mix, entries)[id]))
  {
    if entries != [] {
      IndexedFinds(mix, slots, entries[..|entries| - 1], session, sequence);
    }
  }

  lemma {:induction false} IndexedSize(mix: Mix, slots: Slots, entries: seq<Entry>)
    requires Named(entries, slots)
    requires Sound(mix, slots) && NoRepeat(entries)
    ensures |Indexed(mix, entries)| == |entries|
  {
    if entries != [] {
      var init, last := entries[..|entries| - 1], entries[|entries| - 1];
      IndexedSize(mix, slots, init);
      IndexedFinds(mix, slots, init, last.session, last.sequence);
    }
  }

  lemma Extended(mix: Mix, entries: seq<Entry>, e: Entry)
    requires NoRepeat(entries) && Find(entries, e.session, e.sequence).None?
    ensures NoRepeat(entries + [e])
    ensures Indexed(mix, entries + [e]) == Indexed(mix, entries)[mix.depositID(e.session, e.sequence) := e.payload]
    ensures forall s :: CountOf(entries + [e], s) == CountOf(entries, s) + (if s == e.session then 1 else 0)
  {
    assert (entries + [e])[..|entries|] == entries;
  }

  lemma StoreRefines(mix: Mix, slots: Slots, box: Box, ledger: Ledger, e: Entry)
    requires (e.session, e.sequence) in slots
    requires Sound(mix, slots) && Represents(mix, slots, box, ledger)
    requires Find(ledger.entries, e.session, e.sequence).None?
    requires CountOf(ledger.entries, e.session) < box.schedule.maxDepositsPerSession
    requires |ledger.entries| < box.schedule.batchSize && mix.wellFormed(e.payload)
    ensures Represents(
              mix, slots, box.(deposits := box.deposits[mix.depositID(e.session, e.sequence) := e.payload],
                        sessions := box.sessions[e.session := Spent(box.sessions, e.session) + 1]),
              ledger.(entries := ledger.entries + [e]))
  {
    Extended(mix, ledger.entries, e);
  }

  predicate Known(mix: Mix, box: Box, ledger: Ledger, e: Entry) {
    var id := mix.depositID(e.session, e.sequence);
    && |box.deposits| == |ledger.entries|
    && Find(ledger.entries, e.session, e.sequence) == (if id in box.deposits then Some(box.deposits[id]) else None)
    && Spent(box.sessions, e.session) == CountOf(ledger.entries, e.session)
    && box.closed == ledger.closed
  }

  predicate Stores(mix: Mix, box: Box, e: Entry, now: Instant) {
    && !box.closed && box.opens <= now < box.closes && mix.depositID(e.session, e.sequence) !in box.deposits
    && Spent(box.sessions, e.session) < box.schedule.maxDepositsPerSession
    && |box.deposits| < box.schedule.batchSize && mix.wellFormed(e.payload)
  }

  lemma AnswersAgree(mix: Mix, box: Box, ledger: Ledger, e: Entry, now: Instant)
    requires Known(mix, box, ledger, e) && box.schedule.Valid()
    requires box.opens == box.schedule.Opens(box.epoch) && box.closes == box.schedule.Closes(box.epoch)
    ensures var (box', outcome) := AfterDeposit(mix, box, e.session, e.sequence, e.payload, now);
            var (ledger', promised) := Recorded(mix, box.schedule, box.epoch, ledger, Offer(e, now));
            && outcome == promised && SameTerms(box, box')
            && ledger' == (if Stores(mix, box, e, now) then ledger.(entries := ledger.entries + [e]) else ledger)
            && (!Stores(mix, box, e, now) ==>
                  && box'.deposits == box.deposits && box'.sessions == box.sessions && box'.closed == box.closed)
  {
  }

  /** One deposit on the real maps is one step of the ledger, with the same answer. */
  lemma DepositRefines(mix: Mix, slots: Slots, box: Box, ledger: Ledger, e: Entry, now: Instant)
    requires (e.session, e.sequence) in slots
    requires Sound(mix, slots) && Usable(mix, box) && Represents(mix, slots, box, ledger)
    ensures var (box', outcome) := AfterDeposit(mix, box, e.session, e.sequence, e.payload, now);
            var (ledger', promised) := Recorded(mix, box.schedule, box.epoch, ledger, Offer(e, now));
            outcome == promised && Represents(mix, slots, box', ledger') && SameTerms(box, box')
  {
    IndexedFinds(mix, slots, ledger.entries, e.session, e.sequence);
    IndexedSize(mix, slots, ledger.entries);
    AnswersAgree(mix, box, ledger, e, now);
    if Stores(mix, box, e, now) {
      StoreRefines(mix, slots, box, ledger, e);
    }
  }

  // --- Sealing ----------------------------------------------------------------------------------

  function Payloads(entries: seq<Entry>): (r: seq<Column>)
    ensures |r| == |entries|
  {
    seq(|entries|, i requires 0 <= i < |entries| => entries[i].payload)
  }

  function Ids(mix: Mix, entries: seq<Entry>): (r: seq<Id>)
    ensures |r| == |entries|
  {
    seq<Id>(|entries|, i requires 0 <= i < |entries| => mix.depositID(entries[i].session, entries[i].sequence))
  }

  lemma {:induction false} Listed(mix: Mix, slots: Slots, entries: seq<Entry>)
    requires Named(entries, slots)
    requires Sound(mix, slots) && NoRepeat(entries)
    ensures var ids, m := Ids(mix, entries), Indexed(mix, entries);
            && Distinct(ids) && (forall id :: id in m <==> id in ids)
            && Chosen(m, ids) == Payloads(entries)
  {
    if entries == [] {
      return;
    }
    var init, last := entries[..|entries| - 1], entries[|entries| - 1];
    var id := mix.depositID(last.session, last.sequence);
    Listed(mix, slots, init);
    IndexedFinds(mix, slots, init, last.session, last.sequence);
    assert Ids(mix, entries) == Ids(mix, init) + [id];
    assert Payloads(entries) == Payloads(init) + [last.payload];
    SnocChosen(Indexed(mix, init), Ids(mix, init), id, last.payload);
  }

  lemma SnocChosen(m: map<Id, Column>, ids: seq<Id>, id: Id, payload: Column)
    requires Distinct(ids) && id !in m && forall x :: x in m <==> x in ids
    ensures Distinct(ids + [id]) && (forall x :: x in m[id := payload] <==> x in ids + [id])
    ensures Chosen(m[id := payload], ids + [id]) == Chosen(m, ids) + [payload]
  {
    forall i | 0 <= i < |ids| ensures ids[i] != id {
      assert ids[i] in ids;
    }
  }

  lemma {:induction false} DistinctCounts(a: seq<Id>, x: Id)
    requires Distinct(a)
    ensures multiset(a)[x] == if x in a then 1 else 0
  {
    if a != [] {
      var init, last := a[..|a| - 1], a[|a| - 1];
      assert a == init + [last];
      DistinctCounts(init, x);
    }
  }

  lemma SameMembers(a: seq<Id>, b: seq<Id>)
    requires Distinct(a) && Distinct(b) && forall x :: x in a <==> x in b
    ensures multiset(a) == multiset(b)
  {
    forall x ensures multiset(a)[x] == multiset(b)[x] {
      DistinctCounts(a, x);
      DistinctCounts(b, x);
    }
  }

  /** A batch before its shuffle: every entry once, and cover for the rest. */
  lemma FilledHoldsEntries(mix: Mix, slots: Slots, box: Box, ledger: Ledger)
    requires Sound(mix, slots) && Represents(mix, slots, box, ledger) && |box.cover| == box.schedule.batchSize
    ensures |box.deposits| == |ledger.entries|
    ensures multiset(Filled(box)) == multiset(Payloads(ledger.entries)) + multiset(box.cover[|ledger.entries|..])
  {
    var ids, sorted := Ids(mix, ledger.entries), Ascending(box.deposits.Keys);
    IndexedSize(mix, slots, ledger.entries);
    Listed(mix, slots, ledger.entries);
    AscendingIsSorted(box.deposits.Keys);
    assert Distinct(sorted);
    SameMembers(sorted, ids);
    ImagePermutes(Held(box.deposits), sorted, ids);
  }

  lemma HeldElsewhere(mix: Mix, slots: Slots, a: seq<Entry>, b: seq<Entry>, id: Id)
    requires Named(a, slots) && Named(b, slots)
    requires Sound(mix, slots) && NoRepeat(a) && NoRepeat(b) && (forall e <- a :: e in b) && id in Indexed(mix, a)
    ensures id in Indexed(mix, b) && Indexed(mix, b)[id] == Indexed(mix, a)[id]
  {
    Listed(mix, slots, a);
    Listed(mix, slots, b);
    var k :| 0 <= k < |a| && Ids(mix, a)[k] == id;
    assert a[k] in b;
    var j :| 0 <= j < |b| && b[j] == a[k];
    assert Ids(mix, b)[j] == id && Chosen(Indexed(mix, b), Ids(mix, b))[j] == Payloads(b)[j];
    assert Chosen(Indexed(mix, a), Ids(mix, a))[k] == Payloads(a)[k];
  }

  /** The batch before its shuffle does not depend on the order of arrival. */
  lemma ArrivalOrderIsForgotten(mix: Mix, slots: Slots, box: Box, ledger: Ledger, box': Box, ledger': Ledger)
    requires Sound(mix, slots) && Represents(mix, slots, box, ledger) && Represents(mix, slots, box', ledger')
    requires box.cover == box'.cover
    requires multiset(ledger.entries) == multiset(ledger'.entries)
    ensures Filled(box) == Filled(box')
  {
    var a, b := ledger.entries, ledger'.entries;
    assert forall e :: e in a <==> e in multiset(a);
    assert forall e :: e in b <==> e in multiset(b);
    forall id | id in box.deposits ensures id in box'.deposits && box'.deposits[id] == box.deposits[id] {
      HeldElsewhere(mix, slots, a, b, id);
    }
    forall id | id in box'.deposits ensures id in box.deposits {
      HeldElsewhere(mix, slots, b, a, id);
    }
    assert box.deposits == box'.deposits;
  }

  lemma PartsParse(mix: Mix, slots: Slots, box: Box, ledger: Ledger, column: Column)
    requires Sound(mix, slots) && Usable(mix, box) && Represents(mix, slots, box, ledger)
    requires column in multiset(Payloads(ledger.entries)) + multiset(box.cover[|ledger.entries|..])
    ensures mix.parses(column)
  {
    if column in multiset(Payloads(ledger.entries)) {
      var i :| 0 <= i < |ledger.entries| && Payloads(ledger.entries)[i] == column;
      assert ledger.entries[i] in ledger.entries;
    } else {
      assert column in box.cover[|ledger.entries|..];
    }
  }

  ghost predicate Holds(batch: Batch, box: Box, ledger: Ledger) {
    && batch.releaseEpoch == box.epoch
    && |batch.columns| == |box.cover| == box.schedule.batchSize && |ledger.entries| <= |box.cover|
    && multiset(batch.columns)
       == multiset(Payloads(ledger.entries)) + multiset(box.cover[|ledger.entries|..])
  }

  lemma ShuffledHolds(mix: Mix, slots: Slots, box: Box, ledger: Ledger, draws: seq<Option<nat>>)
    requires Sound(mix, slots) && Usable(mix, box) && Represents(mix, slots, box, ledger)
    ensures |Filled(box)| == box.schedule.batchSize
    ensures var shuffled := Shuffled(Filled(box), Values(draws, |Filled(box)|));
            && Holds(Batch(box.epoch, mix.digest(shuffled), shuffled), box, ledger)
            && forall c <- shuffled :: mix.parses(c)
  {
    FilledHoldsEntries(mix, slots, box, ledger);
    var columns := Filled(box);
    assert |multiset(columns)| == |columns| == box.schedule.batchSize;
    var values := Values(draws, |columns|);
    ShufflePermutes(columns, values);
    var shuffled := Shuffled(columns, values);
    forall c | c in shuffled ensures mix.parses(c) {
      assert c in multiset(shuffled);
      PartsParse(mix, slots, box, ledger, c);
    }
  }

  /** Sealing happens exactly when the ledger closes, no deposit can prevent it,
      and the batch has the fixed size and holds every entry once, else cover. */
  lemma SealRefines(mix: Mix, slots: Slots, box: Box, ledger: Ledger, now: Instant, draws: seq<Option<nat>>)
    requires Sound(mix, slots) && Usable(mix, box) && Represents(mix, slots, box, ledger)
    ensures var (box', r) := AfterSeal(mix, box, now, draws);
            var ledger' := Recorded(mix, box.schedule, box.epoch, ledger, Close(now, draws)).0;
            && Represents(mix, slots, box', ledger') && SameTerms(box, box')
            && (r.Sealed? <==> !ledger.closed && ledger'.closed)
            && (r.Sealed? ==> Holds(r.batch, box, ledger))
  {
    ReleaseIs(box.schedule, box.epoch);
    ShuffledHolds(mix, slots, box, ledger, draws);
  }

  // --- Whole runs ---------------------------------------------------------------------------------

  datatype World = World(box: Box, batches: seq<Batch>)

  ghost function Step(mix: Mix, w: World, event: Event): World {
    match event
    case Offer(e, now) =>
      w.(box := AfterDeposit(mix, w.box, e.session, e.sequence, e.payload, now).0)
    case Close(now, draws) =>
      var (box, r) := AfterSeal(mix, w.box, now, draws);
      World(box, if r.Sealed? then w.batches + [r.batch] else w.batches)
  }

  ghost function Run(mix: Mix, start: Box, events: seq<Event>): World {
    if events == [] then World(start, [])
    else Step(mix, Run(mix, start, events[..|events| - 1]), events[|events| - 1])
  }

  function History(mix: Mix, schedule: Schedule, epoch: nat, events: seq<Event>): Ledger
    requires schedule.Valid()
  {
    if events == [] then Ledger([], false)
    else
      Recorded(mix, schedule, epoch, History(mix, schedule, epoch, events[..|events| - 1]), events[|events| - 1]).0
  }

  /** The slots a run offers for. */
  function SlotsOf(events: seq<Event>): Slots {
    if events == [] then {}
    else
      var e := events[|events| - 1];
      SlotsOf(events[..|events| - 1]) + if e.Offer? then {(e.entry.session, e.entry.sequence)} else {}
  }

  ghost predicate Faithful(mix: Mix, slots: Slots, start: Box, w: World, ledger: Ledger) {
    && SameTerms(start, w.box) && Usable(mix, w.box) && Represents(mix, slots, w.box, ledger)
    && |w.batches| == (if ledger.closed then 1 else 0)
    && forall b <- w.batches :: Holds(b, w.box, ledger)
  }

  /** Over every run of deposits and seal attempts the mailbox stands for the
      ledger, seals at most once, and what it sealed is the whole ledger. */
  lemma {:induction false} RunIsFaithful(mix: Mix, slots: Slots, start: Box, events: seq<Event>)
    requires SlotsOf(events) <= slots
    requires Sound(mix, slots) && Usable(mix, start)
    requires Opened(start.schedule, start.epoch, start.cover) == Some(start)
    ensures Faithful(mix, slots, start, Run(mix, start, events), History(mix, start.schedule, start.epoch, events))
  {
    if events != [] {
      var init, event := events[..|events| - 1], events[|events| - 1];
      RunIsFaithful(mix, slots, start, init);
      var w, ledger := Run(mix, start, init), History(mix, start.schedule, start.epoch, init);
      match event {
        case Offer(e, now) => DepositIsFaithful(mix, slots, start, w, ledger, e, now);
        case Close(now, draws) => SealIsFaithful(mix, slots, start, w, ledger, now, draws);
      }
    }
  }

  lemma SealIsFaithful(mix: Mix, slots: Slots, start: Box, w: World, ledger: Ledger, now: Instant,
                       draws: seq<Option<nat>>)
    requires Sound(mix, slots) && Faithful(mix, slots, start, w, ledger)
    ensures Faithful(mix, slots, start, Step(mix, w, Close(now, draws)),
                     Recorded(mix, w.box.schedule, w.box.epoch, ledger, Close(now, draws)).0)
  {
    SealRefines(mix, slots, w.box, ledger, now, draws);
  }

  lemma DepositIsFaithful(mix: Mix, slots: Slots, start: Box, w: World, ledger: Ledger, e: Entry, now: Instant)
    requires (e.session, e.sequence) in slots
    requires Sound(mix, slots) && Faithful(mix, slots, start, w, ledger)
    ensures Faithful(mix, slots, start, Step(mix, w, Offer(e, now)),
                     Recorded(mix, w.box.schedule, w.box.epoch, ledger, Offer(e, now)).0)
  {
    DepositRefines(mix, slots, w.box, ledger, e, now);
  }

  // --- In place -------------------------------------------------------------------------------------

  class Mailbox {
    const mix: Mix
    const schedule: Schedule
    const epoch: nat
    const opens: Instant
    const closes: Instant
    const cover: seq<Column>
    var deposits: map<Id, Column>
    var sessions: map<Session, nat>
    var closed: bool
    var droppedFull: nat
    var droppedSession: nat

    ghost function Contents(): Box
      reads this
    {
      Box(schedule, epoch, opens, closes, deposits, sessions, cover, closed, droppedFull, droppedSession)
    }

    constructor (mix: Mix, schedule: Schedule, epoch: nat, opens: Instant, closes: Instant, cover: seq<Column>)
      ensures this.mix == mix && Contents() == Box(schedule, epoch, opens, closes, map[], map[], cover, false, 0, 0)
    {
      this.mix, this.schedule, this.epoch, this.opens, this.closes := mix, schedule, epoch, opens, closes;
      this.cover, deposits, sessions, closed := cover, map[], map[], false;
      droppedFull, droppedSession := 0, 0;
    }

    method Deposit(session: Session, sequence: nat, payload: Column, now: Instant) returns (outcome: Outcome)
      modifies this
      ensures (Contents(), outcome) == AfterDeposit(mix, old(Contents()), session, sequence, payload, now)
    {
      var id := mix.depositID(session, sequence);
      if closed {
        return AlreadySealed;
      }
      if now < opens || closes <= now {
        return WindowClosed;
      }
      if id in deposits {
        return if deposits[id] != payload then Conflict else Done;
      }
      if Spent(sessions, session) >= schedule.maxDepositsPerSession {
        droppedSession := droppedSession + 1;
        return Done;
      }
      if |deposits| >= schedule.batchSize {
        droppedFull := droppedFull + 1;
        return Done;
      }
      if !mix.wellFormed(payload) {
        return Malformed;
      }
      deposits := deposits[id := payload];
      sessions := sessions[session := Spent(sessions, session) + 1];
      return Done;
    }

    method InOrder() returns (columns: seq<Column>)
      ensures columns == Chosen(deposits, Ascending(deposits.Keys))
    {
      var ids := SortedNumbers(deposits.Keys);
      columns := [];
      for k := 0 to |ids|
        invariant columns == Chosen(deposits, ids[..k])
      {
        assert ids[k] in ids;
        columns := columns + [deposits[ids[k]]];
      }
      assert ids[..|ids|] == ids;
    }

    method Pad(chosen: seq<Column>) returns (columns: seq<Column>)
      requires |cover| == schedule.batchSize
      ensures columns == chosen + (if |chosen| < |cover| then cover[|chosen|..] else [])
    {
      columns := chosen;
      while |columns| < schedule.batchSize
        invariant |chosen| <= |columns| && (|columns| <= |cover| || columns == chosen)
        invariant columns == chosen + (if |chosen| < |cover| then cover[|chosen|..|columns|] else [])
      {
        columns := columns + [cover[|columns|]];
      }
      assert |chosen| < |cover| ==> cover[|chosen|..|columns|] == cover[|chosen|..];
    }

    method Seal(now: Instant, draws: seq<Option<nat>>) returns (r: Sealing)
      requires |cover| == schedule.batchSize
      modifies this
      ensures (Contents(), r) == AfterSeal(mix, old(Contents()), now, draws)
    {
      if closed {
        return Refused(AlreadySealed);
      }
      if now < closes {
        return TooEarly;
      }
      var release := schedule.ReleaseAt(epoch);
      if release.None? {
        return Broken;
      }
      if release.value <= now {
        return Refused(WindowClosed);
      }
      var chosen := InOrder();
      var filled := Pad(chosen);
      AscendingIsSorted(deposits.Keys);
      var columns := new Column[|filled|](i requires 0 <= i < |filled| => filled[i]);
      assert columns[..] == filled;
      var ok := ShuffleColumns(columns, draws);
      if !ok {
        return Broken;
      }
      if exists c <- columns[..] :: !mix.parses(c) {
        return Broken;
      }
      closed := true;
      r := Sealed(Batch(epoch, mix.digest(columns[..]), columns[..]));
    }
  }

  /** `encrypted(i)` is the i-th encryption of the empty fragment, if it succeeds. */
  method New(mix: Mix, schedule: Schedule, certified: bool, epoch: nat, encrypted: nat -> Option<Column>)
    returns (r: Mailbox?)
    ensures r != null <==> certified && schedule.Valid() && epoch <= schedule.MaxEpoch()
                           && forall i :: 0 <= i < schedule.batchSize ==> encrypted(i).Some?
    ensures r != null ==>
              && fresh(r) && r.mix == mix && |r.cover| == schedule.batchSize
              && (forall i :: 0 <= i < schedule.batchSize ==> encrypted(i) == Some(r.cover[i]))
              && Opened(schedule, epoch, r.cover) == Some(r.Contents())
              && r.opens == schedule.Opens(epoch) && r.closes == schedule.Closes(epoch)
  {
    if !schedule.Valid() || !certified {
      return null;
    }
    var window := schedule.DepositWindow(epoch);
    if window.None? {
      return null;
    }
    WindowIs(schedule, epoch);
    var cover: seq<Column> := [];
    for index := 0 to schedule.batchSize
      invariant |cover| == index
      invariant forall i :: 0 <= i < index ==> encrypted(i) == Some(cover[i])
    {
      var column := encrypted(index);
      if column.None? {
        return null;
      }
      cover := cover + [column.value];
    }
    r := new Mailbox(mix, schedule, epoch, window.value.0, window.value.1, cover);
  }
}
