/** Whole runs of the entry service: arriving cells, turns of the maintenance loop,
    and a new mailbox for each epoch. Writes, encryption and the random source work. */
module EntryRuns {
  import opened Options
  import opened Instants
  import opened Ordering
  import opened ReleaseSchedule
  import opened SealClock
  import A = Airlock
  import E = EntryService
  import ColumnShuffle

  datatype Event =
    | Arrive(entry: A.Entry, now: Instant)
    | Turn(now: Instant, draws: seq<Option<nat>>, cover: seq<A.Column>)

  /** A stay on one epoch: the mailbox it opened with and what came to it since. */
  datatype Visit = Visit(start: A.Box, trace: seq<A.Event>)
  datatype Service = Service(past: seq<Visit>, current: Visit)

  ghost function World(mix: A.Mix, v: Visit): A.World {
    A.Run(mix, v.start, v.trace)
  }

  function Book(mix: A.Mix, v: Visit): A.Ledger
    requires v.start.schedule.Valid()
  {
    A.History(mix, v.start.schedule, v.start.epoch, v.trace)
  }

  function Visits(x: Service): seq<Visit> {
    x.past + [x.current]
  }

  /** All batches written, in order. */
  ghost function Written(mix: A.Mix, visits: seq<Visit>): seq<A.Batch> {
    if visits == [] then []
    else Written(mix, visits[..|visits| - 1]) + World(mix, visits[|visits| - 1]).batches
  }

  function Later(v: Visit, e: A.Event): Visit {
    v.(trace := v.trace + [e])
  }

  function Step(s: Schedule, x: Service, e: Event): Service {
    match e
    case Arrive(entry, now) => x.(current := Later(x.current, A.Offer(entry, now)))
    case Turn(now, draws, cover) =>
      var sealed := Later(x.current, A.Close(now, draws));
      var epoch := s.EpochAt(now);
      if epoch.None? || epoch.value == x.current.start.epoch then x.(current := sealed)
      else
        var box := A.Opened(s, epoch.value, cover);
        if box.None? then x.(current := sealed) else Service(x.past + [sealed], Visit(box.value, []))
  }

  function Run(s: Schedule, start: Service, events: seq<Event>): Service {
    if events == [] then start else Step(s, Run(s, start, events[..|events| - 1]), events[|events| - 1])
  }

  function Ticks(events: seq<Event>): seq<Instant> {
    if events == [] then []
    else
      var e := events[|events| - 1];
      Ticks(events[..|events| - 1]) + if e.Turn? then [e.now] else []
  }

  function SlotsOf(events: seq<Event>): A.Slots {
    if events == [] then {}
    else
      var e := events[|events| - 1];
      SlotsOf(events[..|events| - 1]) + if e.Arrive? then {(e.entry.session, e.entry.sequence)} else {}
  }

  /** The random source answers and the next mailbox gets its cover. */
  predicate Works(mix: A.Mix, s: Schedule, e: Event) {
    e.Turn? ==>
      && |e.cover| == s.batchSize && ColumnShuffle.Answered(e.draws, |e.cover|)
      && forall i | 0 <= i < |e.cover| :: mix.parses(e.cover[i])
  }

  // --- The service as its clock sees it ----------------------------------------------------------

  ghost function Reading(mix: A.Mix, x: Service): Clock {
    Clock(x.current.start.epoch, World(mix, x.current).box.closed, E.Epochs(Written(mix, Visits(x))))
  }

  ghost predicate Proper(mix: A.Mix, slots: A.Slots, s: Schedule, v: Visit) {
    && v.start.schedule == s && A.Usable(mix, v.start)
    && A.Opened(s, v.start.epoch, v.start.cover) == Some(v.start) && A.SlotsOf(v.trace) <= slots
  }

  lemma ProperLater(mix: A.Mix, slots: A.Slots, s: Schedule, v: Visit, e: A.Event)
    requires Proper(mix, slots, s, v) && (e.Offer? ==> (e.entry.session, e.entry.sequence) in slots)
    ensures Proper(mix, slots, s, Later(v, e)) && World(mix, Later(v, e)) == A.Step(mix, World(mix, v), e)
  {
    assert (v.trace + [e])[..|v.trace|] == v.trace;
  }

  lemma WrittenLater(mix: A.Mix, past: seq<Visit>, v: Visit)
    ensures Written(mix, past + [v]) == Written(mix, past) + World(mix, v).batches
  {
    assert (past + [v])[..|past|] == past;
  }

  lemma ArrivalIsQuiet(mix: A.Mix, slots: A.Slots, s: Schedule, x: Service, entry: A.Entry, now: Instant)
    requires Proper(mix, slots, s, x.current) && (entry.session, entry.sequence) in slots
    ensures Reading(mix, Step(s, x, Arrive(entry, now))) == Reading(mix, x)
  {
    var later := Later(x.current, A.Offer(entry, now));
    ProperLater(mix, slots, s, x.current, A.Offer(entry, now));
    OfferIsQuiet(mix, World(mix, x.current), entry, now);
    WrittenLater(mix, x.past, x.current);
    WrittenLater(mix, x.past, later);
  }

  lemma OfferIsQuiet(mix: A.Mix, w: A.World, entry: A.Entry, now: Instant)
    ensures var w' := A.Step(mix, w, A.Offer(entry, now)); w'.batches == w.batches && w'.box.closed == w.box.closed
  {
  }

  /** One attempt to seal, on all that was written before. */
  lemma CloseTurns(mix: A.Mix, slots: A.Slots, w: A.World, book: A.Ledger, before: seq<A.Batch>,
                   now: Instant, draws: seq<Option<nat>>)
    requires A.Sound(mix, slots) && A.Usable(mix, w.box) && A.Represents(mix, slots, w.box, book)
    requires ColumnShuffle.Answered(draws, w.box.schedule.batchSize)
    ensures
      var w' := A.Step(mix, w, A.Close(now, draws));
      && w'.box.epoch == w.box.epoch
      && Clock(w.box.epoch, w'.box.closed, E.Epochs(before + w'.batches))
         == Sealed(w.box.schedule, Clock(w.box.epoch, w.box.closed, E.Epochs(before + w.batches)), now)
  {
    A.SealRefines(mix, slots, w.box, book, now, draws);
    E.SealIsATurn(mix, slots, w.box, book, before + w.batches, now, draws);
    var r := A.AfterSeal(mix, w.box, now, draws).1;
    if r.Sealed? {
      assert before + (w.batches + [r.batch]) == before + w.batches + [r.batch];
    }
  }

  lemma SealTurns(mix: A.Mix, slots: A.Slots, s: Schedule, x: Service, now: Instant, draws: seq<Option<nat>>)
    requires A.Sound(mix, slots) && Proper(mix, slots, s, x.current) && ColumnShuffle.Answered(draws, s.batchSize)
    ensures Reading(mix, x.(current := Later(x.current, A.Close(now, draws)))) == Sealed(s, Reading(mix, x), now)
  {
    var v := x.current;
    var later := Later(v, A.Close(now, draws));
    A.RunIsFaithful(mix, slots, v.start, v.trace);
    ProperLater(mix, slots, s, v, A.Close(now, draws));
    WrittenLater(mix, x.past, v);
    WrittenLater(mix, x.past, later);
    CloseTurns(mix, slots, World(mix, v), Book(mix, v), Written(mix, x.past), now, draws);
  }

  lemma RollStartsFresh(mix: A.Mix, s: Schedule, x: Service, box: A.Box)
    requires A.Opened(s, box.epoch, box.cover) == Some(box)
    ensures Reading(mix, Service(x.past + [x.current], Visit(box, [])))
         == Clock(box.epoch, false, Reading(mix, x).log)
  {
    WrittenLater(mix, x.past + [x.current], Visit(box, []));
    assert Written(mix, Visits(x)) + [] == Written(mix, Visits(x));
  }

  lemma OpensProper(mix: A.Mix, slots: A.Slots, s: Schedule, epoch: nat, cover: seq<A.Column>)
    requires s.Valid() && epoch <= s.MaxEpoch() && |cover| == s.batchSize
    requires forall i | 0 <= i < |cover| :: mix.parses(cover[i])
    ensures A.Opened(s, epoch, cover).Some?
    ensures var box := A.Opened(s, epoch, cover).value;
            box.epoch == epoch && box.cover == cover && Proper(mix, slots, s, Visit(box, []))
  {
    WindowIs(s, epoch);
  }

  /** A turn of the loop is one tick of the clock. */
  lemma TurnIsTick(mix: A.Mix, slots: A.Slots, s: Schedule, x: Service, e: Event)
    requires A.Sound(mix, slots) && Proper(mix, slots, s, x.current) && e.Turn? && Works(mix, s, e) && s.Valid()
    ensures Reading(mix, Step(s, x, e)) == Ticked(s, Reading(mix, x), e.now)
  {
    SealTurns(mix, slots, s, x, e.now, e.draws);
    var sealed := x.(current := Later(x.current, A.Close(e.now, e.draws)));
    var epoch := s.EpochAt(e.now);
    if epoch.Some? && epoch.value != x.current.start.epoch {
      EpochSpansInstant(s, e.now, epoch.value);
      OpensProper(mix, slots, s, epoch.value, e.cover);
      RollStartsFresh(mix, s, sealed, A.Opened(s, epoch.value, e.cover).value);
    }
  }

  // --- Over runs -----------------------------------------------------------------------------------

  function EpochsOf(visits: seq<Visit>): seq<nat> {
    seq(|visits|, i requires 0 <= i < |visits| => visits[i].start.epoch)
  }

  ghost predicate Inv(mix: A.Mix, slots: A.Slots, s: Schedule, begun: Instant, gap: int, x: Service, now: Instant) {
    && SealClock.Inv(s, begun, gap, Reading(mix, x), now)
    && Increasing(EpochsOf(Visits(x)))
    && forall i | 0 <= i < |Visits(x)| :: Proper(mix, slots, s, Visits(x)[i])
  }

  lemma VisitsAfter(mix: A.Mix, slots: A.Slots, s: Schedule, x: Service, later: Visit)
    requires Increasing(EpochsOf(Visits(x))) && later.start.epoch == x.current.start.epoch
    requires forall i | 0 <= i < |Visits(x)| :: Proper(mix, slots, s, Visits(x)[i])
    requires Proper(mix, slots, s, later)
    ensures var y := x.(current := later);
            Increasing(EpochsOf(Visits(y))) && forall i | 0 <= i < |Visits(y)| :: Proper(mix, slots, s, Visits(y)[i])
  {
    var y := x.(current := later);
    assert EpochsOf(Visits(y)) == EpochsOf(Visits(x));
    forall i | 0 <= i < |Visits(y)| ensures Proper(mix, slots, s, Visits(y)[i]) {
      assert i < |x.past| ==> Visits(y)[i] == Visits(x)[i];
    }
  }

  lemma VisitsAppend(mix: A.Mix, slots: A.Slots, s: Schedule, x: Service, next: Visit)
    requires Increasing(EpochsOf(Visits(x))) && x.current.start.epoch < next.start.epoch
    requires forall i | 0 <= i < |Visits(x)| :: Proper(mix, slots, s, Visits(x)[i])
    requires Proper(mix, slots, s, next)
    ensures var y := Service(Visits(x), next);
            Increasing(EpochsOf(Visits(y))) && forall i | 0 <= i < |Visits(y)| :: Proper(mix, slots, s, Visits(y)[i])
  {
    var y, epochs := Service(Visits(x), next), EpochsOf(Visits(x));
    assert EpochsOf(Visits(y)) == epochs + [next.start.epoch];
    forall e | e in epochs ensures e < next.start.epoch {
      var i :| 0 <= i < |epochs| && epochs[i] == e;
      assert i < |x.past| ==> epochs[i] < epochs[|x.past|];
    }
    SnocIncreases(epochs, next.start.epoch);
  }

  lemma ArriveKeeps(mix: A.Mix, slots: A.Slots, s: Schedule, begun: Instant, gap: int, x: Service, e: Event,
                    now: Instant)
    requires A.Sound(mix, slots) && Inv(mix, slots, s, begun, gap, x, now) && e.Arrive?
    requires (e.entry.session, e.entry.sequence) in slots
    ensures Inv(mix, slots, s, begun, gap, Step(s, x, e), now)
  {
    assert Visits(x)[|x.past|] == x.current;
    ArrivalIsQuiet(mix, slots, s, x, e.entry, e.now);
    ProperLater(mix, slots, s, x.current, A.Offer(e.entry, e.now));
    VisitsAfter(mix, slots, s, x, Later(x.current, A.Offer(e.entry, e.now)));
  }

  lemma TurnKeeps(mix: A.Mix, slots: A.Slots, s: Schedule, begun: Instant, gap: int, x: Service, e: Event, now: Instant)
    requires A.Sound(mix, slots) && s.Valid() && Covers(s, gap) && Inv(mix, slots, s, begun, gap, x, now)
    requires e.Turn? && Works(mix, s, e) && now <= e.now <= now + gap
    ensures Inv(mix, slots, s, begun, gap, Step(s, x, e), e.now)
  {
    assert Visits(x)[|x.past|] == x.current;
    var c := Reading(mix, x);
    TurnIsTick(mix, slots, s, x, e);
    TickKeeps(s, begun, gap, c, now, e.now);
    EpochNeverFalls(s, begun, gap, c, now, e.now);
    TurnKeepsVisits(mix, slots, s, x, e, Ticked(s, c, e.now).epoch);
  }

  lemma TurnKeepsVisits(mix: A.Mix, slots: A.Slots, s: Schedule, x: Service, e: Event, next: nat)
    requires s.Valid() && e.Turn? && Works(mix, s, e) && Increasing(EpochsOf(Visits(x)))
    requires forall i | 0 <= i < |Visits(x)| :: Proper(mix, slots, s, Visits(x)[i])
    requires next == Step(s, x, e).current.start.epoch && x.current.start.epoch <= next
    ensures var y := Step(s, x, e);
            Increasing(EpochsOf(Visits(y))) && forall i | 0 <= i < |Visits(y)| :: Proper(mix, slots, s, Visits(y)[i])
  {
    assert Visits(x)[|x.past|] == x.current;
    var close := A.Close(e.now, e.draws);
    ProperLater(mix, slots, s, x.current, close);
    VisitsAfter(mix, slots, s, x, Later(x.current, close));
    var epoch := s.EpochAt(e.now);
    if epoch.Some? && epoch.value != x.current.start.epoch {
      EpochSpansInstant(s, e.now, epoch.value);
      OpensProper(mix, slots, s, epoch.value, e.cover);
      VisitsAppend(mix, slots, s, x.(current := Later(x.current, close)),
                   Visit(A.Opened(s, epoch.value, e.cover).value, []));
    }
  }

  lemma {:induction false} RunKeeps(mix: A.Mix, slots: A.Slots, s: Schedule, begun: Instant, gap: int,
                                    start: Service, events: seq<Event>)
    requires A.Sound(mix, slots) && s.Valid() && Covers(s, gap) && Inv(mix, slots, s, begun, gap, start, begun)
    requires Paced(begun, Ticks(events), gap) && SlotsOf(events) <= slots
    requires forall i | 0 <= i < |events| :: Works(mix, s, events[i])
    ensures Inv(mix, slots, s, begun, gap, Run(s, start, events), LastTick(begun, Ticks(events)))
  {
    if events != [] {
      var init, e := events[..|events| - 1], events[|events| - 1];
      TicksSplit(begun, gap, events);
      assert forall i | 0 <= i < |init| :: init[i] == events[i];
      RunKeeps(mix, slots, s, begun, gap, start, init);
      EventKeeps(mix, slots, s, begun, gap, Run(s, start, init), e, LastTick(begun, Ticks(init)));
    }
  }

  lemma TicksSplit(begun: Instant, gap: int, events: seq<Event>)
    requires events != [] && Paced(begun, Ticks(events), gap)
    ensures
      var init, e := events[..|events| - 1], events[|events| - 1];
      var now := LastTick(begun, Ticks(init));
      && Paced(begun, Ticks(init), gap)
      && LastTick(begun, Ticks(events)) == (if e.Turn? then e.now else now)
      && (e.Turn? ==> now <= e.now <= now + gap)
  {
    var init, e := events[..|events| - 1], events[|events| - 1];
    if e.Turn? {
      assert Ticks(events)[..|Ticks(events)| - 1] == Ticks(init);
    } else {
      assert Ticks(events) == Ticks(init);
    }
  }

  lemma EventKeeps(mix: A.Mix, slots: A.Slots, s: Schedule, begun: Instant, gap: int, x: Service, e: Event,
                   now: Instant)
    requires A.Sound(mix, slots) && s.Valid() && Covers(s, gap) && Inv(mix, slots, s, begun, gap, x, now)
    requires Works(mix, s, e) && (e.Turn? ==> now <= e.now <= now + gap)
    requires e.Arrive? ==> (e.entry.session, e.entry.sequence) in slots
    ensures Inv(mix, slots, s, begun, gap, Step(s, x, e), if e.Turn? then e.now else now)
  {
    match e
    case Arrive(_, _) => ArriveKeeps(mix, slots, s, begun, gap, x, e, now);
    case Turn(_, _, _) => TurnKeeps(mix, slots, s, begun, gap, x, e, now);
  }

  /** The stay on an epoch wrote one batch, of that epoch and of the fixed size, with
      every deposit recorded during it and cover for the rest. */
  ghost predicate SealedWhole(mix: A.Mix, v: Visit, epoch: nat)
    requires v.start.schedule.Valid()
  {
    && v.start.epoch == epoch && |World(mix, v).batches| == 1
    && A.Holds(World(mix, v).batches[0], World(mix, v).box, Book(mix, v))
  }

  lemma BatchesAreWhole(mix: A.Mix, slots: A.Slots, s: Schedule, v: Visit, b: A.Batch)
    requires A.Sound(mix, slots) && s.Valid() && Proper(mix, slots, s, v) && b in World(mix, v).batches
    ensures SealedWhole(mix, v, b.releaseEpoch)
  {
    A.RunIsFaithful(mix, slots, v.start, v.trace);
    assert A.Holds(b, World(mix, v).box, Book(mix, v));
    assert World(mix, v).batches[0] in World(mix, v).batches;
  }

  lemma {:induction false} WrittenDuring(mix: A.Mix, visits: seq<Visit>, b: A.Batch) returns (i: nat)
    requires b in Written(mix, visits)
    ensures i < |visits| && b in World(mix, visits[i]).batches
  {
    var last := |visits| - 1;
    if b in World(mix, visits[last]).batches {
      return last;
    }
    i := WrittenDuring(mix, visits[..last], b);
  }

  /** Cells and turns in any order, turns close enough together: every epoch that
      begins and ends during the run has exactly one stay and exactly one written
      batch, and that batch holds exactly the deposits recorded for the epoch. */
  lemma EveryEpochWrittenWhole(mix: A.Mix, s: Schedule, begun: Instant, gap: int, start: Visit,
                               events: seq<Event>, epoch: nat)
    requires A.Sound(mix, SlotsOf(events)) && Covers(s, gap) && Paced(begun, Ticks(events), gap)
    requires s.EpochAt(begun) == Some(start.start.epoch) && start.trace == []
    requires Proper(mix, {}, s, start) && forall i | 0 <= i < |events| :: Works(mix, s, events[i])
    requires epoch <= s.MaxEpoch() && begun <= s.Opens(epoch) && s.Releases(epoch) <= LastTick(begun, Ticks(events))
    ensures
      var visits := Visits(Run(s, Service([], start), events));
      && Increasing(EpochsOf(visits)) && Increasing(E.Epochs(Written(mix, visits)))
      && exists i | 0 <= i < |visits| :: visits[i].start.schedule == s && SealedWhole(mix, visits[i], epoch)
  {
    var slots, x0 := SlotsOf(events), Service([], start);
    StartsProper(mix, slots, s, begun, gap, start);
    RunKeeps(mix, slots, s, begun, gap, x0, events);
    var x, now := Run(s, x0, events), LastTick(begun, Ticks(events));
    var written := Written(mix, Visits(x));
    AllSealedByNow(s, begun, gap, Reading(mix, x), now, epoch);
    var k :| 0 <= k < |written| && E.Epochs(written)[k] == epoch;
    var i := WrittenDuring(mix, Visits(x), written[k]);
    BatchesAreWhole(mix, slots, s, Visits(x)[i], written[k]);
  }

  lemma StartsProper(mix: A.Mix, slots: A.Slots, s: Schedule, begun: Instant, gap: int, start: Visit)
    requires Covers(s, gap) && s.EpochAt(begun) == Some(start.start.epoch) && start.trace == []
    requires Proper(mix, {}, s, start)
    ensures Inv(mix, slots, s, begun, gap, Service([], start), begun)
  {
    var x := Service([], start);
    BegunKeeps(s, begun, gap);
    assert Visits(x) == [start];
    WrittenLater(mix, [], start);
    assert E.Epochs([]) == [];
    assert Reading(mix, x) == Begun(s, begun);
    assert Proper(mix, slots, s, start);
  }
}
