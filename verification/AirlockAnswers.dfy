/** What a mailbox answers after every run of deposits and seal attempts, told by
    what it has recorded and whether it has sealed. */
module AirlockAnswers {
  import opened Options
  import opened Instants
  import opened ReleaseSchedule
  import opened ColumnShuffle
  import opened Airlock

  // --- What is recorded -----------------------------------------------------------------------------------

  /** The entries of one session, by place. */
  function OwnPlaces(entries: seq<Entry>, session: Session): set<nat> {
    set i: nat | i < |entries| && entries[i].session == session
  }

  predicate SameSlot(a: Entry, b: Entry) {
    a.session == b.session && a.sequence == b.sequence
  }

  lemma {:induction false} CountIsOwn(entries: seq<Entry>, session: Session)
    ensures CountOf(entries, session) == |OwnPlaces(entries, session)|
  {
    if entries == [] {
      assert OwnPlaces(entries, session) == {};
    } else {
      var last := |entries| - 1;
      CountIsOwn(entries[..last], session);
      var before := OwnPlaces(entries[..last], session);
      assert OwnPlaces(entries, session) == if entries[last].session == session then before + {last} else before;
    }
  }

  lemma {:induction false} FindIs(entries: seq<Entry>, e: Entry)
    requires NoRepeat(entries)
    ensures Find(entries, e.session, e.sequence).None? <==> forall x <- entries :: !SameSlot(x, e)
    ensures Find(entries, e.session, e.sequence).Some? ==>
              forall x <- entries :: SameSlot(x, e) ==> Find(entries, e.session, e.sequence) == Some(x.payload)
  {
    if entries != [] {
      var init, last := entries[..|entries| - 1], entries[|entries| - 1];
      assert entries == init + [last] && last in entries;
      assert forall x <- init :: x in entries;
      FindIs(init, e);
    }
  }

  // --- Deposits ----------------------------------------------------------------------------------------------

  datatype Standing = Standing(
    sealed: bool, open: bool, repeated: bool, contradicted: bool, spent: bool, full: bool, wellFormed: bool)

  /** How an offer stands to what the mailbox has recorded. */
  ghost function StandingOf(mix: Mix, s: Schedule, epoch: nat, batches: seq<Batch>, entries: seq<Entry>, e: Entry,
                            now: Instant): Standing
  {
    Standing(
      batches != [],
      s.Opens(epoch) <= now < s.Closes(epoch),
      exists x <- entries :: SameSlot(x, e) && x.payload == e.payload,
      exists x <- entries :: SameSlot(x, e) && x.payload != e.payload,
      |OwnPlaces(entries, e.session)| >= s.maxDepositsPerSession,
      |entries| >= s.batchSize,
      mix.wellFormed(e.payload))
  }

  /** Each answer exactly when it is due. A first deposit within both bounds is
      recorded; one beyond a bound is dropped with the answer of a recorded one, and
      counted. */
  ghost predicate AnsweredRight(x: Standing, outcome: Outcome, recorded: bool, droppedFull: int, droppedSession: int) {
    var live := !x.sealed && x.open;
    var first := live && !x.repeated && !x.contradicted;
    && (outcome == AlreadySealed <==> x.sealed)
    && (outcome == WindowClosed <==> !x.sealed && !x.open)
    && (outcome == Conflict <==> live && x.contradicted)
    && (outcome == Malformed <==> first && !x.spent && !x.full && !x.wellFormed)
    && (recorded <==> first && !x.spent && !x.full && x.wellFormed)
    && droppedSession == (if first && x.spent then 1 else 0)
    && droppedFull == (if first && !x.spent && x.full then 1 else 0)
  }

  lemma DepositStands(mix: Mix, box: Box, ledger: Ledger, batches: seq<Batch>, e: Entry, now: Instant)
    requires Known(mix, box, ledger, e) && NoRepeat(ledger.entries) && box.schedule.Valid()
    requires box.opens == box.schedule.Opens(box.epoch) && box.closes == box.schedule.Closes(box.epoch)
    requires |batches| == (if ledger.closed then 1 else 0)
    ensures
      var (box', outcome) := AfterDeposit(mix, box, e.session, e.sequence, e.payload, now);
      var x := StandingOf(mix, box.schedule, box.epoch, batches, ledger.entries, e, now);
      && AnsweredRight(x, outcome, Stores(mix, box, e, now),
                       box'.droppedFull - box.droppedFull, box'.droppedSession - box.droppedSession)
  {
    CountIsOwn(ledger.entries, e.session);
    FindIs(ledger.entries, e);
  }

  /** After every run of deposits and seal attempts, for every offer. */
  lemma DepositAnswers(mix: Mix, start: Box, events: seq<Event>, e: Entry, now: Instant)
    requires Sound(mix, SlotsOf(events) + {(e.session, e.sequence)}) && Usable(mix, start)
    requires Opened(start.schedule, start.epoch, start.cover) == Some(start)
    ensures
      var s, epoch := start.schedule, start.epoch;
      var w, entries := Run(mix, start, events), History(mix, s, epoch, events).entries;
      var (box', outcome) := AfterDeposit(mix, w.box, e.session, e.sequence, e.payload, now);
      var entries' := History(mix, s, epoch, events + [Offer(e, now)]).entries;
      && (entries' == entries || entries' == entries + [e])
      && AnsweredRight(StandingOf(mix, s, epoch, w.batches, entries, e, now), outcome, entries' == entries + [e],
                       box'.droppedFull - w.box.droppedFull, box'.droppedSession - w.box.droppedSession)
  {
    var slots := SlotsOf(events) + {(e.session, e.sequence)};
    RunIsFaithful(mix, slots, start, events);
    var w, ledger := Run(mix, start, events), History(mix, start.schedule, start.epoch, events);
    assert (events + [Offer(e, now)])[..|events|] == events;
    IndexedFinds(mix, slots, ledger.entries, e.session, e.sequence);
    IndexedSize(mix, slots, ledger.entries);
    AnswersAgree(mix, w.box, ledger, e, now);
    DepositStands(mix, w.box, ledger, w.batches, e, now);
    assert ledger.entries != ledger.entries + [e];
  }

  // --- Sealing -------------------------------------------------------------------------------------------------

  /** After every run, a seal attempt seals exactly in the seal part of the epoch,
      once, when the random source answers; each refusal says why not. */
  lemma SealAnswers(mix: Mix, start: Box, events: seq<Event>, now: Instant, draws: seq<Option<nat>>)
    requires Sound(mix, SlotsOf(events)) && Usable(mix, start)
    requires Opened(start.schedule, start.epoch, start.cover) == Some(start)
    ensures
      var s, epoch, w := start.schedule, start.epoch, Run(mix, start, events);
      var sealed, r := w.batches != [], AfterSeal(mix, w.box, now, draws).1;
      && (r == Refused(AlreadySealed) <==> sealed)
      && (r == TooEarly <==> !sealed && now < s.Closes(epoch))
      && (r == Refused(WindowClosed) <==> !sealed && s.Releases(epoch) <= now)
      && (r.Sealed? <==> !sealed && s.Closes(epoch) <= now < s.Releases(epoch) && Answered(draws, s.batchSize))
      && (r.Sealed? ==>
            && r.batch.digest == mix.digest(r.batch.columns)
            && Holds(r.batch, start, History(mix, s, epoch, events)))
  {
    var slots := SlotsOf(events);
    RunIsFaithful(mix, slots, start, events);
    var w, ledger := Run(mix, start, events), History(mix, start.schedule, start.epoch, events);
    ReleaseIs(start.schedule, start.epoch);
    SealRefines(mix, slots, w.box, ledger, now, draws);
    NothingWraps(start.schedule, start.epoch);
  }
}
