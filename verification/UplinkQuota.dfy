/** The drain's own count of its deposit slots against the airlocks' count:
    one publisher session, its operator's mailboxes, other sessions and the
    operator's sealing, all on one clock. */
module UplinkQuota {
  import opened Options
  import opened Instants
  import opened ReleaseSchedule
  import A = Airlock
  import D = Drain

  datatype World = World(now: Instant, drain: D.State<A.Column>, boxes: map<nat, A.Box>)

  /** `refill` is what the filler put in an empty slot since the last emission;
      `padding` the inner layer a cover cell carries. A cell reaches the mailbox of
      its instant's epoch or is lost. */
  datatype Event =
    | Emit(now: Instant, sequence: nat, refill: Option<A.Column>, padding: A.Column, seals: bool, arrives: bool)
    | Other(now: Instant, epoch: nat, session: A.Session, sequence: nat, payload: A.Column)
    | Open(now: Instant, epoch: nat, cover: seq<A.Column>)
    | Seal(now: Instant, epoch: nat, draws: seq<Option<nat>>)

  function Refilled(d: D.State<A.Column>, refill: Option<A.Column>): D.State<A.Column> {
    if d.ready.None? then d.(ready := refill) else d
  }

  function Emission(s: Schedule, w: World, event: Event): (D.State<A.Column>, Option<D.Cell<A.Column>>)
    requires event.Emit?
  {
    D.AfterEmit(s, Refilled(w.drain, event.refill), event.sequence, event.now, event.seals)
  }

  /** The mailbox an emitted cell reaches. */
  predicate Reaches(s: Schedule, w: World, event: Event)
    requires event.Emit?
  {
    && Emission(s, w, event).1.Some? && event.arrives
    && s.EpochAt(event.now).Some? && s.EpochAt(event.now).value in w.boxes
  }

  function Inner(cell: D.Cell<A.Column>, padding: A.Column): A.Column {
    if cell.Work? then cell.fragment else padding
  }

  function Deposited(mix: A.Mix, me: A.Session, s: Schedule, w: World, event: Event): (A.Box, A.Outcome)
    requires event.Emit? && Reaches(s, w, event)
  {
    var cell := Emission(s, w, event).1.value;
    A.AfterDeposit(mix, w.boxes[s.EpochAt(event.now).value], me, cell.sequence,
                   Inner(cell, event.padding), event.now)
  }

  ghost function Step(mix: A.Mix, me: A.Session, s: Schedule, w: World, event: Event): World {
    match event
    case Emit(now, _, _, _, _, _) =>
      World(now, Emission(s, w, event).0,
            if Reaches(s, w, event)
            then w.boxes[s.EpochAt(now).value := Deposited(mix, me, s, w, event).0] else w.boxes)
    case Other(now, epoch, session, sequence, payload) =>
      World(now, w.drain,
            if epoch in w.boxes && session != me
            then w.boxes[epoch := A.AfterDeposit(mix, w.boxes[epoch], session, sequence, payload, now).0]
            else w.boxes)
    case Open(now, epoch, cover) =>
      var box := A.Opened(s, epoch, cover);
      World(now, w.drain, if epoch !in w.boxes && box.Some? then w.boxes[epoch := box.value] else w.boxes)
    case Seal(now, epoch, draws) =>
      World(now, w.drain,
            if epoch in w.boxes
            then w.boxes[epoch := A.AfterSeal(mix, w.boxes[epoch], now, draws).0] else w.boxes)
  }

  ghost function Run(mix: A.Mix, me: A.Session, s: Schedule, start: Instant, events: seq<Event>): World {
    if events == [] then World(start, D.Fresh(), map[])
    else Step(mix, me, s, Run(mix, me, s, start, events[..|events| - 1]), events[|events| - 1])
  }

  function SlotOf(me: A.Session, e: Event): A.Slots {
    match e
    case Emit(_, sequence, _, _, _, _) => {(me, sequence)}
    case Other(_, _, session, sequence, _) => {(session, sequence)}
    case _ => {}
  }

  /** The sessions and sequence numbers a run uses. */
  function SlotsOf(me: A.Session, events: seq<Event>): A.Slots {
    if events == [] then {} else SlotsOf(me, events[..|events| - 1]) + SlotOf(me, events[|events| - 1])
  }

  /** The clock never runs back. */
  predicate Forward(start: Instant, events: seq<Event>) {
    events == []
    || (var init := events[..|events| - 1];
        Forward(start, init)
        && (if init == [] then start else init[|init| - 1].now) <= events[|events| - 1].now)
  }

  // --- The mirror --------------------------------------------------------------------------------

  ghost predicate Mirrors(mix: A.Mix, slots: A.Slots, me: A.Session, s: Schedule, d: D.State<A.Column>,
                          now: Instant, e: nat, box: A.Box) {
    && box.schedule == s && box.epoch == e && box.opens == s.Opens(e) && box.closes == s.Closes(e)
    && (box.closed ==> s.Closes(e) <= now)
    && (forall q: nat | (me, q) in slots && mix.depositID(me, q) in box.deposits :: q <= d.lastSequence)
    && (e == d.quotaEpoch ==> A.Spent(box.sessions, me) <= d.quotaSpent)
    && (e > d.quotaEpoch ==> A.Spent(box.sessions, me) == 0)
  }

  ghost predicate Inv(mix: A.Mix, slots: A.Slots, me: A.Session, s: Schedule, w: World) {
    && (w.drain.quotaEpoch == 0 || s.Opens(w.drain.quotaEpoch) <= w.now)
    && forall e <- w.boxes :: Mirrors(mix, slots, me, s, w.drain, w.now, e, w.boxes[e])
  }

  lemma OwnDeposit(mix: A.Mix, slots: A.Slots, me: A.Session, box: A.Box, sequence: nat, payload: A.Column,
                   now: Instant)
    requires A.Sound(mix, slots) && (me, sequence) in slots
    ensures var box' := A.AfterDeposit(mix, box, me, sequence, payload, now).0;
            && A.SameTerms(box, box') && box'.closed == box.closed
            && A.Spent(box'.sessions, me) <= A.Spent(box.sessions, me) + 1
            && (!(box.opens <= now < box.closes) ==> box' == box)
            && forall q: nat | (me, q) in slots && mix.depositID(me, q) in box'.deposits ::
                 mix.depositID(me, q) in box.deposits || q == sequence
  {
  }

  lemma OthersDeposit(mix: A.Mix, slots: A.Slots, me: A.Session, box: A.Box, other: A.Session, sequence: nat,
                      payload: A.Column, now: Instant)
    requires A.Sound(mix, slots) && other != me && (other, sequence) in slots
    ensures var box' := A.AfterDeposit(mix, box, other, sequence, payload, now).0;
            && A.SameTerms(box, box') && box'.closed == box.closed
            && A.Spent(box'.sessions, me) == A.Spent(box.sessions, me)
            && forall q: nat | (me, q) in slots && mix.depositID(me, q) in box'.deposits ::
                 mix.depositID(me, q) in box.deposits
  {
  }

  lemma Seals(mix: A.Mix, box: A.Box, now: Instant, draws: seq<Option<nat>>)
    ensures var box' := A.AfterSeal(mix, box, now, draws).0;
            box' == box || (box' == box.(closed := true) && box.closes <= now)
  {
  }

  /** How an emission moves the drain's quota and sequence. */
  lemma EmissionSpends(s: Schedule, w: World, event: Event)
    requires event.Emit?
    ensures var (d, cell) := Emission(s, w, event);
            var (epoch, open) := D.WindowState(s, event.now);
            && d.lastSequence >= w.drain.lastSequence
            && (cell.Some? ==> cell.value.sequence == event.sequence == d.lastSequence > w.drain.lastSequence)
            && (cell.Some? && open ==>
                  d.quotaEpoch == epoch
                  && d.quotaSpent == (if w.drain.quotaEpoch == epoch then w.drain.quotaSpent else 0) + 1)
            && (cell.None? || !open ==> d.quotaEpoch == w.drain.quotaEpoch && d.quotaSpent == w.drain.quotaSpent)
            && (cell.Some? && cell.value.Work? ==> open && D.QuotaRemaining(s, w.drain, epoch))
  {
  }

  lemma QuotaIsPast(s: Schedule, d: D.State<A.Column>, earlier: Instant, now: Instant)
    requires d.quotaEpoch == 0 || s.Opens(d.quotaEpoch) <= earlier
    requires earlier <= now && s.EpochAt(now).Some?
    ensures d.quotaEpoch <= s.EpochAt(now).value && s.Opens(s.EpochAt(now).value) <= now
  {
    var e := s.EpochAt(now).value;
    EpochSpansInstant(s, now, e);
    if e < d.quotaEpoch {
      OpensInOrder(s, e, d.quotaEpoch);
    }
  }

  lemma EmitKeeps(mix: A.Mix, slots: A.Slots, me: A.Session, s: Schedule, w: World, event: Event)
    requires A.Sound(mix, slots) && Inv(mix, slots, me, s, w) && event.Emit? && w.now <= event.now
    requires SlotOf(me, event) <= slots
    ensures Inv(mix, slots, me, s, Step(mix, me, s, w, event))
  {
    EmissionSpends(s, w, event);
    if s.EpochAt(event.now).Some? {
      QuotaIsPast(s, w.drain, w.now, event.now);
    }
    var w' := Step(mix, me, s, w, event);
    forall e | e in w'.boxes ensures Mirrors(mix, slots, me, s, w'.drain, w'.now, e, w'.boxes[e]) {
      assert e in w.boxes && Mirrors(mix, slots, me, s, w.drain, w.now, e, w.boxes[e]);
      if Reaches(s, w, event) && s.EpochAt(event.now) == Some(e) {
        var cell := Emission(s, w, event).1.value;
        OwnDeposit(mix, slots, me, w.boxes[e], cell.sequence, Inner(cell, event.padding), event.now);
      }
    }
  }

  lemma StepKeeps(mix: A.Mix, slots: A.Slots, me: A.Session, s: Schedule, w: World, event: Event)
    requires A.Sound(mix, slots) && Inv(mix, slots, me, s, w) && w.now <= event.now && SlotOf(me, event) <= slots
    ensures Inv(mix, slots, me, s, Step(mix, me, s, w, event)) && Step(mix, me, s, w, event).now == event.now
  {
    match event {
      case Emit(_, _, _, _, _, _) => EmitKeeps(mix, slots, me, s, w, event);
      case Other(now, epoch, session, sequence, payload) =>
        if epoch in w.boxes && session != me {
          OthersDeposit(mix, slots, me, w.boxes[epoch], session, sequence, payload, now);
        }
      case Open(_, epoch, _) =>
        if s.DepositWindow(epoch).Some? {
          WindowIs(s, epoch);
        }
      case Seal(now, epoch, draws) =>
        if epoch in w.boxes {
          Seals(mix, w.boxes[epoch], now, draws);
        }
    }
  }

  lemma {:induction false} RunKeeps(mix: A.Mix, slots: A.Slots, me: A.Session, s: Schedule, start: Instant,
                                    events: seq<Event>)
    requires A.Sound(mix, slots) && Forward(start, events) && SlotsOf(me, events) <= slots
    ensures Inv(mix, slots, me, s, Run(mix, me, s, start, events))
    ensures Run(mix, me, s, start, events).now == if events == [] then start else events[|events| - 1].now
  {
    if events != [] {
      var init := events[..|events| - 1];
      RunKeeps(mix, slots, me, s, start, init);
      StepKeeps(mix, slots, me, s, Run(mix, me, s, start, init), events[|events| - 1]);
    }
  }

  /** No work cell the drain emits meets a closed window, a sealed epoch, the
      per-session bound or a conflicting deposit: after every run on a clock that
      never runs back, whatever else the operator and the other sessions did. */
  lemma WorkIsNeverRefused(mix: A.Mix, me: A.Session, s: Schedule, start: Instant, events: seq<Event>, event: Event)
    requires A.Sound(mix, SlotsOf(me, events + [event])) && Forward(start, events + [event]) && event.Emit?
    ensures var w := Run(mix, me, s, start, events);
            Reaches(s, w, event) && Emission(s, w, event).1.value.Work? ==>
              var box := w.boxes[s.EpochAt(event.now).value];
              var (box', outcome) := Deposited(mix, me, s, w, event);
              && (outcome.Done? || outcome.Malformed?) && box'.droppedSession == box.droppedSession
  {
    var slots := SlotsOf(me, events + [event]);
    assert (events + [event])[..|events|] == events;
    RunKeeps(mix, slots, me, s, start, events);
    var w := Run(mix, me, s, start, events);
    if Reaches(s, w, event) && Emission(s, w, event).1.value.Work? {
      Welcome(mix, slots, me, s, w, event);
    }
  }

  lemma Welcome(mix: A.Mix, slots: A.Slots, me: A.Session, s: Schedule, w: World, event: Event)
    requires Inv(mix, slots, me, s, w) && event.Emit? && w.now <= event.now && SlotOf(me, event) <= slots
    requires Reaches(s, w, event) && Emission(s, w, event).1.value.Work?
    ensures var box := w.boxes[s.EpochAt(event.now).value];
            var (box', outcome) := Deposited(mix, me, s, w, event);
            && (outcome.Done? || outcome.Malformed?) && box'.droppedSession == box.droppedSession
  {
    var e := s.EpochAt(event.now).value;
    EmissionSpends(s, w, event);
    QuotaIsPast(s, w.drain, w.now, event.now);
    EpochSpansInstant(s, event.now, e);
    assert Mirrors(mix, slots, me, s, w.drain, w.now, e, w.boxes[e]);
  }
}
