/** What the drain emits, counted on the cells that left: work exactly when the
    window is open, the slot is full and the epoch's allowance is not used up. */
module DrainEmissions {
  import opened Options
  import opened Instants
  import opened Ordering
  import opened ReleaseSchedule
  import opened Drain

  // --- What left, and under which number -----------------------------------------------------------------

  /** The epoch a step's cell is charged to: a cell was sealed inside a window. */
  ghost function ChargedBy(s: Schedule, m: Machine, event: Event): seq<nat> {
    if !m.sender.Resting? && |Step(s, m, event).nonces| > |m.nonces| && WindowState(s, m.sender.now).1
    then [WindowState(s, m.sender.now).0] else []
  }

  /** The epochs of all cells sealed inside a window, in order. */
  ghost function Charged(s: Schedule, events: seq<Event>): seq<nat> {
    if events == [] then []
    else
      var init := events[..|events| - 1];
      Charged(s, init) + ChargedBy(s, Run(s, init), events[|events| - 1])
  }

  /** The sequence number a step starts an emission under. */
  ghost function BegunBy(s: Schedule, m: Machine, event: Event): seq<nat> {
    var m' := Step(s, m, event);
    if m.sender.Resting? && m'.sender.Judged? then [m'.sender.sequence] else []
  }

  ghost function Begun(s: Schedule, events: seq<Event>): seq<nat> {
    if events == [] then []
    else
      var init := events[..|events| - 1];
      Begun(s, init) + BegunBy(s, Run(s, init), events[|events| - 1])
  }

  /** How many of the latest cells were charged to this epoch without a break. */
  function InARow(epochs: seq<nat>, epoch: nat): nat {
    if epochs == [] || epochs[|epochs| - 1] != epoch then 0 else InARow(epochs[..|epochs| - 1], epoch) + 1
  }

  lemma SnocInARow(epochs: seq<nat>, next: nat, epoch: nat)
    ensures InARow(epochs + [next], epoch) == if next == epoch then InARow(epochs, epoch) + 1 else 0
  {
    assert (epochs + [next])[..|epochs|] == epochs;
  }

  // --- The drain's fields tell that history -----------------------------------------------------------------

  ghost predicate Tells(d: State<nat>, charged: seq<nat>, begun: seq<nat>) {
    && d.quotaEpoch == (if charged == [] then 0 else charged[|charged| - 1])
    && d.quotaSpent == InARow(charged, d.quotaEpoch)
    && d.lastSequence == (if begun == [] then 0 else begun[|begun| - 1])
    && Increasing(begun) && forall n <- begun :: 0 < n
  }

  lemma SpendTells(d: State<nat>, charged: seq<nat>, begun: seq<nat>, epoch: nat, open: bool)
    requires Tells(d, charged, begun)
    ensures Tells(Spend(d, epoch, open), if open then charged + [epoch] else charged, begun)
  {
    SnocInARow(charged, epoch, epoch);
    if d.quotaEpoch != epoch && charged != [] {
      assert InARow(charged, epoch) == 0;
    }
  }

  lemma FillerTells(s: Schedule, m: Machine, event: Event, charged: seq<nat>, begun: seq<nat>)
    requires Tells(m.drain, charged, begun)
    ensures var m' := FillerStep(s, m, event);
            Tells(m'.drain, charged, begun) && m'.sender == m.sender && m'.nonces == m.nonces
  {
  }

  lemma BeginTells(d: State<nat>, charged: seq<nat>, begun: seq<nat>, sequence: nat)
    requires Tells(d, charged, begun) && Reservable(d, sequence)
    ensures Tells(Reserved(d, sequence), charged, begun + [sequence])
  {
    forall n | n in begun ensures n < sequence {
      var i :| 0 <= i < |begun| && begun[i] == n;
    }
    SnocIncreases(begun, sequence);
  }

  lemma WorkTells(s: Schedule, m: Machine, charged: seq<nat>, begun: seq<nat>, seals: bool)
    requires Tells(m.drain, charged, begun) && m.sender.Carrying?
    ensures var m' := SenderStep(s, m, SealWork(seals));
            && m'.sender.Resting? && |m'.nonces| == |m.nonces| + (if seals then 1 else 0)
            && Tells(m'.drain, if seals then charged + [WindowState(s, m.sender.now).0] else charged, begun)
  {
    SpendTells(m.drain.(work := m.drain.work + 1), charged, begun, WindowState(s, m.sender.now).0, true);
  }

  lemma CoverTells(s: Schedule, m: Machine, charged: seq<nat>, begun: seq<nat>, seals: bool)
    requires Tells(m.drain, charged, begun) && m.sender.Covering?
    ensures var m' := SenderStep(s, m, SealCover(seals));
            var (epoch, open) := WindowState(s, m.sender.now);
            && m'.sender.Resting? && |m'.nonces| == |m.nonces| + (if seals then 1 else 0)
            && Tells(m'.drain, if seals && open then charged + [epoch] else charged, begun)
  {
    var (epoch, open) := WindowState(s, m.sender.now);
    var held := (!open || !QuotaRemaining(s, m.drain, epoch)) && m.drain.ready.Some?;
    SpendTells(m.drain.(cover := m.drain.cover + 1, deferred := m.drain.deferred + if held then 1 else 0),
               charged, begun, epoch, open);
  }

  lemma StepTells(s: Schedule, m: Machine, event: Event, charged: seq<nat>, begun: seq<nat>)
    requires Tells(m.drain, charged, begun) && (m.sender.Carrying? ==> WindowState(s, m.sender.now).1)
    ensures Tells(Step(s, m, event).drain, charged + ChargedBy(s, m, event), begun + BegunBy(s, m, event))
  {
    assert charged + [] == charged && begun + [] == begun;
    if event.Submit? || event.Close? {
      return;
    }
    FillerTells(s, m, event, charged, begun);
    var m1 := FillerStep(s, m, event);
    match event
    case Begin(sequence, now) =>
      if m1.sender.Resting? && Reservable(m1.drain, sequence) {
        BeginTells(m1.drain, charged, begun, sequence);
      }
    case SealWork(seals) =>
      if m1.sender.Carrying? {
        WorkTells(s, m1, charged, begun, seals);
      }
    case SealCover(seals) =>
      if m1.sender.Covering? {
        CoverTells(s, m1, charged, begun, seals);
      }
    case _ =>
  }

  lemma {:induction false} RunTells(s: Schedule, events: seq<Event>)
    ensures Tells(Run(s, events).drain, Charged(s, events), Begun(s, events))
  {
    if events != [] {
      var init := events[..|events| - 1];
      RunTells(s, init);
      RunIsDisciplined(s, init);
      StepTells(s, Run(s, init), events[|events| - 1], Charged(s, init), Begun(s, init));
    }
  }

  // --- When work leaves ---------------------------------------------------------------------------------------

  /** The number is above every number an emission was started under. */
  ghost predicate IsFresh(s: Schedule, events: seq<Event>, sequence: nat) {
    sequence != 0 && forall n <- Begun(s, events) :: n < sequence
  }

  /** The window is open, the slot full, and fewer cells than the bound left in this
      epoch since the last one charged to another. */
  ghost predicate Carries(s: Schedule, events: seq<Event>, now: Instant) {
    var (epoch, open) := WindowState(s, now);
    open && Run(s, events).drain.ready.Some? && InARow(Charged(s, events), epoch) < s.maxDepositsPerSession
  }

  lemma GatesAreHistory(s: Schedule, events: seq<Event>, sequence: nat, now: Instant)
    requires s.Valid()
    ensures var d := Run(s, events).drain;
            var (epoch, open) := WindowState(s, now);
            && (Reservable(d, sequence) <==> IsFresh(s, events, sequence))
            && (MayCarry(s, d, epoch, open) <==> Carries(s, events, now))
  {
    RunTells(s, events);
    var (epoch, open) := WindowState(s, now);
    GatesTell(s, Run(s, events).drain, Charged(s, events), Begun(s, events), sequence, epoch);
  }

  lemma GatesTell(s: Schedule, d: State<nat>, charged: seq<nat>, begun: seq<nat>, sequence: nat, epoch: nat)
    requires s.Valid() && Tells(d, charged, begun)
    ensures Reservable(d, sequence) <==> sequence != 0 && forall n <- begun :: n < sequence
    ensures QuotaRemaining(s, d, epoch) <==> InARow(charged, epoch) < s.maxDepositsPerSession
  {
    assert begun != [] ==> begun[|begun| - 1] in begun;
  }

  /** After every run, an emission that nobody interrupts: a cell leaves exactly under
      a fresh number with a working seal; it is work, carrying the slot's fragment,
      exactly when `Carries` says so. Otherwise the slot keeps its fragment, and a
      cover cell that left it there is counted as deferred. */
  lemma EmissionIs(s: Schedule, events: seq<Event>, sequence: nat, now: Instant, seals: bool)
    requires s.Valid()
    ensures
      var d := Run(s, events).drain;
      var (d', cell) := AfterEmit(s, d, sequence, now, seals);
      var leaves, carries := IsFresh(s, events, sequence) && seals, Carries(s, events, now);
      && cell == (if !leaves then None
                  else if carries then Some(Work(sequence, d.ready.value)) else Some(Cover(sequence)))
      && d'.ready == (if leaves && carries then None else d.ready)
      && d'.work == d.work + Count(leaves && carries)
      && d'.cover == d.cover + Count(leaves && !carries)
      && d'.deferred == d.deferred + Count(leaves && !carries && d.ready.Some?)
  {
    GatesAreHistory(s, events, sequence, now);
  }

  /** With the filler running beside it as well: whatever the sender takes up at the
      receive is work exactly then, and with a working seal it is on the wire. */
  lemma ReceiveIs(s: Schedule, events: seq<Event>)
    requires s.Valid() && Run(s, events).sender.Judged?
    ensures
      var m := Run(s, events);
      var m' := Step(s, m, Receive);
      && (Carries(s, events, m.sender.now) ==>
            && m'.sender == Carrying(m.sender.sequence, m.sender.now, m.drain.ready.value)
            && Step(s, m', SealWork(true)).sent
               == m.sent + [Sent(m.drain.ready.value, m.sender.sequence, m.sender.now)])
      && (!Carries(s, events, m.sender.now) ==>
            && m'.sender == Covering(m.sender.sequence, m.sender.now)
            && Step(s, m', SealCover(true)).sent == m.sent
            && Step(s, m', SealCover(true)).nonces == m.nonces + [m.sender.sequence])
  {
    var m := Run(s, events);
    GatesAreHistory(s, events, 0, m.sender.now);
    var (epoch, open) := WindowState(s, m.sender.now);
    if MayCarry(s, m.drain, epoch, open) {
      WorkIsSent(s, m);
    } else {
      CoverIsSent(s, m);
    }
  }

  lemma WorkIsSent(s: Schedule, m: Machine)
    requires m.sender.Judged? && MayCarry(s, m.drain, WindowState(s, m.sender.now).0, WindowState(s, m.sender.now).1)
    ensures
      var m' := Step(s, m, Receive);
      && m'.sender == Carrying(m.sender.sequence, m.sender.now, m.drain.ready.value)
      && Step(s, m', SealWork(true)).sent
         == m.sent + [Sent(m.drain.ready.value, m.sender.sequence, m.sender.now)]
  {
  }

  lemma CoverIsSent(s: Schedule, m: Machine)
    requires m.sender.Judged? && !MayCarry(s, m.drain, WindowState(s, m.sender.now).0, WindowState(s, m.sender.now).1)
    ensures
      var m' := Step(s, m, Receive);
      && m'.sender == Covering(m.sender.sequence, m.sender.now)
      && Step(s, m', SealCover(true)).sent == m.sent
      && Step(s, m', SealCover(true)).nonces == m.nonces + [m.sender.sequence]
  {
  }

  // --- On a clock that never runs back ---------------------------------------------------------------------------

  /** Every emission starts no earlier than the ones before it, and by `now`. */
  ghost predicate Steady(events: seq<Event>, now: Instant) {
    events == []
    || (var init, e := events[..|events| - 1], events[|events| - 1];
        if e.Begin? then e.now <= now && Steady(init, e.now) else Steady(init, now))
  }

  predicate Nondecreasing(epochs: seq<nat>) {
    forall i, j | 0 <= i < j < |epochs| :: epochs[i] <= epochs[j]
  }

  /** Everything charged so far had opened by this instant. */
  ghost predicate OpenedBy(s: Schedule, charged: seq<nat>, now: Instant) {
    Nondecreasing(charged) && forall c <- charged :: s.Opens(c) <= now
  }

  lemma {:induction false} SteadyLater(events: seq<Event>, now: Instant, later: Instant)
    requires Steady(events, now) && now <= later
    ensures Steady(events, later)
  {
    if events != [] && !events[|events| - 1].Begin? {
      SteadyLater(events[..|events| - 1], now, later);
    }
  }

  lemma NotYetOpen(s: Schedule, c: nat, now: Instant)
    requires s.EpochAt(now).Some? && s.Opens(c) <= now
    ensures c <= s.EpochAt(now).value
  {
    var e := s.EpochAt(now).value;
    EpochSpansInstant(s, now, e);
    if e < c {
      OpensInOrder(s, e, c);
    }
  }

  lemma ChargeOrdered(s: Schedule, charged: seq<nat>, at: Instant, now: Instant)
    requires OpenedBy(s, charged, at) && at <= now && WindowState(s, at).1
    ensures OpenedBy(s, charged + [WindowState(s, at).0], now)
  {
    var e := WindowState(s, at).0;
    EpochSpansInstant(s, at, e);
    forall i | 0 <= i < |charged| ensures charged[i] <= e {
      NotYetOpen(s, charged[i], at);
    }
  }

  lemma SenderNow(s: Schedule, m: Machine, event: Event)
    ensures var m' := Step(s, m, event);
            !m'.sender.Resting? ==>
              if m.sender.Resting? then event.Begin? && m'.sender.now == event.now && ChargedBy(s, m, event) == []
              else m'.sender.now == m.sender.now && ChargedBy(s, m, event) == []
  {
  }

  lemma {:induction false} ChargedInOrder(s: Schedule, events: seq<Event>, now: Instant)
    requires Steady(events, now)
    ensures OpenedBy(s, Charged(s, events), now)
    ensures var sender := Run(s, events).sender;
            !sender.Resting? ==> sender.now <= now && OpenedBy(s, Charged(s, events), sender.now)
  {
    if events == [] {
      return;
    }
    var init, e := events[..|events| - 1], events[|events| - 1];
    var m := Run(s, init);
    if e.Begin? {
      SteadyLater(init, e.now, now);
      ChargedInOrder(s, init, e.now);
    }
    ChargedInOrder(s, init, now);
    SenderNow(s, m, e);
    assert Charged(s, init) + [] == Charged(s, init);
    if ChargedBy(s, m, e) != [] {
      ChargeOrdered(s, Charged(s, init), m.sender.now, now);
    }
  }

  lemma {:induction false} RowIsTotal(epochs: seq<nat>, epoch: nat)
    requires Nondecreasing(epochs) && forall c <- epochs :: c <= epoch
    ensures InARow(epochs, epoch) == multiset(epochs)[epoch]
  {
    if epochs != [] {
      var init, last := epochs[..|epochs| - 1], epochs[|epochs| - 1];
      assert epochs == init + [last];
      assert last in epochs;
      if last == epoch {
        RowIsTotal(init, epoch);
      } else {
        assert epoch !in epochs;
      }
    }
  }

  /** Then the allowance is a plain count: work leaves exactly while the window is
      open, the slot is full and fewer than the bound's number of cells, work and
      cover alike, have left in this epoch. */
  lemma AllowanceIsACount(s: Schedule, events: seq<Event>, now: Instant)
    requires s.Valid() && Steady(events, now)
    ensures Carries(s, events, now) <==>
              var (epoch, open) := WindowState(s, now);
              && open && Run(s, events).drain.ready.Some?
              && multiset(Charged(s, events))[epoch] < s.maxDepositsPerSession
  {
    var (epoch, open) := WindowState(s, now);
    if open {
      ChargedInOrder(s, events, now);
      forall c | c in Charged(s, events) ensures c <= epoch {
        NotYetOpen(s, c, now);
      }
      RowIsTotal(Charged(s, events), epoch);
    }
  }
}
