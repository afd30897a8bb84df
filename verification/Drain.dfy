/** The publication drain: one thread fills a one-slot buffer from the queue,
    another turns each cadence tick into one uplink cell. */
module Drain {
  import opened Options
  import opened Instants
  import opened Ordering
  import opened ReleaseSchedule

  datatype State<F> = State(
    ready: Option<F>, lastSequence: nat, quotaEpoch: nat, quotaSpent: nat,
    work: nat, cover: nat, deferred: nat)

  datatype Cell<F> = Work(sequence: nat, fragment: F) | Cover(sequence: nat)

  function Fresh<F>(): State<F> {
    State(None, 0, 0, 0, 0, 0, 0)
  }

  /** The release epoch of an instant, and whether its deposit part is open. */
  function WindowState(s: Schedule, now: Instant): (r: (nat, bool))
    ensures r.1 <==> s.EpochAt(now).Some? && now < s.Closes(s.EpochAt(now).value)
    ensures r.1 ==> Some(r.0) == s.EpochAt(now)
  {
    match s.EpochAt(now)
    case None => (0, false)
    case Some(epoch) =>
      EpochSpansInstant(s, now, epoch);
      WindowIs(s, epoch);
      match s.DepositWindow(epoch)
      case Some((opens, closes)) => (epoch, opens <= now < closes)
  }

  predicate QuotaRemaining<F>(s: Schedule, d: State<F>, epoch: nat) {
    d.quotaEpoch != epoch || d.quotaSpent < s.maxDepositsPerSession
  }

  function Spend<F>(d: State<F>, epoch: nat, open: bool): State<F> {
    if !open then d
    else if d.quotaEpoch != epoch then d.(quotaEpoch := epoch, quotaSpent := 1)
    else d.(quotaSpent := d.quotaSpent + 1)
  }

  predicate Reservable<F>(d: State<F>, sequence: nat) {
    sequence != 0 && (d.lastSequence == 0 || d.lastSequence < sequence)
  }

  // --- One emission, in the order of its effects -------------------------------------------------

  function Reserved<F>(d: State<F>, sequence: nat): State<F> {
    d.(lastSequence := sequence)
  }

  predicate MayCarry<F>(s: Schedule, d: State<F>, epoch: nat, open: bool) {
    open && QuotaRemaining(s, d, epoch) && d.ready.Some?
  }

  function WorkSent<F>(d: State<F>, epoch: nat): State<F> {
    Spend(d.(work := d.work + 1), epoch, true)
  }

  /** A fragment whose seal failed goes back if the slot is still empty. */
  function PutBack<F>(d: State<F>, fragment: F): State<F> {
    if d.ready.None? then d.(ready := Some(fragment)) else d
  }

  function CoverSent<F>(s: Schedule, d: State<F>, epoch: nat, open: bool): State<F> {
    var held := (!open || !QuotaRemaining(s, d, epoch)) && d.ready.Some?;
    Spend(d.(cover := d.cover + 1, deferred := d.deferred + if held then 1 else 0), epoch, open)
  }

  /** A whole emission with nothing in between; `seals` is whether the session could seal. */
  function AfterEmit<F>(s: Schedule, d: State<F>, sequence: nat, now: Instant, seals: bool)
    : (State<F>, Option<Cell<F>>)
  {
    if !Reservable(d, sequence) then (d, None)
    else
      var d1 := Reserved(d, sequence);
      var (epoch, open) := WindowState(s, now);
      if MayCarry(s, d1, epoch, open) then
        var taken := d1.(ready := None);
        if seals then (WorkSent(taken, epoch), Some(Work(sequence, d1.ready.value)))
        else (PutBack(taken, d1.ready.value), None)
      else if seals then (CoverSent(s, d1, epoch, open), Some(Cover(sequence)))
      else (d1, None)
  }

  class Emitter<F> {
    const schedule: Schedule
    var ready: Option<F>
    var lastSequence: nat
    var quotaEpoch: nat
    var quotaSpent: nat
    var work: nat
    var cover: nat
    var deferred: nat

    ghost function Contents(): State<F>
      reads this
    {
      State(ready, lastSequence, quotaEpoch, quotaSpent, work, cover, deferred)
    }

    constructor (schedule: Schedule)
      ensures Contents() == Fresh() && this.schedule == schedule
    {
      this.schedule := schedule;
      ready, lastSequence, quotaEpoch, quotaSpent := None, 0, 0, 0;
      work, cover, deferred := 0, 0, 0;
    }

    method SpendDepositSlot(epoch: nat)
      modifies this`quotaEpoch, this`quotaSpent
      ensures Contents() == Spend(old(Contents()), epoch, true)
    {
      if quotaEpoch != epoch {
        quotaEpoch, quotaSpent := epoch, 0;
      }
      quotaSpent := quotaSpent + 1;
    }

    method Emit(sequence: nat, now: Instant, seals: bool) returns (cell: Option<Cell<F>>)
      modifies this
      ensures (Contents(), cell) == AfterEmit(schedule, old(Contents()), sequence, now, seals)
    {
      if sequence == 0 || (lastSequence != 0 && sequence <= lastSequence) {
        return None;
      }
      lastSequence := sequence;
      var (epoch, open) := WindowState(schedule, now);
      if open && (quotaEpoch != epoch || quotaSpent < schedule.maxDepositsPerSession) && ready.Some? {
        var fragment := ready.value;
        ready := None;
        if !seals {
          if ready.None? {
            ready := Some(fragment);
          }
          return None;
        }
        work := work + 1;
        SpendDepositSlot(epoch);
        return Some(Work(sequence, fragment));
      }
      if !seals {
        return None;
      }
      if (!open || (quotaEpoch == epoch && quotaSpent >= schedule.maxDepositsPerSession)) && ready.Some? {
        deferred := deferred + 1;
      }
      cover := cover + 1;
      if open {
        SpendDepositSlot(epoch);
      }
      return Some(Cover(sequence));
    }
  }

  // --- Every interleaving of the two threads ------------------------------------------------------

  datatype Filler = Waiting | Looked | Holding(fragment: nat) | Stopped
  datatype Sender =
    | Resting
    | Judged(sequence: nat, now: Instant)
    | Carrying(sequence: nat, now: Instant, fragment: nat)
    | Covering(sequence: nat, now: Instant)

  datatype Sent = Sent(fragment: nat, sequence: nat, now: Instant)

  /** Fragments are named by their queue file. `submitted`, `sent`, `lost` and
      `nonces` record history: what was queued, what left as work, what is gone,
      and the sequence numbers given to a seal. */
  datatype Machine = Machine(
    queue: set<nat>, filler: Filler, drain: State<nat>, sender: Sender, stopping: bool,
    submitted: multiset<nat>, sent: seq<Sent>, lost: multiset<nat>, nonces: seq<nat>)

  /** How taking the first file goes: read and unlinked; unreadable and left
      behind; or unlinked without being handed over. */
  datatype Taking = Taken | Kept | Destroyed

  datatype Event =
    | Submit(fragments: set<nat>)
    | Look(now: Instant)
    | Take(taking: Taking)
    | Put
    | Stop
    | Close
    | Begin(sequence: nat, now: Instant)
    | Receive
    | SealWork(seals: bool)
    | SealCover(seals: bool)

  ghost function FillerStep(s: Schedule, m: Machine, event: Event): Machine {
    match (event, m.filler)
    case (Look(now), Waiting) => if WindowState(s, now).1 then m.(filler := Looked) else m
    case (Take(taking), Looked) =>
      if m.queue == {} || taking == Kept then m.(filler := Waiting)
      else
        var f := Least(m.queue);
        if taking == Taken then m.(queue := m.queue - {f}, filler := Holding(f))
        else m.(queue := m.queue - {f}, filler := Waiting, lost := m.lost + multiset{f})
    case (Put, Holding(f)) =>
      if m.drain.ready.None? then m.(drain := m.drain.(ready := Some(f)), filler := Waiting) else m
    case (Stop, Waiting) => if m.stopping then m.(filler := Stopped) else m
    case (Stop, Holding(f)) =>
      if m.stopping then m.(filler := Stopped, lost := m.lost + multiset{f}) else m
    case _ => m
  }

  function SenderStep(s: Schedule, m: Machine, event: Event): Machine {
    match (event, m.sender)
    case (Begin(sequence, now), Resting) =>
      if Reservable(m.drain, sequence)
      then m.(drain := Reserved(m.drain, sequence), sender := Judged(sequence, now)) else m
    case (Receive, Judged(_, now)) =>
      var (epoch, open) := WindowState(s, now);
      Received(s, m, epoch, open)
    case (SealWork(seals), Carrying(_, now, _)) =>
      WorkSealed(m, WindowState(s, now).0, seals)
    case (SealCover(seals), Covering(sequence, now)) =>
      if seals then
        var (epoch, open) := WindowState(s, now);
        m.(drain := CoverSent(s, m.drain, epoch, open), sender := Resting, nonces := m.nonces + [sequence])
      else m.(sender := Resting)
    case _ => m
  }

  function Received(s: Schedule, m: Machine, epoch: nat, open: bool): Machine
    requires m.sender.Judged?
  {
    if MayCarry(s, m.drain, epoch, open) then
      m.(drain := m.drain.(ready := None), sender := Carrying(m.sender.sequence, m.sender.now, m.drain.ready.value))
    else m.(sender := Covering(m.sender.sequence, m.sender.now))
  }

  function WorkSealed(m: Machine, epoch: nat, seals: bool): Machine
    requires m.sender.Carrying?
  {
    var sequence, f := m.sender.sequence, m.sender.fragment;
    if seals then
      m.(drain := WorkSent(m.drain, epoch), sender := Resting,
         sent := m.sent + [Sent(f, sequence, m.sender.now)], nonces := m.nonces + [sequence])
    else
      m.(drain := PutBack(m.drain, f), sender := Resting,
         lost := if m.drain.ready.None? then m.lost else m.lost + multiset{f})
  }

  ghost function Step(s: Schedule, m: Machine, event: Event): Machine {
    match event
    case Submit(fragments) =>
      m.(queue := m.queue + fragments, submitted := m.submitted + multiset(fragments - m.queue))
    case Close => m.(stopping := true)
    case _ => SenderStep(s, FillerStep(s, m, event), event)
  }

  ghost function Run(s: Schedule, events: seq<Event>): Machine {
    if events == [] then
      Machine({}, Waiting, Fresh(), Resting, false, multiset{}, [], multiset{}, [])
    else Step(s, Run(s, events[..|events| - 1]), events[|events| - 1])
  }

  // --- Conservation ---------------------------------------------------------------------------------

  function Count(b: bool): nat {
    if b then 1 else 0
  }

  function Emitted(sent: seq<Sent>, f: nat): nat {
    if sent == [] then 0
    else Emitted(sent[..|sent| - 1], f) + Count(sent[|sent| - 1].fragment == f)
  }

  /** How many places hold the fragment: queue, filler's hand, slot, sender's
      hand, wire, or nowhere any more. */
  function Places(m: Machine, f: nat): nat {
    Count(f in m.queue) + Count(m.filler == Holding(f)) + Count(m.drain.ready == Some(f))
    + Count(m.sender.Carrying? && m.sender.fragment == f) + Emitted(m.sent, f) + m.lost[f]
  }

  lemma FillerConserves(s: Schedule, m: Machine, event: Event, f: nat)
    ensures Places(FillerStep(s, m, event), f) == Places(m, f)
  {
  }

  lemma SenderConserves(s: Schedule, m: Machine, event: Event, f: nat)
    ensures Places(SenderStep(s, m, event), f) == Places(m, f)
  {
    if event.SealWork? && m.sender.Carrying? {
      SealConserves(m, WindowState(s, m.sender.now).0, event.seals, f);
    }
    if event.Receive? && m.sender.Judged? {
      var (epoch, open) := WindowState(s, m.sender.now);
      ReceiveConserves(s, m, epoch, open, f);
    }
  }

  lemma ReceiveConserves(s: Schedule, m: Machine, epoch: nat, open: bool, f: nat)
    requires m.sender.Judged?
    ensures Places(Received(s, m, epoch, open), f) == Places(m, f)
  {
  }

  lemma SealConserves(m: Machine, epoch: nat, seals: bool, f: nat)
    requires m.sender.Carrying?
    ensures Places(WorkSealed(m, epoch, seals), f) == Places(m, f)
  {
    var sent := m.sent + [Sent(m.sender.fragment, m.sender.sequence, m.sender.now)];
    assert sent[..|sent| - 1] == m.sent;
  }

  lemma StepConserves(s: Schedule, m: Machine, event: Event, f: nat)
    requires Places(m, f) == m.submitted[f]
    ensures Places(Step(s, m, event), f) == Step(s, m, event).submitted[f]
  {
    if !event.Submit? && !event.Close? {
      FillerConserves(s, m, event, f);
      SenderConserves(s, FillerStep(s, m, event), event, f);
    }
  }

  /** Under every interleaving each submitted fragment is in exactly one place,
      as often as it was submitted. */
  lemma {:induction false} RunConserves(s: Schedule, events: seq<Event>, f: nat)
    ensures Places(Run(s, events), f) == Run(s, events).submitted[f]
  {
    if events != [] {
      RunConserves(s, events[..|events| - 1], f);
      StepConserves(s, Run(s, events[..|events| - 1]), events[|events| - 1], f);
    }
  }

  predicate Destructive(event: Event) {
    event == Take(Destroyed) || event == Stop || event == SealWork(false)
  }

  /** While files and seals work and nothing stops the filler, nothing is lost. */
  lemma {:induction false} NothingIsLost(s: Schedule, events: seq<Event>)
    requires forall e <- events :: !Destructive(e)
    ensures Run(s, events).lost == multiset{}
  {
    if events != [] {
      NothingIsLost(s, events[..|events| - 1]);
      assert events[|events| - 1] in events;
      LossIsExplained(s, Run(s, events[..|events| - 1]), events[|events| - 1]);
    }
  }

  /** What a single step can lose is one fragment, and only in three ways. */
  lemma LossIsExplained(s: Schedule, m: Machine, event: Event)
    ensures Step(s, m, event).lost == m.lost
         || (event == Take(Destroyed) && m.filler.Looked? && m.queue != {}
             && Step(s, m, event).lost == m.lost + multiset{Least(m.queue)})
         || (event == Stop && m.stopping && m.filler.Holding?
             && Step(s, m, event).lost == m.lost + multiset{m.filler.fragment})
         || (event == SealWork(false) && m.sender.Carrying? && m.drain.ready.Some?
             && Step(s, m, event).lost == m.lost + multiset{m.sender.fragment})
  {
  }

  /** Fragments neither queued, emitted nor lost. */
  function Adrift(m: Machine): nat {
    Count(m.filler.Holding?) + Count(m.drain.ready.Some?) + Count(m.sender.Carrying?)
  }

  predicate Counted(m: Machine) {
    |m.submitted| == |m.queue| + Adrift(m) + |m.sent| + |m.lost|
  }

  lemma FillerCounts(s: Schedule, m: Machine, event: Event)
    requires Counted(m)
    ensures Counted(FillerStep(s, m, event))
  {
  }

  lemma SenderCounts(s: Schedule, m: Machine, event: Event)
    requires Counted(m)
    ensures Counted(SenderStep(s, m, event))
  {
  }

  lemma SubmitCounts(m: Machine, fragments: set<nat>)
    requires Counted(m)
    ensures Counted(m.(queue := m.queue + fragments, submitted := m.submitted + multiset(fragments - m.queue)))
  {
    assert m.queue + fragments == m.queue + (fragments - m.queue);
  }

  lemma StepCounts(s: Schedule, m: Machine, event: Event)
    requires Counted(m)
    ensures Counted(Step(s, m, event))
  {
    match event {
      case Submit(fragments) => SubmitCounts(m, fragments);
      case Close =>
      case _ =>
        FillerCounts(s, m, event);
        SenderCounts(s, FillerStep(s, m, event), event);
    }
  }

  /** At most two fragments are off the queue and not yet on the wire between
      emissions, and at most three while one is being sealed. */
  lemma {:induction false} FewAreAdrift(s: Schedule, events: seq<Event>)
    ensures var m := Run(s, events);
            Counted(m) && |m.submitted| - |m.queue| - |m.sent| - |m.lost| <= (if m.sender.Carrying? then 3 else 2)
  {
    if events != [] {
      FewAreAdrift(s, events[..|events| - 1]);
      StepCounts(s, Run(s, events[..|events| - 1]), events[|events| - 1]);
    }
  }

  // --- Windows and sequence numbers ------------------------------------------------------------------

  /** Work left only inside open windows, and no sequence number was sealed under twice. */
  ghost predicate Disciplined(s: Schedule, m: Machine) {
    && (forall x <- m.sent :: WindowState(s, x.now).1)
    && Increasing(m.nonces) && (forall n <- m.nonces :: n <= m.drain.lastSequence)
    && (!m.sender.Resting? ==>
          m.sender.sequence == m.drain.lastSequence && forall n <- m.nonces :: n < m.sender.sequence)
    && (m.sender.Carrying? ==> WindowState(s, m.sender.now).1)
  }

  lemma StepIsDisciplined(s: Schedule, m: Machine, event: Event)
    requires Disciplined(s, m)
    ensures Disciplined(s, Step(s, m, event))
  {
    if !event.Submit? && !event.Close? {
      FillerIsDisciplined(s, m, event);
      SenderIsDisciplined(s, FillerStep(s, m, event), event);
    }
  }

  lemma FillerIsDisciplined(s: Schedule, m: Machine, event: Event)
    requires Disciplined(s, m)
    ensures Disciplined(s, FillerStep(s, m, event))
  {
  }

  lemma SenderIsDisciplined(s: Schedule, m: Machine, event: Event)
    requires Disciplined(s, m)
    ensures Disciplined(s, SenderStep(s, m, event))
  {
    if m.sender.Carrying? || m.sender.Covering? {
      SnocIncreases(m.nonces, m.sender.sequence);
    }
  }

  lemma {:induction false} RunIsDisciplined(s: Schedule, events: seq<Event>)
    ensures Disciplined(s, Run(s, events))
  {
    if events != [] {
      RunIsDisciplined(s, events[..|events| - 1]);
      StepIsDisciplined(s, Run(s, events[..|events| - 1]), events[|events| - 1]);
    }
  }

  // --- Counters ----------------------------------------------------------------------------------------

  /** The counters tell the truth: work cells sent, cells sealed, and how many of
      the cover cells held a fragment back. */
  predicate Tallied(m: Machine) {
    m.drain.work == |m.sent| && m.drain.work + m.drain.cover == |m.nonces| && m.drain.deferred <= m.drain.cover
  }

  lemma {:induction false} CountersTally(s: Schedule, events: seq<Event>)
    ensures Tallied(Run(s, events))
  {
    if events != [] {
      CountersTally(s, events[..|events| - 1]);
      var m, event := Run(s, events[..|events| - 1]), events[|events| - 1];
      if !event.Submit? && !event.Close? {
        FillerTallies(s, m, event);
        SenderTallies(s, FillerStep(s, m, event), event);
      }
    }
  }

  lemma FillerTallies(s: Schedule, m: Machine, event: Event)
    requires Tallied(m)
    ensures Tallied(FillerStep(s, m, event))
  {
  }

  lemma SenderTallies(s: Schedule, m: Machine, event: Event)
    requires Tallied(m)
    ensures Tallied(SenderStep(s, m, event))
  {
  }

  // --- An emission is its steps; what closing can lose ---------------------------------------------

  lemma BeginsAndReceives(s: Schedule, m: Machine, sequence: nat, now: Instant)
    requires m.sender.Resting? && Reservable(m.drain, sequence)
    ensures var d := Reserved(m.drain, sequence);
            var (epoch, open) := WindowState(s, now);
            SenderStep(s, SenderStep(s, m, Begin(sequence, now)), Receive)
            == if MayCarry(s, d, epoch, open)
               then m.(drain := d.(ready := None), sender := Carrying(sequence, now, d.ready.value))
               else m.(drain := d, sender := Covering(sequence, now))
  {
  }

  /** With no filler step in between, the steps of an emission are `AfterEmit`. */
  lemma EmissionIsItsSteps(s: Schedule, m: Machine, sequence: nat, now: Instant, seals: bool)
    requires m.sender.Resting? && Reservable(m.drain, sequence)
    ensures var m2 := SenderStep(s, SenderStep(s, m, Begin(sequence, now)), Receive);
            var m3 := SenderStep(s, SenderStep(s, m2, SealWork(seals)), SealCover(seals));
            var (d, cell) := AfterEmit(s, m.drain, sequence, now, seals);
            && m3.drain == d && m3.sender == Resting && m3.lost == m.lost && m3.queue == m.queue
            && m3.nonces == (if cell.Some? then m.nonces + [sequence] else m.nonces)
            && m3.sent == (if cell.Some? && cell.value.Work?
                           then m.sent + [Sent(cell.value.fragment, sequence, now)] else m.sent)
  {
    BeginsAndReceives(s, m, sequence, now);
  }

  lemma Extended(s: Schedule, events: seq<Event>, event: Event)
    ensures Run(s, events + [event]) == Step(s, Run(s, events), event)
  {
    assert (events + [event])[..|events|] == events;
  }

  lemma Looks(s: Schedule, m: Machine, now: Instant)
    requires WindowState(s, now).1 && m.filler.Waiting?
    ensures Step(s, m, Look(now)) == m.(filler := Looked)
  {
  }

  lemma Takes(s: Schedule, m: Machine)
    requires m.filler.Looked? && m.queue != {}
    ensures Step(s, m, Take(Taken)) == m.(queue := m.queue - {Least(m.queue)}, filler := Holding(Least(m.queue)))
  {
  }

  lemma Fetches(s: Schedule, events: seq<Event>, now: Instant, f: nat)
    requires WindowState(s, now).1 && Run(s, events).filler.Waiting?
    requires Run(s, events).queue != {} && f == Least(Run(s, events).queue)
    ensures var m := Run(s, events);
            Run(s, events + [Look(now)] + [Take(Taken)]) == m.(queue := m.queue - {f}, filler := Holding(f))
  {
    Looks(s, Run(s, events), now);
    Extended(s, events, Look(now));
    Takes(s, Run(s, events + [Look(now)]));
    Extended(s, events + [Look(now)], Take(Taken));
  }

  lemma Buffers(s: Schedule, events: seq<Event>, f: nat)
    requires Run(s, events).filler == Holding(f) && Run(s, events).drain.ready.None?
    ensures var m := Run(s, events);
            Run(s, events + [Put]) == m.(drain := m.drain.(ready := Some(f)), filler := Waiting)
  {
    Extended(s, events, Put);
  }

  lemma Strands(s: Schedule, events: seq<Event>, f: nat)
    requires Run(s, events).filler == Holding(f)
    ensures var m := Run(s, events);
            Run(s, events + [Close] + [Stop])
            == m.(stopping := true, filler := Stopped, lost := m.lost + multiset{f})
  {
    Extended(s, events, Close);
    Extended(s, events + [Close], Stop);
  }

  lemma OneBuffered(s: Schedule, now: Instant) returns (events: seq<Event>)
    requires WindowState(s, now).1
    ensures var m := Run(s, events);
            && m.queue == {2} && m.filler.Waiting? && m.drain.ready == Some(1) && m.sent == [] && m.lost == multiset{}
            && |m.submitted| == 2
    ensures forall e <- events :: !Destructive(e)
  {
    var start := Run(s, []);
    events := [Submit({1, 2})];
    Extended(s, [], Submit({1, 2}));
    assert [] + events == events;
    assert {1, 2} - start.queue == {1, 2};
    assert Run(s, events).queue == {1, 2};
    var f := Least(Run(s, events).queue);
    assert f == 1;
    Fetches(s, events, now, 1);
    events := events + [Look(now)] + [Take(Taken)];
    assert {1, 2} - {1} == {2};
    Buffers(s, events, 1);
    events := events + [Put];
  }

  lemma GenesisIsOpen(s: Schedule)
    requires s.Valid()
    ensures WindowState(s, s.genesis).1
  {
    EpochSpansInstant(s, s.genesis, 0);
  }

  lemma TwoAdrift(s: Schedule, now: Instant) returns (events: seq<Event>)
    requires WindowState(s, now).1
    ensures var m := Run(s, events);
            && m.queue == {} && m.filler == Holding(2) && m.drain.ready == Some(1) && m.sent == []
            && m.lost == multiset{} && |m.submitted| == 2
    ensures forall e <- events :: !Destructive(e)
  {
    events := OneBuffered(s, now);
    var m := Run(s, events);
    var f := Least(m.queue);
    assert f == 2 && m.queue - {2} == {};
    Fetches(s, events, now, 2);
    events := events + [Look(now)] + [Take(Taken)];
  }

  /** Closing can strand two fragments, the one in the slot and the one in the
      filler's hand: under every valid schedule some run without a failure ends so. */
  lemma CloseStrandsTwo(s: Schedule) returns (events: seq<Event>)
    requires s.Valid()
    ensures var m := Run(s, events);
            && m.filler.Stopped? && m.queue == {} && m.sent == [] && |m.submitted| == 2
            && m.lost == multiset{2} && m.drain.ready == Some(1)
    ensures forall e <- events :: !Destructive(e) || e == Stop
  {
    GenesisIsOpen(s);
    events := TwoAdrift(s, s.genesis);
    Strands(s, events, 2);
    events := events + [Close] + [Stop];
  }

  /** What is neither queued nor sent since `m`: lost meanwhile, or still held. */
  function Stranded(m: Machine, m': Machine): int {
    |m'.lost| - |m.lost| + Adrift(m')
  }

  /** A filler that stops at once strands exactly what it holds and what the slot
      holds. It need not stop at once: see `CloseStrandsAtMostOneIff`. */
  lemma StoppingAtOnceStrands(s: Schedule, events: seq<Event>)
    requires Run(s, events).sender.Resting?
    ensures
      var m, m' := Run(s, events), Run(s, events + [Close] + [Stop]);
      && m'.queue == m.queue && m'.sent == m.sent && m'.submitted == m.submitted
      && Stranded(m, m') == Count(m.filler.Holding?) + Count(m.drain.ready.Some?)
  {
    var m := Run(s, events);
    Extended(s, events, Close);
    Extended(s, events + [Close], Stop);
    StopStep(s, m.(stopping := true));
  }

  lemma StopStep(s: Schedule, m: Machine)
    requires m.stopping
    ensures Step(s, m, Stop)
         == match m.filler
            case Waiting => m.(filler := Stopped)
            case Holding(f) => m.(filler := Stopped, lost := m.lost + multiset{f})
            case _ => m
  {
  }

  predicate FillerOnly(event: Event) {
    event.Look? || event == Take(Taken) || event == Take(Kept) || event == Put || event == Stop
  }

  lemma FillerOnlyStep(s: Schedule, m: Machine, event: Event)
    requires FillerOnly(event)
    ensures var m' := Step(s, m, event);
            && m'.sent == m.sent && m'.submitted == m.submitted && m'.sender == m.sender
            && |m'.lost| <= |m.lost| + Count(!m.filler.Stopped? && m'.filler.Stopped?)
            && (m.filler.Stopped? ==> m'.filler.Stopped?)
  {
  }

  lemma {:induction false} FillerOnlyRun(s: Schedule, events: seq<Event>, tail: seq<Event>)
    requires forall e <- tail :: FillerOnly(e)
    ensures var m, m' := Run(s, events), Run(s, events + tail);
            && m'.sent == m.sent && m'.submitted == m.submitted && m'.sender == m.sender
            && |m'.lost| <= |m.lost| + Count(!m.filler.Stopped? && m'.filler.Stopped?)
            && (m.filler.Stopped? ==> m'.filler.Stopped?)
    decreases |tail|
  {
    if tail == [] {
      assert events + tail == events;
    } else {
      var init, last := tail[..|tail| - 1], tail[|tail| - 1];
      assert last in tail && forall e <- init :: e in tail;
      FillerOnlyRun(s, events, init);
      assert events + tail == (events + init) + [last];
      Extended(s, events + init, last);
      FillerOnlyStep(s, Run(s, events + init), last);
    }
  }

  /** However long the filler goes on after a close, while its files work the
      fragments it held and took are all that is stranded, and never more than two. */
  lemma ShutdownStrandsAtMostTwo(s: Schedule, events: seq<Event>, tail: seq<Event>)
    requires Run(s, events).sender.Resting? && forall e <- tail :: FillerOnly(e)
    ensures
      var m, m' := Run(s, events), Run(s, events + [Close] + tail);
      && Stranded(m, m') == Adrift(m) + |m.queue| - |m'.queue|
      && (m'.filler.Stopped? ==> Stranded(m, m') <= 2)
  {
    Extended(s, events, Close);
    FillerOnlyRun(s, events + [Close], tail);
    FewAreAdrift(s, events);
    FewAreAdrift(s, events + [Close] + tail);
  }

  function StepsLeft(m: Machine): nat {
    (if m.drain.ready.None? then 4 else 0)
    + (match m.filler case Waiting => 2 case Looked => 1 case _ => 0)
  }

  /** The states a list of events leads through. */
  predicate Path<M(==), E>(step: (M, E) -> M, path: seq<M>, tail: seq<E>) {
    |path| == |tail| + 1 && forall i | 0 <= i < |tail| :: path[i + 1] == step(path[i], tail[i])
  }

  lemma PathCons<M, E>(step: (M, E) -> M, m: M, e: E, path: seq<M>, tail: seq<E>)
    requires Path(step, path, tail) && path[0] == step(m, e)
    ensures Path(step, [m] + path, [e] + tail)
  {
  }

  ghost function Stepper(s: Schedule): (Machine, Event) -> Machine {
    (m, e) => Step(s, m, e)
  }

  lemma PathTail<M, E>(step: (M, E) -> M, path: seq<M>, tail: seq<E>)
    requires Path(step, path, tail) && tail != []
    ensures path[1] == step(path[0], tail[0]) && Path(step, path[1..], tail[1..])
  {
    forall i | 0 <= i < |tail[1..]| ensures path[1..][i + 1] == step(path[1..][i], tail[1..][i]) {
      assert path[i + 2] == step(path[i + 1], tail[i + 1]);
    }
  }

  ghost predicate Follows<M(!new), E(!new)>(run: seq<E> -> M, step: (M, E) -> M) {
    forall events, e :: run(events + [e]) == step(run(events), e)
  }

  lemma {:induction false} PathEnds<M(!new), E(!new)>
    (run: seq<E> -> M, step: (M, E) -> M, events: seq<E>, path: seq<M>, tail: seq<E>)
    requires Follows(run, step) && Path(step, path, tail) && path[0] == run(events)
    ensures run(events + tail) == path[|tail|]
    decreases |tail|
  {
    if tail == [] {
      assert events + tail == events;
    } else {
      PathTail(step, path, tail);
      assert run(events + [tail[0]]) == step(run(events), tail[0]);
      PathEnds(run, step, events + [tail[0]], path[1..], tail[1..]);
      assert events + [tail[0]] + tail[1..] == events + tail;
    }
  }

  lemma PathIsRun(s: Schedule, events: seq<Event>, path: seq<Machine>, tail: seq<Event>)
    requires Path(Stepper(s), path, tail) && path[0] == Run(s, events)
    ensures Run(s, events + tail) == path[|tail|]
  {
    ghost var run := (before: seq<Event>) => Run(s, before);
    forall before, e ensures run(before + [e]) == Stepper(s)(run(before), e) {
      Extended(s, before, e);
    }
    PathEnds(run, Stepper(s), events, path, tail);
  }

  /** With two fragments to be had, a filler that goes on after the close can fill
      the slot, take another one and stop with it. */
  lemma {:induction false} StrandTwo(s: Schedule, m: Machine) returns (path: seq<Machine>, tail: seq<Event>)
    requires s.Valid() && m.stopping && m.sender.Resting? && !m.filler.Stopped? && Adrift(m) + |m.queue| >= 2
    ensures forall e <- tail :: FillerOnly(e)
    ensures Path(Stepper(s), path, tail) && path[0] == m
    ensures var m' := path[|tail|]; m'.filler.Stopped? && |m'.lost| == |m.lost| + 1 && m'.drain.ready.Some?
    decreases StepsLeft(m)
  {
    if m.filler.Holding? && m.drain.ready.Some? {
      StopStep(s, m);
      path, tail := [m, Step(s, m, Stop)], [Stop];
      return;
    }
    var event := NextFetch(s, m);
    var onwards, rest := StrandTwo(s, Step(s, m, event));
    path, tail := [m] + onwards, [event] + rest;
    PathCons(Stepper(s), m, event, onwards, rest);
    assert path[|tail|] == onwards[|rest|];
  }

  /** The filler's next step towards holding a fragment with the slot full. */
  lemma NextFetch(s: Schedule, m: Machine) returns (event: Event)
    requires s.Valid() && m.sender.Resting? && !m.filler.Stopped? && Adrift(m) + |m.queue| >= 2
    requires m.filler.Holding? ==> m.drain.ready.None?
    ensures FillerOnly(event)
    ensures var m' := Step(s, m, event);
            && m'.stopping == m.stopping && m'.sender == m.sender && m'.lost == m.lost && !m'.filler.Stopped?
            && Adrift(m') + |m'.queue| == Adrift(m) + |m.queue| && StepsLeft(m') < StepsLeft(m)
  {
    match m.filler
    case Holding(f) =>
      event := Put;
      PutStep(s, m, f);
    case Looked =>
      event := Take(Taken);
      Takes(s, m);
    case Waiting =>
      event := Look(s.genesis);
      GenesisIsOpen(s);
      Looks(s, m, s.genesis);
  }

  lemma PutStep(s: Schedule, m: Machine, f: nat)
    requires m.filler == Holding(f) && m.drain.ready.None?
    ensures Step(s, m, Put) == m.(drain := m.drain.(ready := Some(f)), filler := Waiting)
  {
  }

  /** Closing between emissions strands at most one fragment, however the filler's
      shutdown goes while its files work, if and only if the filler has stopped
      before or at most one fragment is queued, held or in the slot. */
  lemma CloseStrandsAtMostOneIff(s: Schedule, events: seq<Event>)
    requires s.Valid() && Run(s, events).sender.Resting?
    ensures
      var m := Run(s, events);
      m.filler.Stopped? || Adrift(m) + |m.queue| <= 1 <==>
        forall tail | ShutsDown(s, events, tail) :: Stranded(m, Run(s, events + [Close] + tail)) <= 1
  {
    var m := Run(s, events);
    if m.filler.Stopped? || Adrift(m) + |m.queue| <= 1 {
      forall tail | ShutsDown(s, events, tail) ensures Stranded(m, Run(s, events + [Close] + tail)) <= 1 {
        ShutdownStrandsAtMostTwo(s, events, tail);
        Extended(s, events, Close);
        FillerOnlyRun(s, events + [Close], tail);
      }
    } else {
      Extended(s, events, Close);
      var path, tail := StrandTwo(s, m.(stopping := true));
      PathIsRun(s, events + [Close], path, tail);
      assert ShutsDown(s, events, tail);
    }
  }

  /** Steps of the filler alone, after a close, until it has stopped. */
  ghost predicate ShutsDown(s: Schedule, events: seq<Event>, tail: seq<Event>) {
    (forall e <- tail :: FillerOnly(e)) && Run(s, events + [Close] + tail).filler.Stopped?
  }
}
