/** What a tick of the sender answers and counts, told by what happened to its cell
    and to the cells before it. */
module HopOutcomes {
  import opened Options
  import opened Bytes
  import opened HopSequence

  // --- What happens to one cell --------------------------------------------------------------------------

  datatype Fate =
    /** The socket took the whole cell, work or cover. */
    | Whole(work: bool)
    /** A local failure that may pass: the reservation could not be written, or the
        deadline or the write failed for a passing reason. */
    | Lost
    /** A failure of the socket that does not pass, or a cell taken in part. */
    | Broken
    /** No cell was offered to the socket, and waiting will not help. */
    | Refused

  /** A new range is needed and the file does not allow one. */
  predicate RangeRefused(s: Sink) {
    NeedsReservation(s.allocator)
    && (s.file.visible.Unreadable? || s.file.visible.upTo + RESERVATION > MAXIMUM)
  }

  /** A new range is needed, allowed, and not written. */
  predicate RangeUnwritten(s: Sink, write: Write) {
    NeedsReservation(s.allocator) && !RangeRefused(s) && !write.Written?
  }

  function FateOf(s: Sink, write: Write, io: Io): Fate {
    if io.InvalidCell? || RangeRefused(s) then Refused
    else if RangeUnwritten(s, write) then Lost
    else
      match io
      case Emitted(work, _) => Whole(work)
      case ShortWrite => Broken
      case DeadlineError(transient) => if transient then Lost else Broken
      case WriteError(transient) => if transient then Lost else Broken
      case _ => Refused
  }

  /** The answer of one tick: sent exactly for a whole cell, dropped exactly for a
      lost one within the limit, fatal otherwise; and what it counts. */
  lemma OutcomeIs(s: Sink, write: Write, io: Io)
    ensures
      var (s', outcome, emission) := AfterSend(s, write, io);
      var fate := FateOf(s, write, io);
      && (outcome.Sent? <==> fate.Whole?)
      && (outcome.Dropped? <==> fate.Lost? && s.consecutive < MAXIMUM_CONSECUTIVE_DROPS)
      && (emission.Some? <==> fate.Whole? || (fate.Broken? && io.ShortWrite?))
      && (emission.Some? ==> emission.value.slot == s.ticks)
      && s'.stats.relayed == s.stats.relayed + (if fate == Whole(true) then 1 else 0)
      && s'.stats.coverSent == s.stats.coverSent + (if fate == Whole(false) then 1 else 0)
      && s'.stats.lastSent == (if fate.Whole? then io.at else s.stats.lastSent)
      && s'.consecutive == (match fate
                            case Whole(_) => 0
                            case Lost => s.consecutive + 1
                            case Broken => 0
                            case Refused => s.consecutive)
      && s'.stats.dropped == s.stats.dropped + (if outcome.Dropped? then 1 else 0)
  {
  }

  // --- Over runs -------------------------------------------------------------------------------------------

  /** What happened to each cell offered to a running process, in order. */
  function Fates(y: System, events: seq<Event>): seq<Fate>
    decreases |events|
  {
    if events == [] then []
    else
      (if events[0].Tick? && y.up then [FateOf(y.sink, events[0].write, events[0].io)] else [])
      + Fates(Step(y, events[0]), events[1..])
  }

  /** How many cells were lost since the socket last took one or failed for good. */
  function LostInARow(fates: seq<Fate>): nat {
    if fates == [] then 0
    else
      var row := LostInARow(fates[..|fates| - 1]);
      match fates[|fates| - 1]
      case Lost => row + 1
      case Refused => row
      case _ => 0
  }

  /** How many cells were lost while no more than the limit were in a row. */
  function LostWithinLimit(fates: seq<Fate>): nat {
    if fates == [] then 0
    else
      LostWithinLimit(fates[..|fates| - 1])
      + if fates[|fates| - 1].Lost? && LostInARow(fates) <= MAXIMUM_CONSECUTIVE_DROPS then 1 else 0
  }

  function Times(fates: seq<Fate>, fate: Fate): nat {
    if fates == [] then 0
    else Times(fates[..|fates| - 1], fate) + if fates[|fates| - 1] == fate then 1 else 0
  }

  ghost predicate Counts(s: Sink, fates: seq<Fate>) {
    && s.consecutive == LostInARow(fates) && s.stats.dropped == LostWithinLimit(fates)
    && s.stats.relayed == Times(fates, Whole(true)) && s.stats.coverSent == Times(fates, Whole(false))
  }

  lemma TickCounts(s: Sink, fates: seq<Fate>, write: Write, io: Io)
    requires Counts(s, fates)
    ensures Counts(AfterSend(s, write, io).0, fates + [FateOf(s, write, io)])
  {
    OutcomeIs(s, write, io);
    var longer := fates + [FateOf(s, write, io)];
    assert longer[..|longer| - 1] == fates;
  }

  /** The counters tell the history. */
  lemma {:induction false} RunCounts(y: System, events: seq<Event>, fates: seq<Fate>)
    requires Counts(y.sink, fates) && forall i | 0 <= i < |events| :: !events[i].Start?
    ensures Counts(Run(y, events).sink, fates + Fates(y, events))
    decreases |events|
  {
    if events == [] {
      assert fates + [] == fates;
      return;
    }
    var e, y' := events[0], Step(y, events[0]);
    var here := if e.Tick? && y.up then [FateOf(y.sink, e.write, e.io)] else [];
    if e.Tick? && y.up {
      TickCounts(y.sink, fates, e.write, e.io);
    } else {
      assert fates + [] == fates;
    }
    RunCounts(y', events[1..], fates + here);
    assert fates + (here + Fates(y', events[1..])) == (fates + here) + Fates(y', events[1..]);
  }

  /** Since a process started, whatever happened in between: the next tick answers
      sent exactly for a whole cell; dropped exactly for a lost one that makes no
      more than the limit of losses in a row; fatal otherwise. The counters are the
      numbers of cells so dropped, of work sent and of cover sent. */
  lemma OutcomesOverRuns(y: System, start: Write, events: seq<Event>, write: Write, io: Io)
    requires !y.up && forall i | 0 <= i < |events| :: !events[i].Start?
    ensures
      var y0 := Step(y, Start(start));
      var y' := Run(y0, events);
      var fate := FateOf(y'.sink, write, io);
      var fates := Fates(y0, events) + [fate];
      var (s, outcome, _) := AfterSend(y'.sink, write, io);
      && outcome == (if fate.Whole? then Sent
                     else if fate.Lost? && LostInARow(fates) <= MAXIMUM_CONSECUTIVE_DROPS then Dropped
                     else Fatal)
      && s.stats.dropped == LostWithinLimit(fates)
      && s.stats.relayed == Times(fates, Whole(true)) && s.stats.coverSent == Times(fates, Whole(false))
  {
    var y0 := Step(y, Start(start));
    RunCounts(y0, events, []);
    assert [] + Fates(y0, events) == Fates(y0, events);
    var y' := Run(y0, events);
    OutcomeIs(y'.sink, write, io);
    TickCounts(y'.sink, Fates(y0, events), write, io);
  }

  /** A process starts exactly when the file allows a range and it is written. */
  lemma StartsIff(y: System, write: Write)
    requires !y.up
    ensures Step(y, Start(write)).up <==>
              y.sink.file.visible.Reserved? && y.sink.file.visible.upTo + RESERVATION <= MAXIMUM && write.Written?
  {
  }
}
