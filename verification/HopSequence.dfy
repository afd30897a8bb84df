/** Sequence numbers for authenticated cells. Ranges are reserved on disk before
    use; a number whose cell never reached the socket is given back. The disk
    has what a reader sees now (`visible`) and what a power loss is certain to
    leave (`durable`): a rename whose directory sync failed sits in between. */
module HopSequence {
  import opened Options
  import opened Instants
  import opened Bytes

  const RESERVATION: nat := 0x10_0000
  const MAXIMUM: nat := U32 - 1
  const MAXIMUM_CONSECUTIVE_DROPS: nat := 4096

  type Word32 = n: nat | n < U32

  /** A missing file reads as zero. */
  datatype Contents = Reserved(upTo: Word32) | Unreadable
  datatype File = File(visible: Contents, durable: Contents)
  /** The write succeeds, fails before the rename, or renames and then fails. */
  datatype Write = Written | NotWritten | WrittenUnsynced
  datatype Failure = WriteFailed | Exhausted | StateInvalid
  datatype Result<T> = Ok(value: T) | Err(error: Failure)
  datatype Allocator = Allocator(next: Word32, reserved: Word32)

  function AfterReserve(a: Allocator, file: File, write: Write): (Result<()>, Allocator, File) {
    match file.visible
    case Unreadable => (Err(StateInvalid), a, file)
    case Reserved(previous) =>
      if previous > MAXIMUM - RESERVATION then (Err(Exhausted), a, file)
      else
        var reserved := previous + RESERVATION;
        match write
        case Written => (Ok(()), Allocator(previous + 1, reserved), File(Reserved(reserved), Reserved(reserved)))
        case NotWritten => (Err(WriteFailed), a, file)
        case WrittenUnsynced => (Err(WriteFailed), a, file.(visible := Reserved(reserved)))
  }

  predicate NeedsReservation(a: Allocator) {
    a.next == 0 || a.next > a.reserved
  }

  function AfterNext(a: Allocator, file: File, write: Write): (Result<Word32>, Allocator, File) {
    var (r, a1, file1) := if NeedsReservation(a) then AfterReserve(a, file, write) else (Ok(()), a, file);
    match r
    case Err(e) => (Err(e), a1, file1)
    case Ok(_) => (Ok(a1.next), a1.(next := (a1.next + 1) % U32), file1)
  }

  function AfterReturn(a: Allocator, value: Word32): Allocator {
    if value != 0 && a.next == (value + 1) % U32 then a.(next := value) else a
  }

  // --- One scheduler tick -------------------------------------------------------

  /** What happens to one cell outside the allocator. */
  datatype Io =
    | InvalidCell
    | SealRefused
    | DeadlineError(transient: bool)
    | WriteError(transient: bool)
    | ShortWrite
    | Emitted(work: bool, at: Instant)

  datatype Outcome = Sent | Dropped | Fatal

  datatype Stats = Stats(sent: nat, dropped: nat, relayed: nat, coverSent: nat, lastSent: Instant)
  const NO_STATS := Stats(0, 0, 0, 0, ZERO_TIME)

  datatype Sink = Sink(
    ticks: nat, consecutive: nat, stats: Stats, allocator: Allocator, file: File)

  function Counted(stats: Stats, work: bool, at: Instant): Stats {
    Stats(stats.sent + 1, stats.dropped, stats.relayed + (if work then 1 else 0),
          stats.coverSent + (if work then 0 else 1), at)
  }

  /** A cell seen on the wire: which tick's peer slot, under which number. */
  datatype Emission = Emission(slot: nat, sequence: Word32)

  /** A lost cell, unless too many were lost in a row. */
  function AfterLoss(s: Sink): (Sink, Outcome) {
    var s1 := s.(consecutive := s.consecutive + 1);
    if s1.consecutive > MAXIMUM_CONSECUTIVE_DROPS then (s1, Fatal)
    else (s1.(stats := s1.stats.(dropped := s1.stats.dropped + 1)), Dropped)
  }

  function AfterClassify(s: Sink, transient: bool): (Sink, Outcome) {
    if transient then AfterLoss(s) else (s.(consecutive := 0), Fatal)
  }

  function AfterSend(s: Sink, write: Write, io: Io): (Sink, Outcome, Option<Emission>) {
    if io.InvalidCell? then (s, Fatal, None)
    else
      var slot := s.ticks;
      var (r, a, file) := AfterNext(s.allocator, s.file, write);
      var s1 := s.(ticks := (s.ticks + 1) % U64, allocator := a, file := file);
      match r
      case Err(WriteFailed) => var (s2, o) := AfterLoss(s1); (s2, o, None)
      case Err(_) => (s1, Fatal, None)
      case Ok(sequence) =>
        match io
        case SealRefused => (s1, Fatal, None)
        case DeadlineError(transient) =>
          var (s2, o) := AfterClassify(s1.(allocator := AfterReturn(a, sequence)), transient); (s2, o, None)
        case WriteError(transient) =>
          var (s2, o) := AfterClassify(s1.(allocator := AfterReturn(a, sequence)), transient); (s2, o, None)
        case ShortWrite =>
          var (s2, o) := AfterClassify(s1, false); (s2, o, Some(Emission(slot, sequence)))
        case Emitted(work, at) =>
          (s1.(consecutive := 0, stats := Counted(s1.stats, work, at)), Sent, Some(Emission(slot, sequence)))
  }

  // --- Whole runs ------------------------------------------------------------------

  datatype Event =
    | Tick(write: Write, io: Io)
    | Exit
    | PowerLoss(unsyncedLost: bool)
    | Start(write: Write)

  /** `up` while a process holds an allocator. */
  datatype System = System(up: bool, sink: Sink, wire: seq<Emission>)

  function Step(y: System, e: Event): System {
    match e
    case Tick(write, io) =>
      if !y.up then y
      else
        var (s, _, emission) := AfterSend(y.sink, write, io);
        System(true, s, if emission.Some? then y.wire + [emission.value] else y.wire)
    case Exit => y.(up := false)
    case PowerLoss(lost) =>
      var kept := if lost then y.sink.file.durable else y.sink.file.visible;
      System(false, y.sink.(file := File(kept, kept)), y.wire)
    case Start(write) =>
      if y.up then y
      else
        var (r, a, file) := AfterReserve(Allocator(0, 0), y.sink.file, write);
        System(r.Ok?, Sink(0, 0, NO_STATS, a, file), y.wire)
  }

  function Run(y: System, events: seq<Event>): System
    decreases |events|
  {
    if events == [] then y else Run(Step(y, events[0]), events[1..])
  }

  ghost predicate Initial(y: System) {
    !y.up && y.wire == [] && y.sink.file.visible == y.sink.file.durable
  }

  /** Emitted numbers never repeat and only grow. */
  ghost predicate StrictlyIncreasing(wire: seq<Emission>) {
    forall i, j | 0 <= i < j < |wire| :: wire[i].sequence < wire[j].sequence
  }

  /** Every emitted number lies in a range that survives any power loss. */
  ghost predicate DurablyCovered(file: File, wire: seq<Emission>) {
    forall e <- wire :: file.durable.Reserved? && 0 < e.sequence <= file.durable.upTo
  }

  /** What holds between processes too. */
  ghost predicate Safe(file: File, wire: seq<Emission>) {
    && StrictlyIncreasing(wire)
    && DurablyCovered(file, wire)
    && match (file.durable, file.visible) {
         case (Reserved(d), Reserved(v)) => d <= v
         case (Unreadable, Unreadable) => true
         case _ => false
       }
  }

  /** The range in memory is durable and everything below `next` is spent. */
  ghost predicate Ready(a: Allocator, file: File, wire: seq<Emission>) {
    && file.durable.Reserved? && a.reserved <= file.durable.upTo
    && (a.next == 0 ==> a.reserved == MAXIMUM)
    && a.next <= a.reserved + 1
    && (a.next != 0 ==> forall e <- wire :: e.sequence < a.next)
  }

  ghost predicate Inv(y: System) {
    && Safe(y.sink.file, y.wire)
    && (y.up ==> Ready(y.sink.allocator, y.sink.file, y.wire))
  }

  /** An issued number is new, durably reserved, and may be given back. */
  lemma NextKeeps(a: Allocator, file: File, wire: seq<Emission>, write: Write)
    requires Safe(file, wire) && Ready(a, file, wire)
    ensures
      var (r, a', file') := AfterNext(a, file, write);
      && Safe(file', wire) && Ready(a', file', wire)
      && (r.Ok? ==>
            && 0 < r.value <= a'.reserved
            && (forall e <- wire :: e.sequence < r.value)
            && a'.next == (r.value + 1) % U32
            && Ready(AfterReturn(a', r.value), file', wire))
  {
  }

  lemma EmitKeeps(a: Allocator, file: File, wire: seq<Emission>, e: Emission)
    requires Safe(file, wire) && Ready(a, file, wire)
    requires 0 < e.sequence <= a.reserved && a.next == (e.sequence + 1) % U32
    requires forall w <- wire :: w.sequence < e.sequence
    ensures Safe(file, wire + [e]) && Ready(a, file, wire + [e])
  {
  }

  lemma TickKeeps(y: System, write: Write, io: Io)
    requires Inv(y) && y.up
    ensures Inv(Step(y, Tick(write, io)))
  {
    NextKeeps(y.sink.allocator, y.sink.file, y.wire, write);
    var (_, _, emission) := AfterSend(y.sink, write, io);
    if emission.Some? {
      var (_, a, file) := AfterNext(y.sink.allocator, y.sink.file, write);
      EmitKeeps(a, file, y.wire, emission.value);
    }
  }

  lemma StepKeeps(y: System, e: Event)
    requires Inv(y)
    ensures Inv(Step(y, e))
  {
    if e.Tick? && y.up { TickKeeps(y, e.write, e.io); }
  }

  /** Over every interleaving of sends, failed sends, failed reservation writes
      (with and without effect), exits, power losses and restarts: numbers on
      the wire strictly increase, hence are never reused, and each is covered
      by a reservation that no later power loss can undo. */
  lemma {:induction false} RunNeverReuses(y: System, events: seq<Event>)
    requires Initial(y) || Inv(y)
    ensures Inv(Run(y, events))
    ensures StrictlyIncreasing(Run(y, events).wire) && DurablyCovered(Run(y, events).sink.file, Run(y, events).wire)
    decreases |events|
  {
    if events != [] {
      StepKeeps(y, events[0]);
      RunNeverReuses(Step(y, events[0]), events[1..]);
    }
  }

  // --- Local failures leave no trace -------------------------------------------------

  /** Ticks whose only failures are before the socket took the cell. */
  ghost predicate Quiet(events: seq<Event>) {
    forall e <- events :: e.Tick? && e.write == Written
                          && (e.io.Emitted? || e.io.DeadlineError? || e.io.WriteError?)
  }

  /** Numbers emitted since the wire held `past` cells count up by one from `from`. */
  ghost predicate Consecutive(wire: seq<Emission>, past: nat, from: nat) {
    forall i | past <= i < |wire| :: wire[i].sequence == from + (i - past)
  }

  ghost predicate Aligned(y: System) {
    y.up && y.sink.file.visible == Reserved(y.sink.allocator.reserved)
  }

  function Upcoming(a: Allocator): nat {
    if a.next == 0 then U32 else a.next
  }

  /** The next number to be issued continues the numbers on the wire. */
  ghost predicate Gapless(y: System, past: nat, from: nat) {
    && Aligned(y)
    && past <= |y.wire| && Consecutive(y.wire, past, from)
    && Upcoming(y.sink.allocator) == from + (|y.wire| - past)
  }

  lemma QuietTickKeeps(y: System, io: Io, past: nat, from: nat)
    requires Inv(y) && Gapless(y, past, from)
    requires io.Emitted? || io.DeadlineError? || io.WriteError?
    ensures Gapless(Step(y, Tick(Written, io)), past, from)
  {
    NextKeeps(y.sink.allocator, y.sink.file, y.wire, Written);
    var (r, a, file) := AfterNext(y.sink.allocator, y.sink.file, Written);
    assert file.visible == Reserved(a.reserved);
    assert r.Ok? ==> r.value == Upcoming(y.sink.allocator);
  }

  lemma {:induction false} QuietRunKeeps(y: System, events: seq<Event>, past: nat, from: nat)
    requires Inv(y) && Gapless(y, past, from) && Quiet(events)
    ensures Gapless(Run(y, events), past, from)
    decreases |events|
  {
    if events != [] {
      assert events[0] in events;
      StepKeeps(y, events[0]);
      QuietTickKeeps(y, events[0].io, past, from);
      QuietRunKeeps(Step(y, events[0]), events[1..], past, from);
    }
  }

  /** Local send failures leave no gap in the numbers an observer sees: from any
      reachable moment on, in any process, they count up by one. */
  lemma QuietRunHasNoGaps(y: System, events: seq<Event>)
    requires Inv(y) && Aligned(y) && Quiet(events)
    ensures Consecutive(Run(y, events).wire, |y.wire|, Upcoming(y.sink.allocator))
  {
    QuietRunKeeps(y, events, |y.wire|, Upcoming(y.sink.allocator));
  }

  /** Every process starts aligned, however the ones before it ended, and a tick
      that reserves nothing or whose reservation is written leaves it so. */
  lemma StartAligns(y: System, write: Write, tick: Write, io: Io)
    ensures !y.up && Step(y, Start(write)).up ==> Aligned(Step(y, Start(write)))
    ensures Aligned(y) && (tick.Written? || !NeedsReservation(y.sink.allocator)) ==> Aligned(Step(y, Tick(tick, io)))
  {
  }

  // --- The counters --------------------------------------------------------------------------

  /** Cells that reached the wire only in part. */
  function ShortWrites(y: System, events: seq<Event>): nat
    decreases |events|
  {
    if events == [] then 0
    else
      var short := y.up && events[0].Tick? && events[0].io.ShortWrite? && |Step(y, events[0]).wire| > |y.wire|;
      (if short then 1 else 0) + ShortWrites(Step(y, events[0]), events[1..])
  }

  lemma StepCounts(y: System, e: Event)
    requires !e.Start?
    ensures
      var y', stats := Step(y, e), y.sink.stats;
      var stats', short := y'.sink.stats, y.up && e.Tick? && e.io.ShortWrite? && |y'.wire| > |y.wire|;
      && |y'.wire| - |y.wire| == stats'.sent - stats.sent + (if short then 1 else 0)
      && stats'.sent - stats.sent == stats'.relayed - stats.relayed + stats'.coverSent - stats.coverSent
  {
  }

  /** Since a start, the cells on the wire are the ones counted as sent and the short
      writes; every sent one is counted once, as work or as cover. */
  lemma {:induction false} StatsMatchWire(y: System, events: seq<Event>)
    requires forall i | 0 <= i < |events| :: !events[i].Start?
    ensures
      var y', stats, stats' := Run(y, events), y.sink.stats, Run(y, events).sink.stats;
      && |y'.wire| - |y.wire| == stats'.sent - stats.sent + ShortWrites(y, events)
      && stats'.sent - stats.sent == stats'.relayed - stats.relayed + stats'.coverSent - stats.coverSent
    decreases |events|
  {
    if events != [] {
      StepCounts(y, events[0]);
      StatsMatchWire(Step(y, events[0]), events[1..]);
    }
  }

  // --- Which peer a tick addresses ------------------------------------------------------

  lemma OneTick(y: System, e: Event)
    requires y.up && e.Tick? && !e.io.InvalidCell?
    ensures Step(y, e).up && Step(y, e).sink.ticks == (y.sink.ticks + 1) % U64
  {
  }

  lemma WrapsOnce(x: nat, n: nat)
    ensures ((x + 1) % U64 + n) % U64 == (x + 1 + n) % U64
  {
  }

  /** The tick counter, and with it the peer slot, depends on how many cells the
      scheduler supplied and on nothing that happened to them. */
  lemma {:induction false} SlotIsTick(y: System, events: seq<Event>)
    requires y.up && forall e <- events :: e.Tick? && !e.io.InvalidCell?
    ensures Run(y, events).up
    ensures Run(y, events).sink.ticks % U64 == (y.sink.ticks + |events|) % U64
    decreases |events|
  {
    if events != [] {
      assert events[0] in events;
      OneTick(y, events[0]);
      SlotIsTick(Step(y, events[0]), events[1..]);
      WrapsOnce(y.sink.ticks, |events| - 1);
    }
  }

  // --- The objects --------------------------------------------------------------------

  /** Where the atomic write stops: at one of its calls, or nowhere. */
  datatype Stage = AtCreate | AtChmod | AtWrite | AtSync | AtClose | AtRename | AtDirectorySync | Nowhere

  function Ending(stage: Stage): Write {
    match stage
    case Nowhere => Written
    case AtDirectorySync => WrittenUnsynced
    case _ => NotWritten
  }

  /** The reservation file, and the temporary file beside it. */
  class Disk {
    var file: File
    var temporary: Option<Contents>

    constructor (file: File)
      ensures this.file == file && temporary == None
    {
      this.file, temporary := file, None;
    }

    method AtomicStateWrite(value: Word32, stage: Stage) returns (ok: bool)
      requires temporary.None?
      modifies this
      ensures temporary.None? && (ok <==> stage.Nowhere?)
      ensures file == match Ending(stage)
                      case Written => File(Reserved(value), Reserved(value))
                      case NotWritten => old(file)
                      case WrittenUnsynced => old(file).(visible := Reserved(value))
    {
      if stage.AtCreate? {
        return false;
      }
      temporary := Some(Unreadable);
      if stage.AtChmod? || stage.AtWrite? {
        temporary := None;
        return false;
      }
      temporary := Some(Reserved(value));
      if stage.AtSync? || stage.AtClose? || stage.AtRename? {
        temporary := None;
        return false;
      }
      file, temporary := file.(visible := temporary.value), None;
      if stage.AtDirectorySync? {
        return false;
      }
      file := file.(durable := file.visible);
      return true;
    }
  }

  class FileSequence {
    const disk: Disk
    var next: Word32
    var reserved: Word32

    function View(): Allocator
      reads this
    {
      Allocator(next, reserved)
    }

    constructor (disk: Disk)
      ensures this.disk == disk && View() == Allocator(0, 0)
    {
      this.disk, next, reserved := disk, 0, 0;
    }

    method Reserve(stage: Stage) returns (r: Result<()>)
      requires disk.temporary.None?
      modifies this, disk
      ensures disk.temporary.None?
      ensures (r, View(), disk.file) == AfterReserve(old(View()), old(disk.file), Ending(stage))
    {
      if disk.file.visible.Unreadable? {
        return Err(StateInvalid);
      }
      var previous := disk.file.visible.upTo;
      if previous > MAXIMUM - RESERVATION {
        return Err(Exhausted);
      }
      var upTo := previous + RESERVATION;
      var ok := disk.AtomicStateWrite(upTo, stage);
      if !ok {
        return Err(WriteFailed);
      }
      next, reserved := previous + 1, upTo;
      return Ok(());
    }

    method Next(stage: Stage) returns (r: Result<Word32>)
      requires disk.temporary.None?
      modifies this, disk
      ensures disk.temporary.None?
      ensures (r, View(), disk.file) == AfterNext(old(View()), old(disk.file), Ending(stage))
    {
      if next == 0 || next > reserved {
        var reservation := Reserve(stage);
        if reservation.Err? {
          return Err(reservation.error);
        }
      }
      var value := next;
      next := (next + 1) % U32;
      return Ok(value);
    }

    method Return(value: Word32)
      modifies this
      ensures View() == AfterReturn(old(View()), value)
    {
      if value != 0 && next == (value + 1) % U32 {
        next := value;
      }
    }
  }

  class AuthenticatedSink {
    const sequence: FileSequence
    var next: nat
    var consecutive: nat
    var stats: Stats

    function View(): Sink
      reads this, sequence, sequence.disk
    {
      Sink(next, consecutive, stats, sequence.View(), sequence.disk.file)
    }

    constructor (sequence: FileSequence)
      ensures this.sequence == sequence
      ensures View() == Sink(0, 0, NO_STATS, sequence.View(), sequence.disk.file)
    {
      this.sequence := sequence;
      next, consecutive, stats := 0, 0, NO_STATS;
    }

    method Drop() returns (o: Outcome)
      modifies this
      ensures (View(), o) == AfterLoss(old(View()))
    {
      consecutive := consecutive + 1;
      if consecutive > MAXIMUM_CONSECUTIVE_DROPS {
        return Fatal;
      }
      stats := stats.(dropped := stats.dropped + 1);
      return Dropped;
    }

    method Classify(transient: bool) returns (o: Outcome)
      modifies this
      ensures (View(), o) == AfterClassify(old(View()), transient)
    {
      if !transient {
        consecutive := 0;
        return Fatal;
      }
      o := Drop();
    }

    method Send(stage: Stage, io: Io) returns (o: Outcome, emission: Option<Emission>)
      requires sequence.disk.temporary.None?
      modifies this, sequence, sequence.disk
      ensures sequence.disk.temporary.None?
      ensures (View(), o, emission) == AfterSend(old(View()), Ending(stage), io)
    {
      emission := None;
      if io.InvalidCell? {
        return Fatal, None;
      }
      var slot := next;
      next := (next + 1) % U64;
      var number := sequence.Next(stage);
      if number.Err? {
        if number.error != WriteFailed {
          return Fatal, None;
        }
        o := Drop();
        return;
      }
      if io.SealRefused? {
        return Fatal, None;
      }
      if io.DeadlineError? {
        sequence.Return(number.value);
        o := Classify(io.transient);
        return;
      }
      if io.WriteError? {
        sequence.Return(number.value);
        o := Classify(io.transient);
        return;
      }
      emission := Some(Emission(slot, number.value));
      if io.ShortWrite? {
        o := Classify(false);
        return;
      }
      consecutive, stats := 0, stats.(sent := stats.sent + 1, lastSent := io.at);
      if io.work {
        stats := stats.(relayed := stats.relayed + 1);
      } else {
        stats := stats.(coverSent := stats.coverSent + 1);
      }
      o := Sent;
    }
  }
}
