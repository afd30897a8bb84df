/** The raw stream cache of a node: immutable cells under stream directories,
    and an equal share of the directories for each sender. */
module RawCache {
  import opened Options
  import opened HopFrame
  import Bytes

  type Cell = Bytes.String

  /** A stream directory: its `batch-size` file, its `source` file and its cells. */
  datatype Stream = Stream(batchSize: Option<nat>, source: Option<nat>, cells: map<nat, Cell>)
  type Streams = map<StreamId, Stream>

  /** A share of zero is a store without a sender set. */
  datatype Config = Config(maxStreams: nat, perSource: nat, sources: set<nat>)

  datatype Answer = Created | Known | Ignored | CacheFull | ShareFull | Equivocation | Failed

  /** Which file operations succeed; a crash is a failure of all the later ones. */
  datatype Luck = Luck(mkdir: bool, batch: bool, source: bool, cell: bool, sync: bool)

  // --- Put ---------------------------------------------------------------------------------------

  function IntroducedBy(streams: Streams, sender: nat): (r: set<StreamId>) {
    set id | id in streams && streams[id].source == Some(sender)
  }

  /** The limits a new stream must pass. */
  function Barred(config: Config, streams: Streams, sender: nat): Option<Answer> {
    if |streams| >= config.maxStreams then Some(CacheFull)
    else if config.perSource > 0
            && (sender !in config.sources || |IntroducedBy(streams, sender)| >= config.perSource)
    then Some(ShareFull)
    else None
  }

  /** The directory a new stream gets, as far as the writes succeed. */
  function Introduced(config: Config, m: Metadata, luck: Luck): (Stream, bool) {
    var empty := Stream(None, None, map[]);
    if !luck.batch then (empty, false)
    else
      var sized := empty.(batchSize := Some(m.batchSize));
      if config.perSource == 0 then (sized, true)
      else if !luck.source then (sized, false)
      else (sized.(source := Some(m.sender)), true)
  }

  /** A cell into an existing directory. */
  function Stored(stream: Stream, m: Metadata, payload: Cell, luck: Luck): (Stream, Answer) {
    if stream.batchSize.None? || !(2 <= stream.batchSize.value <= MAXIMUM_BATCH) then (stream, Failed)
    else if stream.batchSize.value != m.batchSize then (stream, Equivocation)
    else if m.ordinal in stream.cells then
      (stream, if stream.cells[m.ordinal] == payload then Known else Equivocation)
    else if !luck.cell then (stream, Failed)
    else (stream.(cells := stream.cells[m.ordinal := payload]), if luck.sync then Created else Failed)
  }

  function AfterPut(config: Config, streams: Streams, m: Metadata, payload: Cell, luck: Luck): (Streams, Answer) {
    if !IsWork(m) then (streams, Ignored)
    else if m.stream in streams then
      var (stream, answer) := Stored(streams[m.stream], m, payload, luck);
      (streams[m.stream := stream], answer)
    else
      var barred := Barred(config, streams, m.sender);
      if barred.Some? then (streams, barred.value)
      else if !luck.mkdir then (streams, Failed)
      else
        var (begun, ok) := Introduced(config, m, luck);
        if !ok then (streams[m.stream := begun], Failed)
        else
          var (stream, answer) := Stored(begun, m, payload, luck);
          (streams[m.stream := stream], answer)
  }

  // --- Runs ------------------------------------------------------------------------------------------

  datatype Offer = Offer(metadata: Metadata, payload: Cell, luck: Luck)

  /** A reader sees `visible`; `durable` is what each directory held at its last
      sync. The root directory is never synced, so a power loss may drop a whole
      stream, or leave it as its last sync found it. */
  datatype Disk = Disk(visible: Streams, durable: Streams)

  datatype Event = Put(offer: Offer) | PowerLoss(dropped: set<StreamId>, torn: set<StreamId>)

  function Remains(disk: Disk, torn: set<StreamId>, id: StreamId): Stream
    requires id in disk.visible
  {
    if id !in torn then disk.visible[id]
    else if id in disk.durable then disk.durable[id]
    else Stream(None, None, map[])
  }

  function AfterLoss(disk: Disk, dropped: set<StreamId>, torn: set<StreamId>): Streams {
    map id | id in disk.visible && id !in dropped :: Remains(disk, torn, id)
  }

  function Step(config: Config, disk: Disk, e: Event): Disk {
    match e
    case Put(o) =>
      var (streams, answer) := AfterPut(config, disk.visible, o.metadata, o.payload, o.luck);
      var id := o.metadata.stream;
      Disk(streams, if answer.Created? && id in streams then disk.durable[id := streams[id]] else disk.durable)
    case PowerLoss(dropped, torn) =>
      var streams := AfterLoss(disk, dropped, torn);
      Disk(streams, streams)
  }

  const EMPTY := Disk(map[], map[])

  /** A cache is opened empty or over what an earlier one left. */
  function Run(config: Config, start: Disk, events: seq<Event>): Disk {
    if events == [] then start
    else Step(config, Run(config, start, events[..|events| - 1]), events[|events| - 1])
  }

  ghost predicate Within(config: Config, streams: Streams) {
    && |streams| <= config.maxStreams
    && (config.perSource > 0 ==> forall s <- config.sources :: |IntroducedBy(streams, s)| <= config.perSource)
  }

  /** Nothing recorded is rewritten. */
  predicate Grows(streams: Streams, streams': Streams) {
    forall id <- streams ::
      && id in streams' && streams'[id].batchSize == streams[id].batchSize
      && streams'[id].source == streams[id].source
      && forall k <- streams[id].cells :: k in streams'[id].cells && streams'[id].cells[k] == streams[id].cells[k]
  }

  lemma CountSame(streams: Streams, id: StreamId, stream: Stream, s: nat)
    requires id in streams && stream.source == streams[id].source
    ensures IntroducedBy(streams[id := stream], s) == IntroducedBy(streams, s)
  {
  }

  lemma CountNew(streams: Streams, id: StreamId, stream: Stream, s: nat)
    requires id !in streams
    ensures |IntroducedBy(streams[id := stream], s)|
         == |IntroducedBy(streams, s)| + if stream.source == Some(s) then 1 else 0
  {
    var before, after := IntroducedBy(streams, s), IntroducedBy(streams[id := stream], s);
    if stream.source == Some(s) {
      assert after == before + {id};
    } else {
      assert after == before;
    }
  }

  lemma SameDirectories(config: Config, streams: Streams, id: StreamId, stream: Stream)
    requires Within(config, streams) && id in streams && stream.source == streams[id].source
    ensures Within(config, streams[id := stream])
  {
    var streams' := streams[id := stream];
    assert streams'.Keys == streams.Keys;
    assert |streams'| == |streams'.Keys| && |streams.Keys| == |streams|;
    assert forall x <- streams' :: x in streams && streams'[x].source == streams[x].source;
    forall s: nat ensures |IntroducedBy(streams', s)| == |IntroducedBy(streams, s)| {
      CountSame(streams, id, stream, s);
    }
  }

  lemma NewDirectory(config: Config, streams: Streams, id: StreamId, stream: Stream, sender: nat)
    requires Within(config, streams) && id !in streams && Barred(config, streams, sender).None?
    requires stream.source.None? || (stream.source == Some(sender) && config.perSource > 0)
    ensures Within(config, streams[id := stream])
  {
    forall s: nat
      ensures |IntroducedBy(streams[id := stream], s)|
           == |IntroducedBy(streams, s)| + if stream.source == Some(s) then 1 else 0
    {
      CountNew(streams, id, stream, s);
    }
  }

  lemma StoredGrows(stream: Stream, m: Metadata, payload: Cell, luck: Luck)
    ensures var stream' := Stored(stream, m, payload, luck).0;
            && stream'.batchSize == stream.batchSize && stream'.source == stream.source
            && forall k <- stream.cells :: k in stream'.cells && stream'.cells[k] == stream.cells[k]
  {
  }

  lemma PutGrows(config: Config, streams: Streams, o: Offer)
    ensures Grows(streams, AfterPut(config, streams, o.metadata, o.payload, o.luck).0)
  {
    if o.metadata.stream in streams {
      StoredGrows(streams[o.metadata.stream], o.metadata, o.payload, o.luck);
    }
  }

  lemma PutKeeps(config: Config, streams: Streams, o: Offer)
    requires Within(config, streams)
    ensures Within(config, AfterPut(config, streams, o.metadata, o.payload, o.luck).0)
  {
    var m := o.metadata;
    var streams' := AfterPut(config, streams, m, o.payload, o.luck).0;
    if streams' != streams {
      if m.stream in streams {
        StoredGrows(streams[m.stream], m, o.payload, o.luck);
        SameDirectories(config, streams, m.stream, streams'[m.stream]);
      } else {
        StoredGrows(Introduced(config, m, o.luck).0, m, o.payload, o.luck);
        NewDirectory(config, streams, m.stream, streams'[m.stream], m.sender);
      }
    }
  }

  /** Less of the same: each record is the same or gone. */
  predicate Part(part: Stream, whole: Stream) {
    && (part.source == whole.source || part.source.None?)
    && (part.batchSize == whole.batchSize || part.batchSize.None?)
    && forall k <- part.cells :: k in whole.cells && part.cells[k] == whole.cells[k]
  }

  predicate Lags(less: Streams, more: Streams) {
    forall id <- less :: id in more && Part(less[id], more[id])
  }

  lemma LagsKeepsBounds(config: Config, less: Streams, more: Streams)
    requires Within(config, more) && Lags(less, more)
    ensures Within(config, less)
  {
    assert less.Keys <= more.Keys;
    SubsetSize(less.Keys, more.Keys);
    assert |less| == |less.Keys| && |more| == |more.Keys|;
    forall s: nat ensures |IntroducedBy(less, s)| <= |IntroducedBy(more, s)| {
      SubsetSize(IntroducedBy(less, s), IntroducedBy(more, s));
    }
  }

  lemma SubsetSize<T>(a: set<T>, b: set<T>)
    requires a <= b
    ensures |a| <= |b|
  {
    assert b == a + (b - a);
  }

  lemma StepLags(config: Config, disk: Disk, e: Event)
    requires Lags(disk.durable, disk.visible)
    ensures var disk' := Step(config, disk, e);
            && Lags(disk'.durable, disk'.visible)
            && (e.Put? ==> Grows(disk.visible, disk'.visible))
            && (e.PowerLoss? ==> Lags(disk'.visible, disk.visible))
  {
    match e
    case Put(o) => PutGrows(config, disk.visible, o);
    case PowerLoss(_, _) =>
  }

  lemma {:induction false} DurableLags(config: Config, start: Disk, events: seq<Event>)
    requires Lags(start.durable, start.visible)
    ensures Lags(Run(config, start, events).durable, Run(config, start, events).visible)
  {
    if events != [] {
      DurableLags(config, start, events[..|events| - 1]);
      StepLags(config, Run(config, start, events[..|events| - 1]), events[|events| - 1]);
    }
  }

  /** Whatever fails, wherever it crashes and whatever a power loss takes, the
      total and every share hold. */
  lemma {:induction false} BoundsHold(config: Config, start: Disk, events: seq<Event>)
    requires Within(config, start.visible) && Lags(start.durable, start.visible)
    ensures Within(config, Run(config, start, events).visible)
  {
    if events != [] {
      var init, e := events[..|events| - 1], events[|events| - 1];
      BoundsHold(config, start, init);
      DurableLags(config, start, init);
      StepLags(config, Run(config, start, init), e);
      if e.Put? {
        PutKeeps(config, Run(config, start, init).visible, e.offer);
      } else {
        LagsKeepsBounds(config, Run(config, start, events).visible, Run(config, start, init).visible);
      }
    }
  }

  /** Until a power loss, batch sizes, senders and cells stay as first recorded. */
  lemma {:induction false} RecordsArePermanent(config: Config, start: Disk, events: seq<Event>, n: nat)
    requires Lags(start.durable, start.visible)
    requires n <= |events| && forall i | n <= i < |events| :: events[i].Put?
    ensures Grows(Run(config, start, events[..n]).visible, Run(config, start, events).visible)
    decreases |events|
  {
    if n == |events| {
      assert events[..n] == events;
    } else {
      var init := events[..|events| - 1];
      assert init[..n] == events[..n];
      RecordsArePermanent(config, start, init, n);
      DurableLags(config, start, init);
      StepLags(config, Run(config, start, init), events[|events| - 1]);
    }
  }

  // --- Shares ----------------------------------------------------------------------------------------

  function FromAny(streams: Streams, senders: set<nat>): set<StreamId> {
    set id | id in streams && streams[id].source.Some? && streams[id].source.value in senders
  }

  /** Directories that count for no share: left without a `source` file by a crash,
      or of a sender no longer listed. */
  function Orphans(config: Config, streams: Streams): set<StreamId> {
    set id | id in streams && (streams[id].source.None? || streams[id].source.value !in config.sources)
  }

  /** Every directory belongs to a listed sender. */
  predicate Listed(config: Config, streams: Streams) {
    forall id <- streams :: streams[id].source.Some? && streams[id].source.value in config.sources
  }

  lemma {:induction false} SharesAddUp(streams: Streams, share: nat, senders: set<nat>)
    requires forall s <- senders :: |IntroducedBy(streams, s)| <= share
    ensures |FromAny(streams, senders)| <= |senders| * share
  {
    if senders != {} {
      var s :| s in senders;
      var rest := senders - {s};
      SharesAddUp(streams, share, rest);
      SendersApart(streams, senders, s);
      assert |senders| * share == |rest| * share + share;
    } else {
      assert FromAny(streams, senders) == {};
    }
  }

  lemma Attributed(config: Config, streams: Streams)
    ensures |streams| == |Orphans(config, streams)| + |FromAny(streams, config.sources)|
  {
    assert streams.Keys == Orphans(config, streams) + FromAny(streams, config.sources);
    assert |streams| == |streams.Keys|;
  }

  /** A shared store's configuration, as `OpenShared` computes it. */
  predicate Shared(config: Config) {
    && 1 <= config.maxStreams <= 4096 && config.sources != {}
    && config.perSource == config.maxStreams / |config.sources| && config.perSource >= 1
  }

  lemma SharesFit(config: Config)
    requires Shared(config)
    ensures |config.sources| * config.perSource <= config.maxStreams
  {
  }

  /** While the orphans fit beside the shares, a listed sender below its share may
      introduce a stream, whatever the others did. */
  lemma BelowShareIsAdmitted(config: Config, streams: Streams, sender: nat)
    requires Within(config, streams) && config.perSource > 0 && sender in config.sources
    requires |Orphans(config, streams)| + |config.sources| * config.perSource <= config.maxStreams
    requires |IntroducedBy(streams, sender)| < config.perSource
    ensures Barred(config, streams, sender).None?
  {
    Attributed(config, streams);
    OthersFit(streams, config.perSource, config.sources, sender);
  }

  lemma OthersFit(streams: Streams, share: nat, senders: set<nat>, sender: nat)
    requires sender in senders && forall s <- senders :: |IntroducedBy(streams, s)| <= share
    ensures |FromAny(streams, senders)| <= |senders| * share - share + |IntroducedBy(streams, sender)|
  {
    var rest := senders - {sender};
    SharesAddUp(streams, share, rest);
    SendersApart(streams, senders, sender);
    assert |senders| * share == |rest| * share + share;
  }

  lemma {:induction false} FullSharesAddUp(streams: Streams, share: nat, senders: set<nat>)
    requires forall s <- senders :: |IntroducedBy(streams, s)| >= share
    ensures |FromAny(streams, senders)| >= |senders| * share
  {
    if senders != {} {
      var s :| s in senders;
      var rest := senders - {s};
      FullSharesAddUp(streams, share, rest);
      SendersApart(streams, senders, s);
      assert |senders| * share == |rest| * share + share;
    }
  }

  lemma SendersApart(streams: Streams, senders: set<nat>, sender: nat)
    requires sender in senders
    ensures |FromAny(streams, senders)| == |FromAny(streams, senders - {sender})| + |IntroducedBy(streams, sender)|
  {
    var a, b := FromAny(streams, senders - {sender}), IntroducedBy(streams, sender);
    assert FromAny(streams, senders) == a + b && a !! b;
  }

  /** A full cache refuses a sender below its share exactly when the orphans do
      not fit beside the shares. */
  lemma OnlyOrphansStarve(config: Config, streams: Streams)
    requires Within(config, streams) && config.perSource > 0 && |streams| == config.maxStreams
    ensures (exists s <- config.sources :: |IntroducedBy(streams, s)| < config.perSource)
       <==> |Orphans(config, streams)| + |config.sources| * config.perSource > config.maxStreams
  {
    if exists s <- config.sources :: |IntroducedBy(streams, s)| < config.perSource {
      var s :| s in config.sources && |IntroducedBy(streams, s)| < config.perSource;
      if |Orphans(config, streams)| + |config.sources| * config.perSource <= config.maxStreams {
        BelowShareIsAdmitted(config, streams, s);
      }
    } else {
      Attributed(config, streams);
      FullSharesAddUp(streams, config.perSource, config.sources);
    }
  }

  /** No crash between creating a directory and recording its sender. */
  predicate Clean(luck: Luck) {
    luck.mkdir ==> luck.batch && luck.source
  }

  /** Puts without such a crash, and power losses that leave no directory half. */
  predicate CleanEvent(e: Event) {
    match e
    case Put(o) => Clean(o.luck)
    case PowerLoss(_, torn) => torn == {}
  }

  lemma CleanStep(config: Config, disk: Disk, e: Event)
    requires config.perSource > 0 && CleanEvent(e) && Listed(config, disk.visible)
    ensures Listed(config, Step(config, disk, e).visible)
  {
    match e
    case Put(o) =>
      if o.metadata.stream in disk.visible {
        StoredGrows(disk.visible[o.metadata.stream], o.metadata, o.payload, o.luck);
      } else {
        StoredGrows(Introduced(config, o.metadata, o.luck).0, o.metadata, o.payload, o.luck);
      }
    case PowerLoss(_, _) =>
  }

  lemma {:induction false} CleanRunsHaveNoOrphans(config: Config, start: Disk, events: seq<Event>)
    requires Listed(config, start.visible)
    requires config.perSource > 0 && forall i | 0 <= i < |events| :: CleanEvent(events[i])
    ensures Listed(config, Run(config, start, events).visible)
  {
    if events != [] {
      CleanRunsHaveNoOrphans(config, start, events[..|events| - 1]);
      CleanStep(config, Run(config, start, events[..|events| - 1]), events[|events| - 1]);
    }
  }

  /** In a shared cache that holds only streams of listed senders, such as an empty
      one, with no introduction cut short, a listed sender below its share is never
      refused room for a new stream. */
  lemma NoSenderStarvesAnother(config: Config, start: Disk, events: seq<Event>, sender: nat)
    requires Within(config, start.visible) && Lags(start.durable, start.visible) && Listed(config, start.visible)
    requires Shared(config) && (forall i | 0 <= i < |events| :: CleanEvent(events[i])) && sender in config.sources
    requires |IntroducedBy(Run(config, start, events).visible, sender)| < config.perSource
    ensures Barred(config, Run(config, start, events).visible, sender).None?
  {
    BoundsHold(config, start, events);
    CleanRunsHaveNoOrphans(config, start, events);
    assert Orphans(config, Run(config, start, events).visible) == {};
    SharesFit(config);
    BelowShareIsAdmitted(config, Run(config, start, events).visible, sender);
  }

  // --- Cells -----------------------------------------------------------------------------------------

  predicate Holds(streams: Streams, id: StreamId, k: nat) {
    id in streams && k in streams[id].cells
  }

  predicate Creates(config: Config, disk: Disk, e: Event, id: StreamId, k: nat) {
    && e.Put? && e.offer.metadata.stream == id && e.offer.metadata.ordinal == k
    && AfterPut(config, disk.visible, e.offer.metadata, e.offer.payload, e.offer.luck).1.Created?
  }

  /** How often a coordinate answered true, and how often a power loss took it. */
  function TimesCreated(config: Config, events: seq<Event>, id: StreamId, k: nat): nat {
    if events == [] then 0
    else
      var init, e := events[..|events| - 1], events[|events| - 1];
      TimesCreated(config, init, id, k) + if Creates(config, Run(config, EMPTY, init), e, id, k) then 1 else 0
  }

  function TimesTaken(config: Config, events: seq<Event>, id: StreamId, k: nat): nat {
    if events == [] then 0
    else
      var init := events[..|events| - 1];
      TimesTaken(config, init, id, k)
      + if Holds(Run(config, EMPTY, init).visible, id, k) && !Holds(Run(config, EMPTY, events).visible, id, k)
        then 1 else 0
  }

  lemma PutCreates(config: Config, streams: Streams, o: Offer, id: StreamId, k: nat)
    ensures var (streams', answer) := AfterPut(config, streams, o.metadata, o.payload, o.luck);
            var here := o.metadata.stream == id && o.metadata.ordinal == k;
            && (Holds(streams, id, k) ==> Holds(streams', id, k) && !(here && answer.Created?))
            && (here && answer.Created? ==> Holds(streams', id, k))
            && (!Holds(streams, id, k) && Holds(streams', id, k) ==>
                  here && IsWork(o.metadata) && streams'[id].cells[k] == o.payload && (o.luck.sync ==> answer.Created?))
            && (Holds(streams, id, k) ==> streams'[id].cells[k] == streams[id].cells[k])
  {
  }

  /** A coordinate answers true at most once more than power losses took it, and
      when no directory sync failed exactly once for each time it was stored. */
  lemma {:induction false} CreatedOnce(config: Config, events: seq<Event>, id: StreamId, k: nat)
    ensures TimesCreated(config, events, id, k)
         <= TimesTaken(config, events, id, k) + if Holds(Run(config, EMPTY, events).visible, id, k) then 1 else 0
    ensures (forall i | 0 <= i < |events| :: events[i].Put? ==> events[i].offer.luck.sync) ==>
              TimesCreated(config, events, id, k)
              == TimesTaken(config, events, id, k) + if Holds(Run(config, EMPTY, events).visible, id, k) then 1 else 0
  {
    if events != [] {
      var init, e := events[..|events| - 1], events[|events| - 1];
      CreatedOnce(config, init, id, k);
      DurableLags(config, EMPTY, init);
      StepLags(config, Run(config, EMPTY, init), e);
      if e.Put? {
        PutCreates(config, Run(config, EMPTY, init).visible, e.offer, id, k);
      }
    }
  }

  /** Without a power loss a coordinate answers true at most once. */
  lemma {:induction false} NothingTaken(config: Config, events: seq<Event>, id: StreamId, k: nat)
    requires forall i | 0 <= i < |events| :: events[i].Put?
    ensures TimesTaken(config, events, id, k) == 0 && TimesCreated(config, events, id, k) <= 1
  {
    if events != [] {
      var init := events[..|events| - 1];
      NothingTaken(config, init, id, k);
      PutCreates(config, Run(config, EMPTY, init).visible, events[|events| - 1].offer, id, k);
    }
    CreatedOnce(config, events, id, k);
  }

  predicate Offered(o: Offer, id: StreamId, k: nat, payload: Cell) {
    IsWork(o.metadata) && o.metadata.stream == id && o.metadata.ordinal == k && o.payload == payload
  }

  predicate SomeOffered(events: seq<Event>, id: StreamId, k: nat, payload: Cell) {
    exists i | 0 <= i < |events| :: events[i].Put? && Offered(events[i].offer, id, k, payload)
  }

  lemma {:induction false} CellsWereOffered(config: Config, events: seq<Event>, id: StreamId, k: nat)
    requires Holds(Run(config, EMPTY, events).visible, id, k)
    ensures SomeOffered(events, id, k, Run(config, EMPTY, events).visible[id].cells[k])
  {
    var init, e := events[..|events| - 1], events[|events| - 1];
    DurableLags(config, EMPTY, init);
    StepLags(config, Run(config, EMPTY, init), e);
    if e.Put? {
      PutCreates(config, Run(config, EMPTY, init).visible, e.offer, id, k);
    }
    if Holds(Run(config, EMPTY, init).visible, id, k) {
      CellsWereOffered(config, init, id, k);
      var cell := Run(config, EMPTY, init).visible[id].cells[k];
      var i :| 0 <= i < |init| && init[i].Put? && Offered(init[i].offer, id, k, cell);
      assert events[i] == init[i];
    } else {
      assert events[|events| - 1] == e;
    }
  }

  // --- Load ------------------------------------------------------------------------------------------

  datatype Loading = Incomplete | Complete(payloads: seq<Cell>) | Damaged

  /** `streamFor` is the stream identifier of a list of payloads. */
  function Loaded(streamFor: seq<Cell> -> StreamId, streams: Streams, id: StreamId): (r: Loading)
    ensures r.Complete? ==>
              && streamFor(r.payloads) == id && id in streams && Some(|r.payloads|) == streams[id].batchSize
              && forall k :: 0 <= k < |r.payloads| ==> k in streams[id].cells && streams[id].cells[k] == r.payloads[k]
  {
    if id !in streams || streams[id].batchSize.None? then Incomplete
    else
      var (size, cells) := (streams[id].batchSize.value, streams[id].cells);
      if !(2 <= size <= MAXIMUM_BATCH) then Damaged
      else if exists k :: 0 <= k < size && k !in cells then Incomplete
      else
        var payloads := seq(size, k requires 0 <= k < size && k in cells => cells[k]);
        if streamFor(payloads) != id then Damaged else Complete(payloads)
  }

  /** A complete load is exactly what was offered for its coordinates, and hashes to its name. */
  lemma LoadReturnsWhatWasPut(config: Config, events: seq<Event>, streamFor: seq<Cell> -> StreamId, id: StreamId)
    ensures var r := Loaded(streamFor, Run(config, EMPTY, events).visible, id);
            r.Complete? ==>
              && streamFor(r.payloads) == id
              && forall k :: 0 <= k < |r.payloads| ==> SomeOffered(events, id, k, r.payloads[k])
  {
    var r := Loaded(streamFor, Run(config, EMPTY, events).visible, id);
    if r.Complete? {
      forall k | 0 <= k < |r.payloads| ensures SomeOffered(events, id, k, r.payloads[k]) {
        CellsWereOffered(config, events, id, k);
      }
    }
  }

  // --- What crashes and power losses can do -----------------------------------------------------------

  lemma RunTwo(config: Config, first: Event, second: Event)
    ensures Run(config, EMPTY, [first]) == Step(config, Disk(map[], map[]), first)
    ensures Run(config, EMPTY, [first, second]) == Step(config, Run(config, EMPTY, [first]), second)
  {
    assert [first][..0] == [] && [first, second][..1] == [first];
  }

  /** Two introductions by one sender, each cut off after the directory is made,
      fill a cache of two: the other sender has used none of its share and is refused. */
  lemma CrashesCanStarve(a: Metadata, b: Metadata, payload: Cell) returns (config: Config, events: seq<Event>)
    requires IsWork(a) && IsWork(b) && a.stream != b.stream && a.sender == b.sender == 1
    ensures Shared(config) && 2 in config.sources && IntroducedBy(Run(config, EMPTY, events).visible, 2) == {}
    ensures Barred(config, Run(config, EMPTY, events).visible, 2) == Some(CacheFull)
  {
    config := Config(2, 1, {1, 2});
    var cut := Luck(true, false, false, false, false);
    var first, second := Put(Offer(a, payload, cut)), Put(Offer(b, payload, cut));
    events := [first, second];
    RunTwo(config, first, second);
    var empty := Stream(None, None, map[]);
    var none: Streams := map[];
    assert IntroducedBy(none, 1) == {};
    var one := none[a.stream := empty];
    assert Run(config, EMPTY, [first]).visible == one;
    assert IntroducedBy(one, 1) == {};
    var two := one[b.stream := empty];
    assert Run(config, EMPTY, events).visible == two;
    assert IntroducedBy(two, 2) == {};
    assert |{1, 2}| == 2;
    assert |two| == 2;
  }

  /** A power loss can make one coordinate answer true twice, for two payloads. */
  lemma PowerLossRepeats(config: Config, m: Metadata, x: Cell, y: Cell) returns (events: seq<Event>)
    requires Shared(config) && ValidMetadata(m) && IsWork(m) && m.sender in config.sources
    ensures TimesCreated(config, events, m.stream, m.ordinal) == 2
    ensures Holds(Run(config, EMPTY, events).visible, m.stream, m.ordinal)
            && Run(config, EMPTY, events).visible[m.stream].cells[m.ordinal] == y
  {
    var fine := Luck(true, true, true, true, true);
    var first, loss, second := Put(Offer(m, x, fine)), PowerLoss({m.stream}, {}), Put(Offer(m, y, fine));
    events := [first, loss, second];
    var none: Streams := map[];
    assert IntroducedBy(none, m.sender) == {};
    RunTwo(config, first, loss);
    assert events[..2] == [first, loss] && events[..2][..1] == [first] && events[..2][..1][..0] == [];
    assert Run(config, EMPTY, [first, loss]).visible == none;
    assert Creates(config, Run(config, EMPTY, []), first, m.stream, m.ordinal);
    assert TimesCreated(config, [first], m.stream, m.ordinal) == 1;
    assert TimesCreated(config, [first, loss], m.stream, m.ordinal) == 1;
    assert Creates(config, Run(config, EMPTY, [first, loss]), second, m.stream, m.ordinal);
  }

  // --- In place ---------------------------------------------------------------------------------------

  function Tally(perSource: map<nat, nat>, s: nat): nat {
    if s in perSource then perSource[s] else 0
  }

  ghost predicate Tallies(perSource: map<nat, nat>, streams: Streams) {
    forall s: nat :: Tally(perSource, s) == |IntroducedBy(streams, s)|
  }

  function Counted(perSource: map<nat, nat>, stream: Stream): map<nat, nat> {
    if stream.source.None? then perSource
    else perSource[stream.source.value := Tally(perSource, stream.source.value) + 1]
  }

  function Without(streams: Streams, left: set<StreamId>): Streams {
    map id | id in streams && id !in left :: streams[id]
  }

  lemma TallyStep(perSource: map<nat, nat>, streams: Streams, id: StreamId, stream: Stream)
    requires Tallies(perSource, streams) && id !in streams
    ensures Tallies(Counted(perSource, stream), streams[id := stream])
  {
    forall s: nat ensures Tally(Counted(perSource, stream), s) == |IntroducedBy(streams[id := stream], s)| {
      CountNew(streams, id, stream, s);
    }
  }

  class Store {
    const config: Config
    var streams: Streams

    constructor (config: Config, streams: Streams)
      ensures this.config == config && this.streams == streams
    {
      this.config, this.streams := config, streams;
    }

    /** Every directory counts toward the total, a recorded sender toward its share. */
    method StreamCounts() returns (total: nat, perSource: map<nat, nat>)
      ensures total == |streams| && Tallies(perSource, streams)
    {
      total, perSource := 0, map[];
      var left := streams.Keys;
      while left != {}
        invariant left <= streams.Keys && total == |streams| - |left|
        invariant Tallies(perSource, Without(streams, left))
      {
        var id :| id in left;
        TallyStep(perSource, Without(streams, left), id, streams[id]);
        assert Without(streams, left - {id}) == Without(streams, left)[id := streams[id]];
        perSource := Counted(perSource, streams[id]);
        left, total := left - {id}, total + 1;
      }
      assert Without(streams, {}) == streams;
    }

    method WriteOrCompare(m: Metadata, payload: Cell, luck: Luck) returns (answer: Answer)
      requires m.stream in streams
      modifies this
      ensures m.stream in old(streams)
      ensures (streams, answer) == var (stream, r) := Stored(old(streams)[m.stream], m, payload, luck);
                                   (old(streams)[m.stream := stream], r)
    {
      var stream := streams[m.stream];
      assert streams[m.stream := stream] == streams;
      if stream.batchSize.None? || stream.batchSize.value < 2 || stream.batchSize.value > MAXIMUM_BATCH {
        return Failed;
      }
      if stream.batchSize.value != m.batchSize {
        return Equivocation;
      }
      if m.ordinal in stream.cells {
        return if stream.cells[m.ordinal] != payload then Equivocation else Known;
      }
      if !luck.cell {
        return Failed;
      }
      streams := streams[m.stream := stream.(cells := stream.cells[m.ordinal := payload])];
      return if luck.sync then Created else Failed;
    }

    method Put(m: Metadata, payload: Cell, luck: Luck) returns (answer: Answer)
      modifies this
      ensures (streams, answer) == AfterPut(config, old(streams), m, payload, luck)
    {
      if !IsWork(m) {
        return Ignored;
      }
      if m.stream !in streams {
        var total, perSource := StreamCounts();
        if total >= config.maxStreams {
          return CacheFull;
        }
        if config.perSource > 0 {
          if m.sender !in config.sources {
            return ShareFull;
          }
          if Tally(perSource, m.sender) >= config.perSource {
            return ShareFull;
          }
        }
        if !luck.mkdir {
          return Failed;
        }
        streams := streams[m.stream := Stream(None, None, map[])];
        if !luck.batch {
          return Failed;
        }
        streams := streams[m.stream := streams[m.stream].(batchSize := Some(m.batchSize))];
        assert streams == old(streams)[m.stream := Stream(Some(m.batchSize), None, map[])];
        if config.perSource > 0 {
          if !luck.source {
            return Failed;
          }
          streams := streams[m.stream := streams[m.stream].(source := Some(m.sender))];
        }
        assert streams == old(streams)[m.stream := Introduced(config, m, luck).0];
      }
      answer := WriteOrCompare(m, payload, luck);
      assert streams == old(streams)[m.stream := streams[m.stream]];
    }

    method Load(streamFor: seq<Cell> -> StreamId, id: StreamId) returns (r: Loading)
      ensures r == Loaded(streamFor, streams, id)
    {
      if id !in streams || streams[id].batchSize.None? {
        return Incomplete;
      }
      var size, cells := streams[id].batchSize.value, streams[id].cells;
      if size < 2 || size > MAXIMUM_BATCH {
        return Damaged;
      }
      var payloads: seq<Cell> := [];
      for ordinal := 0 to size
        invariant |payloads| == ordinal
        invariant forall k :: 0 <= k < ordinal ==> k in cells && payloads[k] == cells[k]
      {
        if ordinal !in cells {
          return Incomplete;
        }
        payloads := payloads + [cells[ordinal]];
      }
      assert payloads == seq(size, k requires 0 <= k < size && k in cells => cells[k]);
      r := if streamFor(payloads) != id then Damaged else Complete(payloads);
    }
  }

  lemma ShareExists(maxStreams: nat, n: nat)
    requires 0 < n
    ensures maxStreams / n >= 1 <==> n <= maxStreams
  {
  }

  /** `senders` may list a sender twice; each still gets one share. */
  method OpenShared(maxStreams: int, senders: seq<nat>, streams: Streams) returns (r: Store?)
    ensures r != null ==> fresh(r) && Shared(r.config) && r.streams == streams && r.config.maxStreams == maxStreams
                          && forall s :: s in r.config.sources <==> s in senders
    ensures r != null <==> 1 <= maxStreams <= 4096 && senders != [] && |set s | s in senders| <= maxStreams
  {
    if maxStreams < 1 || maxStreams > 4096 || senders == [] {
      return null;
    }
    var sources: set<nat> := {};
    for k := 0 to |senders|
      invariant sources == set s | s in senders[..k]
    {
      sources := sources + {senders[k]};
    }
    assert senders[..|senders|] == senders;
    assert senders[0] in sources;
    ShareExists(maxStreams, |sources|);
    var perSource := maxStreams / |sources|;
    if perSource < 1 {
      return null;
    }
    r := new Store(Config(maxStreams, perSource, sources), streams);
  }
}
