/** What the stream cache answers: each answer of a put exactly when it is due,
    what a created cell answers from then on, and when a stream loads. */
module RawCacheAnswers {
  import opened Options
  import opened HopFrame
  import opened RawCache

  // --- One put -----------------------------------------------------------------------------------------

  predicate Sized(streams: Streams, id: StreamId) {
    id in streams && streams[id].batchSize.Some? && 2 <= streams[id].batchSize.value <= MAXIMUM_BATCH
  }

  /** The coordinate is held with this batch size and payload. */
  predicate Agrees(streams: Streams, m: Metadata, payload: Cell) {
    && Sized(streams, m.stream) && streams[m.stream].batchSize.value == m.batchSize
    && m.ordinal in streams[m.stream].cells && streams[m.stream].cells[m.ordinal] == payload
  }

  /** A sized stream is offered another batch size, or a held coordinate another payload. */
  predicate Contradicts(streams: Streams, m: Metadata, payload: Cell) {
    && Sized(streams, m.stream)
    && (streams[m.stream].batchSize.value != m.batchSize
        || (m.ordinal in streams[m.stream].cells && streams[m.stream].cells[m.ordinal] != payload))
  }

  /** A new stream fits the total, and its sender is listed and below its share. */
  predicate HasRoom(config: Config, streams: Streams, sender: nat) {
    && |streams| < config.maxStreams
    && (config.perSource > 0 ==> sender in config.sources && |IntroducedBy(streams, sender)| < config.perSource)
  }

  /** The coordinate is free, in a stream of this batch size or a new one with room. */
  predicate IsNew(config: Config, streams: Streams, m: Metadata) {
    && !Holds(streams, m.stream, m.ordinal)
    && if m.stream in streams then Sized(streams, m.stream) && streams[m.stream].batchSize.value == m.batchSize
       else HasRoom(config, streams, m.sender) && 2 <= m.batchSize <= MAXIMUM_BATCH
  }

  /** Every file operation the put needs succeeds. */
  predicate Writes(config: Config, streams: Streams, m: Metadata, luck: Luck) {
    && luck.cell && luck.sync
    && (m.stream in streams || (luck.mkdir && luck.batch && (config.perSource > 0 ==> luck.source)))
  }

  /** Each answer exactly when it is due; only a new cell or a failure changes the
      cache, and a new cell is there afterwards, under its stream's first sender. */
  lemma PutAnswers(config: Config, streams: Streams, m: Metadata, payload: Cell, luck: Luck)
    ensures
      var (streams', answer) := AfterPut(config, streams, m, payload, luck);
      && (answer.Ignored? <==> !IsWork(m))
      && (answer.Known? <==> IsWork(m) && Agrees(streams, m, payload))
      && (answer.Equivocation? <==> IsWork(m) && Contradicts(streams, m, payload))
      && (answer.CacheFull? <==> IsWork(m) && m.stream !in streams && |streams| >= config.maxStreams)
      && (answer.ShareFull? <==>
            && IsWork(m) && m.stream !in streams && |streams| < config.maxStreams
            && !HasRoom(config, streams, m.sender))
      && (answer.Created? <==> IsWork(m) && IsNew(config, streams, m) && Writes(config, streams, m, luck))
      && (!answer.Created? && !answer.Failed? ==> streams' == streams)
      && (answer.Created? ==>
            && Agrees(streams', m, payload)
            && streams'[m.stream].source
               == if m.stream in streams then streams[m.stream].source
                  else if config.perSource > 0 then Some(m.sender) else None)
  {
    assert m.stream in streams ==> streams[m.stream := streams[m.stream]] == streams;
  }

  // --- Over runs ---------------------------------------------------------------------------------------

  /** A stream that holds a cell has its batch size. */
  ghost predicate CellsSized(streams: Streams) {
    forall id <- streams | streams[id].cells != map[] :: Sized(streams, id)
  }

  lemma PutKeepsSized(config: Config, streams: Streams, o: Offer)
    requires CellsSized(streams)
    ensures CellsSized(AfterPut(config, streams, o.metadata, o.payload, o.luck).0)
  {
    var streams' := AfterPut(config, streams, o.metadata, o.payload, o.luck).0;
    forall id | id in streams' && streams'[id].cells != map[] ensures Sized(streams', id) {
      if id in streams {
        assert streams[id].cells != map[] ==> Sized(streams, id);
      }
    }
  }

  lemma {:induction false} RunKeepsSized(config: Config, events: seq<Event>)
    ensures CellsSized(Run(config, EMPTY, events).visible) && CellsSized(Run(config, EMPTY, events).durable)
  {
    if events != [] {
      var init, e := events[..|events| - 1], events[|events| - 1];
      RunKeepsSized(config, init);
      var disk := Run(config, EMPTY, init);
      match e
      case Put(o) => PutKeepsSized(config, disk.visible, o);
      case PowerLoss(dropped, torn) => LossKeepsSized(disk, dropped, torn);
    }
  }

  lemma LossKeepsSized(disk: Disk, dropped: set<StreamId>, torn: set<StreamId>)
    requires CellsSized(disk.visible) && CellsSized(disk.durable)
    ensures CellsSized(AfterLoss(disk, dropped, torn))
  {
    var streams := AfterLoss(disk, dropped, torn);
    forall id | id in streams && streams[id].cells != map[] ensures Sized(streams, id) {
      if id in disk.durable && streams[id] == disk.durable[id] {
        assert Sized(disk.durable, id);
      } else {
        assert Sized(disk.visible, id);
      }
    }
  }

  /** The cell is there, under this batch size. */
  predicate HoldsCell(streams: Streams, id: StreamId, k: nat, cell: Cell, size: nat) {
    Holds(streams, id, k) && streams[id].cells[k] == cell && streams[id].batchSize == Some(size)
  }

  lemma StaysTheSame(config: Config, disk: Disk, e: Event, id: StreamId, k: nat, cell: Cell, size: nat)
    requires Lags(disk.durable, disk.visible) && HoldsCell(disk.visible, id, k, cell, size)
    requires CellsSized(Step(config, disk, e).visible) && Holds(Step(config, disk, e).visible, id, k)
    ensures HoldsCell(Step(config, disk, e).visible, id, k, cell, size)
  {
    StepLags(config, disk, e);
    var after := Step(config, disk, e).visible;
    assert after[id].cells != map[];
    assert Sized(after, id);
  }

  lemma JustCreated(config: Config, disk: Disk, e: Event, id: StreamId, k: nat)
    requires Creates(config, disk, e, id, k)
    ensures HoldsCell(Step(config, disk, e).visible, id, k, e.offer.payload, e.offer.metadata.batchSize)
  {
    PutAnswers(config, disk.visible, e.offer.metadata, e.offer.payload, e.offer.luck);
  }

  /** Some event created the cell, and it has been there ever since. */
  ghost predicate CreatedAndKept(config: Config, events: seq<Event>, id: StreamId, k: nat, cell: Cell, size: nat) {
    && events != [] && Holds(Run(config, EMPTY, events).visible, id, k)
    && var init, e := events[..|events| - 1], events[|events| - 1];
       || (&& Creates(config, Run(config, EMPTY, init), e, id, k)
           && e.offer.payload == cell && e.offer.metadata.batchSize == size)
       || CreatedAndKept(config, init, id, k, cell, size)
  }

  lemma {:induction false} KeptAsCreated(config: Config, events: seq<Event>, id: StreamId, k: nat,
                                         cell: Cell, size: nat)
    requires CreatedAndKept(config, events, id, k, cell, size)
    ensures HoldsCell(Run(config, EMPTY, events).visible, id, k, cell, size)
    ensures Sized(Run(config, EMPTY, events).visible, id)
  {
    var init, e := events[..|events| - 1], events[|events| - 1];
    RunKeepsSized(config, events);
    if CreatedAndKept(config, init, id, k, cell, size) {
      KeptAsCreated(config, init, id, k, cell, size);
      DurableLags(config, EMPTY, init);
      StaysTheSame(config, Run(config, EMPTY, init), e, id, k, cell, size);
    } else {
      JustCreated(config, Run(config, EMPTY, init), e, id, k);
    }
    assert Run(config, EMPTY, events).visible[id].cells != map[];
  }

  /** A coordinate that answered true for a cell answers from then on, whoever asks
      and whatever fails, that it knows this cell, and equivocation for any other
      cell or batch size, until a power loss takes it. */
  lemma CreatedIsRemembered(config: Config, events: seq<Event>, id: StreamId, k: nat, cell: Cell, size: nat, o: Offer)
    requires CreatedAndKept(config, events, id, k, cell, size)
    requires IsWork(o.metadata) && o.metadata.stream == id && o.metadata.ordinal == k
    ensures
      var streams := Run(config, EMPTY, events).visible;
      AfterPut(config, streams, o.metadata, o.payload, o.luck)
      == (streams, if o.payload == cell && o.metadata.batchSize == size then Known else Equivocation)
  {
    KeptAsCreated(config, events, id, k, cell, size);
    var streams := Run(config, EMPTY, events).visible;
    PutAnswers(config, streams, o.metadata, o.payload, o.luck);
  }

  /** A stream loads as soon as each of its cells was created and none was taken: a
      load returns them in order exactly if they hash to the stream's name. */
  lemma CreatedLoads(config: Config, events: seq<Event>, streamFor: seq<Cell> -> StreamId, id: StreamId,
                     payloads: seq<Cell>)
    requires 2 <= |payloads|
    requires forall k | 0 <= k < |payloads| ::
               CreatedAndKept(config, events, id, k, payloads[k], |payloads|)
    ensures Loaded(streamFor, Run(config, EMPTY, events).visible, id)
         == if streamFor(payloads) == id then Complete(payloads) else Damaged
  {
    var streams := Run(config, EMPTY, events).visible;
    forall k | 0 <= k < |payloads| ensures Sized(streams, id) && HoldsCell(streams, id, k, payloads[k], |payloads|) {
      KeptAsCreated(config, events, id, k, payloads[k], |payloads|);
    }
    assert HoldsCell(streams, id, 0, payloads[0], |payloads|);
    LoadsWhole(streamFor, streams, id, payloads);
  }

  lemma LoadsWhole(streamFor: seq<Cell> -> StreamId, streams: Streams, id: StreamId, payloads: seq<Cell>)
    requires Sized(streams, id) && streams[id].batchSize == Some(|payloads|)
    requires forall k | 0 <= k < |payloads| :: HoldsCell(streams, id, k, payloads[k], |payloads|)
    ensures Loaded(streamFor, streams, id) == if streamFor(payloads) == id then Complete(payloads) else Damaged
  {
    var cells := streams[id].cells;
    forall k | 0 <= k < |payloads| ensures k in cells && cells[k] == payloads[k] {
      assert HoldsCell(streams, id, k, payloads[k], |payloads|);
    }
    assert seq(|payloads|, k requires 0 <= k < |payloads| && k in cells => cells[k]) == payloads;
  }

  /** A load waits exactly while a stream, its batch size or one of its cells is missing. */
  lemma LoadWaits(streamFor: seq<Cell> -> StreamId, streams: Streams, id: StreamId)
    ensures Loaded(streamFor, streams, id).Incomplete? <==>
              || id !in streams || streams[id].batchSize.None?
              || (Sized(streams, id) && exists k | 0 <= k < streams[id].batchSize.value :: k !in streams[id].cells)
  {
  }
}
