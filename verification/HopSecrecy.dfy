/** What a cell hides and what its tag binds, for a keyed hash of which nothing is
    assumed. */
module HopSecrecy {
  import opened Options
  import opened Bits
  import opened Bytes
  import opened HopFrame
  import HopSequence

  // --- The tag binds context and cell ------------------------------------------------------------------------

  /** Two accepted cells that differ anywhere before the tag, or were accepted in
      different contexts, carry the hashes of two different inputs: changing an
      accepted cell, or moving it to another link, epoch or network, takes a new hash
      under the key. */
  lemma AcceptedCellsAreBound(mac: Mac, key: Digest, cell1: String, sender1: Word16, context1: Context,
                              cell2: String, sender2: Word16, context2: Context)
    returns (input1: String, input2: String)
    requires |cell1| == |cell2| == CELL
    requires Opened(mac, cell1, sender1, key, context1).Some? && Opened(mac, cell2, sender2, key, context2).Some?
    ensures cell1[CELL - TAG..] == mac(key, input1)[..TAG] && cell2[CELL - TAG..] == mac(key, input2)[..TAG]
    ensures input1 == input2 <==> cell1 == cell2 && context1 == context2
  {
    var body1, body2 := cell1[..CELL - TAG], cell2[..CELL - TAG];
    input1, input2 := TagInput(context1, body1), TagInput(context2, body2);
    AcceptedTag(mac, cell1, sender1, key, context1);
    AcceptedTag(mac, cell2, sender2, key, context2);
    if input1 == input2 {
      TagInputInjective(context1, body1, context2, body2);
      CellSlices(cell1);
      CellSlices(cell2);
    }
  }

  lemma AcceptedTag(mac: Mac, cell: String, sender: Word16, key: Digest, context: Context)
    requires |cell| == CELL && Opened(mac, cell, sender, key, context).Some?
    ensures cell[CELL - TAG..] == mac(key, TagInput(context, cell[..CELL - TAG]))[..TAG]
  {
  }

  // --- The keystream hides payload and routing ------------------------------------------------------------------

  /** What goes into a cell beside the key, and what it shows outside the clear. */
  datatype Plain = Plain(payload: String, m: Metadata, context: Context)
  datatype Shown = Shown(payload: String, routing: String)

  predicate Sized(p: Plain, t: Shown) {
    |p.payload| == |t.payload| == PAYLOAD && |t.routing| == SEALED
  }

  function InputOf(p: Plain): String {
    StreamInput(p.context, p.m.sequence)
  }

  /** The bytes that turn one string into the other. */
  function Difference(plain: String, target: String): (r: String)
    requires |plain| == |target|
    ensures |r| == |plain|
  {
    seq(|plain|, i requires 0 <= i < |plain| => XorByte(target[i], plain[i]))
  }

  /** The keystream that shows `t` for `p`. */
  function StreamFor(p: Plain, t: Shown): (r: String)
    requires Sized(p, t)
    ensures |r| == PAYLOAD + SEALED
  {
    Difference(p.payload, t.payload) + Difference(EncodeSealed(p.m), t.routing)
  }

  function BlockOf(stream: String, counter: nat): Digest {
    seq(BLOCK, i requires 0 <= i < BLOCK => if BLOCK * counter + i < |stream| then stream[BLOCK * counter + i] else 0)
  }

  function Find(inputs: seq<String>, input: String): (k: nat)
    ensures k <= |inputs|
    ensures input in inputs ==> k < |inputs| && inputs[k] == input
  {
    if inputs == [] || inputs[0] == input then 0 else 1 + Find(inputs[1..], input)
  }

  /** A hash that gives the cell with the `k`-th input the `k`-th keystream. */
  function Chosen(inputs: seq<String>, streams: seq<String>): Mac {
    (key: String, input: String) => HashOf(inputs, streams, key, input)
  }

  function HashOf(inputs: seq<String>, streams: seq<String>, key: String, input: String): Digest {
    if |input| != 4 then BigEndian(Find(inputs, input), 32)
    else if FromBigEndian(key) < |streams| then BlockOf(streams[FromBigEndian(key)], FromBigEndian(input))
    else Zeros(32)
  }

  /** Few enough cells to be numbered, each with an input of its own. */
  predicate Apart(cells: seq<Plain>) {
    |cells| <= U32 && forall i, j | 0 <= i < j < |cells| :: InputOf(cells[i]) != InputOf(cells[j])
  }

  function Inputs(cells: seq<Plain>): (r: seq<String>)
    ensures |r| == |cells|
  {
    seq(|cells|, i requires 0 <= i < |cells| => InputOf(cells[i]))
  }

  lemma FindsOwn(cells: seq<Plain>, k: nat)
    requires Apart(cells) && k < |cells|
    ensures Find(Inputs(cells), InputOf(cells[k])) == k
  {
    var inputs := Inputs(cells);
    assert inputs[k] in inputs;
    var j := Find(inputs, inputs[k]);
    assert j < |inputs| && inputs[j] == inputs[k];
  }

  lemma {:induction false} WideEnough(n: nat)
    ensures Pow256(4 + n) >= U32
  {
    if n == 0 {
      Widths();
    } else {
      WideEnough(n - 1);
    }
  }

  lemma OwnKey(cells: seq<Plain>, streams: seq<String>, key: Digest, k: nat)
    requires Apart(cells) && k < |cells|
    ensures CellKey(Chosen(Inputs(cells), streams), key, cells[k].context, cells[k].m.sequence) == BigEndian(k, 32)
    ensures FromBigEndian(BigEndian(k, 32)) == k
  {
    FindsOwn(cells, k);
    assert |InputOf(cells[k])| != 4;
    WideEnough(28);
    DecodeEncode(k, 32);
  }

  lemma OwnBlock(cells: seq<Plain>, streams: seq<String>, key: Digest, k: nat, counter: Word32)
    requires Apart(cells) && k < |cells| == |streams|
    ensures CellBlocks(Chosen(Inputs(cells), streams), key, cells[k].context, cells[k].m.sequence)(counter)
         == BlockOf(streams[k], counter)
  {
    OwnKey(cells, streams, key, k);
    Widths();
    DecodeEncode(counter, 4);
  }

  /** The block a stream position lies in. */
  function InBlocks(i: nat): (counter: Word32)
    requires i < BLOCK * U32
    ensures counter == i / BLOCK % U32 && BLOCK * counter + i % BLOCK == i
  {
    i / BLOCK
  }

  lemma BlockByte(stream: String, counter: nat, offset: nat)
    requires offset < BLOCK && BLOCK * counter + offset < |stream|
    ensures BlockOf(stream, counter)[offset] == stream[BLOCK * counter + offset]
  {
  }

  /** These blocks spell this keystream. */
  ghost predicate Spells(blocks: Blocks, stream: String) {
    forall i | 0 <= i < |stream| :: Keystream(blocks, i) == stream[i]
  }

  lemma OwnStream(cells: seq<Plain>, streams: seq<String>, key: Digest, k: nat)
    requires Apart(cells) && k < |cells| == |streams| && |streams[k]| <= BLOCK * U32
    ensures Spells(CellBlocks(Chosen(Inputs(cells), streams), key, cells[k].context, cells[k].m.sequence), streams[k])
  {
    var blocks := CellBlocks(Chosen(Inputs(cells), streams), key, cells[k].context, cells[k].m.sequence);
    forall i | 0 <= i < |streams[k]| ensures Keystream(blocks, i) == streams[k][i] {
      OwnBlock(cells, streams, key, k, InBlocks(i));
      BlockByte(streams[k], InBlocks(i), i % BLOCK);
    }
  }

  lemma DifferenceMasks(plain: Byte, target: Byte)
    ensures XorByte(plain, XorByte(target, plain)) == target
  {
    XorCommutes(plain, Xor(target, plain));
    XorUndo(target, plain);
  }

  lemma SpelledMasks(blocks: Blocks, stream: String, from: nat, plain: String, target: String)
    requires Spells(blocks, stream) && |plain| == |target| && from + |plain| <= |stream|
    requires stream[from..from + |plain|] == Difference(plain, target)
    ensures Masked(blocks, from, plain) == target
  {
    forall i | 0 <= i < |plain| ensures Masked(blocks, from, plain)[i] == target[i] {
      assert stream[from + i] == stream[from..from + |plain|][i];
      DifferenceMasks(plain[i], target[i]);
    }
  }

  /** The cell shows this outside the clear. */
  predicate Shows(mac: Mac, key: Digest, p: Plain, t: Shown) {
    && |p.payload| == PAYLOAD
    && var cell := SealedCell(mac, p.payload, p.m, key, p.context);
       cell[..PAYLOAD] == t.payload && cell[PAYLOAD + 8..CELL - TAG] == t.routing
  }

  lemma SpelledShows(mac: Mac, key: Digest, p: Plain, t: Shown)
    requires Sized(p, t) && Spells(CellBlocks(mac, key, p.context, p.m.sequence), StreamFor(p, t))
    ensures Shows(mac, key, p, t)
  {
    var blocks, stream := CellBlocks(mac, key, p.context, p.m.sequence), StreamFor(p, t);
    var first, second := Difference(p.payload, t.payload), Difference(EncodeSealed(p.m), t.routing);
    assert stream[0..0 + PAYLOAD] == first && stream[PAYLOAD..PAYLOAD + SEALED] == second;
    SpelledMasks(blocks, stream, 0, p.payload, t.payload);
    SpelledMasks(blocks, stream, PAYLOAD, EncodeSealed(p.m), t.routing);
    SealedSlices(mac, p.payload, p.m, key, p.context);
  }

  /** Cells with different inputs hide everything together: whatever they carry and
      whatever they are to show outside the clear, some keyed hash makes them show it.
      So no keystream byte serves two bytes of one cell or of two. */
  lemma AnyCellsArePossible(cells: seq<Plain>, key: Digest, targets: seq<Shown>) returns (mac: Mac)
    requires Apart(cells) && |cells| == |targets| && forall k | 0 <= k < |cells| :: Sized(cells[k], targets[k])
    ensures forall k | 0 <= k < |cells| :: Shows(mac, key, cells[k], targets[k])
  {
    var streams := seq(|cells|, k requires 0 <= k < |cells| => StreamFor(cells[k], targets[k]));
    mac := Chosen(Inputs(cells), streams);
    forall k | 0 <= k < |cells| ensures Shows(mac, key, cells[k], targets[k]) {
      OwnStream(cells, streams, key, k);
      SpelledShows(mac, key, cells[k], targets[k]);
    }
  }

  /** All cells a node ever puts on the wire, through failures, crashes and restarts,
      hide everything together: `cells` are the wire's cells, whichever peers they
      went to and whatever they carry. */
  lemma WireHidesEverything(y: HopSequence.System, events: seq<HopSequence.Event>, cells: seq<Plain>, key: Digest,
                            targets: seq<Shown>)
    returns (mac: Mac)
    requires HopSequence.Initial(y) || HopSequence.Inv(y)
    requires |cells| == |targets| == |HopSequence.Run(y, events).wire|
    requires forall k | 0 <= k < |cells| ::
               cells[k].m.sequence == HopSequence.Run(y, events).wire[k].sequence && Sized(cells[k], targets[k])
    ensures forall k | 0 <= k < |cells| :: Shows(mac, key, cells[k], targets[k])
  {
    HopSequence.RunNeverReuses(y, events);
    var wire := HopSequence.Run(y, events).wire;
    WireIsShort(wire, |wire|);
    forall i, j | 0 <= i < j < |cells| ensures InputOf(cells[i]) != InputOf(cells[j]) {
      if InputOf(cells[i]) == InputOf(cells[j]) {
        StreamInputInjective(cells[i].context, cells[i].m.sequence, cells[j].context, cells[j].m.sequence);
      }
    }
    mac := AnyCellsArePossible(cells, key, targets);
  }

  lemma {:induction false} WireIsShort(wire: seq<HopSequence.Emission>, n: nat)
    requires HopSequence.StrictlyIncreasing(wire) && n <= |wire|
    ensures n <= U32 && (n > 0 ==> n - 1 <= wire[n - 1].sequence)
  {
    if n > 1 {
      WireIsShort(wire, n - 1);
      assert wire[n - 2].sequence < wire[n - 1].sequence;
    }
  }
}
