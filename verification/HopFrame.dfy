/** The fixed-size hop cell: 1152 payload bytes, then a 48-byte header of magic,
    sequence, 24 encrypted routing bytes and a 16-byte tag. One keystream runs
    over the payload and continues over the routing bytes, although magic and
    sequence sit between them in the clear. The keyed hash is a parameter. */
module HopFrame {
  import opened Options
  import opened Bits
  import opened Bytes

  const PAYLOAD: nat := 1152
  const HEADER: nat := 48
  const TAG: nat := 16
  const SEALED: nat := 24
  const CELL: nat := 1200
  const BLOCK: nat := 32
  const MAXIMUM_BATCH: nat := 256

  const WIRE_MAGIC: String := Ascii("NHC") + [2]
  const LOCAL_MAGIC: String := Ascii("NHL") + [2]
  const STREAM_LABEL: String := Ascii("nomad-hop-link-stream-v2")
  const TAG_LABEL: String := Ascii("nomad-hop-cell-v2")

  type Word16 = n: nat | n < U16
  type Word32 = n: nat | n < U32
  type Word64 = n: nat | n < U64
  type Digest = b: String | |b| == 32 witness Zeros(32)
  type StreamId = b: String | |b| == 16 witness Zeros(16)
  /** A keyed hash: key and message to 32 bytes. */
  type Mac = (String, String) -> Digest

  datatype Metadata = Metadata(
    sender: Word16, ordinal: Word16, batchSize: Word16, flags: Word16,
    stream: StreamId, sequence: Word32)

  datatype Context = Context(
    topologyDigest: Digest, networkId: String, epoch: Word64, receiver: Word16)

  // --- Checks ------------------------------------------------------------------

  predicate IsWork(m: Metadata) {
    m.flags % 2 == 1
  }

  predicate ValidMetadata(m: Metadata) {
    && m.flags / 2 == 0
    && if IsWork(m) then
         m.stream != Zeros(16) && 2 <= m.batchSize <= MAXIMUM_BATCH && m.ordinal < m.batchSize
       else
         m.stream == Zeros(16) && m.ordinal == 0 && m.batchSize == 0
  }

  /** Valid metadata says nothing, or names one place of a batch. */
  lemma ValidMetadataIs(m: Metadata)
    ensures ValidMetadata(m) <==>
              || m == Metadata(m.sender, 0, 0, 0, Zeros(16), m.sequence)
              || (m.flags == 1 && m.stream != Zeros(16) && m.ordinal < m.batchSize && 2 <= m.batchSize <= 256)
  {
  }

  predicate ValidAuthentication(key: Digest, context: Context) {
    && key != Zeros(32)
    && context.topologyDigest != Zeros(32) && context.networkId != [] && context.epoch != 0
  }

  predicate Sealable(m: Metadata, sequence: Word32, key: Digest, context: Context) {
    ValidAuthentication(key, context) && sequence != 0 && ValidMetadata(m)
  }

  // --- Codecs ------------------------------------------------------------------

  function EncodeSealed(m: Metadata): (r: String)
    ensures |r| == SEALED
  {
    BigEndian(m.sender, 2) + BigEndian(m.ordinal, 2) + BigEndian(m.batchSize, 2)
    + BigEndian(m.flags, 2) + m.stream
  }

  function Word16At(b: String, at: nat): Word16
    requires at + 2 <= |b|
  {
    EncodeDecode(b[at..at + 2]);
    Widths();
    FromBigEndian(b[at..at + 2])
  }

  function DecodeSealed(b: String, sequence: Word32): Metadata
    requires |b| == SEALED
  {
    Metadata(Word16At(b, 0), Word16At(b, 2), Word16At(b, 4), Word16At(b, 6), b[8..24], sequence)
  }

  function EncodeLocal(m: Metadata): (r: String)
    ensures |r| == HEADER
  {
    LOCAL_MAGIC + BigEndian(m.ordinal, 2) + BigEndian(m.batchSize, 2) + BigEndian(m.flags, 2)
    + m.stream + Zeros(22)
  }

  function DecodeLocal(b: String): Option<Metadata> {
    if |b| != HEADER || b[..4] != LOCAL_MAGIC then None
    else
      var m := Metadata(0, Word16At(b, 4), Word16At(b, 6), Word16At(b, 8), b[10..26], 0);
      if ValidMetadata(m) then Some(m) else None
  }

  lemma Word16RoundTrip(n: Word16, b: String, at: nat)
    requires at + 2 <= |b| && b[at..at + 2] == BigEndian(n, 2)
    ensures Word16At(b, at) == n
  {
    Widths();
    DecodeEncode(n, 2);
  }

  lemma SealedRoundTrip(m: Metadata)
    ensures DecodeSealed(EncodeSealed(m), m.sequence) == m
  {
    var b := EncodeSealed(m);
    SlicesOfParts(BigEndian(m.sender, 2), BigEndian(m.ordinal, 2), BigEndian(m.batchSize, 2),
                  BigEndian(m.flags, 2), m.stream);
    Word16RoundTrip(m.sender, b, 0);
    Word16RoundTrip(m.ordinal, b, 2);
    Word16RoundTrip(m.batchSize, b, 4);
    Word16RoundTrip(m.flags, b, 6);
  }

  lemma TwoBytes(n: Word16)
    ensures BigEndian(n, 2) == [n / 256, n % 256]
  {
    assert BigEndian(n / 256, 1) == [n / 256];
  }

  /** Where the routing fields lie: four big-endian numbers of two bytes, then the
      stream identifier. */
  lemma SealedLayout(m: Metadata)
    ensures
      var b := EncodeSealed(m);
      && b[..4] == [m.sender / 256, m.sender % 256, m.ordinal / 256, m.ordinal % 256]
      && b[4..8] == [m.batchSize / 256, m.batchSize % 256, m.flags / 256, m.flags % 256] && b[8..24] == m.stream
  {
    TwoBytes(m.sender);
    TwoBytes(m.ordinal);
    TwoBytes(m.batchSize);
    TwoBytes(m.flags);
  }

  lemma SlicesOfParts(sender: String, ordinal: String, batchSize: String, flags: String, stream: String)
    requires |sender| == |ordinal| == |batchSize| == |flags| == 2 && |stream| == 16
    ensures var b := sender + ordinal + batchSize + flags + stream;
            b[0..2] == sender && b[2..4] == ordinal && b[4..6] == batchSize && b[6..8] == flags && b[8..24] == stream
  {
  }

  lemma SealedBytesRoundTrip(b: String, sequence: Word32)
    requires |b| == SEALED
    ensures EncodeSealed(DecodeSealed(b, sequence)) == b
  {
    var m := DecodeSealed(b, sequence);
    assert BigEndian(m.sender, 2) == b[0..2] by { Word16Bytes(b, 0); }
    assert BigEndian(m.ordinal, 2) == b[2..4] by { Word16Bytes(b, 2); }
    assert BigEndian(m.batchSize, 2) == b[4..6] by { Word16Bytes(b, 4); }
    assert BigEndian(m.flags, 2) == b[6..8] by { Word16Bytes(b, 6); }
    EncodedFromSlices(m, b);
  }

  lemma EncodedFromSlices(m: Metadata, b: String)
    requires |b| == SEALED && BigEndian(m.sender, 2) == b[0..2] && BigEndian(m.ordinal, 2) == b[2..4]
    requires BigEndian(m.batchSize, 2) == b[4..6] && BigEndian(m.flags, 2) == b[6..8] && m.stream == b[8..24]
    ensures EncodeSealed(m) == b
  {
    FiveSlices(b);
  }

  lemma Word16Bytes(b: String, at: nat)
    requires at + 2 <= |b|
    ensures BigEndian(Word16At(b, at), 2) == b[at..at + 2]
  {
    EncodeDecode(b[at..at + 2]);
  }

  lemma FiveSlices(b: String)
    requires |b| == SEALED
    ensures b[0..2] + b[2..4] + b[4..6] + b[6..8] + b[8..24] == b
  {
  }

  /** What `SetMetadata` writes, `LocalMetadata` reads back. */
  lemma LocalRoundTrip(m: Metadata)
    requires ValidMetadata(m)
    ensures DecodeLocal(EncodeLocal(m)) == Some(m.(sender := 0, sequence := 0))
  {
    var b := EncodeLocal(m);
    LocalParts(m);
    Word16RoundTrip(m.ordinal, b, 4);
    Word16RoundTrip(m.batchSize, b, 6);
    Word16RoundTrip(m.flags, b, 8);
  }

  lemma LocalParts(m: Metadata)
    ensures
      var b := EncodeLocal(m);
      && b[..4] == LOCAL_MAGIC && b[4..6] == BigEndian(m.ordinal, 2) && b[6..8] == BigEndian(m.batchSize, 2)
      && b[8..10] == BigEndian(m.flags, 2) && b[10..26] == m.stream
  {
    LocalSlices(LOCAL_MAGIC, BigEndian(m.ordinal, 2), BigEndian(m.batchSize, 2), BigEndian(m.flags, 2),
                m.stream, Zeros(22));
  }

  lemma LocalSlices(magic: String, ordinal: String, batchSize: String, flags: String, stream: String, rest: String)
    requires |magic| == 4 && |ordinal| == |batchSize| == |flags| == 2 && |stream| == 16
    ensures var b := magic + ordinal + batchSize + flags + stream + rest;
            && b[..4] == magic && b[4..6] == ordinal && b[6..8] == batchSize && b[8..10] == flags
            && b[10..26] == stream
  {
  }

  // --- Keystream and tag -----------------------------------------------------------

  function BindContext(context: Context): String {
    context.topologyDigest + BigEndian(context.epoch, 8) + BigEndian(context.receiver, 2)
    + BigEndian(|context.networkId| % U16, 2) + context.networkId
  }

  function StreamInput(context: Context, sequence: Word32): String {
    STREAM_LABEL + BindContext(context) + BigEndian(sequence, 4)
  }

  function CellKey(mac: Mac, key: Digest, context: Context, sequence: Word32): Digest {
    mac(key, StreamInput(context, sequence))
  }

  /** A cell's keystream in 32-byte blocks, numbered by a 32-bit counter. */
  type Blocks = nat -> Digest

  function CellBlocks(mac: Mac, key: Digest, context: Context, sequence: Word32): Blocks {
    var cellKey := CellKey(mac, key, context, sequence);
    (counter: nat) => mac(cellKey, BigEndian(counter, 4))
  }

  /** Byte `i` of the flat keystream. */
  function Keystream(blocks: Blocks, i: nat): Byte {
    blocks(i / BLOCK % U32)[i % BLOCK]
  }

  function XorByte(a: Byte, b: Byte): Byte {
    XorBound(a, b, 8);
    assert Pow2(8) == 256;
    Xor(a, b)
  }

  /** `data` under the keystream that starts at stream position `from`. */
  function Masked(blocks: Blocks, from: nat, data: String): (r: String)
    ensures |r| == |data|
  {
    seq(|data|, i requires 0 <= i < |data| => XorByte(data[i], Keystream(blocks, from + i)))
  }

  lemma MaskedTwice(blocks: Blocks, from: nat, data: String)
    ensures Masked(blocks, from, Masked(blocks, from, data)) == data
  {
    forall i | 0 <= i < |data|
      ensures Masked(blocks, from, Masked(blocks, from, data))[i] == data[i]
    {
      XorUndo(data[i], Keystream(blocks, from + i));
    }
  }

  function TagInput(context: Context, body: String): String {
    TAG_LABEL + BindContext(context) + body
  }

  function Tag(mac: Mac, key: Digest, context: Context, body: String): (r: String)
    ensures |r| == TAG
  {
    mac(key, TagInput(context, body))[..TAG]
  }

  /** Everything the tag covers. */
  function SealedBody(mac: Mac, payload: String, m: Metadata, key: Digest, context: Context): (r: String)
    requires |payload| == PAYLOAD
    ensures |r| == CELL - TAG
  {
    var blocks := CellBlocks(mac, key, context, m.sequence);
    Masked(blocks, 0, payload) + WIRE_MAGIC + BigEndian(m.sequence, 4)
    + Masked(blocks, PAYLOAD, EncodeSealed(m))
  }

  function SealedCell(mac: Mac, payload: String, m: Metadata, key: Digest, context: Context): (r: String)
    requires |payload| == PAYLOAD
    ensures |r| == CELL
  {
    var body := SealedBody(mac, payload, m, key, context);
    body + Tag(mac, key, context, body)
  }

  function SequenceOf(cell: String): Word32
    requires |cell| == CELL
  {
    EncodeDecode(cell[PAYLOAD + 4..PAYLOAD + 8]);
    Widths();
    FromBigEndian(cell[PAYLOAD + 4..PAYLOAD + 8])
  }

  /** What opening yields: the routing metadata and the plaintext payload. */
  function Opened(mac: Mac, cell: String, expectedSender: Word16, key: Digest, context: Context)
    : (r: Option<(Metadata, String)>)
    requires |cell| == CELL
    ensures r.Some? ==> |r.value.1| == PAYLOAD
  {
    if !ValidAuthentication(key, context) || cell[PAYLOAD..PAYLOAD + 4] != WIRE_MAGIC
       || cell[CELL - TAG..] != Tag(mac, key, context, cell[..CELL - TAG]) || SequenceOf(cell) == 0
    then None
    else
      var blocks := CellBlocks(mac, key, context, SequenceOf(cell));
      var plain := Masked(blocks, PAYLOAD, cell[PAYLOAD + 8..CELL - TAG]);
      var m := DecodeSealed(plain, SequenceOf(cell));
      if m.sender != expectedSender || !ValidMetadata(m) then None
      else Some((m, Masked(blocks, 0, cell[..PAYLOAD])))
  }

  lemma AssembledSlices(payload: String, magic: String, sequence: String, routing: String, tag: String)
    requires |payload| == PAYLOAD && |magic| == |sequence| == 4 && |routing| == SEALED && |tag| == TAG
    ensures
      var cell := payload + magic + sequence + routing + tag;
      && cell[..PAYLOAD] == payload && cell[PAYLOAD..PAYLOAD + 4] == magic
      && cell[PAYLOAD + 4..PAYLOAD + 8] == sequence && cell[PAYLOAD + 8..CELL - TAG] == routing
      && cell[..CELL - TAG] == payload + magic + sequence + routing && cell[CELL - TAG..] == tag
  {
  }

  lemma SealedSlices(mac: Mac, payload: String, m: Metadata, key: Digest, context: Context)
    requires |payload| == PAYLOAD
    ensures
      var cell := SealedCell(mac, payload, m, key, context);
      var blocks := CellBlocks(mac, key, context, m.sequence);
      && cell[..PAYLOAD] == Masked(blocks, 0, payload)
      && cell[PAYLOAD..PAYLOAD + 4] == WIRE_MAGIC
      && cell[PAYLOAD + 4..PAYLOAD + 8] == BigEndian(m.sequence, 4)
      && cell[PAYLOAD + 8..CELL - TAG] == Masked(blocks, PAYLOAD, EncodeSealed(m))
      && cell[..CELL - TAG] == SealedBody(mac, payload, m, key, context)
      && cell[CELL - TAG..] == Tag(mac, key, context, SealedBody(mac, payload, m, key, context))
  {
    var blocks := CellBlocks(mac, key, context, m.sequence);
    AssembledSlices(Masked(blocks, 0, payload), WIRE_MAGIC, BigEndian(m.sequence, 4),
               Masked(blocks, PAYLOAD, EncodeSealed(m)),
               Tag(mac, key, context, SealedBody(mac, payload, m, key, context)));
  }

  /** Opening a sealed cell restores the payload and the metadata, for every
      payload, key, context and keyed hash. */
  lemma OpenUndoesSeal(mac: Mac, payload: String, m: Metadata, key: Digest, context: Context)
    requires |payload| == PAYLOAD && Sealable(m, m.sequence, key, context)
    ensures Opened(mac, SealedCell(mac, payload, m, key, context), m.sender, key, context)
         == Some((m, payload))
  {
    var cell := SealedCell(mac, payload, m, key, context);
    var blocks := CellBlocks(mac, key, context, m.sequence);
    SealedSlices(mac, payload, m, key, context);
    Widths();
    DecodeEncode(m.sequence, 4);
    MaskedTwice(blocks, 0, payload);
    MaskedTwice(blocks, PAYLOAD, EncodeSealed(m));
    SealedRoundTrip(m);
  }

  /** Every accepted cell is, byte for byte, the sealing of what it opens to:
      no second wire form of the same content is ever accepted. */
  lemma AcceptedIsSealed(mac: Mac, cell: String, expectedSender: Word16, key: Digest, context: Context)
    requires |cell| == CELL
    requires Opened(mac, cell, expectedSender, key, context).Some?
    ensures
      var (m, payload) := Opened(mac, cell, expectedSender, key, context).value;
      && m.sender == expectedSender && Sealable(m, m.sequence, key, context)
      && SealedCell(mac, payload, m, key, context) == cell
  {
    var (m, payload) := Opened(mac, cell, expectedSender, key, context).value;
    var blocks := CellBlocks(mac, key, context, m.sequence);
    var hidden := cell[PAYLOAD + 8..CELL - TAG];
    var plain := Masked(blocks, PAYLOAD, hidden);
    assert EncodeSealed(m) == plain by { SealedBytesRoundTrip(plain, m.sequence); }
    assert Masked(blocks, PAYLOAD, plain) == hidden by { MaskedTwice(blocks, PAYLOAD, hidden); }
    assert Masked(blocks, 0, payload) == cell[..PAYLOAD] by {
      MaskedTwice(blocks, 0, cell[..PAYLOAD]);
    }
    assert BigEndian(m.sequence, 4) == cell[PAYLOAD + 4..PAYLOAD + 8] by {
      EncodeDecode(cell[PAYLOAD + 4..PAYLOAD + 8]);
    }
    CellSlices(cell);
  }

  lemma CellSlices(cell: String)
    requires |cell| == CELL
    ensures cell[..CELL - TAG] == cell[..PAYLOAD] + cell[PAYLOAD..PAYLOAD + 4]
                                + cell[PAYLOAD + 4..PAYLOAD + 8] + cell[PAYLOAD + 8..CELL - TAG]
    ensures cell == cell[..CELL - TAG] + cell[CELL - TAG..]
  {
  }

  lemma FiveFields(a1: String, b1: String, c1: String, d1: String, e1: String,
                   a2: String, b2: String, c2: String, d2: String, e2: String)
    requires |a1| == |a2| && |b1| == |b2| && |c1| == |c2| && |d1| == |d2|
    requires a1 + b1 + c1 + d1 + e1 == a2 + b2 + c2 + d2 + e2
    ensures a1 == a2 && b1 == b2 && c1 == c2 && d1 == d2 && e1 == e2
  {
    SplitEqual(a1 + b1 + c1 + d1, e1, a2 + b2 + c2 + d2, e2);
    SplitEqual(a1 + b1 + c1, d1, a2 + b2 + c2, d2);
    SplitEqual(a1 + b1, c1, a2 + b2, c2);
    SplitEqual(a1, b1, a2, b2);
  }

  lemma ContextInjective(c1: Context, c2: Context)
    requires BindContext(c1) == BindContext(c2)
    ensures c1 == c2
  {
    FiveFields(c1.topologyDigest, BigEndian(c1.epoch, 8), BigEndian(c1.receiver, 2),
               BigEndian(|c1.networkId| % U16, 2), c1.networkId,
               c2.topologyDigest, BigEndian(c2.epoch, 8), BigEndian(c2.receiver, 2),
               BigEndian(|c2.networkId| % U16, 2), c2.networkId);
    Widths();
    BigEndianInjective(c1.epoch, c2.epoch, 8);
    BigEndianInjective(c1.receiver, c2.receiver, 2);
  }

  /** The tag's input determines the context and the cell, even though the
      length prefix of the network identifier is truncated to 16 bits: what
      follows the context has a fixed length. */
  lemma TagInputInjective(c1: Context, body1: String, c2: Context, body2: String)
    requires |body1| == |body2|
    requires TagInput(c1, body1) == TagInput(c2, body2)
    ensures c1 == c2 && body1 == body2
  {
    var l1, l2 := TAG_LABEL + BindContext(c1), TAG_LABEL + BindContext(c2);
    assert |l1 + body1| == |l2 + body2|;
    SplitEqual(l1, body1, l2, body2);
    SplitEqual(TAG_LABEL, BindContext(c1), TAG_LABEL, BindContext(c2));
    ContextInjective(c1, c2);
  }

  /** The input a cell's keystream is derived from determines context and sequence. */
  lemma StreamInputInjective(c1: Context, s1: Word32, c2: Context, s2: Word32)
    requires StreamInput(c1, s1) == StreamInput(c2, s2)
    ensures c1 == c2 && s1 == s2
  {
    var l1, l2 := STREAM_LABEL + BindContext(c1), STREAM_LABEL + BindContext(c2);
    assert |l1 + BigEndian(s1, 4)| == |l2 + BigEndian(s2, 4)|;
    SplitEqual(l1, BigEndian(s1, 4), l2, BigEndian(s2, 4));
    SplitEqual(STREAM_LABEL, BindContext(c1), STREAM_LABEL, BindContext(c2));
    ContextInjective(c1, c2);
    Widths();
    BigEndianInjective(s1, s2, 4);
  }

  /** No keystream input is ever a tag input: the labels part at the eleventh byte. */
  lemma StreamInputIsNoTagInput(c1: Context, sequence: Word32, c2: Context, body: String)
    ensures StreamInput(c1, sequence) != TagInput(c2, body)
  {
    assert STREAM_LABEL[10] == 'l' as int && TAG_LABEL[10] == 'c' as int;
    assert StreamInput(c1, sequence)[10] == STREAM_LABEL[10];
    assert TagInput(c2, body)[10] == TAG_LABEL[10];
  }
}
