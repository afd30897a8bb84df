/** The independent reference form of the hop cell. It expands the keystream
    into one flat string and indexes it; the node keeps a stream object and
    encrypts in place. Byte for byte the two produce the same cells. */
module WireReference {
  import opened Options
  import opened Bytes
  import opened HopFrame
  import HopLink

  /** Fixed-width integer conversion raises when the value does not fit, so a
      network identifier of 65536 bytes or more cannot be bound at all. */
  predicate Bindable(context: Context) {
    |context.networkId| < U16
  }

  function Flat(blocks: Blocks, length: nat): (r: String)
    ensures |r| == length
  {
    seq(length, i requires 0 <= i => Keystream(blocks, i))
  }

  lemma FlatExtends(blocks: Blocks, counter: Word32)
    ensures Flat(blocks, BLOCK * counter) + blocks(counter) == Flat(blocks, BLOCK * (counter + 1))
  {
    var block := blocks(counter);
    forall i | 0 <= i < BLOCK ensures block[i] == Keystream(blocks, BLOCK * counter + i) {
      assert (BLOCK * counter + i) / BLOCK == counter && (BLOCK * counter + i) % BLOCK == i;
    }
  }

  method LinkKeystream(mac: Mac, key: Digest, context: Context, sequence: Word32, length: nat)
    returns (r: Option<String>)
    ensures r.Some? <==> ValidAuthentication(key, context) && Bindable(context) && length <= BLOCK * U32
    ensures r.Some? ==> r.value == Flat(CellBlocks(mac, key, context, sequence), length)
  {
    if !ValidAuthentication(key, context) || !Bindable(context) {
      return None;
    }
    var blocks := CellBlocks(mac, key, context, sequence);
    var out: String, counter := [], 0;
    while |out| < length
      invariant counter <= U32 && out == Flat(blocks, BLOCK * counter)
      invariant counter > 0 ==> BLOCK * (counter - 1) < length
    {
      if counter >= U32 {
        return None;
      }
      FlatExtends(blocks, counter);
      out, counter := out + blocks(counter), counter + 1;
    }
    assert out[..length] == Flat(blocks, length);
    return Some(out[..length]);
  }

  /** Reads of the flat keystream are the keystream from a position. */
  lemma FlatIsMasked(blocks: Blocks, flat: String, from: nat, data: String, r: String)
    requires flat == Flat(blocks, |flat|) && from + |data| <= |flat| && |r| == |data|
    requires forall i | 0 <= i < |data| :: r[i] == XorByte(data[i], flat[from + i])
    ensures r == Masked(blocks, from, data)
  {
    forall i | 0 <= i < |data| ensures r[i] == Masked(blocks, from, data)[i] {
      assert flat[from + i] == Keystream(blocks, from + i);
    }
  }

  method XorWith(data: String, flat: String, from: nat) returns (r: String)
    requires from + |data| <= |flat|
    ensures |r| == |data| && forall i | 0 <= i < |data| :: r[i] == XorByte(data[i], flat[from + i])
  {
    r := [];
    for index := 0 to |data|
      invariant |r| == index
      invariant forall i | 0 <= i < index :: r[i] == XorByte(data[i], flat[from + i])
    {
      r := r + [XorByte(data[index], flat[from + index])];
    }
  }

  method Seal(mac: Mac, ciphertext: String, metadata: Metadata, sender: Word16, sequence: Word32,
              key: Digest, context: Context) returns (r: Option<String>)
    ensures r.Some? <==> |ciphertext| == PAYLOAD && Sealable(metadata, sequence, key, context) && Bindable(context)
    ensures r.Some? ==> r.value == SealedCell(mac, ciphertext,
                          metadata.(sender := sender, sequence := sequence), key, context)
  {
    if |ciphertext| != PAYLOAD || sequence == 0 {
      return None;
    }
    var m := metadata.(sender := sender, sequence := sequence);
    if !ValidMetadata(m) {
      return None;
    }
    var keystream := LinkKeystream(mac, key, context, sequence, PAYLOAD + SEALED);
    if keystream.None? {
      return None;
    }
    ghost var blocks := CellBlocks(mac, key, context, sequence);
    var payload := XorWith(ciphertext, keystream.value, 0);
    FlatIsMasked(blocks, keystream.value, 0, ciphertext, payload);
    var plain := EncodeSealed(m);
    var hidden := XorWith(plain, keystream.value, PAYLOAD);
    FlatIsMasked(blocks, keystream.value, PAYLOAD, plain, hidden);
    var body := payload + WIRE_MAGIC + BigEndian(sequence, 4) + hidden;
    return Some(body + Tag(mac, key, context, body));
  }

  method OpenCell(mac: Mac, cell: String, expectedSender: Word16, key: Digest, context: Context)
    returns (r: Option<(Metadata, String)>)
    ensures r == if |cell| == CELL && Bindable(context)
                 then Opened(mac, cell, expectedSender, key, context) else None
  {
    if |cell| != CELL || cell[PAYLOAD..PAYLOAD + 4] != WIRE_MAGIC {
      return None;
    }
    if !ValidAuthentication(key, context) || !Bindable(context) {
      return None;
    }
    if cell[CELL - TAG..] != Tag(mac, key, context, cell[..CELL - TAG]) {
      return None;
    }
    var sequence := SequenceOf(cell);
    if sequence == 0 {
      return None;
    }
    var keystream := LinkKeystream(mac, key, context, sequence, PAYLOAD + SEALED);
    if keystream.None? {
      return None;
    }
    ghost var blocks := CellBlocks(mac, key, context, sequence);
    var payload := XorWith(cell[..PAYLOAD], keystream.value, 0);
    FlatIsMasked(blocks, keystream.value, 0, cell[..PAYLOAD], payload);
    var hidden := cell[PAYLOAD + 8..CELL - TAG];
    var plain := XorWith(hidden, keystream.value, PAYLOAD);
    FlatIsMasked(blocks, keystream.value, PAYLOAD, hidden, plain);
    var m := DecodeSealed(plain, sequence);
    if m.sender != expectedSender || !ValidMetadata(m) {
      return None;
    }
    return Some((m, payload));
  }

  /** Both implementations on one input: the same verdict and the same bytes,
      exactly when the network identifier's length fits its prefix or the node
      refuses the input as well. */
  method SealBoth(mac: Mac, payload: String, metadata: Metadata, sender: Word16, sequence: Word32,
                  key: Digest, context: Context) returns (node: Option<String>, reference: Option<String>)
    requires |payload| == PAYLOAD
    ensures Bindable(context) ==> node == reference
    ensures node == reference <==> Bindable(context) || !Sealable(metadata, sequence, key, context)
  {
    var cell := new Byte[CELL](i => if 0 <= i < PAYLOAD then payload[i] else 0);
    assert cell[..PAYLOAD] == payload;
    var ok := HopLink.Seal(mac, cell, metadata, sender, sequence, key, context);
    node := if ok then Some(cell[..]) else None;
    reference := Seal(mac, payload, metadata, sender, sequence, key, context);
  }
}
