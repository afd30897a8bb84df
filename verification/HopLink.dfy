/** The node's sealing and opening of a cell, in place on the cell's bytes. */
module HopLink {
  import opened Options
  import opened Bytes
  import opened HopFrame

  /** One cell's keystream. `position` counts the bytes handed out, so that two
      calls over separate regions continue one stream. */
  class CounterStream {
    const blocks: Blocks
    var counter: nat
    var block: String
    var offset: nat
    ghost var position: nat
    ghost var used: nat

    ghost predicate Valid()
      reads this
    {
      && offset <= BLOCK && |block| == BLOCK
      && counter == used % U32
      && position + BLOCK == BLOCK * used + offset
      && (used > 0 ==> block == blocks((used - 1) % U32))
    }

    constructor (blocks: Blocks)
      ensures Valid() && position == 0 && this.blocks == blocks
    {
      this.blocks := blocks;
      counter, block, offset, position, used := 0, Zeros(BLOCK), BLOCK, 0, 0;
    }

    /** Hands out the next keystream byte, computing a new block when the
        current one is used up. */
    method Next() returns (b: Byte)
      requires Valid()
      modifies this
      ensures Valid() && position == old(position) + 1
      ensures b == Keystream(blocks, old(position))
    {
      if offset == BLOCK {
        block := blocks(counter);
        counter := (counter + 1) % U32;
        offset, used := 0, used + 1;
      }
      b := block[offset];
      assert position / BLOCK == used - 1 && position % BLOCK == offset;
      offset, position := offset + 1, position + 1;
    }

    method XORKeyStream(cell: array<Byte>, lo: nat, hi: nat)
      requires Valid() && lo <= hi <= cell.Length
      modifies this, cell
      ensures Valid() && position == old(position) + (hi - lo)
      ensures cell[lo..hi] == Masked(blocks, old(position), old(cell[lo..hi]))
      ensures cell[..lo] == old(cell[..lo]) && cell[hi..] == old(cell[hi..])
    {
      ghost var was := cell[..];
      for index := lo to hi
        invariant Valid() && position == old(position) + (index - lo)
        invariant forall i | lo <= i < index ::
                    cell[i] == XorByte(was[i], Keystream(blocks, old(position) + (i - lo)))
        invariant forall i | 0 <= i < cell.Length && !(lo <= i < index) :: cell[i] == was[i]
      {
        var b := Next();
        cell[index] := XorByte(cell[index], b);
      }
      MaskedRegion(blocks, old(position), was, cell[..], lo, hi);
    }
  }

  lemma MaskedRegion(blocks: Blocks, from: nat, was: String, now: String, lo: nat, hi: nat)
    requires |was| == |now| && lo <= hi <= |was|
    requires forall i | lo <= i < hi :: now[i] == XorByte(was[i], Keystream(blocks, from + (i - lo)))
    requires forall i | 0 <= i < |was| && !(lo <= i < hi) :: now[i] == was[i]
    ensures now[lo..hi] == Masked(blocks, from, was[lo..hi])
    ensures now[..lo] == was[..lo] && now[hi..] == was[hi..]
  {
    forall j | 0 <= j < hi - lo
      ensures now[lo..hi][j] == Masked(blocks, from, was[lo..hi])[j]
    {
      assert was[lo..hi][j] == was[lo + j];
    }
  }

  method Copy(cell: array<Byte>, at: nat, bytes: String)
    requires at + |bytes| <= cell.Length
    modifies cell
    ensures cell[..] == old(cell[..at]) + bytes + old(cell[at + |bytes|..])
  {
    forall i | 0 <= i < |bytes| { cell[at + i] := bytes[i]; }
  }

  method LinkStream(mac: Mac, key: Digest, context: Context, sequence: Word32) returns (s: CounterStream)
    ensures fresh(s) && s.Valid() && s.position == 0
    ensures s.blocks == CellBlocks(mac, key, context, sequence)
  {
    s := new CounterStream(CellBlocks(mac, key, context, sequence));
  }

  /** Seals in place. Refusals leave the cell as it was. */
  method Seal(mac: Mac, cell: array<Byte>, metadata: Metadata, sender: Word16, sequence: Word32,
              key: Digest, context: Context) returns (ok: bool)
    requires cell.Length == CELL
    modifies cell
    ensures ok == Sealable(metadata, sequence, key, context)
    ensures cell[..] ==
      if ok then SealedCell(mac, old(cell[..PAYLOAD]),
                            metadata.(sender := sender, sequence := sequence), key, context)
      else old(cell[..])
  {
    if !ValidAuthentication(key, context) {
      return false;
    }
    var m := metadata.(sender := sender, sequence := sequence);
    if sequence == 0 {
      return false;
    }
    if !ValidMetadata(m) {
      return false;
    }
    ghost var payload := cell[..PAYLOAD];
    WriteHeader(cell, m);
    var stream := LinkStream(mac, key, context, sequence);
    Encrypt(cell, stream);
    BodyInParts(cell[..]);
    assert cell[..CELL - TAG] == SealedBody(mac, payload, m, key, context);
    var tag := Tag(mac, key, context, cell[..CELL - TAG]);
    Copy(cell, CELL - TAG, tag);
    return true;
  }

  lemma BodyInParts(cell: String)
    requires |cell| == CELL
    ensures cell[..CELL - TAG] == cell[..PAYLOAD] + cell[PAYLOAD..PAYLOAD + 8] + cell[PAYLOAD + 8..CELL - TAG]
  {
  }

  method WriteHeader(cell: array<Byte>, m: Metadata)
    requires cell.Length == CELL
    modifies cell
    ensures cell[..PAYLOAD] == old(cell[..PAYLOAD])
    ensures cell[PAYLOAD..PAYLOAD + 8] == WIRE_MAGIC + BigEndian(m.sequence, 4)
    ensures cell[PAYLOAD + 8..CELL - TAG] == EncodeSealed(m)
  {
    ghost var was := cell[..];
    var clear, routing := WIRE_MAGIC + BigEndian(m.sequence, 4), EncodeSealed(m);
    Copy(cell, PAYLOAD, clear + routing);
    HeaderInParts(was, clear, routing, cell[..]);
  }

  lemma HeaderInParts(was: String, clear: String, routing: String, now: String)
    requires |was| == CELL && |clear| == 8 && |routing| == SEALED
    requires now == was[..PAYLOAD] + (clear + routing) + was[CELL - TAG..]
    ensures now[..PAYLOAD] == was[..PAYLOAD] && now[PAYLOAD..PAYLOAD + 8] == clear
    ensures now[PAYLOAD + 8..CELL - TAG] == routing
  {
  }

  /** Both encrypted regions, in order, from one stream. */
  method Encrypt(cell: array<Byte>, stream: CounterStream)
    requires cell.Length == CELL && stream.Valid() && stream.position == 0
    modifies cell, stream
    ensures cell[..PAYLOAD] == Masked(stream.blocks, 0, old(cell[..PAYLOAD]))
    ensures cell[PAYLOAD..PAYLOAD + 8] == old(cell[PAYLOAD..PAYLOAD + 8])
    ensures cell[PAYLOAD + 8..CELL - TAG]
         == Masked(stream.blocks, PAYLOAD, old(cell[PAYLOAD + 8..CELL - TAG]))
    ensures cell[CELL - TAG..] == old(cell[CELL - TAG..])
  {
    ghost var was := cell[..];
    stream.XORKeyStream(cell, 0, PAYLOAD);
    ghost var mid := cell[..];
    assert mid[..PAYLOAD] == cell[0..PAYLOAD];
    assert was[..PAYLOAD] == was[0..PAYLOAD];
    assert mid[PAYLOAD..] == was[PAYLOAD..];
    assert mid[PAYLOAD..PAYLOAD + 8] == mid[PAYLOAD..][..8];
    assert mid[PAYLOAD + 8..CELL - TAG] == mid[PAYLOAD..][8..CELL - TAG - PAYLOAD];
    assert mid[CELL - TAG..] == mid[PAYLOAD..][CELL - TAG - PAYLOAD..];
    assert was[PAYLOAD..PAYLOAD + 8] == was[PAYLOAD..][..8];
    assert was[PAYLOAD + 8..CELL - TAG] == was[PAYLOAD..][8..CELL - TAG - PAYLOAD];
    assert was[CELL - TAG..] == was[PAYLOAD..][CELL - TAG - PAYLOAD..];
    stream.XORKeyStream(cell, PAYLOAD + 8, CELL - TAG);
    assert cell[..PAYLOAD] == cell[..PAYLOAD + 8][..PAYLOAD];
    assert cell[PAYLOAD..PAYLOAD + 8] == cell[..PAYLOAD + 8][PAYLOAD..];
    assert mid[..PAYLOAD] == mid[..PAYLOAD + 8][..PAYLOAD];
    assert mid[PAYLOAD..PAYLOAD + 8] == mid[..PAYLOAD + 8][PAYLOAD..];
  }

  /** Authenticates, then decrypts in place. The cell changes only when every
      check has passed; then it is the payload under a local header. */
  method Open(mac: Mac, cell: array<Byte>, expectedSender: Word16, key: Digest, context: Context)
    returns (r: Option<Metadata>)
    requires cell.Length == CELL
    modifies cell
    ensures
      match Opened(mac, old(cell[..]), expectedSender, key, context)
      case None => r == None && cell[..] == old(cell[..])
      case Some((m, payload)) => r == Some(m) && cell[..] == payload + EncodeLocal(m)
  {
    if !ValidAuthentication(key, context) {
      return None;
    }
    ghost var was := cell[..];
    if cell[PAYLOAD..PAYLOAD + 4] != WIRE_MAGIC {
      return None;
    }
    var expectedTag := Tag(mac, key, context, cell[..CELL - TAG]);
    if cell[CELL - TAG..] != expectedTag {
      return None;
    }
    var sequence := SequenceOf(cell[..]);
    if sequence == 0 {
      return None;
    }
    var stream := LinkStream(mac, key, context, sequence);
    var decrypted := new Byte[CELL](i requires 0 <= i < CELL reads cell => cell[i]);
    assert decrypted[..] == cell[..];
    assert decrypted[..PAYLOAD] == was[..PAYLOAD] && decrypted[PAYLOAD + 8..CELL - TAG] == was[PAYLOAD + 8..CELL - TAG];
    Encrypt(decrypted, stream);
    var m := DecodeSealed(decrypted[PAYLOAD + 8..CELL - TAG], sequence);
    if m.sender != expectedSender {
      return None;
    }
    if !ValidMetadata(m) {
      return None;
    }
    ghost var payload := decrypted[..PAYLOAD];
    Copy(decrypted, PAYLOAD, EncodeLocal(m));
    assert decrypted[..] == payload + EncodeLocal(m);
    forall i | 0 <= i < CELL { cell[i] := decrypted[i]; }
    assert cell[..] == decrypted[..];
    return Some(m);
  }
}
