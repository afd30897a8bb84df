/** The canonical binary form that lifecycle digests and signatures cover: fixed
    field order, big-endian integers, 64-bit length prefixes. Equal encodings
    mean equal fields. Text fields are given as the bytes they encode to. */
module LifecycleEncoding {
  import opened Options
  import opened Bytes

  type Digest = b: String | |b| == 32 witness Zeros(32)
  type Word64 = n: nat | n < U64
  type Int64 = n: int | -0x8000_0000_0000_0000 <= n < 0x8000_0000_0000_0000
  /** A byte string whose length fits its prefix. */
  type Field = b: String | |b| < U64

  /** One step of an encoding: raw bytes, or bytes behind their length. */
  datatype Piece = Raw(bytes: String) | Prefixed(field: Field)

  function EncodePiece(p: Piece): String {
    match p
    case Raw(bytes) => bytes
    case Prefixed(field) => BigEndian(|field|, 8) + field
  }

  function Encode(pieces: seq<Piece>): String {
    if pieces == [] then [] else EncodePiece(pieces[0]) + Encode(pieces[1..])
  }

  /** Same kinds of pieces, with raw ones of equal length. */
  ghost predicate SameShape(p: seq<Piece>, q: seq<Piece>) {
    |p| == |q| && forall i | 0 <= i < |p| :: Alike(p[i], q[i])
  }

  lemma HeadedReadable(h: String, a: String, x: String, g: String, b: String, y: String)
    requires |h| == |g| && h + a + x == g + b + y && (h == g ==> |a| == |b|)
    ensures a == b && x == y
  {
    assert h + a + x == h + (a + x) && g + b + y == g + (b + y);
    SplitEqual(h, a + x, g, b + y);
    SplitEqual(a, x, b, y);
  }

  lemma SameLength(a: Field, b: Field)
    ensures BigEndian(|a|, 8) == BigEndian(|b|, 8) ==> |a| == |b|
  {
    if BigEndian(|a|, 8) == BigEndian(|b|, 8) {
      Widths();
      BigEndianInjective(|a|, |b|, 8);
    }
  }

  lemma PrefixReadable(a: Field, x: String, b: Field, y: String)
    requires BigEndian(|a|, 8) + a + x == BigEndian(|b|, 8) + b + y
    ensures a == b && x == y
  {
    SameLength(a, b);
    HeadedReadable(BigEndian(|a|, 8), a, x, BigEndian(|b|, 8), b, y);
  }

  ghost predicate Alike(p: Piece, q: Piece) {
    match (p, q)
    case (Raw(a), Raw(b)) => |a| == |b|
    case (Prefixed(_), Prefixed(_)) => true
    case _ => false
  }

  lemma PieceReadable(p: Piece, x: String, q: Piece, y: String)
    requires Alike(p, q) && EncodePiece(p) + x == EncodePiece(q) + y
    ensures p == q && x == y
  {
    if p.Raw? {
      SplitEqual(p.bytes, x, q.bytes, y);
    } else {
      PrefixReadable(p.field, x, q.field, y);
    }
  }

  /** Encodings of equal shape can be read off the front of any string in only
      one way. */
  lemma {:induction false} ShapeReadable(p: seq<Piece>, x: String, q: seq<Piece>, y: String)
    requires SameShape(p, q) && Encode(p) + x == Encode(q) + y
    ensures p == q && x == y
    decreases |p|
  {
    if p != [] {
      var rp, rq := Encode(p[1..]) + x, Encode(q[1..]) + y;
      Regroup(EncodePiece(p[0]), Encode(p[1..]), x);
      Regroup(EncodePiece(q[0]), Encode(q[1..]), y);
      assert Alike(p[0], q[0]);
      PieceReadable(p[0], rp, q[0], rq);
      assert SameShape(p[1..], q[1..]) by {
        forall i | 0 <= i < |p[1..]| ensures Alike(p[1..][i], q[1..][i]) { assert Alike(p[i + 1], q[i + 1]); }
      }
      ShapeReadable(p[1..], x, q[1..], y);
      assert p == [p[0]] + p[1..] && q == [q[0]] + q[1..];
    } else {
      assert Encode(p) + x == x && Encode(q) + y == y;
    }
  }

  lemma {:induction false} EncodeConcat(p: seq<Piece>, q: seq<Piece>)
    ensures Encode(p + q) == Encode(p) + Encode(q)
    decreases |p|
  {
    if p == [] {
      assert p + q == q;
    } else {
      assert (p + q)[1..] == p[1..] + q;
      EncodeConcat(p[1..], q);
    }
  }

  lemma EncodeThree(p: seq<Piece>, q: seq<Piece>, r: seq<Piece>)
    ensures Encode(p + q + r) == Encode(p) + (Encode(q) + Encode(r))
  {
    EncodeConcat(p + q, r);
    EncodeConcat(p, q);
    Regroup(Encode(p), Encode(q), Encode(r));
  }

  /** A head of fixed shape in front of a list and a tail. */
  lemma HeadReadable(h: seq<Piece>, f: seq<Piece>, t: seq<Piece>, h': seq<Piece>, f': seq<Piece>, t': seq<Piece>)
    requires SameShape(h, h') && Encode(h + f + t) == Encode(h' + f' + t')
    ensures h == h' && Encode(f) + Encode(t) == Encode(f') + Encode(t')
  {
    EncodeThree(h, f, t);
    EncodeThree(h', f', t');
    ShapeReadable(h, Encode(f) + Encode(t), h', Encode(f') + Encode(t'));
  }

  lemma WholeReadable(p: seq<Piece>, q: seq<Piece>)
    requires SameShape(p, q) && Encode(p) == Encode(q)
    ensures p == q
  {
    assert Encode(p) + [] == Encode(q) + [];
    ShapeReadable(p, [], q, []);
  }

  // --- The three statements ----------------------------------------------------------------------

  datatype Descriptor = Descriptor(
    version: Field, previousDigest: Digest, transition: Field, activateAt: Field, retireAt: Field,
    topology: Field, certificate: Field, uplinkProfile: Field)

  datatype Revocation = Revocation(
    version: Field, networkId: Field, operatorId: Field, identity: Field, epochObserved: Word64, reason: Field)

  datatype ErasedFile = ErasedFile(path: Field, sizeBytes: Int64, digest: Digest)

  datatype Erasure = Erasure(
    version: Field, networkId: Field, operatorId: Field, epoch: Word64, descriptorDigest: Digest,
    files: seq<ErasedFile>, method_: Field, filesystem: Field, erasedAt: Field, limitations: Field)

  function DescriptorPieces(d: Descriptor): seq<Piece> {
    [Prefixed(d.version), Raw(d.previousDigest), Prefixed(d.transition), Prefixed(d.activateAt),
     Prefixed(d.retireAt), Prefixed(d.topology), Prefixed(d.certificate), Prefixed(d.uplinkProfile)]
  }

  function RevocationPieces(r: Revocation): seq<Piece> {
    [Prefixed(r.version), Prefixed(r.networkId), Prefixed(r.operatorId), Prefixed(r.identity),
     Raw(BigEndian(r.epochObserved, 8)), Prefixed(r.reason)]
  }

  /** A signed 64-bit size reinterpreted as unsigned. */
  function Unsigned(n: Int64): Word64 {
    if n < 0 then n + U64 else n
  }

  function FilePieces(f: ErasedFile): seq<Piece> {
    [Prefixed(f.path), Raw(BigEndian(Unsigned(f.sizeBytes), 8)), Raw(f.digest)]
  }

  function FilesPieces(files: seq<ErasedFile>): (r: seq<Piece>)
    ensures |r| == 3 * |files|
  {
    if files == [] then [] else FilesPieces(files[..|files| - 1]) + FilePieces(files[|files| - 1])
  }

  function Head(version: Field, networkId: Field, operatorId: Field, epoch: Word64, digest: Digest,
                count: nat): seq<Piece> {
    [Prefixed(version), Prefixed(networkId), Prefixed(operatorId), Raw(BigEndian(epoch, 8)),
     Raw(digest), Raw(BigEndian(count, 8))]
  }

  function HeadPieces(e: Erasure): seq<Piece> {
    Head(e.version, e.networkId, e.operatorId, e.epoch, e.descriptorDigest, |e.files|)
  }

  function TailPieces(e: Erasure): seq<Piece> {
    [Prefixed(e.method_), Prefixed(e.filesystem), Prefixed(e.erasedAt), Prefixed(e.limitations)]
  }

  function ErasurePieces(e: Erasure): seq<Piece> {
    HeadPieces(e) + FilesPieces(e.files) + TailPieces(e)
  }

  // --- Statements before they are checked ----------------------------------------------------------

  /** A listed file, with its digest if the text decodes. */
  datatype Listed = Listed(path: Field, sizeBytes: Int64, digest: Option<Digest>)

  datatype Statement = Statement(
    version: Field, networkId: Field, operatorId: Field, epoch: Word64, descriptorDigest: Option<Digest>,
    files: seq<Listed>, method_: Field, filesystem: Field, erasedAt: Field, limitations: Field)

  /** The fixed texts, the identifier grammar and the canonical time form. */
  datatype Rules = Rules(version: Field, limitations: Field, identifier: Field -> bool, canonicalTime: Field -> bool)

  predicate Readable(files: seq<Listed>) {
    forall i | 0 <= i < |files| :: files[i].digest.Some?
  }

  predicate Admissible(rules: Rules, s: Statement) {
    && s.version == rules.version && rules.identifier(s.networkId) && rules.identifier(s.operatorId)
    && s.epoch != 0 && s.descriptorDigest.Some? && rules.canonicalTime(s.erasedAt)
    && s.limitations == rules.limitations && Readable(s.files)
  }

  function DecodedFile(f: Listed): ErasedFile
    requires f.digest.Some?
  {
    ErasedFile(f.path, f.sizeBytes, f.digest.value)
  }

  function DecodedFiles(files: seq<Listed>): (r: seq<ErasedFile>)
    requires Readable(files)
    ensures |r| == |files|
  {
    seq(|files|, i requires 0 <= i < |files| => DecodedFile(files[i]))
  }

  function Decoded(s: Statement): Erasure
    requires s.descriptorDigest.Some? && Readable(s.files)
  {
    Erasure(s.version, s.networkId, s.operatorId, s.epoch, s.descriptorDigest.value, DecodedFiles(s.files),
            s.method_, s.filesystem, s.erasedAt, s.limitations)
  }

  // --- Injectivity ---------------------------------------------------------------------------------

  lemma DescriptorInjective(a: Descriptor, b: Descriptor)
    requires Encode(DescriptorPieces(a)) == Encode(DescriptorPieces(b))
    ensures a == b
  {
    var p, q := DescriptorPieces(a), DescriptorPieces(b);
    WholeReadable(p, q);
    assert p[0] == q[0] && p[1] == q[1] && p[2] == q[2] && p[3] == q[3];
    assert p[4] == q[4] && p[5] == q[5] && p[6] == q[6] && p[7] == q[7];
  }

  lemma RevocationInjective(a: Revocation, b: Revocation)
    requires Encode(RevocationPieces(a)) == Encode(RevocationPieces(b))
    ensures a == b
  {
    var p, q := RevocationPieces(a), RevocationPieces(b);
    WholeReadable(p, q);
    assert p[0] == q[0] && p[1] == q[1] && p[2] == q[2] && p[3] == q[3] && p[4] == q[4] && p[5] == q[5];
    Widths();
    BigEndianInjective(a.epochObserved, b.epochObserved, 8);
  }

  lemma FileInjective(a: ErasedFile, b: ErasedFile)
    requires FilePieces(a) == FilePieces(b)
    ensures a == b
  {
    assert FilePieces(a)[0] == FilePieces(b)[0] && FilePieces(a)[1] == FilePieces(b)[1]
           && FilePieces(a)[2] == FilePieces(b)[2];
    Widths();
    BigEndianInjective(Unsigned(a.sizeBytes), Unsigned(b.sizeBytes), 8);
  }

  lemma {:induction false} FilesSameShape(a: seq<ErasedFile>, b: seq<ErasedFile>)
    requires |a| == |b|
    ensures SameShape(FilesPieces(a), FilesPieces(b))
  {
    if a != [] { FilesSameShape(a[..|a| - 1], b[..|b| - 1]); }
  }

  lemma LastFile(a: seq<ErasedFile>, b: seq<ErasedFile>)
    requires |a| == |b| != 0 && FilesPieces(a) == FilesPieces(b)
    ensures FilesPieces(a[..|a| - 1]) == FilesPieces(b[..|b| - 1]) && FilePieces(a[|a| - 1]) == FilePieces(b[|b| - 1])
  {
    SplitEqual(FilesPieces(a[..|a| - 1]), FilePieces(a[|a| - 1]), FilesPieces(b[..|b| - 1]), FilePieces(b[|b| - 1]));
  }

  lemma LastFileInjective(a: seq<ErasedFile>, b: seq<ErasedFile>)
    requires |a| == |b| != 0 && FilePieces(a[|a| - 1]) == FilePieces(b[|b| - 1])
    ensures a[|a| - 1] == b[|b| - 1]
  {
    FileInjective(a[|a| - 1], b[|b| - 1]);
  }

  lemma {:induction false} FilesInjective(a: seq<ErasedFile>, b: seq<ErasedFile>)
    requires FilesPieces(a) == FilesPieces(b)
    ensures a == b
    decreases |a|
  {
    assert |a| == |b|;
    if a != [] {
      LastFile(a, b);
      LastFileInjective(a, b);
      FilesInjective(a[..|a| - 1], b[..|b| - 1]);
      SameInitSameLast(a, b);
    }
  }

  lemma SameInitSameLast<T>(a: seq<T>, b: seq<T>)
    requires |a| == |b| != 0 && a[..|a| - 1] == b[..|b| - 1] && a[|a| - 1] == b[|b| - 1]
    ensures a == b
  {
    assert a == a[..|a| - 1] + [a[|a| - 1]] && b == b[..|b| - 1] + [b[|b| - 1]];
  }

  lemma HeadInjective(a: Erasure, b: Erasure)
    requires |a.files| < U64 && |b.files| < U64 && HeadPieces(a) == HeadPieces(b)
    ensures a.version == b.version && a.networkId == b.networkId && a.operatorId == b.operatorId
    ensures a.epoch == b.epoch && a.descriptorDigest == b.descriptorDigest && |a.files| == |b.files|
  {
    var p, q := HeadPieces(a), HeadPieces(b);
    assert p[0] == q[0] && p[1] == q[1] && p[2] == q[2] && p[3] == q[3] && p[4] == q[4] && p[5] == q[5];
    Widths();
    BigEndianInjective(a.epoch, b.epoch, 8);
    BigEndianInjective(|a.files|, |b.files|, 8);
  }

  /** File lists of any length, even though files follow one another without a
      separator: the count in front fixes where the list ends. */
  lemma ErasureInjective(a: Erasure, b: Erasure)
    requires |a.files| < U64 && |b.files| < U64
    requires Encode(ErasurePieces(a)) == Encode(ErasurePieces(b))
    ensures a == b
  {
    HeadComesOff(a, b);
    HeadInjective(a, b);
    FilesReadable(a.files, Encode(TailPieces(a)), b.files, Encode(TailPieces(b)));
    TailInjective(a, b);
  }

  lemma HeadSameShape(a: Erasure, b: Erasure)
    ensures SameShape(HeadPieces(a), HeadPieces(b))
  {
  }

  lemma HeadComesOff(a: Erasure, b: Erasure)
    requires Encode(ErasurePieces(a)) == Encode(ErasurePieces(b))
    ensures HeadPieces(a) == HeadPieces(b)
    ensures Encode(FilesPieces(a.files)) + Encode(TailPieces(a)) == Encode(FilesPieces(b.files)) + Encode(TailPieces(b))
  {
    HeadSameShape(a, b);
    HeadReadable(HeadPieces(a), FilesPieces(a.files), TailPieces(a),
                 HeadPieces(b), FilesPieces(b.files), TailPieces(b));
  }

  lemma FilesReadable(a: seq<ErasedFile>, x: String, b: seq<ErasedFile>, y: String)
    requires |a| == |b| && Encode(FilesPieces(a)) + x == Encode(FilesPieces(b)) + y
    ensures a == b && x == y
  {
    FilesSameShape(a, b);
    ShapeReadable(FilesPieces(a), x, FilesPieces(b), y);
    FilesInjective(a, b);
  }

  lemma TailInjective(a: Erasure, b: Erasure)
    requires Encode(TailPieces(a)) == Encode(TailPieces(b))
    ensures a.method_ == b.method_ && a.filesystem == b.filesystem
    ensures a.erasedAt == b.erasedAt && a.limitations == b.limitations
  {
    var p, q := TailPieces(a), TailPieces(b);
    WholeReadable(p, q);
    assert p[0] == q[0] && p[1] == q[1] && p[2] == q[2] && p[3] == q[3];
  }

  predicate Collide(hash: String -> Digest, x: String, y: String) {
    x != y && hash(x) == hash(y)
  }

  /** Equal digests mean equal fields, or a collision of the hash is at hand. */
  lemma DigestsIdentify(hash: String -> Digest, a: Descriptor, b: Descriptor, domain: String)
    requires hash(domain + Encode(DescriptorPieces(a))) == hash(domain + Encode(DescriptorPieces(b)))
    ensures a == b || Collide(hash, domain + Encode(DescriptorPieces(a)), domain + Encode(DescriptorPieces(b)))
  {
    if domain + Encode(DescriptorPieces(a)) == domain + Encode(DescriptorPieces(b)) {
      SplitEqual(domain, Encode(DescriptorPieces(a)), domain, Encode(DescriptorPieces(b)));
      DescriptorInjective(a, b);
    }
  }

  // --- The builders -----------------------------------------------------------------------------------

  function AppendUint64(out: String, value: Word64): String {
    out + BigEndian(value, 8)
  }

  function AppendBytes(out: String, value: Field): String {
    AppendUint64(out, |value|) + value
  }

  lemma AppendIsPiece(pieces: seq<Piece>, p: Piece)
    ensures Encode(pieces + [p]) == Encode(pieces) + EncodePiece(p)
  {
    EncodeConcat(pieces, [p]);
    assert [p][1..] == [];
    assert Encode([p]) == EncodePiece(p);
  }

  method PushRaw(ghost pieces: seq<Piece>, out: String, bytes: String) returns (r: String)
    requires out == Encode(pieces)
    ensures r == Encode(pieces + [Raw(bytes)])
  {
    AppendIsPiece(pieces, Raw(bytes));
    r := out + bytes;
  }

  method PushField(ghost pieces: seq<Piece>, out: String, field: Field) returns (r: String)
    requires out == Encode(pieces)
    ensures r == Encode(pieces + [Prefixed(field)])
  {
    AppendIsPiece(pieces, Prefixed(field));
    r := AppendBytes(out, field);
    Regroup(out, BigEndian(|field|, 8), field);
  }

  /** Appends pieces one after another. */
  method PushAll(ghost pieces: seq<Piece>, out: String, more: seq<Piece>) returns (r: String)
    requires out == Encode(pieces)
    ensures r == Encode(pieces + more)
  {
    r := out;
    assert pieces + more[..0] == pieces;
    for i := 0 to |more|
      invariant r == Encode(pieces + more[..i])
    {
      r := PushPiece(pieces + more[..i], r, more[i]);
      OneMore(pieces, more, i);
    }
    assert more[..|more|] == more;
  }

  method PushPiece(ghost pieces: seq<Piece>, out: String, p: Piece) returns (r: String)
    requires out == Encode(pieces)
    ensures r == Encode(pieces + [p])
  {
    match p
    case Raw(bytes) => r := PushRaw(pieces, out, bytes);
    case Prefixed(field) => r := PushField(pieces, out, field);
  }

  lemma OneMore(pieces: seq<Piece>, more: seq<Piece>, i: nat)
    requires i < |more|
    ensures pieces + more[..i] + [more[i]] == pieces + more[..i + 1]
  {
  }

  /** The files up to the first whose digest does not decode. */
  method PushFiles(ghost pieces: seq<Piece>, out: String, files: seq<Listed>) returns (r: Option<String>)
    requires out == Encode(pieces)
    ensures r.Some? <==> Readable(files)
    ensures r.Some? ==> r.value == Encode(pieces + FilesPieces(DecodedFiles(files)))
  {
    var canonical := out;
    assert pieces + FilesPieces(DecodedFiles(files[..0])) == pieces;
    for i := 0 to |files|
      invariant Readable(files[..i])
      invariant canonical == Encode(pieces + FilesPieces(DecodedFiles(files[..i])))
    {
      if files[i].digest.None? {
        return None;
      }
      FilesStep(pieces, files, i);
      canonical := PushAll(
        pieces + FilesPieces(DecodedFiles(files[..i])), canonical, FilePieces(DecodedFile(files[i])));
    }
    assert files[..|files|] == files;
    r := Some(canonical);
  }

  lemma FilesStep(pieces: seq<Piece>, files: seq<Listed>, i: nat)
    requires i < |files| && Readable(files[..i]) && files[i].digest.Some?
    ensures Readable(files[..i + 1])
    ensures pieces + FilesPieces(DecodedFiles(files[..i])) + FilePieces(DecodedFile(files[i]))
         == pieces + FilesPieces(DecodedFiles(files[..i + 1]))
  {
    var longer := DecodedFiles(files[..i + 1]);
    assert longer[..i] == DecodedFiles(files[..i]) && longer[i] == DecodedFile(files[i]);
  }

  /** The statement's encoder: its refusals in order, then successive appends. */
  method ErasureCanonicalBytes(rules: Rules, s: Statement) returns (r: Option<String>)
    ensures r.Some? <==> Admissible(rules, s)
    ensures r.Some? ==> r.value == Encode(ErasurePieces(Decoded(s)))
  {
    if s.version != rules.version || !rules.identifier(s.networkId) || !rules.identifier(s.operatorId) || s.epoch == 0 {
      return None;
    }
    if s.descriptorDigest.None? || !rules.canonicalTime(s.erasedAt) || s.limitations != rules.limitations {
      return None;
    }
    var head := Head(s.version, s.networkId, s.operatorId, s.epoch, s.descriptorDigest.value, |s.files|);
    var canonical := PushAll([], [], head);
    assert [] + head == head;
    var listed := PushFiles(head, canonical, s.files);
    if listed.None? {
      return None;
    }
    var tail := [Prefixed(s.method_), Prefixed(s.filesystem), Prefixed(s.erasedAt), Prefixed(s.limitations)];
    canonical := PushAll(head + FilesPieces(DecodedFiles(s.files)), listed.value, tail);
    r := Some(canonical);
  }
}
