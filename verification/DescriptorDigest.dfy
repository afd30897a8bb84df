/** The digest of a descriptor body, from its canonical bytes up: what the quorum
    argument assumes of digests follows from the encoding and from the hash having
    no collision among the byte strings at hand. */
module DescriptorDigest {
  import opened Options
  import opened Bytes
  import opened EpochDescriptor
  import L = LifecycleEncoding
  import SigningJournal

  /** `fields` writes a body out as descriptor fields, `body` reads it back. */
  datatype Form = Form(
    domain: String, hash: String -> L.Digest, fields: Body -> L.Descriptor, body: L.Descriptor -> Body)

  function Canonical(form: Form, b: Body): String {
    form.domain + L.Encode(L.DescriptorPieces(form.fields(b)))
  }

  /** A digest is a 32-byte string read as a number. */
  function DigestOf(form: Form, b: Body): Digest {
    FromBigEndian(form.hash(Canonical(form, b)))
  }

  lemma SameNumberSameBytes(a: L.Digest, b: L.Digest)
    requires FromBigEndian(a) == FromBigEndian(b)
    ensures a == b
  {
    EncodeDecode(a);
    EncodeDecode(b);
  }

  lemma BodyDigestsIdentify(form: Form, a: Body, b: Body)
    requires form.body(form.fields(a)) == a && form.body(form.fields(b)) == b
    requires DigestOf(form, a) == DigestOf(form, b)
    ensures a == b || L.Collide(form.hash, Canonical(form, a), Canonical(form, b))
  {
    SameNumberSameBytes(form.hash(Canonical(form, a)), form.hash(Canonical(form, b)));
    L.DigestsIdentify(form.hash, form.fields(a), form.fields(b), form.domain);
  }

  /** Bodies that read back and whose canonical bytes do not collide have distinct digests. */
  lemma EncodingMakesCollisionFree(form: Form, c: Crypto, bodies: set<Body>)
    requires forall b <- bodies :: form.body(form.fields(b)) == b && c.digest(b) == DigestOf(form, b)
    requires forall a <- bodies, b <- bodies :: !L.Collide(form.hash, Canonical(form, a), Canonical(form, b))
    ensures SigningJournal.CollisionFree(c, bodies)
  {
    forall a, b | a in bodies && b in bodies && c.digest(a) == c.digest(b) ensures a == b {
      BodyDigestsIdentify(form, a, b);
    }
  }

  /** Split-brain needs journal bypass, for digests of canonical bytes: the only
      assumptions left are unforgeable signatures and no hash collision at hand. */
  lemma SplitBrainNeedsBypass(form: Form, c: Crypto, events: seq<SigningJournal.Event>, previous: Verified,
                              d1: Descriptor, r1: set<Key>, d2: Descriptor, r2: set<Key>)
    requires var bodies := SigningJournal.Bodies(events) + {d1.body, d2.body};
             && (forall b <- bodies :: form.body(form.fields(b)) == b && c.digest(b) == DigestOf(form, b))
             && (forall a <- bodies, b <- bodies :: !L.Collide(form.hash, Canonical(form, a), Canonical(form, b)))
    requires SigningJournal.Unforgeable(c, SigningJournal.Run(c, SigningJournal.START, events))
    requires ValidTopology(previous.descriptor.body.topology)
    requires Valid(c, d1, Some(previous), r1) && Valid(c, d2, Some(previous), r2)
    requires c.digest(d1.body) != c.digest(d2.body)
    ensures |SigningJournal.LooseOperators(SigningJournal.Run(c, SigningJournal.START, events), previous)|
         >= 2 * QuorumOf(previous) - |previous.Operators()| >= 1
  {
    EncodingMakesCollisionFree(form, c, SigningJournal.Bodies(events) + {d1.body, d2.body});
    SigningJournal.SplitBrainNeedsBypass(c, events, previous, d1, r1, d2, r2);
  }
}
