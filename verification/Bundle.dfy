/** The bundle format: a canonical listing of resource paths. The path rule and
    the media-type canonicalisation are parameters. */
module Bundle {
  import opened Options
  import opened Bytes
  import opened PathOrder

  const MAGIC: String := Ascii("NBND") + [1]
  const MAX_ENTRIES: nat := 1024
  const MAX_PATH: nat := 2048
  const MAX_MEDIA: nat := 255
  const FIXED: nat := 36

  datatype Rules = Rules(validPath: String -> bool, canonical: String -> Option<String>)

  /** A canonical media type is its own canonical form; both texts have bounded length. */
  ghost predicate Sound(rules: Rules) {
    && (forall p :: rules.validPath(p) ==> 1 <= |p| <= MAX_PATH)
    && (forall m :: rules.canonical(m).Some? ==>
          && 1 <= |rules.canonical(m).value| <= MAX_MEDIA
          && rules.canonical(rules.canonical(m).value) == rules.canonical(m))
  }

  // --- Encoding ------------------------------------------------------------------------------------

  predicate Admissible(rules: Rules, e: Entry) {
    rules.validPath(e.path) && rules.canonical(e.media).Some?
  }

  function Normal(rules: Rules, e: Entry): Entry
    requires Admissible(rules, e)
  {
    e.(media := rules.canonical(e.media).value)
  }

  function Normalized(rules: Rules, s: seq<Entry>): (r: seq<Entry>)
    requires forall e <- s :: Admissible(rules, e)
    ensures |r| == |s|
  {
    seq(|s|, i requires 0 <= i < |s| => assert s[i] in s; Normal(rules, s[i]))
  }

  function Piece(e: Entry): String {
    BigEndian(|e.path|, 2) + BigEndian(|e.media|, 2) + e.objectId + e.path + e.media
  }

  function Body(s: seq<Entry>): String {
    if s == [] then [] else Piece(s[0]) + Body(s[1..])
  }

  function Document(s: seq<Entry>): String {
    MAGIC + BigEndian(|s|, 2) + Body(s)
  }

  function Encode(rules: Rules, entries: seq<Entry>): Option<String> {
    if !(1 <= |entries| <= MAX_ENTRIES) || exists e <- entries :: !Admissible(rules, e) then None
    else
      var sorted := Sorted(Normalized(rules, entries));
      if !Rising(sorted) then None else Some(Document(sorted))
  }

  // --- Parsing --------------------------------------------------------------------------------------

  function ParsePiece(data: String): Option<(Entry, String)> {
    if |data| < FIXED then None
    else
      var path, media := FromBigEndian(data[..2]), FromBigEndian(data[2..4]);
      if path == 0 || media == 0 || FIXED + path + media > |data| then None
      else
        Some((Entry(data[FIXED..FIXED + path], data[4..FIXED], data[FIXED + path..FIXED + path + media]),
              data[FIXED + path + media..]))
  }

  function ParseBody(data: String, count: nat): Option<(seq<Entry>, String)> {
    if count == 0 then Some(([], data))
    else
      match ParsePiece(data)
      case None => None
      case Some((e, rest)) =>
        match ParseBody(rest, count - 1)
        case None => None
        case Some((s, end)) => Some(([e] + s, end))
  }

  function ParseEntries(data: String): Option<seq<Entry>> {
    if |data| < 7 || data[..5] != MAGIC then None
    else
      var count := FromBigEndian(data[5..7]);
      if count == 0 || count > MAX_ENTRIES then None
      else
        match ParseBody(data[7..], count)
        case None => None
        case Some((s, end)) => if end != [] then None else Some(s)
  }

  function Parse(rules: Rules, data: String): Option<map<String, Entry>> {
    match ParseEntries(data)
    case None => None
    case Some(s) => if Encode(rules, s) != Some(data) then None else Some(Index(s))
  }

  // --- Pieces -----------------------------------------------------------------------------------------

  predicate Fits(e: Entry) {
    1 <= |e.path| < U16 && 1 <= |e.media| < U16
  }

  lemma TwoBytes(n: nat)
    requires n < U16
    ensures FromBigEndian(BigEndian(n, 2)) == n
  {
    Widths();
    DecodeEncode(n, 2);
  }

  lemma PieceSlices(a: String, b: String, id: String, path: String, media: String, rest: String)
    requires |a| == |b| == 2 && |id| == 32
    ensures var data := a + b + id + path + media + rest;
            && data[..2] == a && data[2..4] == b && data[4..FIXED] == id
            && data[FIXED..FIXED + |path|] == path
            && data[FIXED + |path|..FIXED + |path| + |media|] == media
            && data[FIXED + |path| + |media|..] == rest
  {
  }

  lemma PieceParses(e: Entry, rest: String)
    requires Fits(e)
    ensures ParsePiece(Piece(e) + rest) == Some((e, rest))
  {
    var a, b := BigEndian(|e.path|, 2), BigEndian(|e.media|, 2);
    TwoBytes(|e.path|);
    TwoBytes(|e.media|);
    PieceSlices(a, b, e.objectId, e.path, e.media, rest);
    assert Piece(e) + rest == a + b + e.objectId + e.path + e.media + rest;
  }

  function Prefixed(e: Entry, r: Option<(seq<Entry>, String)>): Option<(seq<Entry>, String)> {
    if r.None? then None else Some(([e] + r.value.0, r.value.1))
  }

  lemma PieceComesOff(e: Entry, rest: String, n: nat)
    requires Fits(e)
    ensures ParseBody(Piece(e) + rest, n + 1) == Prefixed(e, ParseBody(rest, n))
  {
    PieceParses(e, rest);
  }

  lemma {:induction false} BodyParses(s: seq<Entry>)
    requires forall i :: 0 <= i < |s| ==> Fits(s[i])
    ensures ParseBody(Body(s), |s|) == Some((s, []))
  {
    if s != [] {
      BodyParses(s[1..]);
      PieceComesOff(s[0], Body(s[1..]), |s| - 1);
      assert [s[0]] + s[1..] == s;
    }
  }

  lemma DocumentParses(s: seq<Entry>)
    requires 1 <= |s| <= MAX_ENTRIES && forall e <- s :: Fits(e)
    ensures ParseEntries(Document(s)) == Some(s)
  {
    var count := BigEndian(|s|, 2);
    TwoBytes(|s|);
    assert forall i :: 0 <= i < |s| ==> s[i] in s;
    BodyParses(s);
    var data := MAGIC + count + Body(s);
    assert |MAGIC| == 5;
    assert data[..5] == MAGIC && data[5..7] == count && data[7..] == Body(s);
  }

  // --- Whole documents --------------------------------------------------------------------------------

  lemma {:induction false} IndexMembers(s: seq<Entry>, e: Entry)
    ensures e in s ==> e.path in Index(s)
    ensures e.path in Index(s) && Index(s)[e.path] == e ==> e in s
    ensures NoRepeat(s) && e in s ==> Index(s)[e.path] == e
    ensures forall p <- Index(s) :: Index(s)[p].path == p
  {
    if s != [] {
      var init, last := s[..|s| - 1], s[|s| - 1];
      assert s == init + [last];
      IndexMembers(init, e);
    }
  }

  /** Lists with the same entries have the same index. */
  lemma SameEntriesSameIndex(a: seq<Entry>, b: seq<Entry>)
    requires NoRepeat(a) && NoRepeat(b) && forall e :: e in a <==> e in b
    ensures Index(a) == Index(b)
  {
    forall p | p in Index(a) ensures p in Index(b) && Index(b)[p] == Index(a)[p] {
      IndexMembers(a, Index(a)[p]);
      IndexMembers(b, Index(a)[p]);
    }
    forall p | p in Index(b) ensures p in Index(a) {
      IndexMembers(b, Index(b)[p]);
      IndexMembers(a, Index(b)[p]);
    }
  }

  lemma NormalizedMember(rules: Rules, s: seq<Entry>, e: Entry)
    requires forall x <- s :: Admissible(rules, x)
    ensures e in Normalized(rules, s) <==> exists x <- s :: Normal(rules, x) == e
  {
    if e in Normalized(rules, s) {
      var i :| 0 <= i < |s| && Normalized(rules, s)[i] == e;
      assert s[i] in s;
    }
    if exists x <- s :: Normal(rules, x) == e {
      var x :| x in s && Normal(rules, x) == e;
      var i :| 0 <= i < |s| && s[i] == x;
      assert Normalized(rules, s)[i] == e;
    }
  }

  lemma {:induction false} NormalizedFits(rules: Rules, s: seq<Entry>)
    requires Sound(rules) && forall x <- s :: Admissible(rules, x)
    ensures forall e <- Normalized(rules, s) :: Fits(e) && Admissible(rules, e) && Normal(rules, e) == e
  {
    forall e | e in Normalized(rules, s) ensures Fits(e) && Admissible(rules, e) && Normal(rules, e) == e {
      NormalizedMember(rules, s, e);
    }
  }

  lemma {:induction false} SortedMembers(s: seq<Entry>, e: Entry)
    ensures e in Sorted(s) <==> e in s
  {
    if s != [] {
      var init, last := s[..|s| - 1], s[|s| - 1];
      SortedMembers(init, e);
      InsertedMembers(Sorted(init), last, e);
      assert s == init + [last];
    }
  }

  lemma {:induction false} InsertedMembers(s: seq<Entry>, x: Entry, e: Entry)
    ensures e in Inserted(s, x) <==> e in s || e == x
  {
    if s != [] && Less(x.path, s[|s| - 1].path) {
      InsertedMembers(s[..|s| - 1], x, e);
      assert s == s[..|s| - 1] + [s[|s| - 1]];
    }
  }

  /** A rising list of entries in normal form is a fixed point: it encodes as itself. */
  lemma RisingEncodesAsItself(rules: Rules, s: seq<Entry>)
    requires 1 <= |s| <= MAX_ENTRIES && Rising(s)
    requires forall e <- s :: Admissible(rules, e) && Normal(rules, e) == e
    ensures Encode(rules, s) == Some(Document(s))
  {
    assert Normalized(rules, s) == s by {
      forall i | 0 <= i < |s| ensures Normalized(rules, s)[i] == s[i] {
        assert s[i] in s;
      }
    }
    RisingHasNoRepeat(s);
    SortedRises(s);
    RisingIsDetermined(Sorted(s), s);
  }

  /** Parsing what was printed gives back exactly the entries, by path. */
  lemma ParseUndoesEncode(rules: Rules, entries: seq<Entry>)
    requires Sound(rules) && Encode(rules, entries).Some?
    ensures (forall e <- entries :: Admissible(rules, e)) && NoRepeat(Normalized(rules, entries))
    ensures Parse(rules, Encode(rules, entries).value) == Some(Index(Normalized(rules, entries)))
  {
    var n := Normalized(rules, entries);
    var s := Sorted(n);
    SortedRisesIff(n);
    SortedRises(n);
    NormalizedFits(rules, entries);
    forall e | e in s ensures Fits(e) && Admissible(rules, e) && Normal(rules, e) == e {
      SortedMembers(n, e);
    }
    DocumentParses(s);
    RisingEncodesAsItself(rules, s);
  }

  /** What is read back for each entry: its own identifier, and the canonical form of
      its media type, under its path. Nothing else is there. */
  lemma EntriesReadBack(rules: Rules, entries: seq<Entry>, e: Entry)
    requires Sound(rules) && Encode(rules, entries).Some?
    ensures Parse(rules, Encode(rules, entries).value).Some?
    ensures
      var read := Parse(rules, Encode(rules, entries).value).value;
      && (e in entries ==>
            && e.path in read && rules.canonical(e.media).Some?
            && read[e.path] == Entry(e.path, e.objectId, rules.canonical(e.media).value))
      && forall p <- read :: exists x <- entries :: x.path == p
  {
    ParseUndoesEncode(rules, entries);
    var n := Normalized(rules, entries);
    if e in entries {
      NormalizedMember(rules, entries, Normal(rules, e));
      IndexMembers(n, Normal(rules, e));
    }
    forall p | p in Index(n) ensures exists x <- entries :: x.path == p {
      IndexMembers(n, Index(n)[p]);
      NormalizedMember(rules, entries, Index(n)[p]);
    }
  }

  /** Everything accepted is in canonical form. */
  lemma AcceptedIsCanonical(rules: Rules, data: String, p: String)
    requires Sound(rules) && Parse(rules, data).Some? && p in Parse(rules, data).value
    ensures
      var e := Parse(rules, data).value[p];
      e.path == p && rules.validPath(p) && rules.canonical(e.media) == Some(e.media)
  {
    var parsed := ParseEntries(data).value;
    ParseUndoesEncode(rules, parsed);
    var n := Normalized(rules, parsed);
    assert Parse(rules, data) == Some(Index(n));
    IndexMembers(n, Index(n)[p]);
    NormalizedFits(rules, parsed);
  }

  /** Every accepted byte string is the one encoding of its map: whatever list of
      entries has that map encodes to it. */
  lemma EncodeUndoesParse(rules: Rules, data: String, entries: seq<Entry>)
    requires Sound(rules) && Parse(rules, data).Some? && 1 <= |entries| <= MAX_ENTRIES
    requires (forall e <- entries :: Admissible(rules, e)) && NoRepeat(Normalized(rules, entries))
    requires Index(Normalized(rules, entries)) == Parse(rules, data).value
    ensures Encode(rules, entries) == Some(data)
  {
    var parsed := ParseEntries(data).value;
    var n := Normalized(rules, entries);
    ParseUndoesEncode(rules, parsed);
    assert Index(Normalized(rules, parsed)) == Index(n);
    SortedRises(Normalized(rules, parsed));
    SortedRises(n);
    RisingIsDetermined(Sorted(Normalized(rules, parsed)), Sorted(n));
  }

  /** Two accepted byte strings with one map are one byte string. */
  lemma AcceptedBytesAreUnique(rules: Rules, a: String, b: String)
    requires Sound(rules) && Parse(rules, a).Some? && Parse(rules, a) == Parse(rules, b)
    ensures a == b
  {
    var parsed := ParseEntries(a).value;
    ParseUndoesEncode(rules, parsed);
    EncodeUndoesParse(rules, b, parsed);
  }

  /** Encoding succeeds exactly on one to 1024 admissible entries with distinct paths. */
  lemma EncodeSucceedsIff(rules: Rules, entries: seq<Entry>)
    ensures Encode(rules, entries).Some?
       <==> 1 <= |entries| <= MAX_ENTRIES && (forall e <- entries :: Admissible(rules, e)) && NoRepeat(entries)
  {
    if forall e <- entries :: Admissible(rules, e) {
      SortedRisesIff(Normalized(rules, entries));
      NormalizedRepeats(rules, entries);
    }
  }

  lemma NormalizedSnoc(rules: Rules, init: seq<Entry>, last: Entry)
    requires (forall e <- init :: Admissible(rules, e)) && Admissible(rules, last)
    ensures forall e <- init + [last] :: Admissible(rules, e)
    ensures Normalized(rules, init + [last]) == Normalized(rules, init) + [Normal(rules, last)]
  {
  }

  lemma {:induction false} NormalizedRepeats(rules: Rules, s: seq<Entry>)
    requires forall e <- s :: Admissible(rules, e)
    ensures Index(Normalized(rules, s)).Keys == Index(s).Keys
    ensures NoRepeat(Normalized(rules, s)) <==> NoRepeat(s)
  {
    if s != [] {
      var init, last := s[..|s| - 1], s[|s| - 1];
      assert last in s;
      assert forall e <- init :: e in s;
      NormalizedRepeats(rules, init);
      NormalizedSnoc(rules, init, last);
      assert s == init + [last];
      SnocRepeats(Normalized(rules, init), init, Normal(rules, last), last);
    }
  }

  lemma SnocRepeats(a: seq<Entry>, b: seq<Entry>, x: Entry, y: Entry)
    requires Index(a).Keys == Index(b).Keys && (NoRepeat(a) <==> NoRepeat(b)) && x.path == y.path
    ensures Index(a + [x]).Keys == Index(b + [y]).Keys
    ensures NoRepeat(a + [x]) <==> NoRepeat(b + [y])
  {
    Snoc(a, x);
    Snoc(b, y);
  }

  /** The order entries are given in does not show in the encoding, success or not. */
  lemma OrderDoesNotShow(rules: Rules, a: seq<Entry>, b: seq<Entry>)
    requires multiset(a) == multiset(b)
    ensures Encode(rules, a) == Encode(rules, b)
  {
    assert |multiset(a)| == |a| && |multiset(b)| == |b|;
    assert forall e :: e in a <==> e in multiset(a);
    assert forall e :: e in b <==> e in multiset(b);
    SameRepeats(a, b);
    EncodeSucceedsIff(rules, a);
    EncodeSucceedsIff(rules, b);
    if Encode(rules, a).Some? {
      SameNormal(rules, a, b);
      SameSorted(Normalized(rules, a), Normalized(rules, b));
    }
  }

  lemma SameNormal(rules: Rules, a: seq<Entry>, b: seq<Entry>)
    requires (forall e <- a :: Admissible(rules, e)) && (forall e <- b :: Admissible(rules, e))
    requires NoRepeat(a) && NoRepeat(b) && forall e :: e in a <==> e in b
    ensures var x, y := Normalized(rules, a), Normalized(rules, b);
            NoRepeat(x) && NoRepeat(y) && forall e :: e in x <==> e in y
  {
    NormalizedRepeats(rules, a);
    NormalizedRepeats(rules, b);
    forall e ensures e in Normalized(rules, a) <==> e in Normalized(rules, b) {
      NormalizedMember(rules, a, e);
      NormalizedMember(rules, b, e);
    }
  }

  lemma SameSorted(x: seq<Entry>, y: seq<Entry>)
    requires NoRepeat(x) && NoRepeat(y) && forall e :: e in x <==> e in y
    ensures Sorted(x) == Sorted(y)
  {
    SameEntriesSameIndex(x, y);
    SortedRises(x);
    SortedRises(y);
    RisingIsDetermined(Sorted(x), Sorted(y));
  }

  lemma {:induction false} IndexPaths(s: seq<Entry>, p: String)
    ensures p in Index(s) <==> exists e <- s :: e.path == p
  {
    if s != [] {
      var init, last := s[..|s| - 1], s[|s| - 1];
      assert s == init + [last];
      IndexPaths(init, p);
    }
  }

  lemma SameRepeats(a: seq<Entry>, b: seq<Entry>)
    requires |a| == |b| && forall e :: e in a <==> e in b
    ensures NoRepeat(a) <==> NoRepeat(b)
  {
    forall p ensures p in Index(a) <==> p in Index(b) {
      IndexPaths(a, p);
      IndexPaths(b, p);
    }
    assert Index(a).Keys == Index(b).Keys;
    assert |Index(a)| == |Index(a).Keys| && |Index(b)| == |Index(b).Keys|;
    IndexSize(a);
    IndexSize(b);
  }

  // --- With buffers and offsets -------------------------------------------------------------------------

  lemma {:induction false} BodySnoc(s: seq<Entry>, e: Entry)
    ensures Body(s + [e]) == Body(s) + Piece(e)
  {
    if s == [] {
      assert [] + [e] == [e] && [e][1..] == [];
    } else {
      BodySnoc(s[1..], e);
      assert (s + [e])[1..] == s[1..] + [e];
      Regroup(Piece(s[0]), Body(s[1..]), Piece(e));
    }
  }

  method Write(s: seq<Entry>) returns (out: String)
    requires |s| < U16
    ensures out == Document(s)
  {
    var header := MAGIC + BigEndian(|s|, 2);
    out := header;
    assert header + Body([]) == header;
    for k := 0 to |s|
      invariant out == header + Body(s[..k])
    {
      BodyExtends(header, s, k);
      out := out + Piece(s[k]);
    }
    assert s[..|s|] == s;
  }

  lemma BodyExtends(header: String, s: seq<Entry>, k: nat)
    requires k < |s|
    ensures header + Body(s[..k]) + Piece(s[k]) == header + Body(s[..k + 1])
  {
    BodySnoc(s[..k], s[k]);
    assert s[..k + 1] == s[..k] + [s[k]];
    Regroup(header, Body(s[..k]), Piece(s[k]));
  }

  method NormalizeAll(rules: Rules, entries: seq<Entry>) returns (r: Option<seq<Entry>>)
    ensures r.Some? <==> forall e <- entries :: Admissible(rules, e)
    ensures r.Some? ==> r.value == Normalized(rules, entries)
  {
    var normalized: seq<Entry> := [];
    for i := 0 to |entries|
      invariant forall e <- entries[..i] :: Admissible(rules, e)
      invariant normalized == Normalized(rules, entries[..i])
    {
      assert entries[i] in entries;
      assert entries[..i + 1] == entries[..i] + [entries[i]];
      if !rules.validPath(entries[i].path) {
        return None;
      }
      var media := rules.canonical(entries[i].media);
      if media.None? {
        return None;
      }
      normalized := normalized + [entries[i].(media := media.value)];
    }
    assert entries[..|entries|] == entries;
    r := Some(normalized);
  }

  method EncodeBundle(rules: Rules, entries: seq<Entry>) returns (r: Option<String>)
    ensures r == Encode(rules, entries)
  {
    if |entries| == 0 || |entries| > MAX_ENTRIES {
      return None;
    }
    var normalized := NormalizeAll(rules, entries);
    if normalized.None? {
      return None;
    }
    var sorted := Sorted(normalized.value);
    SortedOrdered(normalized.value);
    NeighboursTell(sorted);
    for i := 1 to |sorted|
      invariant forall k :: 0 <= k < i - 1 ==> sorted[k].path != sorted[k + 1].path
    {
      if sorted[i - 1].path == sorted[i].path {
        assert sorted[i - 1].path == sorted[i - 1 + 1].path;
        return None;
      }
    }
    var out := Write(sorted);
    r := Some(out);
  }

  function After(entries: seq<Entry>, r: Option<(seq<Entry>, String)>): Option<(seq<Entry>, String)> {
    if r.None? then None else Some((entries + r.value.0, r.value.1))
  }

  lemma AfterNothing(r: Option<(seq<Entry>, String)>)
    ensures After([], r) == r
  {
    if r.Some? {
      assert [] + r.value.0 == r.value.0;
    }
  }

  lemma OneStep(entries: seq<Entry>, data: String, count: nat)
    requires count > 0
    ensures ParsePiece(data).None? ==> After(entries, ParseBody(data, count)).None?
    ensures ParsePiece(data).Some? ==>
              var (e, rest) := ParsePiece(data).value;
              After(entries, ParseBody(data, count)) == After(entries + [e], ParseBody(rest, count - 1))
  {
    if ParsePiece(data).Some? {
      var (e, rest) := ParsePiece(data).value;
      var r := ParseBody(rest, count - 1);
      if r.Some? {
        assert entries + ([e] + r.value.0) == entries + [e] + r.value.0;
      }
    }
  }

  method ReadPiece(data: String, start: nat) returns (r: Option<(Entry, nat)>)
    requires start <= |data|
    ensures r.Some? <==> ParsePiece(data[start..]).Some?
    ensures r.Some? ==> start <= r.value.1 <= |data|
                        && ParsePiece(data[start..]).value == (r.value.0, data[r.value.1..])
  {
    var offset := start;
    ghost var rest := data[start..];
    if offset + FIXED > |data| {
      return None;
    }
    assert rest[..2] == data[offset..offset + 2] && rest[2..4] == data[offset + 2..offset + 4];
    assert rest[4..FIXED] == data[offset + 4..offset + FIXED];
    var path := FromBigEndian(data[offset..offset + 2]);
    var media := FromBigEndian(data[offset + 2..offset + 4]);
    var objectId := data[offset + 4..offset + FIXED];
    offset := offset + FIXED;
    if path == 0 || media == 0 || offset + path + media > |data| {
      return None;
    }
    assert rest[FIXED..FIXED + path] == data[offset..offset + path];
    assert rest[FIXED + path..FIXED + path + media] == data[offset + path..offset + path + media];
    assert rest[FIXED + path + media..] == data[offset + path + media..];
    var e := Entry(data[offset..offset + path], objectId, data[offset + path..offset + path + media]);
    r := Some((e, offset + path + media));
  }

  method ReadEntries(data: String) returns (r: Option<seq<Entry>>)
    ensures r == ParseEntries(data)
  {
    if |data| < 7 || data[..5] != MAGIC {
      return None;
    }
    var count := FromBigEndian(data[5..7]);
    if count == 0 || count > MAX_ENTRIES {
      return None;
    }
    var offset, entries: seq<Entry> := 7, [];
    ghost var whole := ParseBody(data[7..], count);
    AfterNothing(whole);
    for i := 0 to count
      invariant 7 <= offset <= |data|
      invariant After(entries, ParseBody(data[offset..], count - i)) == whole
    {
      OneStep(entries, data[offset..], count - i);
      var piece := ReadPiece(data, offset);
      if piece.None? {
        return None;
      }
      offset := piece.value.1;
      entries := entries + [piece.value.0];
    }
    assert whole == Some((entries + [], data[offset..])) && entries + [] == entries;
    if offset != |data| {
      return None;
    }
    r := Some(entries);
  }

  method ParseBundle(rules: Rules, data: String) returns (r: Option<map<String, Entry>>)
    ensures r == Parse(rules, data)
  {
    var entries := ReadEntries(data);
    if entries.None? {
      return None;
    }
    var canonical := EncodeBundle(rules, entries.value);
    if canonical != Some(data) {
      return None;
    }
    var index := IndexOf(entries.value);
    r := Some(index);
  }

  method IndexOf(entries: seq<Entry>) returns (index: map<String, Entry>)
    ensures index == Index(entries)
  {
    index := map[];
    for k := 0 to |entries|
      invariant index == Index(entries[..k])
    {
      Snoc(entries[..k], entries[k]);
      assert entries[..k + 1] == entries[..k] + [entries[k]];
      index := index[entries[k].path := entries[k]];
    }
    assert entries[..|entries|] == entries;
  }
}
