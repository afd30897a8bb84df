/** The shuffle chain over a sealed batch, and the release of its plaintexts. */
module ShuffleChain {
  import opened Options
  import opened Bytes
  import opened Images
  import Airlock

  type Column = Airlock.Column
  type Plain = String

  const PUBLIC_KEY_SIZE: nat := 32

  datatype Committee = Committee(id: String, epoch: nat, members: seq<nat>)
  datatype Receipt = Receipt(committeeId: String, epoch: nat, round: nat, mixerPublic: String)
  datatype Round = Round(member: nat, output: seq<Column>, proof: String, receipt: Receipt)

  /** What the mix library decides. `verifies` is the signed proof that its
      second batch is a shuffle of its first. */
  datatype Library = Library(
    certified: Committee -> bool,
    parses: seq<Column> -> bool,
    digest: seq<Column> -> nat,
    verifies: (Committee, seq<Column>, seq<Column>, String, Receipt) -> bool,
    decrypt: Column -> Option<Plain>)

  datatype Fault = NotCertified | NoBatch | WrongContext | Incomplete | ShuffleInvalid | NotRandomised
  datatype Result = Ok(batch: seq<Column>) | Err(fault: Fault)

  // --- What a complete chain is --------------------------------------------------------------

  /** The batch a round starts from. */
  function Before(start: seq<Column>, rounds: seq<Round>, position: nat): seq<Column>
    requires position <= |rounds|
  {
    if position == 0 then start else rounds[position - 1].output
  }

  predicate RoundHolds(lib: Library, committee: Committee, mixers: seq<String>, start: seq<Column>,
                       rounds: seq<Round>, position: nat)
    requires position < |rounds| == |mixers| == |committee.members|
  {
    var round, input := rounds[position], Before(start, rounds, position);
    && round.member == round.receipt.round == committee.members[position]
    && round.receipt.committeeId == committee.id && round.receipt.epoch == committee.epoch
    && round.receipt.mixerPublic == mixers[position] && |mixers[position]| == PUBLIC_KEY_SIZE
    && |round.output| == |input| && lib.parses(round.output)
    && lib.verifies(committee, input, round.output, round.proof, round.receipt)
    && forall c <- round.output :: c !in input
  }

  predicate Complete(lib: Library, committee: Committee, mixers: seq<String>, start: seq<Column>, rounds: seq<Round>) {
    && |rounds| == |mixers| == |committee.members|
    && forall p :: 0 <= p < |rounds| ==> RoundHolds(lib, committee, mixers, start, rounds, p)
  }

  predicate Committed(lib: Library, committee: Committee, sealed: Airlock.Batch, releaseEpoch: nat) {
    lib.certified(committee) && sealed.releaseEpoch == releaseEpoch && lib.digest(sealed.columns) == sealed.digest
  }

  /** The first complaint about one round. */
  function RoundFault(lib: Library, committee: Committee, mixers: seq<String>, start: seq<Column>,
                      rounds: seq<Round>, position: nat): (fault: Option<Fault>)
    requires position < |rounds| == |mixers| == |committee.members|
    ensures fault.None? <==> RoundHolds(lib, committee, mixers, start, rounds, position)
  {
    var round, input := rounds[position], Before(start, rounds, position);
    var expected := committee.members[position];
    if round.member != expected || |mixers[position]| != PUBLIC_KEY_SIZE then Some(Incomplete)
    else if round.receipt.committeeId != committee.id || round.receipt.epoch != committee.epoch then Some(WrongContext)
    else if round.receipt.round != expected then Some(Incomplete)
    else if || round.receipt.mixerPublic != mixers[position] || |round.output| != |input|
            || !lib.parses(round.output)
            || !lib.verifies(committee, input, round.output, round.proof, round.receipt) then Some(ShuffleInvalid)
    else if exists c <- round.output :: c in input then Some(NotRandomised)
    else None
  }

  /** What each complaint about a round says, whichever check finds it. */
  lemma FaultSays(lib: Library, committee: Committee, mixers: seq<String>, start: seq<Column>,
                  rounds: seq<Round>, position: nat)
    requires position < |rounds| == |mixers| == |committee.members|
    ensures
      var round, input := rounds[position], Before(start, rounds, position);
      var fault := RoundFault(lib, committee, mixers, start, rounds, position);
      var turn := round.member == committee.members[position] && |mixers[position]| == PUBLIC_KEY_SIZE;
      var context := round.receipt.committeeId == committee.id && round.receipt.epoch == committee.epoch;
      var proven := && round.receipt.mixerPublic == mixers[position] && |round.output| == |input|
                    && lib.parses(round.output)
                    && lib.verifies(committee, input, round.output, round.proof, round.receipt);
      && (fault == Some(WrongContext) <==> turn && !context)
      && (fault == Some(Incomplete) <==> !turn || (context && round.receipt.round != round.member))
      && (fault == Some(ShuffleInvalid) <==> turn && context && round.receipt.round == round.member && !proven)
      && (fault == Some(NotRandomised) <==>
            && turn && context && round.receipt.round == round.member && proven
            && exists c <- round.output :: c in input)
  {
  }

  method RequireRerandomisation(input: seq<Column>, output: seq<Column>) returns (ok: bool)
    ensures ok <==> forall c <- output :: c !in input
  {
    var seen: set<Column> := {};
    for i := 0 to |input|
      invariant forall c :: c in seen <==> c in input[..i]
    {
      assert input[..i + 1] == input[..i] + [input[i]];
      seen := seen + {input[i]};
    }
    assert input[..|input|] == input;
    for i := 0 to |output|
      invariant forall c <- output[..i] :: c !in input
    {
      if output[i] in seen {
        assert output[i] in output;
        return false;
      }
      assert output[..i + 1] == output[..i] + [output[i]];
    }
    assert output[..|output|] == output;
    ok := true;
  }

  /** Every member shuffles once, in the committee's order, under its own key. */
  method VerifyChain(lib: Library, committee: Committee, mixers: seq<String>, sealed: Option<Airlock.Batch>,
                     releaseEpoch: nat, rounds: seq<Round>) returns (r: Result)
    ensures r.Ok? <==> && sealed.Some? && Committed(lib, committee, sealed.value, releaseEpoch)
                       && Complete(lib, committee, mixers, sealed.value.columns, rounds)
    ensures !lib.certified(committee) ==> r == Err(NotCertified)
    ensures lib.certified(committee) && sealed.None? ==> r == Err(NoBatch)
    ensures lib.certified(committee) && sealed.Some? && !Committed(lib, committee, sealed.value, releaseEpoch) ==>
              r == Err(WrongContext)
    ensures r.Ok? ==> r.batch == Before(sealed.value.columns, rounds, |rounds|)
    ensures sealed.Some? && Committed(lib, committee, sealed.value, releaseEpoch) && r.Err?
            && |rounds| == |mixers| == |committee.members| ==>
              exists p :: 0 <= p < |rounds|
                && RoundFault(lib, committee, mixers, sealed.value.columns, rounds, p) == Some(r.fault)
                && forall q :: 0 <= q < p ==> RoundHolds(lib, committee, mixers, sealed.value.columns, rounds, q)
  {
    if !lib.certified(committee) {
      return Err(NotCertified);
    }
    if sealed.None? {
      return Err(NoBatch);
    }
    if sealed.value.releaseEpoch != releaseEpoch || lib.digest(sealed.value.columns) != sealed.value.digest {
      return Err(WrongContext);
    }
    if |mixers| != |committee.members| || |rounds| != |committee.members| {
      return Err(Incomplete);
    }
    var current := sealed.value.columns;
    for position := 0 to |rounds|
      invariant current == Before(sealed.value.columns, rounds, position)
      invariant forall q :: 0 <= q < position ==> RoundHolds(lib, committee, mixers, sealed.value.columns, rounds, q)
    {
      var round, expected := rounds[position], committee.members[position];
      ghost var fault := RoundFault(lib, committee, mixers, sealed.value.columns, rounds, position);
      if round.member != expected {
        return Err(Incomplete);
      }
      if |mixers[position]| != PUBLIC_KEY_SIZE {
        return Err(Incomplete);
      }
      if round.receipt.committeeId != committee.id || round.receipt.epoch != committee.epoch {
        return Err(WrongContext);
      }
      if round.receipt.round != expected {
        return Err(Incomplete);
      }
      if round.receipt.mixerPublic != mixers[position] {
        return Err(ShuffleInvalid);
      }
      if |round.output| != |current| {
        return Err(ShuffleInvalid);
      }
      if !lib.parses(round.output) {
        return Err(ShuffleInvalid);
      }
      if !lib.verifies(committee, current, round.output, round.proof, round.receipt) {
        return Err(ShuffleInvalid);
      }
      var fresh' := RequireRerandomisation(current, round.output);
      if !fresh' {
        assert fault == Some(NotRandomised);
        return Err(NotRandomised);
      }
      current := round.output;
    }
    r := Ok(current);
  }

  // --- Release ---------------------------------------------------------------------------------

  predicate IsCover(cell: Plain) {
    forall b <- cell :: b == 0
  }

  function Fragments(columns: seq<Option<Plain>>): seq<Plain> {
    if columns == [] then []
    else
      var last := columns[|columns| - 1];
      Fragments(columns[..|columns| - 1])
      + (if last.None? || IsCover(last.value) then [] else [last.value])
  }

  lemma SnocCount<T>(s: seq<T>, x: T, y: T)
    ensures multiset(s + [x])[y] == multiset(s)[y] + if x == y then 1 else 0
  {
  }

  /** What is released: each decryptable non-empty plaintext, as often as it occurs. */
  lemma {:induction false} FragmentsCount(columns: seq<Option<Plain>>, cell: Plain)
    ensures multiset(Fragments(columns))[cell] == if IsCover(cell) then 0 else multiset(columns)[Some(cell)]
  {
    if columns != [] {
      var init, last := columns[..|columns| - 1], columns[|columns| - 1];
      FragmentsCount(init, cell);
      assert columns == init + [last];
      SnocCount(init, last, Some(cell));
      if last.Some? {
        SnocCount(Fragments(init), last.value, cell);
      }
    }
  }

  lemma FragmentsPermute(a: seq<Option<Plain>>, b: seq<Option<Plain>>)
    requires forall cell :: !IsCover(cell) ==> multiset(a)[Some(cell)] == multiset(b)[Some(cell)]
    ensures multiset(Fragments(a)) == multiset(Fragments(b))
  {
    forall cell ensures multiset(Fragments(a))[cell] == multiset(Fragments(b))[cell] {
      FragmentsCount(a, cell);
      FragmentsCount(b, cell);
    }
  }

  /** `decrypted` is what threshold decryption gives for each column, when the
      partial decryptions suffice. */
  method Release(decrypted: Option<seq<Option<Plain>>>) returns (r: Option<seq<Plain>>, undecryptable: nat)
    ensures r.Some? <==> decrypted.Some?
    ensures r.Some? ==> r.value == Fragments(decrypted.value)
    ensures r.Some? ==> undecryptable == multiset(decrypted.value)[None]
  {
    undecryptable := 0;
    if decrypted.None? {
      return None, 0;
    }
    var columns, fragments := decrypted.value, [];
    for k := 0 to |columns|
      invariant fragments == Fragments(columns[..k])
      invariant undecryptable == multiset(columns[..k])[None]
    {
      var column := columns[k];
      assert columns[..k + 1] == columns[..k] + [column];
      assert columns[..k + 1][..k] == columns[..k];
      if column.None? {
        undecryptable := undecryptable + 1;
      } else if !IsCover(column.value) {
        fragments := fragments + [column.value];
      }
    }
    assert columns[..|columns|] == columns;
    r := Some(fragments);
  }

  // --- End to end -----------------------------------------------------------------------------

  function Decrypted(lib: Library, columns: seq<Column>): seq<Option<Plain>> {
    Image(lib.decrypt, columns)
  }

  /** A verified round permutes the decryptions. */
  ghost predicate Sound(lib: Library) {
    forall committee, a, b, proof, receipt :: lib.verifies(committee, a, b, proof, receipt) ==>
      multiset(Decrypted(lib, a)) == multiset(Decrypted(lib, b))
  }

  ghost predicate CoverIsEmpty(lib: Library, cover: seq<Column>) {
    forall c <- cover :: lib.decrypt(c).Some? && IsCover(lib.decrypt(c).value)
  }

  lemma {:induction false} ChainConserves(
    lib: Library, committee: Committee, mixers: seq<String>, start: seq<Column>, rounds: seq<Round>, n: nat)
    requires Sound(lib) && Complete(lib, committee, mixers, start, rounds) && n <= |rounds|
    ensures multiset(Decrypted(lib, Before(start, rounds, n))) == multiset(Decrypted(lib, start))
    ensures |Before(start, rounds, n)| == |start|
  {
    if n > 0 {
      ChainConserves(lib, committee, mixers, start, rounds, n - 1);
      assert RoundHolds(lib, committee, mixers, start, rounds, n - 1);
    }
  }

  lemma CoverVanishes(lib: Library, payloads: seq<Column>, cover: seq<Column>, columns: seq<Column>)
    requires multiset(columns) == multiset(payloads) + multiset(cover) && CoverIsEmpty(lib, cover)
    ensures multiset(Fragments(Decrypted(lib, columns))) == multiset(Fragments(Decrypted(lib, payloads)))
  {
    ImagePermutes(lib.decrypt, columns, payloads + cover);
    assert Decrypted(lib, payloads + cover) == Decrypted(lib, payloads) + Decrypted(lib, cover);
    forall cell | !IsCover(cell)
      ensures multiset(Decrypted(lib, columns))[Some(cell)] == multiset(Decrypted(lib, payloads))[Some(cell)]
    {
      assert Some(cell) !in Decrypted(lib, cover);
    }
    FragmentsPermute(Decrypted(lib, columns), Decrypted(lib, payloads));
  }

  /** From deposits to release: whatever was offered, refused, repeated or
      dropped, and whoever shuffled, what a complete chain over the sealed
      batch releases is exactly the decryptable non-empty plaintexts of the
      deposits the mailbox recorded, each once, out of a batch of the fixed size. */
  lemma PublicationIsConserved(
    mix: Airlock.Mix, lib: Library, start: Airlock.Box, events: seq<Airlock.Event>, batch: Airlock.Batch,
    committee: Committee, mixers: seq<String>, rounds: seq<Round>)
    requires Airlock.Sound(mix, Airlock.SlotsOf(events)) && Sound(lib) && Airlock.Usable(mix, start)
    requires CoverIsEmpty(lib, start.cover)
    requires Airlock.Opened(start.schedule, start.epoch, start.cover) == Some(start)
    requires batch in Airlock.Run(mix, start, events).batches
    requires Complete(lib, committee, mixers, batch.columns, rounds)
    ensures var mixed := Before(batch.columns, rounds, |rounds|);
            var entries := Airlock.History(mix, start.schedule, start.epoch, events).entries;
            && |mixed| == start.schedule.batchSize
            && multiset(Fragments(Decrypted(lib, mixed)))
               == multiset(Fragments(Decrypted(lib, Airlock.Payloads(entries))))
  {
    var ledger := Airlock.History(mix, start.schedule, start.epoch, events);
    Airlock.RunIsFaithful(mix, Airlock.SlotsOf(events), start, events);
    assert Airlock.Holds(batch, Airlock.Run(mix, start, events).box, ledger);
    var cover := start.cover[|ledger.entries|..];
    assert forall c <- cover :: c in start.cover;
    ChainConserves(lib, committee, mixers, batch.columns, rounds, |rounds|);
    FragmentsPermute(Decrypted(lib, Before(batch.columns, rounds, |rounds|)), Decrypted(lib, batch.columns));
    CoverVanishes(lib, Airlock.Payloads(ledger.entries), cover, batch.columns);
  }
}
