/** The entry service's maintenance loop over a real mailbox. */
module EntryService {
  import opened Options
  import opened Instants
  import opened ReleaseSchedule
  import opened Images
  import opened SealClock
  import A = Airlock
  import ColumnShuffle

  datatype Verdict = CellRefused | NotForThisEpoch | Deposited(outcome: A.Outcome)

  function Epochs(written: seq<A.Batch>): seq<nat> {
    Image((b: A.Batch) => b.releaseEpoch, written)
  }

  /** Sealing keeps the book's entries, and a batch holds all of them. */
  lemma SealKeepsBook(mix: A.Mix, slots: A.Slots, box: A.Box, book: A.Ledger, now: Instant, draws: seq<Option<nat>>)
    requires A.Sound(mix, slots) && A.Usable(mix, box) && A.Represents(mix, slots, box, book)
    ensures var (box', r) := A.AfterSeal(mix, box, now, draws);
            var book' := A.Recorded(mix, box.schedule, box.epoch, book, A.Close(now, draws)).0;
            && A.Represents(mix, slots, box', book') && A.SameTerms(box, box') && A.Usable(mix, box')
            && book'.entries == book.entries
            && (r.Sealed? ==> A.Holds(r.batch, box, book'))
  {
    A.SealRefines(mix, slots, box, book, now, draws);
  }

  /** Sealing the mailbox is the seal part of a clock turn. */
  lemma SealIsATurn(mix: A.Mix, slots: A.Slots, box: A.Box, book: A.Ledger, written: seq<A.Batch>,
                    now: Instant, draws: seq<Option<nat>>)
    requires A.Sound(mix, slots) && A.Usable(mix, box) && A.Represents(mix, slots, box, book)
    requires ColumnShuffle.Answered(draws, box.schedule.batchSize)
    ensures var (box', r) := A.AfterSeal(mix, box, now, draws);
            Clock(box'.epoch, box'.closed, Epochs(if r.Sealed? then written + [r.batch] else written))
            == Sealed(box.schedule, Clock(box.epoch, box.closed, Epochs(written)), now)
  {
    A.SealRefines(mix, slots, box, book, now, draws);
    var (box', r) := A.AfterSeal(mix, box, now, draws);
    if r.Sealed? {
      assert Epochs(written + [r.batch]) == Epochs(written) + [box.epoch];
    }
  }

  class Service {
    const mix: A.Mix
    const schedule: Schedule
    const certified: bool
    var mailbox: A.Mailbox
    var written: seq<A.Batch>
    var sealedCount: nat
    ghost var book: A.Ledger
    /** The sessions and sequence numbers cells will carry. */
    ghost const slots: A.Slots

    ghost predicate Ready()
      reads this, mailbox
    {
      && A.Sound(mix, slots) && mailbox.mix == mix && mailbox.schedule == schedule
      && A.Usable(mix, mailbox.Contents()) && A.Represents(mix, slots, mailbox.Contents(), book)
      && sealedCount == |written|
    }

    /** The service as its clock sees it. */
    ghost function Reading(): Clock
      reads this, mailbox
    {
      Clock(mailbox.epoch, mailbox.closed, Epochs(written))
    }

    constructor (mix: A.Mix, schedule: Schedule, certified: bool, mailbox: A.Mailbox, ghost slots: A.Slots)
      requires A.Sound(mix, slots) && mailbox.mix == mix && A.Usable(mix, mailbox.Contents())
      requires A.Opened(schedule, mailbox.epoch, mailbox.cover) == Some(mailbox.Contents())
      ensures Ready() && Reading() == Clock(mailbox.epoch, false, [])
      ensures this.mailbox == mailbox && this.schedule == schedule && this.slots == slots
      ensures book == A.Ledger([], false)
    {
      this.mix, this.schedule, this.certified, this.mailbox := mix, schedule, certified, mailbox;
      this.slots := slots;
      written, sealedCount, book := [], 0, A.Ledger([], false);
    }

    /** A cell arriving between two turns; `inner` is what its session's key
        makes of it. It never touches the clock, and only an opened cell touches
        the book. */
    method Accept(session: A.Session, inner: Option<(nat, A.Column)>, now: Instant) returns (r: Verdict)
      requires Ready() && (inner.Some? ==> (session, inner.value.0) in slots)
      modifies this`book, mailbox
      ensures Ready() && Reading() == old(Reading()) && mailbox == old(mailbox)
      ensures inner.None? ==> r == CellRefused && book == old(book) && mailbox.Contents() == old(mailbox.Contents())
      ensures inner.Some? ==>
                var (book', outcome) := A.Recorded(mix, schedule, mailbox.epoch, old(book),
                  A.Offer(A.Entry(session, inner.value.0, inner.value.1), now));
                && book == book'
                && r == if outcome == A.AlreadySealed || outcome == A.WindowClosed then NotForThisEpoch
                        else Deposited(outcome)
    {
      if inner.None? {
        return CellRefused;
      }
      var (sequence, payload) := inner.value;
      ghost var offer := A.Offer(A.Entry(session, sequence, payload), now);
      A.DepositRefines(mix, slots, mailbox.Contents(), book, offer.entry, now);
      var outcome := mailbox.Deposit(session, sequence, payload, now);
      book := A.Recorded(mix, schedule, mailbox.epoch, book, offer).0;
      if outcome == A.AlreadySealed || outcome == A.WindowClosed {
        return NotForThisEpoch;
      }
      r := Deposited(outcome);
    }

    /** `writes` says whether the batch file could be written. A batch that is
        written holds the whole book of its epoch. */
    method SealIfDue(now: Instant, draws: seq<Option<nat>>, writes: bool)
      requires Ready()
      modifies this`written, this`sealedCount, this`book, mailbox
      ensures Ready() && mailbox.epoch == old(mailbox.epoch)
      ensures ColumnShuffle.Answered(draws, schedule.batchSize) && writes ==>
                Reading() == Sealed(schedule, old(Reading()), now)
      ensures book.entries == old(book.entries)
      ensures written == old(written)
           || (|written| == old(|written|) + 1 && written[..old(|written|)] == old(written)
               && A.Holds(written[old(|written|)], old(mailbox.Contents()), book))
    {
      if mailbox.closed {
        return;
      }
      SealKeepsBook(mix, slots, mailbox.Contents(), book, now, draws);
      if ColumnShuffle.Answered(draws, schedule.batchSize) {
        SealIsATurn(mix, slots, mailbox.Contents(), book, written, now, draws);
      }
      var r := mailbox.Seal(now, draws);
      book := A.Recorded(mix, schedule, mailbox.epoch, book, A.Close(now, draws)).0;
      if !r.Sealed? || !writes {
        return;
      }
      written, sealedCount := written + [r.batch], sealedCount + 1;
    }

    method RollTo(epoch: nat, encrypted: nat -> Option<A.Column>) returns (ok: bool)
      requires Ready() && forall i :: encrypted(i).Some? ==> mix.parses(encrypted(i).value)
      modifies this`mailbox, this`book
      ensures Ready()
      ensures ok <==> certified && epoch <= schedule.MaxEpoch()
                      && forall i :: 0 <= i < schedule.batchSize ==> encrypted(i).Some?
      ensures ok ==> Reading() == Clock(epoch, false, old(Reading()).log) && book == A.Ledger([], false)
      ensures !ok ==> mailbox == old(mailbox) && book == old(book)
    {
      var next := A.New(mix, schedule, certified, epoch, encrypted);
      if next == null {
        return false;
      }
      mailbox, book := next, A.Ledger([], false);
      ok := true;
    }

    /** One turn of the loop; `ok` is false when the loop gives up. While the
        random source, the writes and the encryption work, it is one tick of the clock. */
    method Maintain(now: Instant, draws: seq<Option<nat>>, writes: bool, encrypted: nat -> Option<A.Column>)
      returns (ok: bool)
      requires Ready() && forall i :: encrypted(i).Some? ==> mix.parses(encrypted(i).value)
      modifies this, mailbox
      ensures Ready()
      ensures && ColumnShuffle.Answered(draws, schedule.batchSize) && writes && certified
              && (forall i :: 0 <= i < schedule.batchSize ==> encrypted(i).Some?) ==>
                ok && Reading() == Ticked(schedule, old(Reading()), now)
    {
      SealIfDue(now, draws, writes);
      var epoch := schedule.EpochAt(now);
      if epoch.None? {
        return true;
      }
      EpochSpansInstant(schedule, now, epoch.value);
      ok := true;
      if epoch.value != mailbox.epoch {
        ok := RollTo(epoch.value, encrypted);
      }
    }
  }
}
