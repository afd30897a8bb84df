# Nomad: protocol and publication model

Nomad is a fixed-cadence relay and publication network. This project models its
state machines and codecs in Dafny and proves what they keep over whole runs.
Hashes, signatures, shuffle proofs and decryption are function parameters, and
each theorem states as a precondition what it needs of them. The disk is explicit
state, and a crash may fall between any two writes. A method under a mutex is one
step. Clocks, random draws and the outcome of each file operation are arguments.

| modules | subject |
|---|---|
| `EpochDescriptor`, `EpochCeremony`, `SigningJournal`, `EpochStore`, `EpochStoreRuns`, `EpochStoreAnswers`, `EpochStoreLimits`, `EpochWindows`, `Rotation`, `LifecycleEncoding`, `DescriptorDigest` | the epoch lifecycle: verification and quorums, signing journals, the shared append-only store, activity windows, the rotation planner, canonical bytes |
| `HopFrame`, `HopLink`, `WireReference`, `HopSequence`, `HopOutcomes`, `HopKeystream`, `HopSecrecy`, `ReplayWindow` | the hop link: cells in place and by the independent reference, durable sequence numbers, replay windows |
| `FairQueue`, `RawCache`, `RawCacheAnswers` | the relay queue and the shared stream cache |
| `ReleaseSchedule`, `SealClock`, `EntryService`, `EntryRuns`, `ColumnShuffle`, `Airlock`, `AirlockAnswers`, `ShuffleChain`, `Drain`, `DrainEmissions`, `UplinkQuota` | publication: schedule, entry service, mailbox, shuffle chain and release, the publisher's drain and its quota |
| `PathOrder`, `Bundle`, `KolmogorovSmirnov` | the bundle format; the two-sample statistic |
| `Options`, `Instants`, `Bytes`, `Bits`, `Ordering`, `Images` | shared definitions |

Methods of classes and loops over arrays are proved equal to a transition
function named `After...` (or an independent specification), and the theorems
over runs are about those functions. What each operation answers is proved apart
from the order of its checks: each answer if and only if a stated condition on the
state or on the history holds.

Where code and comments disagree the model follows the code:

- `live/deposit/drain.go:343-346` says Close loses at most one fragment. It can
  strand two, one in the slot and one in the filler's hand (`Drain.CloseStrandsTwo`),
  even when both were still queued at the close: it loses at most one exactly when
  no more than one is unsent (`Drain.CloseStrandsAtMostOneIff`).
- `live/epoch/chain.go:48-50` calls equivocation evidence self-contained. It is so
  only if the stored descriptor's file is there and whole at the halt
  (`EpochStoreRuns.EvidenceIsCompleteWhenStored`, `EpochStoreLimits.EvidenceCanLackTheStored`).
- `live/epoch/chain.go:343-347` never clears a halt, but its marker is not synced
  to the directory and a power loss can take it (`EpochStoreLimits.PowerLossCanUnhalt`).
- `live/epoch/chain.go:161-162` leaves room for numbers that are not contiguous. Two
  processes can use that room to store two geneses, and the directory then never
  opens again (`EpochStoreLimits.TwoGenesesCannotReopen`, `EpochStoreLimits.ReopensIff`).
- `live/epoch/journal.go:55-57` refuses a second digest permanently. After a failed
  directory sync and a retry, a power loss undoes the refusal
  (`SigningJournal.ForgottenEntrySignsTwice`, `SigningJournal.FirstDigestWins`).
- `live/epoch/rotation.go:190-192` says the deadline is the next instant the plan
  can change. The zero time doubles as "none yet", so a change there can be
  skipped (`Rotation.SentinelSkipsZeroTime`, `Rotation.SleepIsSafeIff`).
- `live/entry/entry.go:395-398` promises that the deposit window closes on schedule.
  A cutoff shorter than the loop's own interval passes validation and can leave an
  epoch unsealed (`SealClock.OwnTickerIsEnoughIff`).
- `live/rawcache/store.go:69-73` gives each sender a share. A crash between making a
  directory and recording its sender leaves a directory that counts for nobody, and so
  does a stream of a sender that is no longer listed when the cache is reopened
  (`RawCache.OnlyOrphansStarve`, `RawCache.CrashesCanStarve`). The cache root is never
  synced, so a new coordinate is new again after some power losses
  (`RawCache.PowerLossRepeats`).
- `live/node/fairqueue.go:90-97` confines a flood to its own line. Others still decide
  how soon a line is served, and so whether a later offer finds room
  (`FairQueue.OthersCanCostACell`, `FairQueue.AdmittedWhateverOthersDoIff`).

## Model

| member | source | states |
|---|---|---|
| `EpochStore.Chain.Open` | live/epoch/chain.go:71-136 | opening gives the chain that the stored numbers, read in increasing order, load to; a marker gives a halted empty chain; one bad file fails the whole open |
| `EpochStore.Chain.RefreshLocked` | live/epoch/chain.go:144-181 | memory after a refresh is memory extended by every successor the directory holds, or halted if a marker appeared |
| `EpochStore.Chain.Append` | live/epoch/chain.go:187-293 | memory, disk and result of an append are those of the decision followed by watermark, file and marker writes, for every way those writes can fail |
| `EpochStore.Chain.Judge` | live/epoch/chain.go:187-280 | the decision to refuse, recognise, halt or admit, in the order of the code's checks |
| `EpochStore.Chain.LookupSlot` | live/epoch/chain.go:301-308 | finds a number exactly when the chain holds it, and finds it where it is |
| `EpochStore.SuccessorIsAbove` | live/epoch/chain.go:144-181 | an adopted successor has a strictly higher number, so adopting successors ends |
| `EpochStore.VerificationIsSound` | live/epoch/descriptor.go:198-312 | descriptor verification meets what the store relies on: the result is the descriptor offered, its number follows its predecessor's, and a smaller revocation set gives the same answer |
| `EpochStore.Chain.ActiveAt` | live/epoch/chain.go:463-480 | the loop finds the epoch the window specification calls active |
| `EpochStore.Chain.StateOf` | live/epoch/chain.go:484-504 | the state of a held number is its window state; an unknown number is an error |
| `EpochStore.Chain.HighestRetired` | live/epoch/chain.go:524-541 | the highest number whose state is Retired, zero when there is none |
| `EpochStoreRuns.RunKeeps` | live/epoch/chain.go:144-293 | over every run of opens, appends by several processes, failed writes, kills between any two writes, power losses and deleted files, the store invariant holds |
| `EpochStoreRuns.AcceptedOnce` | live/epoch/chain.go:187-293 | each epoch number is newly accepted at most once, in increasing order, and never above the durable watermark; no stored file lies above it either |
| `EpochStoreRuns.RunIsMonotone` | live/epoch/chain.go:380-433 | the durable watermark never falls and what was ever stored is never replaced |
| `EpochStoreRuns.ProcessesAgree` | live/epoch/chain.go:144-293 | no two processes, at one time or at different times, disagree: chains that share a number start at the same genesis and are the same up to it, and every chain held is linked |
| `EpochStoreRuns.HaltIsJustified` | live/epoch/chain.go:348-372 | a halt in memory or on disk has two fully verified descriptors with different digests for one number behind it; a whole marker names exactly these, and without a marker the halted process holds one of them |
| `EpochStoreRuns.HaltIsPermanent` | live/epoch/chain.go:348-372 | while no power loss takes the marker it stays, nothing is accepted or stored again and every later open is halted |
| `EpochStoreLimits.PowerLossCanUnhalt` | live/epoch/chain.go:348-372 | the marker's directory is not synced: a power loss that takes it brings back what the files load to |
| `EpochStoreRuns.AppendIsItsSteps` | live/epoch/chain.go:187-293 | an append nobody interrupts is exactly the machine's steps in sequence |
| `EpochStoreAnswers.AppendAnswersOverRuns` | live/epoch/chain.go:187-293 | from every reachable state with the lock free: an append answers equivocation, halts and writes the marker exactly for a verified descriptor that competes with a held one at any place of the chain; it repeats exactly a held one; it accepts exactly a verified successor with a number above the mark, when its writes succeed; otherwise it fails and memory is as refreshed |
| `EpochStoreAnswers.DecisionIsRight` | live/epoch/chain.go:187-280 | the decision on every linked chain of one network, told by what the chain holds |
| `EpochStoreAnswers.RefreshTakesAll` | live/epoch/chain.go:144-181 | a refresh halts exactly on a marker; otherwise it takes in every stored successor up to the first missing number, and fails exactly at a stored one that cannot follow |
| `EpochStoreAnswers.OpenTakesAll` | live/epoch/chain.go:71-136 | an opened chain without a marker is all stored descriptors, each once, in number order |
| `EpochStoreLimits.BurnedNumberBlocks` | live/epoch/chain.go:187-293 | between appends, once the durable watermark has burned a number that was never stored, no run stores or accepts anything more before a genesis is stored: safety without progress |
| `EpochStoreRuns.EvidenceIsCompleteWhenStored` | live/epoch/chain.go:348-372 | over every run the marker names the conflict, and it holds the stored descriptor exactly when its file was there and whole at the halt |
| `EpochStoreLimits.EvidenceCanLackTheStored` | live/epoch/chain.go:435-441 | a run that halts a store with evidence that lacks the stored descriptor |
| `EpochStoreLimits.ReopensIff` | live/epoch/chain.go:71-136 | whatever was deleted, torn or lost, a reachable directory without a marker opens exactly when, reading its numbers upward, every file is whole and of the network, the first and only the first is a genesis, and each number is one above the one before |
| `EpochStoreLimits.TwoGenesesCannotReopen` | live/epoch/chain.go:144-181 | two processes that opened an empty directory store a genesis each, at 5 and at 6, and no process opens it again |
| `EpochStoreRuns.StoreIsSafe` | live/epoch/chain.go:71-433 | the store theorems hold for real descriptor verification, not only for abstract rules |
| `EpochStoreRuns.ReachableChainsTile` | live/epoch/chain.go:463-541 | every chain any process can hold has abutting windows, so the window theorems apply to it |
| `EpochDescriptor.ApprovalQuorum` | live/epoch/descriptor.go:179-187 | the quorum is the larger of threshold and majority, so two quorums always meet |
| `EpochDescriptor.VerifyApprovals` | live/epoch/descriptor.go:314-355 | accepts exactly a quorum of distinct, unrevoked operators of the previous epoch, each with a valid signature |
| `EpochDescriptor.VerifyActivations` | live/epoch/descriptor.go:357-379 | accepts exactly one activation per operator of the descriptor's own topology, in index order after sorting |
| `EpochDescriptor.VerifyDescriptor` | live/epoch/descriptor.go:198-267 | the imperative verification returns a result exactly for valid descriptors |
| `EpochDescriptor.EveryOperatorActivated` | live/epoch/descriptor.go:357-379 | every operator of a valid descriptor signed its digest |
| `EpochDescriptor.HistoryOutlivesRevocation` | live/epoch/descriptor.go:314-355 | a descriptor valid under revocations is valid without them, with the same result |
| `EpochDescriptor.ApprovedByQuorum` | live/epoch/descriptor.go:314-355 | every approval of a valid successor is signed over both digests by an operator of the previous epoch whose key is not revoked, and the approvers are a quorum of distinct operators |
| `EpochCeremony.CeremonyVerifies` | live/epoch/descriptor.go:198-379 | whatever quorum of unrevoked operators approves and in whatever order the new operators activate, a body in its place verifies |
| `EpochCeremony.VerifiedTakesPlace` | live/epoch/descriptor.go:198-312 | nothing else verifies: the body has its place in the chain (digest, network, next number, boundary of its kind of transition), its topology is in force and its key generation over throughout the window, no operator is revoked, and its own quorum can be reached |
| `EpochCeremony.OrderIsUnique` | live/epoch/descriptor.go:357-379 | activations in any order sort to the one order that is checked |
| `SigningJournal.Journal.Record` | live/epoch/journal.go:59-85 | the slot's file alone decides whether a signature may be made; the files after each way the write can end |
| `SigningJournal.Journal.ApproveWithJournal` | live/epoch/journal.go:111-127 | an approval is signed only if its slot holds this digest |
| `SigningJournal.Journal.ActivateWithJournal` | live/epoch/journal.go:91-107 | an activation is signed only if its slot holds this digest |
| `SigningJournal.FirstDigestWins` | live/epoch/journal.go:59-85 | the first digest recorded for a slot is the only one ever allowed, after any part of a run of attempts and power losses, if and only if the entry is durable by each power loss that takes unsynced entries |
| `SigningJournal.FreshSlotAllows` | live/epoch/journal.go:59-85 | a slot nobody wrote to allows a digest exactly when its write completes, and the entry is then durable |
| `SigningJournal.SameDigestIsAllowed` | live/epoch/journal.go:59-85 | the recorded digest is allowed again at every later time while its entry is durable in time, and nothing is written for it |
| `SigningJournal.EntryOutlivesIff` | live/epoch/journal.go:59-85 | the entry itself is kept through every part of the run exactly under that condition |
| `SigningJournal.DurableIff` | live/epoch/journal.go:68-84 | a kept entry is durable exactly once some completed write, for whichever slot, has synced the directory |
| `SigningJournal.EntryStaysIff` | live/epoch/journal.go:59-85 | one use of the journal forgets an entry exactly when it is a power loss and the entry is not durable |
| `SigningJournal.CommonApprovers` | live/epoch/descriptor.go:179-187 | two valid successors of an epoch of n operators with quorum q share at least 2q-n approvers, and 2q-n is at least one |
| `SigningJournal.SplitBrainNeedsBypass` | live/epoch/journal.go:59-127 | over every run, two valid successors with different digests mean at least 2q-n operators signed outside their journals or lost, with their power, an entry they had signed on whose directory sync had failed |
| `SigningJournal.SyncedSplitBrainNeedsBypass` | live/epoch/journal.go:59-127 | where no directory sync fails, all of those operators signed outside their journals |
| `SigningJournal.ForgottenEntrySignsTwice` | live/epoch/journal.go:68-84 | a failed sync, a retry that signs and a power loss: the journal then allows a second digest for one slot |
| `DescriptorDigest.EncodingMakesCollisionFree` | live/epoch/descriptor.go:107-118 | distinct bodies have distinct digests wherever the hash does not collide on their canonical bytes, by injectivity of the encoding |
| `DescriptorDigest.SplitBrainNeedsBypass` | live/epoch/journal.go:59-127 | the split-brain theorem for digests of canonical bytes |
| `EpochWindows.VerifiedAbuts` | live/epoch/descriptor.go:269-312 | a verified successor starts inside or at the end of its predecessor's window, emergency successors included |
| `EpochWindows.WindowsTile` | live/epoch/chain.go:463-541 | exactly one epoch is active at each instant from the first activation to the tip's retirement, none outside |
| `EpochWindows.QueriesAgree` | live/epoch/chain.go:463-504 | ActiveAt names an epoch exactly when StateOf calls it Active |
| `EpochWindows.StatesDescend` | live/epoch/descriptor.go:416-424 | along the chain the states read Retired, then at most one Active, then Ready |
| `EpochWindows.StatesAdvance` | live/epoch/chain.go:484-504 | no epoch's state moves back as time passes |
| `EpochWindows.AppendsAdvance` | live/epoch/chain.go:484-504 | no append moves an older epoch's state back, so Retired is permanent |
| `EpochWindows.RetiredIsAPrefix` | live/epoch/chain.go:524-541 | the retired epochs are a prefix of the chain |
| `Rotation.Validate` | live/epoch/rotation.go:79-101 | accepts exactly the policies whose offsets rise strictly inside the lead and end before escalation |
| `Rotation.ComputePlan` | live/epoch/rotation.go:124-188 | the loop's plan is the plan function, errors and empty or halted chains included |
| `Rotation.ComputeDeadline` | live/epoch/rotation.go:193-218 | the running minimum is the deadline function |
| `Rotation.PlanAdvances` | live/epoch/rotation.go:124-188 | as time passes the action only moves Await, Idle, Prepare, Escalate, Retire and the attempt never falls while preparing |
| `Rotation.PlanIs` | live/epoch/rotation.go:124-188 | which action at which time of the tip's life, which epoch it names, when it is due; the attempt is one more than the number of rungs passed |
| `Rotation.PlanNamesSuccessor` | live/epoch/rotation.go:160-186 | while a ceremony is asked for, every descriptor that verifies after the tip has the number the plan names |
| `Rotation.DueIsLatestPassed` | live/epoch/rotation.go:124-188 | the due instant is the latest ladder instant already passed |
| `Rotation.PlanHoldsUntilDeadline` | live/epoch/rotation.go:193-218 | whenever the deadline wakes in time the plan is constant from now until just before it, and forever when there is none |
| `Rotation.SleepIsSafeIff` | live/epoch/rotation.go:193-218 | for every valid policy and epoch, sleeping until the deadline misses no change of plan exactly when the next candidate is not the zero time, or the epoch activates after it and a candidate listed after the last zero time comes no later than the activation |
| `Rotation.SentinelSkipsZeroTime` | live/epoch/rotation.go:209-217 | a concrete chain and instant before the zero time where the deadline skips a change of plan |
| `LifecycleEncoding.ShapeReadable` | live/epoch/encoding.go:20-31 | two encodings of the same field shapes that agree as bytes agree field by field, whatever follows them |
| `LifecycleEncoding.DescriptorInjective` | live/epoch/vectors.go:16-57 | equal canonical bytes mean equal descriptor fields |
| `LifecycleEncoding.RevocationInjective` | live/epoch/revocation.go:51-81 | equal canonical bytes mean equal revocation fields |
| `LifecycleEncoding.ErasureInjective` | live/epoch/erasure.go:64-108 | equal canonical bytes mean equal erasure statements, file lists of any length included |
| `LifecycleEncoding.DigestsIdentify` | live/epoch/descriptor.go:107-118 | equal digests mean equal fields or exhibit a hash collision |
| `LifecycleEncoding.ErasureCanonicalBytes` | live/epoch/erasure.go:64-108 | refuses exactly the statements the encoder refuses (version, identifiers, epoch zero, digests, time, limitations text); otherwise the append loop produces the encoding the injectivity theorem is about |
| `HopLink.CounterStream.XORKeyStream` | live/hop/frame.go:417-431 | one call masks its region with the keystream from the stream's position and advances the position, across block boundaries |
| `HopLink.Seal` | live/hop/frame.go:157-192 | sealing in place yields the sealed cell of payload and metadata; a refusal leaves the cell unchanged |
| `HopLink.Open` | live/hop/frame.go:206-255 | opening in place yields payload and metadata of an accepted cell; every error leaves the cell unchanged |
| `HopFrame.OpenUndoesSeal` | live/hop/frame.go:157-255 | opening a sealed cell restores payload and metadata, for every key, context, payload and keyed hash |
| `HopFrame.AcceptedIsSealed` | live/hop/frame.go:206-255 | every accepted cell is byte for byte the sealing of what it opens to |
| `HopFrame.SealedRoundTrip` | live/hop/frame.go:293-310 | routing metadata survives its 24-byte encoding |
| `HopFrame.LocalRoundTrip` | live/hop/frame.go:312-335 | what a local header stores is what it reads back |
| `HopFrame.ContextInjective` | live/hop/frame.go:359-369 | two contexts that bind to the same bytes are the same context, for identifiers of any length |
| `HopFrame.TagInputInjective` | live/hop/frame.go:433-442 | no two pairs of context and body feed the authenticator the same bytes |
| `HopFrame.StreamInputInjective` | live/hop/frame.go:392-402 | the input a cell's keystream is derived from determines link context and sequence number |
| `HopFrame.StreamInputIsNoTagInput` | live/hop/frame.go:371-402 | no keystream input is ever the input of a tag |
| `HopKeystream.NoInputTwice` | live/hop/frame.go:371-402 | over every run of failed sends, crashes and restarts, no two cells on the wire are enciphered from one keystream input, and none of these inputs is a tag input |
| `HopSecrecy.WireHidesEverything` | live/hop/frame.go:371-431 | over every run of sends, failures, crashes and restarts: whatever the cells on the wire carry and whichever peers they go to, some keyed hash makes their encrypted bytes, all together, any given strings; so no keystream byte is ever used twice |
| `HopSecrecy.AnyCellsArePossible` | live/hop/frame.go:392-431 | the same for any cells whose keystream inputs differ, within one cell as well |
| `HopSecrecy.AcceptedCellsAreBound` | live/hop/frame.go:359-442 | two accepted cells that differ before the tag, or in their contexts, carry hashes of different inputs |
| `HopFrame.SealedLayout` | live/hop/frame.go:293-310 | where each routing field lies in its 24 bytes |
| `HopFrame.ValidMetadataIs` | live/hop/frame.go:337-357 | valid metadata is all zero, or names one place of a batch of 2 to 256 in a stream |
| `WireReference.LinkKeystream` | conformance/reference/nomadwire.py:200-224 | the reference's flat keystream is the block keystream laid out; it raises exactly when a length does not fit its field |
| `WireReference.Seal` | conformance/reference/nomadwire.py:248-288 | the reference seals to the same cell function as the node |
| `WireReference.OpenCell` | conformance/reference/nomadwire.py:291-322 | the reference opens to the same result as the node |
| `WireReference.SealBoth` | conformance/reference/nomadwire.py:248-288 | node and reference produce identical bytes exactly when the network identifier is under 65536 bytes; otherwise the reference refuses |
| `ReplayWindow.NodeWindow.Accept` | live/hop/replay.go:19-47 | accepts exactly non-zero numbers never accepted before and less than 64 below the highest accepted |
| `ReplayWindow.ReferenceWindow.Accept` | conformance/reference/nomadwire.py:331-355 | the masked unbounded integer makes the same decision |
| `ReplayWindow.WordRunIsSpec` | live/hop/replay.go:19-47 | over every arrival sequence the 64-bit window decides as the complete set of accepted numbers would |
| `ReplayWindow.ImplementationsAgree` | conformance/reference/nomadwire.py:331-355 | both windows, started fresh, decide every arrival sequence alike |
| `ReplayWindow.NeverTwice` | live/hop/replay.go:19-47 | no number is accepted twice |
| `ReplayWindow.AcceptedIff` | live/hop/replay.go:19-47 | over every run a number is accepted exactly when it is not zero, new, and fewer than 64 below every number accepted before |
| `HopSequence.FileSequence.Reserve` | live/hop/sequence.go:70-87 | the reservation and the file after it, for writes that succeed, fail, or take effect although they report failure |
| `HopSequence.FileSequence.Next` | live/hop/sequence.go:57-68 | the number issued and the allocator after it, exhaustion and wrap-around included |
| `HopSequence.FileSequence.Return` | live/hop/sequence.go:155-161 | gives a number back only if it is the latest one issued |
| `HopSequence.Disk.AtomicStateWrite` | live/hop/sequence.go:112-140 | wherever its calls fail: what a reader sees, what survives a power loss, and no temporary file left |
| `HopSequence.AuthenticatedSink.Send` | live/node/node.go:321-382 | counters, allocator, file and emission of one send, failures before and after the socket included |
| `HopSequence.AuthenticatedSink.Drop` | live/node/node.go:458-466 | consecutive losses end the sink at the limit |
| `HopSequence.RunNeverReuses` | live/node/node.go:321-382 | over every run of sends, failed sends, failing or half-failing reservations, crashes and restarts, numbers on the wire strictly increase and lie under a durable reservation |
| `HopSequence.QuietRunHasNoGaps` | live/node/node.go:321-382 | from any reachable moment of any process, sends that fail before the socket leave no gap in the numbers an observer sees |
| `HopSequence.StartAligns` | live/hop/sequence.go:43-55 | every process starts in such a state, however the ones before it ended |
| `HopSequence.StatsMatchWire` | live/node/node.go:321-382 | since a start, the cells on the wire are exactly the cells counted as sent and the short writes, and every sent cell is counted once, as work or as cover |
| `HopOutcomes.OutcomesOverRuns` | live/node/node.go:321-466 | since a start, a tick is sent exactly for a whole write; dropped exactly for a reservation that could not be written or a passing socket error that makes at most 4096 losses in a row; fatal otherwise. The counters are the numbers of cells dropped, of work and of cover sent |
| `HopOutcomes.OutcomeIs` | live/node/node.go:321-466 | the same for one tick, with the emission's slot and every counter |
| `HopOutcomes.StartsIff` | live/hop/sequence.go:43-87 | a process starts exactly when its file allows a range and the range is written |
| `HopSequence.SlotIsTick` | live/node/node.go:321-382 | the peer a tick addresses depends on how many cells were supplied and not on their fate |
| `FairQueue.NewFairQueue` | live/node/fairqueue.go:55-88 | refuses exactly capacities that give no share; otherwise one empty line per distinct source, none twice |
| `FairQueue.RelayQueue.Enqueue` | live/node/fairqueue.go:98-111 | admits exactly when the source's own line has room, and changes only that line |
| `FairQueue.RelayQueue.NextCell` | live/node/fairqueue.go:119-139 | gives out the head of the first non-empty line from the turn, and nothing exactly when all lines are empty |
| `FairQueue.RelayQueue.Len` | live/node/fairqueue.go:145-153 | the number of waiting cells |
| `FairQueue.LineIsFifo` | live/node/fairqueue.go:98-139 | over every run what a line gave out followed by what it holds is what it held followed by what it took |
| `FairQueue.WaitBound` | live/node/fairqueue.go:119-139 | a cell with p cells ahead in its own line leaves within n*(p+1) calls whatever the others enqueue, and n*(p+1) is at most the capacity |
| `FairQueue.CapacityHolds` | live/node/fairqueue.go:55-139 | the queue never holds more cells than its capacity |
| `FairQueue.FloodIsLocal` | live/node/fairqueue.go:98-139 | whatever others put and however much is taken, a line keeps the tail of what it held, so room is used up only by its own source |
| `FairQueue.AdmittedWhateverOthersDoIff` | live/node/fairqueue.go:98-139 | all offers of a source are admitted, whatever the others do, exactly when they fit a line served only on its own turn, once in n takes |
| `FairQueue.NeverRefused` | live/node/fairqueue.go:98-139 | a source whose offers fit its turns is never refused over any run |
| `FairQueue.SpacedOffersFit` | live/node/fairqueue.go:98-139 | offers at least n takes apart always fit |
| `FairQueue.OthersCanCostACell` | live/node/fairqueue.go:98-139 | a second source's single cell turns an admitted offer into a refused one |
| `FairQueue.EmptyEverywhere` | live/node/fairqueue.go:119-139 | no work is reported only when every line is empty |
| `FairQueue.ServesNearest` | live/node/fairqueue.go:112-139 | a take serves the line with work that is nearest in the rotation |
| `FairQueue.DropsAreCounted` | live/node/fairqueue.go:90-110 | over every run a source's drop counter is the number of its offers that found its line full |
| `RawCache.OpenShared` | live/rawcache/store.go:79-97 | opens exactly when the distinct senders fit the stream limit, each with an equal share |
| `RawCache.Store.StreamCounts` | live/rawcache/store.go:260-288 | the loop counts every directory, and for each sender those it introduced |
| `RawCache.Store.Put` | live/rawcache/store.go:109-169 | directories and answer after a put, for every point at which a file operation can fail |
| `RawCache.Store.WriteOrCompare` | live/rawcache/store.go:322-338 | a held cell is compared, never rewritten; a new one is stored |
| `RawCache.Store.Load` | live/rawcache/store.go:176-222 | a load is complete exactly when every ordinal is there and the payloads hash to the stream's name |
| `RawCache.BoundsHold` | live/rawcache/store.go:109-169 | from every disk within the limits, reopened ones with senders no longer listed included, total streams stay within the limit and each listed sender within its share, wherever it crashes and whatever a power loss takes |
| `RawCache.NoSenderStarvesAnother` | live/rawcache/store.go:109-169 | from a cache that holds only streams of listed senders, with no introduction cut short, a listed sender below its share is never refused a new stream, whatever the others do |
| `RawCache.OnlyOrphansStarve` | live/rawcache/store.go:109-169 | a full cache refuses a sender below its share exactly when the streams without a recorded sender or of a sender no longer listed exceed the room the shares leave |
| `RawCache.CrashesCanStarve` | live/rawcache/store.go:109-169 | two introductions cut off after the directory is made leave another sender without room |
| `RawCache.CreatedOnce` | live/rawcache/store.go:109-169 | a coordinate answers true at most once more than power losses took it, and exactly once for each time it was stored when no directory sync failed |
| `RawCache.NothingTaken` | live/rawcache/store.go:109-169 | without a power loss a coordinate answers true at most once |
| `RawCache.PowerLossRepeats` | live/rawcache/store.go:134-169 | the root directory is never synced: a power loss can make one coordinate answer true twice, for two payloads |
| `RawCache.RecordsArePermanent` | live/rawcache/store.go:109-169 | until a power loss, batch sizes, senders and cells stay as first recorded |
| `RawCache.LoadReturnsWhatWasPut` | live/rawcache/store.go:176-222 | a complete load is what was offered for each coordinate and hashes to its stream's name |
| `RawCacheAnswers.PutAnswers` | live/rawcache/store.go:109-169 | each answer exactly when it is due: known for a held cell, equivocation for another batch size or payload, full cache, full share, new; and what a new cell leaves |
| `RawCacheAnswers.CreatedIsRemembered` | live/rawcache/store.go:322-338 | over every run, a coordinate that answered true for a cell answers known for it and equivocation for any other, until a power loss takes it |
| `RawCacheAnswers.CreatedLoads` | live/rawcache/store.go:176-222 | over every run, a stream whose cells were all created and kept loads whole, in order, exactly if they hash to its name |
| `RawCacheAnswers.LoadWaits` | live/rawcache/store.go:176-222 | a load waits exactly while a stream, its batch size or a cell is missing |
| `ReleaseSchedule.NothingWraps` | live/airlock/schedule.go:93-155 | up to the highest epoch no 64-bit product wraps: window and release are the exact instants, in order |
| `ReleaseSchedule.BoundIsExact` | live/airlock/schedule.go:93-99 | the release boundary after the highest epoch would overflow |
| `ReleaseSchedule.EpochSpansInstant` | live/airlock/schedule.go:111-131 | an instant has an epoch exactly when some representable epoch spans it, and it is that one |
| `ReleaseSchedule.WindowsPartition` | live/airlock/schedule.go:111-144 | each instant of the schedule is in its epoch's deposit part or its seal part |
| `SealClock.EverySealedOnce` | live/entry/entry.go:399-469 | ticks at most a cutoff and half a period apart seal every epoch that begins and ends during the run, once each and in order |
| `SealClock.EvenGapIsExact` | live/entry/entry.go:399-485 | for a ticker with any start and phase the bound is exact: with a larger gap some epoch that begins and ends during a run goes unsealed |
| `SealClock.GapIsExact` | live/entry/entry.go:399-485 | the bound is exact as well for ticks that may come early |
| `SealClock.OwnTickerIsEnoughIff` | live/entry/entry.go:399-404 | the loop's own ticker seals every epoch it should exactly when its interval meets that bound; from a fifth of a second up that is a cutoff of at least a twentieth of the period, which the schedule check does not require |
| `EntryService.Service.SealIfDue` | live/entry/entry.go:444-469 | a written batch holds the whole book of its epoch; with working writes it is the seal part of a clock turn |
| `EntryService.Service.RollTo` | live/entry/entry.go:471-485 | replaces the mailbox by an empty one for the new epoch, or changes nothing |
| `EntryService.Service.Maintain` | live/entry/entry.go:412-431 | one turn of the loop over a real mailbox is one tick of the clock the run theorems are about |
| `EntryService.Service.Accept` | live/deposit/ingress.go:58-79 | only an opened cell touches the mailbox, and none touches the clock; closed and sealed epochs are told apart from other answers |
| `EntryRuns.TurnIsTick` | live/entry/entry.go:412-485 | one turn of the loop over the real mailbox, in a run of cells and turns, is one tick of the clock |
| `EntryRuns.EveryEpochWrittenWhole` | live/entry/entry.go:399-485 | over every run of cells and close enough turns, each epoch that begins and ends during the run has exactly one written batch, and it holds exactly the deposits recorded for that epoch |
| `Airlock.New` | live/airlock/deposit.go:83-109 | opens exactly for a certified committee, a valid schedule, a representable epoch and a full set of cover columns |
| `Airlock.Mailbox.Deposit` | live/airlock/deposit.go:159-206 | state and answer of a deposit, in the order of the code's checks |
| `Airlock.Mailbox.Seal` | live/airlock/deposit.go:250-344 | state and batch of a seal attempt: timing, filling by identifier, cover, shuffle and parse |
| `Airlock.DepositRefines` | live/airlock/deposit.go:159-206 | hashed slots and counters answer as the ledger of recorded deposits: repeats are idempotent, conflicts only with the session's own slot, bounds per session and in total |
| `Airlock.SealRefines` | live/airlock/deposit.go:250-344 | sealing happens exactly in the seal part of the epoch and once, no deposit can prevent it, and the batch has the fixed size |
| `AirlockAnswers.DepositAnswers` | live/airlock/deposit.go:159-206 | after every run, each answer exactly when it is due, told by what is recorded: sealed, closed, conflicting, malformed; a first deposit within both bounds is recorded, one beyond a bound is silently dropped and counted under that bound |
| `AirlockAnswers.SealAnswers` | live/airlock/deposit.go:250-344 | after every run, a seal attempt seals exactly once, in the seal part and with answered draws; each refusal says why |
| `Airlock.RunIsFaithful` | live/airlock/deposit.go:159-344 | over every run of deposits and seal attempts the mailbox stands for the ledger and at most one batch exists, holding every recorded deposit once and cover for the rest |
| `Airlock.ArrivalOrderIsForgotten` | live/airlock/deposit.go:274-293 | the columns before the shuffle do not depend on the order of arrival |
| `ColumnShuffle.ShuffleColumns` | live/airlock/deposit.go:374-383 | the in-place loop computes the shuffle of its draws, fails exactly when a draw is missing and never loses a column |
| `ColumnShuffle.ShufflePermutes` | live/airlock/deposit.go:374-383 | the shuffle permutes and never touches a settled position again |
| `ColumnShuffle.EveryArrangementOnce` | live/airlock/deposit.go:374-394 | with distinct columns every arrangement comes from exactly one sequence of draws, so uniform draws give a uniform arrangement |
| `ShuffleChain.VerifyChain` | live/airlock/chain.go:94-173 | accepts exactly chains where every member shuffles once, in order, under its own key, with a verified, size-preserving, rerandomised round; a refusal names the first failing check |
| `ShuffleChain.FaultSays` | live/airlock/chain.go:118-173 | which fault a round gets, exactly |
| `ShuffleChain.RequireRerandomisation` | live/airlock/chain.go:175-197 | passes exactly when no output column is an input column |
| `ShuffleChain.Release` | live/airlock/chain.go:211-230 | returns the decryptable non-empty plaintexts in order and counts the undecryptable columns |
| `ShuffleChain.FragmentsCount` | live/airlock/chain.go:211-230 | each non-empty plaintext is released as often as it was decrypted, cover never |
| `ShuffleChain.PublicationIsConserved` | live/airlock/chain.go:94-230 | from deposits to release: the released fragments are, as a multiset, exactly the decryptable non-empty plaintexts of the recorded deposits, out of a batch of the fixed size |
| `Drain.WindowState` | live/deposit/drain.go:142-152 | open exactly when the instant has an epoch and lies before its cutoff |
| `Drain.Emitter.Emit` | live/deposit/drain.go:234-285 | state and cell of one emission |
| `Drain.Emitter.SpendDepositSlot` | live/deposit/drain.go:174-182 | charges the slot to the current epoch, starting over in a new one |
| `Drain.RunConserves` | live/deposit/drain.go:187-285 | under every interleaving of filler and sender each submitted fragment is in exactly one of queue, filler's hand, slot, sender's hand, wire, lost |
| `Drain.NothingIsLost` | live/deposit/drain.go:187-285 | while files and seals work and nothing stops the filler, nothing is lost |
| `Drain.LossIsExplained` | live/deposit/drain.go:187-285 | one step loses at most one fragment, and only by a destroyed file, a stopped filler or a failed seal whose slot was refilled |
| `Drain.FewAreAdrift` | live/deposit/drain.go:187-285 | at most two fragments are off the queue and unemitted between emissions, at most three during one |
| `Drain.RunIsDisciplined` | live/deposit/drain.go:234-301 | work leaves only inside open windows and no sequence number is sealed under twice |
| `Drain.CountersTally` | live/deposit/drain.go:305-323 | the counters equal the work cells sent and the cells sealed |
| `DrainEmissions.EmissionIs` | live/deposit/drain.go:234-301 | after every run a cell leaves exactly under a number above all begun ones with a working seal; it is work with the slot's fragment exactly in an open window, with a full slot, and fewer cells than the bound charged in a row to this epoch; else cover, and a fragment held back is counted deferred |
| `DrainEmissions.ReceiveIs` | live/deposit/drain.go:247-285 | the same at the receive step of every interleaving with the filler |
| `DrainEmissions.AllowanceIsACount` | live/deposit/drain.go:159-182 | on a clock that never runs back, the allowance is the number of cells, work and cover alike, sealed in this epoch |
| `Drain.EmissionIsItsSteps` | live/deposit/drain.go:234-285 | an emission nobody interrupts is exactly its steps in sequence |
| `Drain.CloseStrandsTwo` | live/deposit/drain.go:343-349 | under every valid schedule a failure-free run ends with two fragments stranded by Close |
| `Drain.CloseStrandsAtMostOneIff` | live/deposit/drain.go:187-349 | closing between emissions strands at most one fragment, whatever the filler still does before it stops, if and only if it had stopped before or at most one fragment is queued, held by the filler or in the slot |
| `Drain.StoppingAtOnceStrands` | live/deposit/drain.go:343-349 | a filler that stops at once strands exactly what it holds and what the slot holds |
| `Drain.ShutdownStrandsAtMostTwo` | live/deposit/drain.go:187-218 | however long the filler goes on after a close, never more than two fragments are stranded |
| `UplinkQuota.RunKeeps` | live/deposit/drain.go:159-182 | over every run the drain's own count bounds the airlock's count for its session |
| `UplinkQuota.WorkIsNeverRefused` | live/deposit/drain.go:234-301 | on a clock that never runs back no emitted work cell meets a closed window, a sealed epoch, the session bound or a conflict |
| `KolmogorovSmirnov.Walk` | scripts/two-world-analysis.py:81-95 | the tie-aware merge walk returns the largest gap between the two distributions over all reals, attained, although it stops when one sample is exhausted |
| `KolmogorovSmirnov.TwoSample` | scripts/two-world-analysis.py:75-97 | any two non-empty samples in any order get that largest gap; an empty one gives 1 |
| `KolmogorovSmirnov.LargestGapIsUnique` | scripts/two-world-analysis.py:75-97 | the statistic is unique and symmetric |
| `KolmogorovSmirnov.LargestGapPermutes` | scripts/two-world-analysis.py:75-97 | the statistic does not depend on the order of the samples |
| `KolmogorovSmirnov.ZeroIffSameShares` | scripts/two-world-analysis.py:75-97 | the statistic is zero exactly when both samples give every value the same share |
| `Bundle.EncodeBundle` | browser/adapter/bundle.go:33-73 | the buffer and neighbour loops compute the encoding function, errors included |
| `Bundle.ParseBundle` | browser/adapter/bundle.go:75-120 | the offset loop computes the parsing function, errors included |
| `Bundle.EncodeSucceedsIff` | browser/adapter/bundle.go:33-55 | encoding succeeds exactly on one to 1024 admissible entries with distinct paths |
| `Bundle.OrderDoesNotShow` | browser/adapter/bundle.go:33-73 | entries in any order give the same bytes or the same failure |
| `Bundle.ParseUndoesEncode` | browser/adapter/bundle.go:33-120 | parsing what was encoded returns exactly its path map |
| `Bundle.EncodeUndoesParse` | browser/adapter/bundle.go:75-120 | whatever list of entries has the map of an accepted byte string encodes to that byte string |
| `Bundle.AcceptedBytesAreUnique` | browser/adapter/bundle.go:75-120 | two accepted byte strings with one map are one byte string |
| `Bundle.EntriesReadBack` | browser/adapter/bundle.go:33-120 | each encoded entry reads back under its path with its identifier and its canonical media type, and nothing else does |
| `Bundle.AcceptedIsCanonical` | browser/adapter/bundle.go:75-120 | everything accepted has admissible paths and canonical media types |
| `PathOrder.SortedRisesIff` | browser/adapter/bundle.go:50-55 | sorting and comparing neighbours finds a repeated path exactly when there is one |

## Left out

- Ed25519, HMAC, AES-GCM, SHA-256, mix shuffles and threshold decryption: parameters, with the assumptions written as preconditions (no collision among the descriptor bodies at hand, no collision among the identifiers of the deposits a run offers, signatures only by key holders, a verified round permutes the decryptions, cover decrypts to the empty fragment).
- JSON, base64 and canonical-time decoding, file permissions and symbolic links: decoding is a partial function that fails closed; a torn descriptor file is an open error.
- Mixtures of unsynced files after a power loss in the stream cache: a stream is kept, dropped, or left as its last sync found it.
- Two processes that open one sequence file: the code relies on one process per file, and so does the model.
- Two concurrent callers of the drain's Emit: one emission loop is assumed, as in the publisher.
- The fresh random padding behind each mix column: a column is its ciphertext region.
- The final seal attempt of the entry service when it is asked to stop, its health file and its counters.
- Constant-time comparison of tags and payloads: plain equality.
- KolmogorovSmirnov.Walk: arithmetic is exact; floating-point rounding and the asymptotic p-value are not modelled.
- `max_burst`, `equal_windows` and the chi-square test of the analysis script: easier members beside the statistic.
- `Submit`, `fragmentObject` and the fragment bound of the publication queue: the drain takes submitted fragments as given.
- Revocation quorum counting and the revocation store: the same shape as approval counting.
- DKG, committee certification, uplink handshakes, topology parsing, telemetry, browser rendering and every command: plumbing or foreign libraries.
