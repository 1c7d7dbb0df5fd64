# The archiver's publish, prove and delete protocol

This project models an archiver that takes items from a drop folder, publishes
each to a backup repository, proves that the repository alone can give the item
back, and only then deletes the local original. A backup is not idempotent,
snapshots are never removed, and the program may be killed after any committed
step, so the question is what still holds then.

Three durable stores are modelled: the **local store** (occurrences, publication
attempts, the snapshot ledger, deletion intents, lineage and two watermarks), the
**repository** (snapshots with tags and contents, only ever added to) and the
**drop folder** (entries with inode, times and contents, which anybody may edit at
any moment). A *world* is the three together; a *history* is a legal sequence of
steps from a freshly initialised store, and every prefix of a history is a moment a
crash could have stopped it at. A step may also be the beginning of a new process,
with or without `--retry-exhausted`: it knows nothing but the durable stores, and
remembers what it did itself, up to the next beginning.

How the files hang together:

| file | what it holds |
|---|---|
| `Archive.dfy`, `Order.dfy`, `Digits.dfy`, `Records.dfy` | states, paths, orderings, the rows and what a snapshot proves |
| `Protocol.dfy`, `Invariant.dfy`, `Safety.dfy` | the steps, the inductive invariant, and what follows over whole runs |
| `Store.dfy`, `Drain.dfy`, `Passes.dfy`, `Evict.dfy` | the driver as it runs, statement by statement, over a mutable store and folder; each statement it executes is logged as a step of the history |
| `Capture.dfy`, `Verify.dfy` | sampling and hashing an item; reading a snapshot back |
| `Merge.dfy`, `Recover.dfy`, `Remote.dfy` | rebuilding a store from the repository alone |
| `Retrieve.dfy`, `Publish.dfy`, `Deliver.dfy` | restoring a tree, putting it in place beside other processes, and the two together |
| `Spotlight.dfy`, `Layouts.dfy` | the reader of printed metadata values against a printer |
| `Tags.dfy`, `Ulid.dfy` | snapshot tags and identifiers |

The driver's methods run beside an environment: wherever the program talks to the
repository or looks at the folder, anybody may first edit the folder or publish
foreign snapshots, a backup may publish nothing, once or twice, completely or not,
and its answer may be lost. A run marked *calm* has no such interference and no
faults; convergence is stated for those. An occurrence is *steady* when the folder
still holds what was recorded (or, once deletion began, a remainder of its intent)
and none of its entries shares an inode with another.

Assumptions: digests are injective; a changed entry carries a change time later than
any seen before; an entry that moved either is so stamped itself or lies below a
directory that is (so a renamed top-level item is stamped); one process writes the
store; the backup engine archives only for attempts it was called for, perhaps late;
each walk, listing and file read shows one moment; the last comparison before an
unlink and the unlink are one step. For publication only: a directory has one name.

Five findings about the code are stated as lemmas, each with its exact condition:

- two hard links inside one item keep its deletion from ever finishing
  (`Eviction.HardLinksStick`, `Drain.Run.RetainedForGood`; when a pass finishes is in
  `Drain.Run.RunEviction`);
- a list of one unquoted null written without a space is read as null
  (`Spotlight.TightNullIsNull`, `Layouts.ReadsBackExactly`);
- the tag grammar lets one newline pass at the end of four values
  (`Tags.NewlineIsAccepted`, `Tags.AcceptedAsPrinted`);
- an occurrence recovered in the middle of its deletion may have no proven snapshot
  (`Remote.EvictingMayLackProof`, `Remote.EvictingStandsOnEvidence`);
- a published tree that another process renames back at once is not marked as moved, and
  cleanup would enter it (`Publication.PublishedTreeMayBeEntered`,
  `Publication.UnmarkedWhenReturned`).

## Model

| member | source | states |
|---|---|---|
| Invariant.StepKeeps | dropin/pipeline/drain.py:334-507 | Every committed step, of the program or of anybody else, keeps the invariant of the three stores and never loses or rewrites a row, a ledger identity or a snapshot. |
| Invariant.CapturedStable | dropin/capture/extract.py:34-56 | Whatever is edited later, a file that carries a recorded stamp holds the bytes the recorded hash was taken of. |
| Invariant.UnlinkIsAnEdit | dropin/pipeline/evict.py:143-201 | Removing an entry is one more edit of the folder: what it touches is stamped afresh, so it invalidates no other fingerprint. |
| Safety.EvidenceAccumulates | dropin/pipeline/attempts.py:66-162 | From any crash point on, over any continuation, no row, ledger identity or snapshot is lost or rewritten. |
| Safety.DeletionIsSafe | dropin/pipeline/evict.py:143-235 | In every run, whatever is unlinked is held by the occurrence's confirmed snapshot at that very path: the same bytes, the same link target, a directory where a directory was. |
| Safety.StatesMoveAsAllowed | dropin/pipeline/states.py:34-54 | Every write of an occurrence's state in every run stutters or is an allowed transition. |
| Safety.PendingIsEarly | dropin/pipeline/drain.py:532-543 | A pending attempt means its occurrence is recorded, transferred or verified. |
| Safety.FrontierIsConfirmed | dropin/store/records.py:110-114 | In every run the published frontier is the highest sequence of a confirmed attempt, or zero. |
| Safety.AttemptsMatchTheState | dropin/pipeline/drain.py:384-387 | Between any two steps: transferred and verified mean exactly one pending attempt, bound, and none confirmed; from recoverable on exactly one is confirmed, the one the row names, ledgered so, and none is pending. The "inconsistent store" branches are unreachable. |
| Safety.OwnSnapshotsPass | dropin/pipeline/frontier.py:75-115 | The frontier gate never refuses a store over a snapshot it published, whatever crashes, lost answers or duplicates there were. |
| Safety.StaleCopyIsRefused | dropin/pipeline/frontier.py:75-97 | A store restored from an earlier copy of itself passes the gate over a later own snapshot exactly when the copy already held the attempt that published it. |
| Safety.AttemptsAreBudgeted | dropin/pipeline/attempts.py:165-188 | Over every run, however often it was killed, an occurrence has at most the budgeted number of attempts and one for each process that was given `--retry-exhausted`. |
| Safety.BudgetedSince | dropin/pipeline/attempts.py:165-188 | The same from any moment of a run on: what an occurrence has beyond the budget by then stays, and only processes that insist add to it, one each. |
| Safety.OneAttemptPerProcess | dropin/pipeline/drain.py:211-293 | One process makes at most one attempt of an occurrence: it deals with each once, as Drain.Run.Advance and Passes.Execute are proved to do. |
| Safety.OneCallPerAttempt | dropin/pipeline/drain.py:374-415 | Over every run, killed between backup and adoption included, backup is called at most once for an attempt, only for one in the store, and every own snapshot stems from the one call for its attempt. |
| LocalStore.Store.ObserveSnapshot | dropin/store/records.py:315-339 | A snapshot is ledgered unless it was observed under other tags; nothing else changes. |
| LocalStore.Store.ObserveAll | dropin/pipeline/attempts.py:98-101 | Observing several snapshots in one transaction ledgers exactly those, with the given status. |
| LocalStore.Store.Adopt | dropin/pipeline/attempts.py:66-72 | One transaction binds the snapshot to its attempt and ledgers it. |
| LocalStore.Store.Fail | dropin/pipeline/attempts.py:113-125 | One transaction fails the attempt, orphans its snapshot if it has one, and moves the occurrence. |
| LocalStore.Store.FailDuplicates | dropin/pipeline/attempts.py:95-107 | Several candidates for one attempt are all orphaned, the attempt fails, the occurrence is recorded again. |
| LocalStore.Store.ConfirmAttempt | dropin/pipeline/attempts.py:128-138 | One transaction confirms attempt and snapshot, names the attempt in the occurrence, and moves the frontier to its sequence or leaves it where it is further. |
| LocalStore.Store.WriteIntent | dropin/pipeline/evict.py:56-71 | The intent repeats the fingerprint and is written together with the state. |
| LocalStore.Store.FinishEviction | dropin/pipeline/evict.py:111-115 | The intent goes in the same transaction in which the occurrence becomes evicted. |
| Capture.UnchangedIsResampled | dropin/pipeline/fingerprint.py:43-74 | A fingerprint compares as unchanged exactly when walking again would record the same rows. |
| Capture.EqualSamplesPin | dropin/capture/extract.py:34-56 | However the folder is edited between two samples, if both agree then every entry of the item was the same at every moment between. |
| Capture.CapturedShape | dropin/capture/extract.py:81-136 | What is recorded of a walk is a manifest in shape: one row and one fingerprint per entry, parents present and directories, hash exactly for regular files, root hash of those rows. |
| Capture.CapturedBytes | dropin/capture/extract.py:34-56 | After equal samples every recorded hash is of the bytes the recorded stamp denotes, now and later. |
| Capture.ItemIsDepicted | dropin/capture/extract.py:81-136 | The row made of a walk and the hashes taken shows every entry of the item and nothing else, each with its own type, size, mode, link target and, for a file, the hash of its bytes. |
| Capture.ManifestHash | dropin/capture/extract.py:59-68 | In whatever order the walk yields the entries, the digest is that of the manifest in path order. |
| Capture.RecomputeManifestHash | dropin/pipeline/verify.py:149-161 | The digest recomputed from the stored rows is the same function of the manifest as the one taken at capture. |
| Capture.ManifestIsFaithful | dropin/capture/extract.py:59-68 | Equal manifest digests mean equal paths, types, sizes, hashes and link targets. |
| Verify.Reconcile | dropin/pipeline/reconcile.py:28-63 | Accepts exactly when the listing names the manifest's entries and nothing else, with their types and sizes. |
| Verify.VerifyTree | dropin/pipeline/verify.py:57-146 | Accepts exactly when the stream was whole and its members are, each once, the manifest's entries below the root, with their bytes and link targets. |
| Verify.NameResolves | dropin/pipeline/verify.py:102-113 | The stream's name of an entry below the item resolves to that entry's own relative path. |
| Verify.TreeProofIsExact | dropin/pipeline/verify.py:57-99 | For a directory: listing and stream of a snapshot's own tree are both accepted exactly when that tree equals the manifest and the stream was read to its end. |
| Verify.CutStreamMisses | dropin/pipeline/verify.py:88-99 | A stream that ends early on a member boundary is never accepted. |
| Verify.FileProofIsExact | dropin/pipeline/verify.py:43-54 | For a regular file: listing and dumped bytes are accepted exactly when the snapshot's tree equals the one-row manifest. |
| Verify.VerifyCatalog | dropin/pipeline/catalog_verify.py:41-121 | No check fails exactly when the export's digest is the tagged one (and the local one, if known), its single lineage row is the publication's, and its occurrence and entry rows equal the local ones. |
| Verify.CompareRows | dropin/pipeline/catalog_verify.py:92-121 | Walking both manifests side by side in path order accepts exactly when they have the same paths and each row the same type, hash and target. |
| Eviction.CleanStays | dropin/pipeline/evict.py:204-235 | Removing one fitting entry of a clean remainder leaves the rest a clean remainder, though its parent's times moved. |
| Eviction.TurnFindsItEmpty | dropin/pipeline/evict.py:118-119 | In the deletion order a directory's turn comes only after everything below it is gone. |
| Eviction.FinishedWasClean | dropin/pipeline/evict.py:97-108 | A pass that removed everything started from a remainder of the intent without hard links inside. |
| Eviction.RemovalSparesOthers | dropin/pipeline/evict.py:143-175 | Removing an entry of one item changes nothing of another item that shares no inode. |
| Eviction.HardLinksStick | dropin/pipeline/evict.py:143-235 | An item with two names of one file in it is no clean remainder before a pass, nor after any undisturbed pass that began with it: removing one name moves the change time of the other. |
| Eviction.LinksGoUnseen | dropin/pipeline/fingerprint.py:43-74 | An item with two names of one file can be unchanged in every recorded field, so the gates let it through. |
| Eviction.DirtStays | dropin/pipeline/evict.py:143-235 | What an undisturbed pass leaves is a clean remainder only if it found one. |
| Drain.FaithfulTree | dropin/engine/fake.py:119-160 | A complete backup of an unchanged item archives exactly its manifest. |
| Drain.FaithfulCatalog | dropin/store/export.py:43-84 | A snapshot carrying the export its attempt built proves that attempt's catalog, though the store moved on since. |
| Drain.Run.Compare | dropin/pipeline/fingerprint.py:43-74 | The loop accepts exactly when every row is live and equal and no entry was added. |
| Drain.Run.Gate | dropin/pipeline/drain.py:511-522 | Gates (a) to (c) let the item pass exactly when the folder still holds what was recorded; else the attempt fails and the occurrence is abandoned, reported as refused if the item is gone and as deferred if it is another. |
| Drain.Run.StartAttempt | dropin/store/export.py:43-63 | A new attempt, the first of its occurrence in this process, gets a fresh id, and its digest is of the store right after its row was written. |
| Drain.Run.Backup | dropin/engine/fake.py:119-141 | One call, for an attempt this process just made; whatever it answers with carries that attempt's tags, and undisturbed it archives the folder and the export. |
| Drain.Run.BackUpAndBind | dropin/pipeline/drain.py:397-414 | By the answer: none leaves every row as it was, the attempt pending; a complete one binds exactly that snapshot, which carries the tags of the attempt; a partial one fails the attempt and orphans the snapshot. |
| Drain.Run.Resume | dropin/pipeline/attempts.py:75-110 | An attempt already bound is left as it is. Else it ends bound exactly when one snapshot in the repository carries its tag, and then to that one; with none or several it is failed, nothing is pending, and all of them are ledgered as orphaned. No attempt is added. |
| Drain.Run.Settle | dropin/pipeline/attempts.py:90-110 | The same over the snapshots found: one is adopted; none or several fail the attempt, and several are all orphaned. |
| Drain.Run.PublishFresh | dropin/pipeline/drain.py:374-415 | Whatever others do: a new attempt is started exactly when every failure is past its backoff and there are fewer than the budget or the user insists; else nothing is touched and the event is deferred inside the backoff, refused beyond the budget. A started attempt is backed up at most once; undisturbed it goes on with a snapshot that will prove itself. |
| Drain.Run.Publish | dropin/pipeline/drain.py:370-428 | An item goes on as transferred, or its old attempt was settled as failed; backup is called at most once, and never for an attempt that was pending already. A new attempt starts exactly when backoff and budget allow. Of an attempt nobody heard the end of: with two snapshots under its tag the item never goes on, and back at the start means it failed with all of them orphaned; undisturbed it goes on exactly when there is one. |
| Drain.Run.GateB | dropin/pipeline/drain.py:424-428 | Transferred is written only over an item that still is what was recorded. |
| Drain.Run.RequirePending | dropin/pipeline/drain.py:532-543 | In transferred and verified the bound pending attempt is there and is the only pending one. |
| Drain.Run.ReadBack | dropin/pipeline/drain.py:435-440 | Acceptance proves that the item is no bare link and that the snapshot's tree equals the manifest; undisturbed it happens exactly then. |
| Drain.Run.VerifyStep | dropin/pipeline/drain.py:430-449 | Going on means verified; reported, the item is at the start with nothing pending and the backoff running, or abandoned over a changed source; undisturbed, a steady item either goes on, or is back at the start with no attempt spent beyond those it had, and then its snapshot was not sound. |
| Drain.Run.GateC | dropin/pipeline/drain.py:445-449 | Verified is written only over an item that still is what was recorded. |
| Drain.Run.ReadCatalog | dropin/pipeline/drain.py:456-476 | Acceptance proves the catalog from the snapshot's own tags; undisturbed it happens exactly when the catalog is sound. |
| Drain.Run.Prove | dropin/pipeline/drain.py:451-479 | Going on means recoverable; reported, the item is at the start with nothing pending and the backoff running; undisturbed, a steady item either goes on or is back at the start because its proofs did not hold. |
| Drain.Run.Intend | dropin/pipeline/drain.py:481-499 | The intent is written only over an unchanged item nobody holds open, and undisturbed over every unchanged one; a changed item is abandoned, one that is gone stays recoverable and is refused, one held open stays recoverable and is retained. |
| Drain.Run.RemoveEntry | dropin/pipeline/evict.py:143-201 | Going on means the entry is gone; undisturbed, a fitting entry (a directory: by identity and empty) is removed and nothing else, an absent one is passed over, anything else stops the pass with the folder as it was. |
| Drain.Run.RunEviction | dropin/pipeline/evict.py:74-115 | A pass that stops leaves the rows as they were; undisturbed it finishes exactly when what is left is a remainder of the intent without hard links inside, and removes only entries that fit the intent. |
| Drain.Run.RetainedForGood | dropin/pipeline/evict.py:74-115 | An item that is no clean remainder is retained, its rows as they were, by every one of any number of undisturbed passes. |
| Drain.Run.Stage | dropin/pipeline/drain.py:336-358 | Every turn of the loop that goes on brings the occurrence nearer to its end, with at most one backup, and only where nothing was pending. |
| Drain.Run.Turns | dropin/pipeline/drain.py:336-358 | The loop ends within seven turns from any reachable state. |
| Drain.Run.Conclusion | dropin/pipeline/drain.py:359-368 | After a fault nothing is left pending; the item gets its one event, "archived" exactly when it is evicted, "retained" only in recoverable or evicting, "deferred" only when it was abandoned or waits at the start with nothing pending. |
| Drain.Run.Advance | dropin/pipeline/drain.py:334-368 | One event, at most one attempt and one backup per item, the event fitting the state the item is left in, "archived" exactly when evicted; undisturbed, a steady item ends evicted, or back at the start with no attempt spent. |
| Passes.WorkSpares | dropin/pipeline/drain.py:334-368 | Working on one item of a quiet folder leaves the rows and entries of every other item as they were. |
| Passes.WorkIsLocal | dropin/pipeline/drain.py:334-368 | Left to itself, what a run does about one known item leaves every other item's row and attempts, and every entry of another path, as they were. |
| Passes.CheckFrontier | dropin/pipeline/frontier.py:47-97 | The gate passes exactly when every listed snapshot has readable tags and is either of another store and no later than what was merged of that store, or an own one that is ledgered under these very tags or known by the attempt they name; a refusal over lineage means some listed snapshot of another store was never merged. After passing every own one is ledgered under its exact tags. |
| Passes.OrdinaryIsSelected | dropin/spool/scan.py:14-30 | Whatever top-level name does not begin with a dot is taken for an item; nothing under the program's own prefix is. |
| Safety.RulingMeans | dropin/pipeline/frontier.py:47-97 | What each ruling means in terms of rows and tags: another store passes exactly up to its merged sequence, an own snapshot exactly when ledger or attempt knows it, malformed tags never. |
| Passes.HashFiles | dropin/capture/extract.py:34-56 | Each hash is of the file as first sampled, unless that path was lost in between, and what was lost still shows. |
| Passes.CaptureItem | dropin/pipeline/drain.py:231-273 | Either one new occurrence is recorded at that path, whose row shows the first walk entry by entry (type, size, mode, target, the hash of its bytes), and every other row stays; or no row changes and one event says why: refused if the walk or a read failed, deferred if the second sample differs from the first or the item was not admitted. In a quiet folder what is admitted and can be walked is recorded. |
| Passes.SampleHashSample | dropin/capture/extract.py:34-56 | Two equal samples record what the first one showed; nothing is recorded only if a file is gone when its turn to be hashed comes, the second walk cannot be made, or it gives another sample. |
| Passes.SpoolItem | dropin/pipeline/drain.py:211-221 | One event per path, and only occurrences at that path are newly visited; in a quiet folder every other item stays as it was, a steady one at the path is dealt with, and a fresh one that is admitted is recorded as it stands there. |
| Passes.IntentPass | dropin/pipeline/drain.py:277-293 | After the pass every occurrence whose deletion was intended and under way has been visited in this run, whatever others do. |
| Passes.DormantPass | dropin/pipeline/drain.py:303-330 | Undisturbed, every pending attempt of an occurrence the run never visited is failed if no snapshot carries its tag, so that what is left pending there has a snapshot in the repository; visited occurrences are left alone. |
| Passes.Dormant | dropin/pipeline/drain.py:303-330 | The attempt is left as it was or failed, never confirmed, and every other pending attempt stays pending; undisturbed it fails exactly when no snapshot carries its tag, and else all that do are ledgered as pending. |
| Passes.Execute | dropin/pipeline/drain.py:119-156 | One event per visited item, one backup per attempt and at most one new attempt per occurrence, whatever others do; one snapshot of another store that was never merged and the whole run is refused; a refused run publishes nothing and touches no occurrence or attempt. In a quiet folder every item in reach ends evicted or back at the start, every admitted fresh item that shares no inode is recorded as what stands there (and evicted at once if it is no bare link and one attempt is allowed), and no pending attempt without a snapshot is forgotten. |
| Passes.DrainTwice | dropin/pipeline/drain.py:334-428 | Crash convergence: from any reachable state a steady item with attempts to spare is evicted, with exactly one confirmed attempt and nothing left in the folder, after at most two undisturbed drains, the second at any moment past the backoff; inside the backoff it may end back at the start instead. |
| Passes.DrainMany | dropin/pipeline/drain.py:119-156 | Over any number of drains that end, each disturbed or not, insisting or not: backup is called at most once per attempt, only for attempts made meanwhile, and an occurrence gets no more attempts than the budget (or what it had) and one for each drain that insisted. |
| Merge.MergeExport | dropin/recover.py:235-259 | One export merges exactly when no identifier names two different things; what the merged rows then know is Merge.MergeTakesTheHighest, Merge.SettlementIsLearned, Merge.AbandonmentIsLearned, Merge.MergeTakesTheMarks and Merge.MergeKeepsTheIntents. |
| Merge.MergeThem | dropin/recover.py:217-224 | All exports are merged one after the other, and every intent ends marked as reconstructed. |
| Merge.AgreesThrough | dropin/recover.py:262-353 | An export collides with the merged rows exactly when it collides with one of the exports in them. |
| Merge.MergeIsExact | dropin/recover.py:217-371 | A merge succeeds exactly when all exports agree pairwise on identity, entries and fingerprints, and then holds every occurrence and attempt of every export and no other. |
| Merge.MergeTakesTheHighest | dropin/recover.py:283-305 | The merged state is one some export recorded, and where none says abandoned, the highest any recorded. |
| Merge.AbandonedAbsorbs | dropin/recover.py:283-305 | Once abandoned in the merged rows, an occurrence stays abandoned whatever later exports say. |
| Merge.AbandonmentIsLearned | dropin/recover.py:283-305 | If the exports tell one story of an occurrence, it is abandoned in the merged rows as soon as any of them says so, whatever the order of merging. |
| Merge.OutcomesAreRecorded | dropin/recover.py:324-353 | A merged attempt's outcome is one that some export recorded. |
| Merge.SettlementIsLearned | dropin/recover.py:324-353 | If the exports tell one story of an attempt (only its own lineage has it, and a later export repeats what an earlier one settled), the merged row is settled as every export that settled it says, whatever the order of merging, and what stays pending no export has settled. |
| Merge.MergeTakesTheMarks | dropin/recover.py:256-258 | Of each lineage the merged mark is the highest any export has, and one that some export has. |
| Merge.MergeKeepsTheIntents | dropin/recover.py:249-255 | No deletion intent is lost or made up: there is one exactly where some export has one, with the fingerprint of the first that has it. |
| Recovering.ChooseBase | dropin/recover.py:190-202 | The base is the highest valid export of the lineage of a snapshot than which no valid one is later; there is none exactly when no export is valid. |
| Recovering.Others | dropin/recover.py:217-224 | The other valid exports are taken in each once, by store and then by sequence. |
| Recovering.LedgerAll | dropin/recover.py:376-388 | Every parseable snapshot is ledgered under its exact tags, or recovery stops at one ledgered under others. |
| Recovering.ReadBack | dropin/recover.py:440-448 | Listing and payload of a snapshot are read as the driver reads them, against the rows as merged; any failure proves nothing. |
| Recovering.ReadsBackExactly | dropin/pipeline/reconcile.py:28-52 | For rows in manifest shape the readers accept exactly a snapshot that is read whole and whose tree is the manifest, and never a bare link. |
| Recovering.ConfirmOne | dropin/recover.py:421-449 | Reading candidates newest first against the merged rows, the newest that proves itself wins, and none that proves itself is later; none wins exactly when none proves itself. |
| Recovering.VerifyAll | dropin/recover.py:393-418 | Settling one occurrence after the other leaves each settled from its own evidence alone, and abandoned ones untouched, where tags and rows agree on what each attempt is of. |
| Recovering.RebuildMeta | dropin/recover.py:523-544 | The sequence is the highest own one seen, valid or not, or of an attempt; the frontier the highest confirmed own one, or zero; the lineage merged through the highest valid export of each other store. |
| Recovering.Recover | dropin/recover.py:82-134 | Recovery succeeds exactly when there is a parseable snapshot, all exports agree and the ledger contradicts no tags; each valid export is taken in once, the base first and the others by store and sequence; intents are those of the exports; of every other store the merged mark is the highest an export or a mark vouches for, and no higher; and the result is settled from evidence over exactly the rows that merge gives. |
| Remote.RecoveredStorePasses | dropin/pipeline/frontier.py:47-97 | The gate accepts the repository a store was recovered from, and the next sequence exceeds every own one seen, invalid exports included. |
| Remote.VerdictIsEvidence | dropin/recover.py:393-518 | Recoverable exactly when some snapshot proves itself; the newest such alone is confirmed and all others orphaned, and the attempt its tags name is confirmed on it under the tagged digest, behind the frontier if it is an own one, every other attempt as merged; else recorded with every attempt failed. |
| Remote.ProverHoldsTheManifest | dropin/recover.py:421-449 | For rows in manifest shape a snapshot proves itself exactly when its export is valid, its attempt is not recorded failed, it is read whole, the item is no bare link, and its tree equals the manifest. |
| Remote.EvictingStandsOnEvidence | dropin/recover.py:469-493 | An occurrence recovered in the middle of its deletion stays there; a confirmed snapshot and its confirmed attempt stand behind it exactly when some snapshot proves itself, and then the newest such; else its row and attempts stay as merged while every snapshot of it is orphaned. |
| Remote.NothingClaimed | dropin/recover.py:457-518 | Nothing recovered claims a finished deletion or an upload under way; evicting stays exactly where the merged rows said so. |
| Remote.EvictingMayLackProof | dropin/recover.py:487-493 | It does happen: recovering a repository of two sound snapshots, one of whose reads fails, returns a row of a walked item that still names the attempt recorded as confirmed, while the only snapshot of it is orphaned. |
| Remote.DigestIsOfThePast | dropin/store/export.py:43-63 | Every digest a run ever committed is of the store as it was at some moment of that run. |
| Remote.OwnSnapshot | dropin/pipeline/attempts.py:57-63 | In a repository shared by any number of runs every parseable snapshot bears the identity of an attempt that the store it names knows. |
| Remote.ValidIsOfThePast | dropin/pipeline/catalog_verify.py:61-89 | An export that proves itself against its tags is the store it names as it was at a moment of that store's run. |
| Remote.MomentsAgree | dropin/recover.py:262-353 | Two moments of one run never disagree about what an identifier names, so their exports always merge. |
| Remote.ConfirmedProves | dropin/recover.py:421-449 | What any of the runs had confirmed proves itself again from the repository alone, if the reads of its snapshot do not fail. |
| Remote.NeverRecordedFailed | dropin/recover.py:424-434 | An attempt confirmed in the end was never recorded failed, so recovery does not exclude it. |
| Remote.RunsTellOneStory | dropin/recover.py:324-353 | The exports of any number of archivers, each after any run of its own, tell one story of every attempt and every occurrence. |
| Remote.SettlementsAreKnown | dropin/recover.py:324-353 | Over such exports a merged attempt is pending exactly when every export that has it says so, settled as any that settled it says, and failed exactly when some valid export records it failed. |
| Remote.AbandonmentIsKnown | dropin/recover.py:283-305 | Over such exports an occurrence is abandoned in the merged rows exactly when some export says so. |
| Remote.NoFailureIsConfirmed | dropin/recover.py:424-434 | Nothing ends recoverable on an attempt that any valid export records as failed. |
| Remote.DeletionsCanGoOn | dropin/recover.py:217-259 | After recovery every deletion under way has its intent, and every intent is marked as reconstructed and repeats its own occurrence's fingerprint. |
| Remote.RecoverAfterLoss | dropin/recover.py:82-134 | One repository, any number of archivers, each after any run of its own, all machines lost: recovery succeeds and everything any of them had confirmed, also what was already deleted, stands confirmed, row, attempt and ledger, on a snapshot that holds exactly its manifest; nothing ends recoverable on an attempt recorded as failed; every deletion under way has its intent. Only reads of the confirmed snapshots must not fail. Where every snapshot is parseable and those of other stores are valid, the gate accepts the repository. |
| Retrieve.MakeDirectories | dropin/retrieve.py:135-151 | Succeeds exactly when every row of the subtree is safe and lies in a manifest directory; every directory is made in one already there. |
| Retrieve.ReadMember | dropin/retrieve.py:163-191 | A member is taken exactly when it names a new safe row and is what the row says; only then a file is written, in a directory that exists. |
| Retrieve.ReadMembers | dropin/retrieve.py:160-193 | Succeeds exactly when the stream was whole, each member fits and is new, and there are as many as rows; then all files are staged, and no link exists while bytes are written. |
| Retrieve.SubsetIsAll | dropin/retrieve.py:192-193 | Distinct members, all in the manifest and equal in number, are all of it. |
| Retrieve.MakeLinks | dropin/retrieve.py:194-198 | After all bytes are verified, exactly the manifest's links complete the tree. |
| Retrieve.SetModes | dropin/retrieve.py:204-212 | Every directory gets its mode before any directory above it, the root last. |
| Retrieve.RestoreTree | dropin/retrieve.py:130-212 | An error, or exactly the manifest's subtree rebased at the requested root, modes included; it succeeds exactly when rows and stream fit. |
| Retrieve.VerifiedIsRestorable | dropin/retrieve.py:130-198 | A snapshot that passed verification can be restored at any of its directories, whatever the order of its stream. |
| Publication.UnmarkedWhenReturned | dropin/retrieve.py:259-267 | Of the two looks: the tree stands published and unmarked exactly when at the first it was under the name and gone from the stage's own, and at the second back there. |
| Publication.PublishedTreeMayBeEntered | dropin/retrieve.py:259-267 | Another process can bring that about with one rename; then the tree is recorded as published, carries no mark, and stands where cleanup looks for its private stage. |
| Publication.Publisher.Interfere | dropin/retrieve_fs.py:1-5 | Others may change anything anywhere; whatever they did not move keeps every name it had. |
| Publication.Publisher.Rename | dropin/retrieve.py:230 | A rename moves one entry to a free name, or moves nothing; nothing that stood in the destination or the aside directory is lost by it. |
| Publication.Publisher.SetAside | dropin/retrieve.py:221-246 | However the move goes, the original is under its name or in the aside, unless another process moved it; undisturbed it is in the aside. |
| Publication.Publisher.Account | dropin/retrieve.py:259-267 | What is recorded is what the first look saw; a tree recorded as published is marked, unless another process moved it back to the stage's name between the two looks. |
| Publication.Publisher.TryPublish | dropin/retrieve.py:247-271 | Success means an artifact was recorded under the name; nothing set aside and nothing in the way is touched; undisturbed, with the name free, exactly the one rename happens, and without an artifact nothing does. |
| Publication.Publisher.Rollback | dropin/retrieve.py:272-284 | What was in place stays in place whether or not the rollback works; undisturbed it puts the original back under its name and removes the aside. |
| Publication.Publisher.Publish | dropin/retrieve.py:215-284 | With others acting between any two calls: nothing is overwritten or unlinked, nothing is removed but an empty directory under the aside's name, all that ever stood in the destination or the aside still does unless others moved it or it was that directory, and the displaced original is in place; undisturbed it succeeds exactly when the artifact is there and the name is free or force is given, and changes no other name; when it fails, every name stands for what it stood for. |
| Publication.Publisher.TakeLooked | dropin/retrieve_fs.py:173-179 | In a directory that is the stage, below it, or brought into it: what is removed by name is the entry that matched the look, or one another process put into such a directory since; no other name is taken. |
| Publication.Publisher.Empty | dropin/retrieve_fs.py:157-179 | Recursive emptying with others acting at every step removes only what belonged to the stage or was put into it by others, takes names only in such directories, and spares every other name of every entry; undisturbed it leaves the directory empty. |
| Publication.Publisher.Cleanup | dropin/retrieve_fs.py:182-189 | A marked tree is not touched, so a published one is not, unless another process moved it; else only what was below the stage or was put into it by others is removed, from there; the last `rmdir` takes the stage itself, or, if another process moved that, an empty directory under its name; undisturbed the stage and all in it are gone. |
| Delivery.RestoredIsInPlace | dropin/retrieve.py:204-284 | After an undisturbed retrieval the name stands for the restored subtree: every path, byte, link target and mode below it, and nothing more. |
| Spotlight.RoundTrip | dropin/capture/mdls_parser.py:80-179 | Every layout of null, integers, strings, lists and dictionaries with distinct keys reads back as the value with the cursor at its end, up to 64 levels, and is refused beyond. |
| Layouts.ReadsBackExactly | dropin/capture/mdls_parser.py:80-115 | In the whole grammar a layout reads back as what it means exactly when it nests at most 64 levels and nowhere writes a list of one null tight; what is read instead is said too. |
| Spotlight.TightNullIsNull | dropin/capture/mdls_parser.py:88-102 | The list of one unquoted null, written without a space, is read as null. |
| Spotlight.LayOut | dropin/capture/mdls_parser.py:80-136 | Every value without dates, fractions and repeated keys has a layout that means it. |
| Spotlight.ReadValue | dropin/capture/mdls_parser.py:80-115 | Every read terminates, and a successful one advances the cursor within the text. |
| Spotlight.EscapeReads | dropin/capture/mdls_parser.py:155-167 | A character written as one unit or as a surrogate pair, as section 2.1 of RFC 2781 has it, is read back as itself. |
| Spotlight.NotData | dropin/capture/mdls_parser.py:103-107 | No printed dictionary is taken for the abbreviated data form. |
| Spotlight.ValueReader.NextQuoted | dropin/capture/mdls_parser.py:138-172 | The cursor loop over a quoted string reads what the grammar says and stops behind the closing quote. |
| Spotlight.ValueReader.NextItems | dropin/capture/mdls_parser.py:91-102 | The list loop reads what the grammar says and stops behind the parenthesis. |
| Spotlight.ValueReader.NextDictionary | dropin/capture/mdls_parser.py:117-136 | The dictionary loop reads what the grammar says and stops behind the brace. |
| Spotlight.ValueReader.NextValue | dropin/capture/mdls_parser.py:80-115 | The recursive cursor reader computes exactly the value and position the grammar gives. |
| Tags.ParseTags | dropin/engine/interface.py:106-150 | Succeeds exactly when each reserved key stands in one tag with a value of its grammar, and returns those values. |
| Tags.EachKeyOnce | dropin/engine/interface.py:116-124 | What is accepted holds every reserved key in exactly one tag, with a value: missing, repeated and valueless keys are rejected. |
| Tags.PrintThenParse | dropin/engine/interface.py:59-68 | The seven tags of a well-formed identity, in any order among any other tags, parse back to that identity. |
| Tags.NewlineIsAccepted | dropin/engine/interface.py:15-20 | For each of the two identifiers, the sequence and the digest: the seven tags with one newline after that value are accepted, though no identity prints them. |
| Tags.AcceptedAsPrinted | dropin/engine/interface.py:106-150 | What is accepted is exactly what the returned identity prints, well-formed, in any order among other tags, if and only if no value ends with a newline. |
| Tags.StoreIsStrict | dropin/engine/interface.py:139-145 | A store id is never accepted with a newline, because the identifiers must begin with it. |
| Ulids.OrderIsExact | dropin/store/records.py:67-72 | Encoded numbers compare as strings exactly as they compare as numbers, and are equal only if the numbers are. |
| Ulids.UlidIsInjective | dropin/store/records.py:59-72 | An identifier tells milliseconds and entropy apart and sorts by them, first by time. |
| Ulids.Source.Next | dropin/store/records.py:59-72 | The digit loop encodes the stamp in 26 digits of the identifier alphabet, with a time later than the last one even if the clock stalls or goes back. |
| Ulids.Successive | dropin/store/records.py:59-72 | Identifiers made one after the other are strictly increasing as strings, whatever the clock does. |
| Order.SortedIsUnique | dropin/pipeline/evict.py:100-101 | There is one way to put a set of names in a strict order, so sorting and an ordered query agree. |

## Left out

- Moments: each walk of the folder, listing, dump and export copy is one observation of one moment; an edit in the middle of a single walk is not modelled (edits between the two samples and between the hashes of single files are).
- Passes.DrainMany: a drain that is killed is a history that stops; Safety.OneCallPerAttempt and Safety.AttemptsAreBudgeted cover it.
- Top-level symbolic links: they are recorded as a file without a hash and never verify (so they are never deleted either), and are excluded from convergence.
- Drain.Run.RequirePending: the "inconsistent store" branch is proved unreachable and therefore has no body, as has the refusal of a recorded occurrence with a confirmed attempt and the two refusals of a recovered or missing intent; a store made by recovery may hold such an intent and is not driven here.
- Passes.Execute: stated for stores whose occurrences are all their own; republishing a foreign-origin occurrence after recovery would produce tags the parser rejects.
- Safety.OwnSnapshotsPass: the listing by attempt tag is modelled on parseable tags; a snapshot with a valid attempt tag among otherwise malformed reserved tags is only seen by the frontier gate.
- Publication.Publisher.Publish: descriptor, ancestor and permission checks are answers that may fail at any point; the destination directory itself is taken as pinned.
- Publication.Publisher.Empty: permission bits are not modelled (each directory is made accessible before it is listed), a directory's names are listed once, and the depth of the recursion is limited by a number that stands for the host language's own limit.
- Passes.HashFiles: a file replaced by a link in mid-capture ends the capture here, where the source hashes what the link points to and then drops the capture over the second sample.
- Remote.VerdictIsEvidence: like Remote.NothingClaimed and Remote.EvictingStandsOnEvidence it supposes that where a tag's attempt has a row, that row is of the tagged occurrence; runs of archivers give that (Remote.RecoverAfterLoss), a forged export need not.
- Recovering.ReadBack: a snapshot's listing and stream come in path order; the driver's readers are proved for any order.
- Recovered stores do not re-enter the protocol: what a deletion resumed from a recovered intent may remove, and the refusal where its root is absent, is not stated.
- Recovering.Recover: observations and the working store are values passed from step to step, not objects updated in place, so aliasing is not captured; `--trust-later-exports` is absent, and a repository holding only malformed snapshots is taken as a refusal.
- Merge.MergeIsExact: like Recovering.Recover it is without the store's unique indexes on origin and sequence and on one confirmed attempt per occurrence, on which the program also refuses; the columns for sizes and start times, and the attribute, normalised and label tables, are not part of the rows compared.
- Retrieve.VerifiedIsRestorable: names holding a NUL character are excluded, as the file system excludes them.
- Delivery.RestoredIsInPlace: that the staging directory's inodes are what was staged is its premise; the two are modelled apart.
- Retrieve.RestoreTree: single-file retrieval and standard output, hash comparison after staging and stream sizes apart from content are left out.
- Spotlight.RoundTrip: dates, fractions and bare words are kept as their text and not printed, a date no calendar has is not refused, digits and word characters are ASCII, and the attribute lines around the values are not parsed.
- Tags.ParseTags: integers of any length convert; the host language's limit on digits is left out.
- Ulids.Source.Next: times are below 2^48 milliseconds, as the identifier format has it.
- `drain --adopt-lineage`, cache ceilings, progress, run history and report texts.
- Admission and settling times before capture, and whether a directory is a bundle: answers that may be yes or no.
- Who holds a file open: an answer that is clear, or not.
- Backup tool subprocesses, real tar decoding, fsync, locking, the schema and the command-line, search and server layers.
