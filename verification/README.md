# Scone: durable ownership, workflows and streams

A Dafny model of the parts of Scone where state, interleaving or arithmetic decide what is true, and proofs of what they promise.

**Attachment store** (`Blob*.dfy`, `EpisodeCatalog.dfy`, `CatalogProofs.dfy`). The DynamoDB table is a map from keys to rows with a
revision; a transaction is one atomic step that happens only if its conditions hold; every other read, S3 call and delete is a step
of its own. `BlobProtocol` lists the steps, and a run is any sequence of steps of any clients in any spaces; a client that dies takes
no further step. `BlobLifecycle` follows a generation, `BlobStatus` says exactly what each step makes of it, `BlobInvariants` holds
what every step keeps, `BlobRuns` and `BlobReads` the statements about whole runs, `BlobReceipts` those about releases, `BlobPages`
those about readers of many pages, `BlobBatches`, `BlobJournal` and `BlobPuts` the plans of transactions, `BlobProgress` termination
and `BlobHelp` and `BlobAlone` that a lone client gets there. `BlobSpec` is the in-memory store as a class; `BlobRefinement` and `BlobResults` prove
that the S3 store does what it does.

**Workflow runner** (`WorkflowTypes.dfy`, `Workflow.dfy`, `ParallelWorkflow.dfy`, `TaskOrder.dfy`). The journal is an object whose row
is replaced atomically; verifier and step outcomes, interruptions and crashes are arbitrary wherever the code waits. Ghost fields
keep every row ever saved, every step body ever called and what it returned, so statements range over all runs of one journal. On
top of the runner sit the human-input store (`InputStore.dfy`, `InteractiveReceipts.dfy`) and the handoff chain with its client-side
reader (`Handoff.dfy`).

**Streams** (`Resampler.dfy`, `TextWindow.dfy`). The rate converter against the textbook definition, and the bounded text window with
its reader against the whole history of texts.

## Where the code and what it promises part

- `aws_blobs.py:517-538`: the version is written back over whatever row was read at 519, rebuilt from the value written at 517. A
  recovery fence between the two is undone. `BlobRuns.LifeCycle` proves that this is the only way a generation leaves its life cycle,
  and `BlobRuns.ReadBackRace` follows it to held bytes being lost. Every other statement about runs assumes `AllGuarded`: no such
  overwrite, which a check of the kind read back would ensure.
- `rate.py:78`: when `ceil(down/up) > quality + 1` the slice starts past the end and the stream loses its place.
  `Resampler.TextbookExactlyWhenFits` proves that the converter is right on all streams exactly when this is not so.
- `workflow.py:578-583`: on Python 3.10 and 3.11, which the package admits, `asyncio.wait_for` runs the executor as a task of its
  own. If that task is itself cancelled before its first step, as when a closing event loop cancels every task, `run` writes
  "cancelled" over a rejected row. (Cancelling the caller alone, or a deadline, comes after that step, when the rejection has already
  been raised.) `Workflow.Run` and `ParallelWorkflow.Run` take this as the parameter `early`, and rows count the rejections forgotten
  so. `Workflow.EarlyInterruption` and `ParallelWorkflow.EarlyInterruption` prove when a later run then starts a step, and the two
  `RejectionForgotten` methods run into it.

## Model

| member | source | states |
|---|---|---|
| BlobInvariants.StepInv | packages/memory/src/scone_memory/backends/aws_blobs.py:497-829 | every step any client can take (uploads, links, releases, migration, recovery, reads, a client dying) keeps the whole ownership invariant, as long as no uploader writes its version over a row that is no longer an upload |
| BlobRuns.RunInv | packages/memory/src/scone_memory/backends/aws_blobs.py:497-829 | the invariant holds at every moment of every interleaving of any number of clients and spaces |
| BlobRuns.LifeCycle | packages/memory/src/scone_memory/backends/aws_blobs.py:513-557 | in a whole run every generation only moves unused, upload, published, delete, gone, with the exits upload to delete and upload to abandoned, if and only if no uploader writes its version over a row already fenced by recovery |
| BlobRuns.ReadBackRace | packages/memory/src/scone_memory/backends/aws_blobs.py:517-538 | the condition of the life cycle is not kept by the code: a concrete run from an empty store in which a fence between lines 517 and 519 is read back and overwritten, the upload is published, and a slow cleaner then deletes bytes a space still holds |
| BlobRuns.ReachableState | packages/memory/src/scone_memory/backends/aws_blobs.py:497-559 | in every reachable state held bytes exist under the generation all holders share, every stored object is named by a root or an intent, every root counts exactly its holders and every space its holds, migrated spaces are indexed exactly, and the check at 760 never finds a published generation |
| BlobRuns.DeleteMissesRoots | packages/memory/src/scone_memory/backends/aws_blobs.py:758-774 | a delete, by however late a cleaner, never hits the generation of any current root |
| BlobLifecycle.GuardNeverFires | packages/memory/src/scone_memory/backends/aws_blobs.py:758-761 | the error "cleanup cannot delete a published generation" is never raised |
| BlobLifecycle.BytesMoves | packages/memory/src/scone_memory/backends/aws_blobs.py:776-829 | disposal, recovery and cleaning move a generation only along its life cycle |
| BlobStatus.StepStatus | packages/memory/src/scone_memory/backends/aws_blobs.py:783-829 | the exact status of every generation after every step on bytes: a new upload is uploading, a disposed one is to be deleted, a fenced one is abandoned, an acknowledged one is gone, and no other step changes the status of any |
| BlobStatus.StepObjects | packages/memory/src/scone_memory/backends/aws_blobs.py:758-774 | the object of a generation is stored by its upload and removed by a cleaner of it, and by no other step |
| BlobStatus.StepVersion | packages/memory/src/scone_memory/backends/aws_blobs.py:531-538 | only the uploader that was given an object version puts it on record; disposal, fence and everything else keep it for whoever deletes the object |
| BlobStatus.PublishExactly | packages/memory/src/scone_memory/backends/aws_blobs.py:546-558 | a publication makes exactly its own generation live, in the version its intent had |
| BlobStatus.GiveUpExactly | packages/memory/src/scone_memory/backends/_aws_blob_catalog.py:287-300 | giving up a root leaves exactly its generation to be deleted, in the version it had |
| BlobStatus.CollectExactly | packages/memory/src/scone_memory/backends/_aws_blob_catalog.py:302-324 | collecting makes exactly the pending deletions of its page gone, and their objects are no longer there |
| BlobStatus.CleansUp | packages/memory/src/scone_memory/backends/aws_blobs.py:776-781 | from any state, whoever finds an intent to delete can check, delete and acknowledge, and the generation is then gone with its object and its row |
| BlobStatus.DisposedCleansUp | packages/memory/src/scone_memory/backends/aws_blobs.py:783-793 | so can it be done for every upload that was not needed, once it is disposed of |
| BlobStatus.RecoversUpload | packages/memory/src/scone_memory/backends/aws_blobs.py:815-829 | recovery can always fence an unfinished upload and remove its object; the fence stays |
| BlobRuns.MigratedIndexed | packages/memory/src/scone_memory/backends/_aws_blob_catalog.py:62-109 | the episode rows of a migrated space are exactly the (episode, sequence, attachment, generation) entries in its holds, neither more nor fewer |
| BlobRuns.MigratingIndexed | packages/memory/src/scone_memory/backends/_aws_blob_catalog.py:81-109 | in the middle of a migration an entry has its episode row if and only if its hold is up to the cursor, or it is among the first `catalog_offset` links of the next hold |
| CatalogProofs.MigratePageOk | packages/memory/src/scone_memory/backends/_aws_blob_catalog.py:81-109 | a migration page from any cursor keeps the space well formed and never trips the offset errors |
| CatalogProofs.ReleaseHoldOk | packages/memory/src/scone_memory/backends/_aws_blob_catalog.py:264-300 | removing links from one hold, wholly or in part, keeps index, holds, count, cursor and result rows in agreement |
| BlobReads.Seqlock | packages/memory/src/scone_memory/backends/_aws_blob_catalog.py:120-141 | two equal readings of a control row bracket a time in which no hold and no episode row of the space changed at any moment |
| BlobReads.RowsConsistent | packages/memory/src/scone_memory/backends/_aws_blob_catalog.py:125-140 | the "ownership is inconsistent" error of an episode read, and the "catalog is inconsistent" error at 237, cannot be raised while the control row is unchanged |
| BlobReads.RootConsistent | packages/memory/src/scone_memory/backends/_aws_blob_catalog.py:275-280 | the "release ownership is inconsistent" error cannot be raised, though roots change from other spaces all the while |
| BlobReads.NoStalePlan | packages/memory/src/scone_memory/backends/_aws_blob_catalog.py:241-285 | planned against an unchanged control row, a migration page always fits its offset and a release page never meets a condition that fails, its hold count included |
| BlobReads.EpisodeRead | packages/memory/src/scone_memory/backends/_aws_blob_catalog.py:116-142 | an episode paged through between two equal readings of the control row gives each of the episode's links exactly once, as the holds have them |
| BlobReceipts.ReceiptStays | packages/memory/src/scone_memory/backends/_aws_blob_catalog.py:179-208 | result rows of a release are written once, and from its end until a new operation is named its receipt does not change |
| BlobPages.ReceiptRead | packages/memory/src/scone_memory/backends/_aws_blob_catalog.py:326-329 | pages of result rows read between two equal readings of the control row are the whole receipt in key order, however many pages it takes and whatever other clients do |
| BlobPages.HelpersAgree | packages/memory/src/scone_memory/backends/_aws_blob_catalog.py:210-214 | every client of one release that returns gets the same list: the one that ended it from pages read before, and any other from pages read at any later time, never a partly pruned one |
| BlobReceipts.HonestResult | packages/memory/src/scone_memory/backends/_aws_blob_catalog.py:287-300 | a result row says that the bytes were given up exactly when no other space held the attachment at that commit |
| BlobPages.ResultDecided | packages/memory/src/scone_memory/backends/_aws_blob_catalog.py:287-300 | every row of a receipt was decided at some moment of the release, by what the other spaces held at that moment |
| BlobReceipts.LastHoldGivesUp | packages/memory/src/scone_memory/backends/_aws_blob_catalog.py:287-300 | exactly the commit that takes the last hold turns the root into a deletion intent; any other leaves root generation and all intents alone |
| BlobReceipts.EndedGone | packages/memory/src/scone_memory/backends/_aws_blob_catalog.py:302-324 | once a release has ended, the bytes it gave up are gone and no intent row of any space names them |
| BlobReceipts.CatalogedStays | packages/memory/src/scone_memory/backends/_aws_blob_catalog.py:62-79 | a space once migrated is never seen unmigrated again, so put and link need to look only once |
| BlobRefinement.StepSimulates | packages/memory/src/scone_memory/backends/aws_blobs.py:497-664 | every step of every client that changes what a space shows is a put, link, unlink or whole-space release of the in-memory store; every other step shows nothing new |
| BlobResults.PutAgain | packages/memory/src/scone_memory/backends/aws_blobs.py:507-512 | a put of something already held returns the attachment the in-memory store returns at that moment, and changes nothing there either |
| BlobResults.PutFirst | packages/memory/src/scone_memory/backends/aws_blobs.py:546-558 | a put that takes a hold returns the attachment the in-memory store then returns |
| BlobRefinement.UnlinkEnds | packages/memory/src/scone_memory/backends/_aws_blob_catalog.py:241-324 | after the holds phase of an unlink exactly the episode's links are gone, and the result rows are exactly the attachments only it carried, keyed by link order |
| BlobRefinement.ReleaseEnds | packages/memory/src/scone_memory/backends/_aws_blob_catalog.py:241-324 | after the holds phase of a whole-space release nothing is held, and every attachment held at its start has a result row |
| BlobRefinement.RunSimulates | packages/memory/src/scone_memory/backends/aws_blobs.py:497-664 | the in-memory store run alongside shows the same holds and links at every moment of every run |
| BlobResults.Refines | packages/memory/src/scone_memory/backends/blobs.py:64-122 | from any well-formed pre-catalog store, every run shows at every moment what the in-memory store shows after the puts, links, unlinks and releases that have taken effect |
| BlobResults.UnlinkAgrees | packages/memory/src/scone_memory/backends/_aws_blob_catalog.py:179-214 | the list of released attachments an unlink pages together is exactly the one the in-memory store returns, in link order, and nothing is kept, whichever helpers did the work and whatever other clients did meanwhile |
| BlobResults.ReleaseAgrees | packages/memory/src/scone_memory/backends/_aws_blob_catalog.py:179-214 | the two lists a whole-space release pages together are ascending and share out what the space held; each attachment is judged by its other holders at the moment its hold went, hence as the in-memory store does if they neither came nor went meanwhile |
| BlobResults.OthersAgree | packages/memory/src/scone_memory/backends/blobs.py:101-106 | "held elsewhere" means the same in both stores when the other spaces are at rest |
| BlobResults.ForEpisodeAgrees | packages/memory/src/scone_memory/backends/_aws_blob_catalog.py:116-145 | `for_episode` on a space at rest returns the in-memory list in the in-memory order |
| BlobResults.ReleasedByAgrees | packages/memory/src/scone_memory/backends/_aws_blob_catalog.py:147-148 | `released_by` through holds with a single link equals the in-memory search through all other episodes |
| BlobPages.HoldsRead | packages/memory/src/scone_memory/backends/aws_blobs.py:482-492 | a snapshot paged between two equal readings of the control row has every hold of the space exactly once, in ascending order |
| BlobResults.HeldAgrees | packages/memory/src/scone_memory/backends/aws_blobs.py:312-318 | the `held` list and the `linked` set made from such a snapshot of a space at rest are those of the in-memory store |
| BlobSpec.InMemoryBlobStore.Put | packages/memory/src/scone_memory/backends/blobs.py:64-73 | the first put of a digest in a space fixes its attachment, later puts return that one, and the bytes stored are those put |
| BlobSpec.InMemoryBlobStore.Get | packages/memory/src/scone_memory/backends/blobs.py:75-79 | found exactly when the space holds it, with the bytes stored for the digest; "not found" otherwise |
| BlobSpec.InMemoryBlobStore.Link | packages/memory/src/scone_memory/backends/blobs.py:81-85 | links are kept in order and without repetition; linking what is not held fails and changes nothing |
| BlobSpec.InMemoryBlobStore.ForEpisode | packages/memory/src/scone_memory/backends/blobs.py:87-88 | the attachments of an episode in link order, every one of them still held |
| BlobSpec.InMemoryBlobStore.Unlink | packages/memory/src/scone_memory/backends/blobs.py:115-122 | returns and lets go of exactly what no other episode carries; bytes go only with their last holder |
| BlobSpec.InMemoryBlobStore.ReleaseSpace | packages/memory/src/scone_memory/backends/blobs.py:101-113 | released and kept partition what was held, both ascending; a preview changes nothing |
| BlobSpec.UnlinkSane | packages/memory/src/scone_memory/backends/blobs.py:115-122 | an unlink leaves no link to something not held and no held attachment without bytes |
| BlobSpec.ReleaseSane | packages/memory/src/scone_memory/backends/blobs.py:101-113 | so does a whole-space release |
| BlobBatches.PlanMigration | packages/memory/src/scone_memory/backends/_aws_blob_catalog.py:91-109 | at most 90 derived rows and no row twice, for any number of holds and links, and fewer only at the end of the page; together with the new cursor they are exactly one migration step |
| BlobBatches.RemoveLinks | packages/memory/src/scone_memory/backends/_aws_blob_catalog.py:264-300 | the writes for one candidate fit the budget, name no row twice, and applied to the table are exactly the removal of that candidate |
| BlobBatches.PlanRelease | packages/memory/src/scone_memory/backends/_aws_blob_catalog.py:241-262 | at most 90 writes before the control row, no row twice across all candidates of the page, and their joint effect is exactly the candidate-by-candidate release |
| BlobJournal.PlanPrune | packages/memory/src/scone_memory/backends/_aws_blob_catalog.py:150-158 | at most 90 deletions, no row twice, and their joint effect is exactly the pruning of the page, however old the page is |
| BlobJournal.PlanCollect | packages/memory/src/scone_memory/backends/_aws_blob_catalog.py:302-324 | at most 90 intent deletions before the control row, no intent twice, their joint effect is exactly the collection of the page, and the error of a wrong cleanup identity is never raised |
| BlobJournal.GenerationsApart | packages/memory/src/scone_memory/backends/_aws_blob_catalog.py:311-321 | two result rows of one operation never ask for the same generation |
| BlobJournal.CleanupIdentity | packages/memory/src/scone_memory/backends/_aws_blob_catalog.py:315-319 | whenever an intent still names the generation of a result row, it is a deletion of that row's attachment |
| BlobPuts.PlanPut | packages/memory/src/scone_memory/backends/aws_blobs.py:502-558 | what `put` does after its reads: it answers with the attachment held, uploads first, fails on a fenced upload, or commits at most three distinct writes that have exactly the effect of a join or of a publication |
| BlobPuts.PlanLink | packages/memory/src/scone_memory/backends/aws_blobs.py:648-663 | what `link` does after its reads: not found, already there, at its capacity of 1024, or two distinct writes with exactly the effect of a new link, numbered by the control revision of that very transaction |
| BlobPuts.StepAdvances | packages/memory/src/scone_memory/backends/aws_blobs.py:443-462 | no step writes a root, an intent or a hold that was there without raising its revision, so a transaction naming a row it has read commits only if nobody has written that row since |
| BlobProgress.Progresses | packages/memory/src/scone_memory/backends/_aws_blob_catalog.py:81-329 | every successful migration, pruning, release or collection transaction strictly decreases a lexicographic measure, so helpers finish once conflicts stop |
| BlobHelp.Help | packages/memory/src/scone_memory/backends/_aws_blob_catalog.py:62-109 | from any reachable state in the middle of a migration or a release, one helper alone can take reads and a transaction that bring the space strictly nearer to rest: nothing another client did or left undone can block it |
| BlobHelp.Finishes | packages/memory/src/scone_memory/backends/_aws_blob_catalog.py:179-208 | so one helper alone finishes any migration or release that any client has begun and left: a migration with the holds it had, a release with exactly the holds that remain of those it began with |
| BlobAlone.Ensures | packages/memory/src/scone_memory/backends/_aws_blob_catalog.py:62-79 | from any reachable state a client left alone brings any space to rest, migrated, with its holds unchanged unless it had to finish a release |
| BlobAlone.Puts | packages/memory/src/scone_memory/backends/aws_blobs.py:500-558 | in a space at rest a put of anything gets through: held under the generation all holders share, its bytes stored, with the attachment that was first; a first put puts the object version on record |
| BlobAlone.UploadsInVain | packages/memory/src/scone_memory/backends/aws_blobs.py:513-544 | an upload that turns out not to be needed can always be sent, disposed of and cleaned up, and leaves neither object nor row |
| BlobAlone.Links | packages/memory/src/scone_memory/backends/aws_blobs.py:648-663 | so does a link of what is held, up to 1024 episodes |
| BlobAlone.Releases | packages/memory/src/scone_memory/backends/_aws_blob_catalog.py:160-208 | so does a release under a new operation, and leaves of the holds exactly what the in-memory unlink or release leaves |
| Workflow.Execute | packages/memory/src/scone_memory/agents/workflow.py:629-699 | one sequential run from any saved journal, with any verifier and step outcomes, interruptions and crashes: every row saved is in order and its results are the values the step bodies returned last; once nothing is left to do the results are returned if and only if the verifier approves them; every error has its grounds in the row or in the last report; and a step is started if and only if the row and the verifier's answers call for it |
| Workflow.Steps | packages/memory/src/scone_memory/agents/workflow.py:639-694 | the loop stops where nothing is left but to conclude, and starts something if and only if the step after the saved results may start |
| Workflow.Advance | packages/memory/src/scone_memory/agents/workflow.py:639-694 | a step is passed over, ended by the completion condition, or performed; the completion condition never hides an unresolved attempt, and its own failure ends the run |
| Workflow.Perform | packages/memory/src/scone_memory/agents/workflow.py:655-694 | a step body is called if and only if the journal shows it never started, or retryable with retries left, and otherwise the exact refusal is raised; a retryable step is retried until it has no retries left; with verification before steps, only on results just approved |
| Workflow.Attempt | packages/memory/src/scone_memory/agents/workflow.py:666-694 | the attempt is on record before the body is called, exactly once per call; the value the body returned is the one saved for the step, and each other end of the body has its own outcome and row |
| Workflow.Verify | packages/memory/src/scone_memory/agents/workflow.py:598-614 | a rejection drops all results for good, an outage keeps them, an approval changes nothing |
| Workflow.Conclude | packages/memory/src/scone_memory/agents/workflow.py:695-699 | what is returned is what was verified last, all of it, and saved as completed; it is returned if and only if the verifier approves it |
| Workflow.Run | packages/memory/src/scone_memory/agents/workflow.py:548-596 | every call keeps the journal in order; a rejected run is left as it is, and starts nothing, unless it is interrupted before the executor took its first step |
| Workflow.ReadResult | packages/memory/src/scone_memory/agents/workflow.py:494-546 | never starts a step; returns all results of the row if and only if the run is not rejected, has finished, has nothing unresolved and is approved again |
| Workflow.Sessions | packages/memory/src/scone_memory/agents/workflow.py:494-596 | over any sequence of runs and reads the journal stays in order, and a rejected run never starts a step or changes unless a call was interrupted early |
| Workflow.StartsBounded | packages/memory/src/scone_memory/agents/workflow.py:657-669 | over all runs together a step is started at most once, or at most `1 + max_retries` times if it is retryable |
| Workflow.WriteOnce | packages/memory/src/scone_memory/agents/workflow.py:691-693 | a saved result is in every later row, unchanged, until the evidence is rejected |
| Workflow.ResultsGenuine | packages/memory/src/scone_memory/agents/workflow.py:684-693 | what any call returns holds for every step the value its body returned when it was last called |
| Workflow.FirstCompletion | packages/memory/src/scone_memory/agents/workflow.py:616-654 | a completed run stopped at the first prefix of the plan that satisfies the completion condition, and at no earlier one |
| Workflow.EarlyInterruption | packages/memory/src/scone_memory/agents/workflow.py:572-589 | a rejected run interrupted early and then run again starts its first step if and only if the verifier approves now and neither the completion condition nor the attempts on record stand against it |
| Workflow.RejectionForgotten | packages/memory/src/scone_memory/agents/workflow.py:572-589 | a concrete journal taken there by three calls of `run`: rejected, cancelled early, and then a step is started |
| ParallelWorkflow.Scheduler.Publish | packages/memory/src/scone_memory/agents/workflow.py:721-733 | commits one result and nothing else; one that does not fit changes nothing at all |
| ParallelWorkflow.Scheduler.Poll | packages/memory/src/scone_memory/agents/workflow.py:735-766 | an input is asked once in a run; the value it gave is the value committed, and without one it is on record as awaited; unreachable storage and a broken poll are told apart |
| ParallelWorkflow.Scheduler.Admit | packages/memory/src/scone_memory/agents/workflow.py:794-800 | a task starts only with all its dependencies complete, below the limit, on results just approved, after its one attempt is on record |
| ParallelWorkflow.Scheduler.Pass | packages/memory/src/scone_memory/agents/workflow.py:774-804 | a pass that leaves no task and brings no result leaves nothing that could go on but inputs already asked for |
| ParallelWorkflow.Scheduler.Collect | packages/memory/src/scone_memory/agents/workflow.py:812-838 | each new result is the value its task ended with, and with payloads that fit every such value is committed even if a sibling failed; it goes on if and only if no ended task is left, and otherwise an oversized value outranks a failed step |
| ParallelWorkflow.Scheduler.TakeUp | packages/memory/src/scone_memory/agents/workflow.py:821-834 | an ended task is either committed with its own value and nothing else, or stays with exactly the failure its end means |
| ParallelWorkflow.Scheduler.Accept | packages/memory/src/scone_memory/agents/workflow.py:760-765 | the value an input gave is committed as it is |
| ParallelWorkflow.Scheduler.Defer | packages/memory/src/scone_memory/agents/workflow.py:754-759 | an input without a value is put on record as awaited, and nothing else changes |
| ParallelWorkflow.Scheduler.Drain | packages/memory/src/scone_memory/agents/workflow.py:844-871 | every task is ended, and results that still arrive are committed with their own values unless the evidence was rejected; status and rejection survive the draining |
| ParallelWorkflow.Scheduler.Schedule | packages/memory/src/scone_memory/agents/workflow.py:774-843 | returns all results, all just approved, or `awaiting_input` only when nothing else can go on; with helpful answers it starts something if a step other than an input has no result |
| ParallelWorkflow.Scheduler.Idle | packages/memory/src/scone_memory/agents/workflow.py:801-811 | when nothing runs and nothing was gained the run waits; the dead end at 811 is unreachable |
| ParallelWorkflow.Scheduler.Complete | packages/memory/src/scone_memory/agents/workflow.py:839-843 | what is returned is every result of every step, approved last |
| ParallelWorkflow.Execute | packages/memory/src/scone_memory/agents/workflow.py:701-871 | one parallel run from any saved journal keeps every saved row in order, dependencies closed and every result the value its step or input gave, refuses unresolved attempts, and a rejected run never starts anything; with helpful answers it never waits, fails only if a step is left unresolved, and returns if only inputs were missing |
| ParallelWorkflow.Run | packages/memory/src/scone_memory/agents/workflow.py:548-596 | every call keeps the journal in order; with helpful answers a step is started if and only if nothing is unresolved and a step other than an input has no result; a rejected run starts nothing |
| ParallelWorkflow.EarlyInterruption | packages/memory/src/scone_memory/agents/workflow.py:572-589 | a rejected run interrupted early and then run again can start a step only if none was ever started and the plan has one, and with helpful answers exactly then |
| ParallelWorkflow.RejectionForgotten | packages/memory/src/scone_memory/agents/workflow.py:572-589 | a concrete journal taken there by three calls of `run` |
| ParallelWorkflow.ReadResult | packages/memory/src/scone_memory/agents/workflow.py:494-546 | never starts a step; all results of all steps are returned only if the run has finished, is not rejected, has nothing unresolved and is approved again, and exactly then with an approving verifier; a run that is not readable is left untouched |
| ParallelWorkflow.ResultsGenuine | packages/memory/src/scone_memory/agents/workflow.py:721-733 | what any call returns holds for every step the value its task ended with or its input gave |
| ParallelWorkflow.Sessions | packages/memory/src/scone_memory/agents/workflow.py:494-596 | over any sequence of runs and reads a rejected run never starts a step again, even if a cancellation overwrote its status, unless it was rejected before any start and interrupted early |
| ParallelWorkflow.StartsOnce | packages/memory/src/scone_memory/agents/workflow.py:789-800 | over all runs together no step starts twice; in every saved row results are closed under dependencies, started steps have theirs complete, outstanding tasks are within the limit and `inflight_steps` lists exactly them in plan order |
| ParallelWorkflow.NoDeadEnd | packages/memory/src/scone_memory/agents/workflow.py:801-811 | with accepted dependencies unfinished work always has something ready |
| ParallelWorkflow.WaitsForInput | packages/memory/src/scone_memory/agents/workflow.py:805-810 | when a run waits, every unfinished step is a pending input or reaches one through unfinished dependencies |
| TaskOrder.Dependencies | packages/memory/src/scone_memory/agents/workflow.py:193-209 | accepts exactly the maps that declare every step, know every dependency and are acyclic, and then ranks each step above its dependencies |
| TaskOrder.Ordered | packages/memory/src/scone_memory/agents/task_workflow.py:57-69 | the loop that moves ready tasks succeeds exactly where the layered order does and computes it: by longest chain of dependencies, then by place in the plan |
| TaskOrder.LayeredSorts | packages/memory/src/scone_memory/agents/interactive_plan.py:49-61 | the order is a permutation of the plan in which each task follows everything it depends on |
| TaskOrder.OrderExactly | packages/memory/src/scone_memory/agents/task_workflow.py:57-69 | the order is by the length of the longest chain of dependencies, and among equals by place in the plan |
| TaskOrder.LevelUnique | packages/memory/src/scone_memory/agents/task_workflow.py:57-69 | there is only one such level for each task |
| TaskOrder.SortsExactlyAcyclic | packages/memory/src/scone_memory/agents/task_workflow.py:57-69 | sorting succeeds on exactly the acyclic plans |
| TaskOrder.ValidPlan | packages/memory/src/scone_memory/agents/interactive_plan.py:40-47 | a plan is valid exactly when names are unique, dependencies known, the graph acyclic and, if interactive, there is an input |
| Resampler.TextbookExactlyWhenFits | packages/memory/src/scone_memory/audio/rate.py:59-79 | on every stream cut in every way the filter gives zero-stuff, filter, decimate, if and only if `ceil(down/up) <= quality + 1` (equal rates fit, but are passed through unfiltered) |
| Resampler.FitsIsTextbook | packages/memory/src/scone_memory/audio/rate.py:59-79 | under that condition the joined outputs are the textbook outputs, exactly `ceil(N*up/down)` of them after N samples, however the stream was cut |
| Resampler.LowestTerms | packages/memory/src/scone_memory/audio/rate.py:45-48 | the working ratio shares no factor |
| Resampler.Converter.constructor | packages/memory/src/scone_memory/audio/rate.py:40-52 | starts silent, with the two rates in the proportion asked for |
| Resampler.Converter.Feed | packages/memory/src/scone_memory/audio/rate.py:59-79 | between equal rates, and no others, data passes through untouched; otherwise one chunk advances history and counter as the stream function says |
| Resampler.Converter.Flush | packages/memory/src/scone_memory/audio/rate.py:81-85 | runs out the tail with as much silence as the filter is long; nothing between equal rates |
| Resampler.Convert | packages/memory/src/scone_memory/audio/rate.py:40-79 | a new converter fed any chunks gives, joined, the stream itself between equal rates, and the textbook conversion of the joined stream between all others that fit |
| Resampler.EqualRates | packages/memory/src/scone_memory/audio/rate.py:54-57 | the ratio in lowest terms is one to one for equal rates and for no others |
| Resampler.Create | packages/memory/src/scone_memory/audio/rate.py:40-42 | exactly rates that are not positive are refused |
| TextWindow.TextWindow.Append | packages/memory/src/scone_memory/api/text_stream.py:22-44 | while open the window holds the longest end of all texts that fits 65536 bytes and 256 chunks, numbered up to the last; a bad text closes it for good |
| TextWindow.LongestUnique | packages/memory/src/scone_memory/api/text_stream.py:42-43 | there is only one such end, so evicting from the front cannot stop anywhere else |
| TextWindow.TextWindow.Finish | packages/memory/src/scone_memory/api/text_stream.py:46-50 | closes and empties without renumbering |
| TextWindow.TextWindow.NextAfter | packages/memory/src/scone_memory/api/text_stream.py:52-64 | answers a cursor with the exact gap before the first chunk or with exactly the text after it; refuses cursors never reached |
| TextWindow.Reader.Turn | packages/memory/src/scone_memory/api/conversations.py:838-845 | a turn reports the gap or text directly after the reader's position, or there is nothing newer |
| TextWindow.Follow | packages/memory/src/scone_memory/api/conversations.py:818-849 | among any appends and closes the reader's events stay a gapless account of the numbers it passed |
| TextWindow.ExactlyOnce | packages/memory/src/scone_memory/api/conversations.py:838-845 | every number a reader has passed is accounted for by exactly one event: its own text or one gap |
| InputStore.AgentInputStore.Request | packages/memory/src/scone_memory/agents/input_store.py:167-186 | asks once; the same context returns the record as it is by now; each refusal has its own condition and error |
| InputStore.AgentInputStore.Respond | packages/memory/src/scone_memory/agents/input_store.py:188-207 | a single assignment: the first response stands, repeating it is harmless, another is refused; each refusal has its own condition and error |
| InputStore.AgentInputStore.Activate | packages/memory/src/scone_memory/agents/input_store.py:209-254 | all of a group or none of it; a success is repeated identically by every retry, each refusal has its own condition and error, and the integrity error is unreachable |
| InputStore.ActivatedExactly | packages/memory/src/scone_memory/agents/input_store.py:34-54 | a record has revision 3 if and only if the activation it names lists it with the digest of its present contents |
| InputStore.ActivateGroup | packages/memory/src/scone_memory/agents/input_store.py:235-254 | activating a whole group keeps every record and every earlier receipt consistent |
| InputStore.RetryIsClean | packages/memory/src/scone_memory/agents/input_store.py:219-234 | whatever an activation recorded still holds, so its retries find no fault |
| InteractiveReceipts.Receipts | packages/memory/src/scone_memory/agents/interactive_workflow.py:96-120 | accepts exactly the results whose receipts and contexts can be rebuilt from the plan and the store; every human receipt accepted names its task and dependencies and holds the response, activation and digest of its record |
| InteractiveReceipts.BoundAnswers | packages/memory/src/scone_memory/agents/interactive_workflow.py:36-40 | a verified human receipt says which input was answered, after which results, with which text, by which activation and with which digest |
| InteractiveReceipts.PartsAre | packages/memory/src/scone_memory/agents/interactive_workflow.py:43-57 | a context has one part for each dependency, in order: the text of a human answer, or agent, text, source status and evidence of a model receipt |
| InteractiveReceipts.Poll | packages/memory/src/scone_memory/agents/interactive_workflow.py:134-145 | a value given is the receipt of the answer: the response, activation and digest of the record; it can be committed and verifies with everything before it; a pending input is on record and was not activated; it fails under an exact condition |
| InteractiveReceipts.VerifiedStays | packages/memory/src/scone_memory/agents/interactive_workflow.py:96-120 | verified results stay verified whatever the input store does later |
| InteractiveReceipts.VerifiedMore | packages/memory/src/scone_memory/agents/interactive_workflow.py:96-120 | committing one more bound result keeps everything verified |
| Handoff.Receipts | packages/memory/src/scone_memory/agents/handoff_workflow.py:128-147 | accepts exactly the saved results that form a walk from the root and returns its hops |
| Handoff.WalkIsPath | packages/memory/src/scone_memory/agents/handoff_workflow.py:128-147 | consecutive agents follow permitted edges from the root, only the last hop may go to nobody, and each hop is numbered, tied to the hop before it and made with its agent's own model and binding |
| Handoff.PathIsWalk | packages/memory/src/scone_memory/agents/handoff_workflow.py:128-147 | and nothing else is asked of the saved results |
| Handoff.NextHop | packages/memory/src/scone_memory/agents/handoff_workflow.py:160-189 | a hop is recorded if and only if somebody holds the run, the step is next and the target is permitted; it holds exactly the text, target and packets given and extends the walk by itself |
| Handoff.ResultOf | packages/memory/src/scone_memory/agents/handoff_workflow.py:191-199 | a result is served exactly for walks that ended or used every hop, and it is a proper outcome |
| Handoff.Parse | packages/scone-client/scone/agent_results.py:144-181 | the client accepts exactly the outcomes of walks, within its packet bound and with known reused hops |
| Handoff.OutcomeIsServed | packages/scone-client/scone/agent_results.py:144-181 | whatever outcome the client accepts is one the service derives from some saved results |
| Handoff.CompletedIsOutcome | packages/memory/src/scone_memory/agents/handoff_workflow.py:156-199 | every completed run has an outcome; one that completed early stopped at its first hop to nobody |
| Handoff.Run | packages/memory/src/scone_memory/agents/handoff_workflow.py:201-204 | whatever `run` returns is the outcome of a walk from the root, ended or at its limit, and a completed run is never refused |
| Handoff.ReadResult | packages/memory/src/scone_memory/agents/handoff_workflow.py:206-210 | so is whatever `read_result` returns, and it starts nothing |

## Left out

- BlobInvariants.StepInv: assumes that no uploader writes its version over a fenced row (`Guarded`); see `BlobRuns.LifeCycle` and `BlobRuns.ReadBackRace` for what happens otherwise.
- BlobResults.ReleaseAgrees: the S3 store decides attachment by attachment, at the moment of each commit, and the in-memory store all at once; so the two are equal only for attachments whose other holders stay as they are during the release.
- BlobResults.ForEpisodeAgrees: stated for a space at rest; while a release is under way the S3 store shows what is left so far.
- BlobResults.HeldAgrees: stated for a space at rest; while a release is under way a snapshot shows what is left so far.
- BlobBatches.PlanRelease: takes the table as the planner finds it, because the reads behind one plan all stand while the control row does (`BlobReads.Seqlock`, `BlobReads.NoStalePlan`); the same holds of `BlobJournal.PlanCollect`.
- `_release_legacy` and journals written before the catalog: starting states are active spaces with version 0 and no unfinished journal.
- put and link on a space not yet migrated: they are modelled after `ensure`, and `BlobReceipts.CatalogedStays` justifies not looking again.
- Retry limits, conflict counts and "remained busy" errors: a client that gives up takes no further step.
- boto3, timeouts, the worker thread, checksum negotiation, object versions and the HEAD request: S3 is a set of objects, one per generation, and version ids are carried as data only.
- Download, checksum and size checks of get, link and put, and `preview`.
- Pages: one page is one strongly consistent read of at most 100, 90 or 20 rows; the last page is followed by an empty one.
- Identity and cursor-format checks of rows that the store itself wrote.
- Attachment digests, generations and operation names are numbers: fixed-width hexadecimal strings sort as numbers do, and names drawn at random are fresh.
- Encryption, file locks, bindings, SQLite errors, checkpoints, `status` and `inspect_completed` of the workflow runner; run and reading of one journal exclude each other.
- The size of an encoded payload is an arbitrary outcome of a step, an input or a publication; `error_class` is not kept.
- The bodies of steps, model calls and evidence checks: their outcomes are arbitrary.
- Recomputing evidence packets and the byte budget of the prior hop (`handoff_workflow.py:168-174`), and parsing of JSON and fields on both sides.
- `run_not_found` and the order of time stamps in the input store.
- Filter design, 16-bit rounding and clamping: taps and samples are real numbers, and chunks hold whole samples.
- Waking of waiting readers, server-sent-event formatting and the session journal around the reader loop.
- `FileBlobStore`, HTTP routes, the memory engine, vector stores and deployment scripts.
