# Verification of the Cortex KB pipeline, chunker, search cache and event stream

Cortex KB takes uploaded documents through four background stages (ingest, embed,
index, purge) that hand work to each other through a job table in Postgres, cuts their
text into overlapping token windows, answers searches from a cache and a weighted
fusion of two result lists, and streams progress to browsers. This project models that
behaviour in Dafny and proves what a reader of any single function cannot see.

## How it is organised

| files | what they hold |
|---|---|
| `JobQueue.dfy` | the job table: what each statement does to it, the queue as a class, backoff and polling |
| `Pipeline.dfy` | the protocol: all tables, every committed statement of every worker, requests, crashes and restarts as events |
| `Effects.dfy`, `Requests.dfy` | what each statement, claim, restart and request does to the tables, row by row |
| `Trails.dfy`, `Server.dfy` | request handlers and worker procedures as imperative methods, each statement interleaved with anything else and allowed to raise; they are proved to run the protocol, and to execute their statements in the stated order |
| `Alone.dfy` | the tables after each worker procedure when nobody else is at work |
| `Consistency.dfy`, `Ownership.dfy`, `ChunkRows.dfy`, `Dedup.dfy`, `Uploads.dfy` | what every step keeps, and what follows for every run |
| `Restart.dfy`, `OrphanPoints.dfy` | jobs that were being processed when the server stopped; points that outlive their document |
| `HandOff.dfy`, `Runs.dfy`, `LostDocuments.dfy` | no document is forgotten, the exact exceptions, and runs in which they occur |
| `Work.dfy`, `Fairness.dfy`, `Prerequisites.dfy` | bounded work, bounded overtaking, what a stage may rely on |
| `Utf8.dfy`, `PyText.dfy`, `Chunker.dfy`, `ChunkWindows.dfy` | byte-to-character tables, token ranges, windows, reconstruction |
| `SearchCache.dfy`, `Fusion.dfy` | result cache and rank fusion |
| `EventStream.dfy`, `StreamConvergence.dfy` | the event bus and its stream; when a stream ends on the stored statuses |
| `Writers.dfy`, `LiveStream.dfy` | which runs of the pipeline leave one worker on a document, and what its subscribers then see |
| `PageGrouping.dfy` | pages of parsed elements |

A protocol state holds the tables, the vector store, the clock, the workers with the
statement each executes next, and two history variables that no step reads: which
documents were asked to be purged, and how often each job was recovered at a start.
`Pipeline.Apply` is the effect of one event. Every statement that is a transaction of
its own is one event; a statement may raise instead; a crash drops all workers at any
point; a start recovers stale jobs and deletes old ones. A result about reachable
states or runs therefore covers every interleaving, failure, crash, deletion and
reprocess request.

Parsing, tokenizing, embedding and the stores appear as any result or exception. The
tokenizer is any split of the text's UTF-8 bytes into non-empty tokens.

## What the proofs found

- A hand-off can be lost in exactly two statements. `app/workers/index_worker.py:42`
  writes the index row of the document, not of the job: a delayed index job replaces
  the `failed` left by the index job of a later reprocess request, and if the status
  was reset meanwhile nothing tells that indexing never succeeded.
  `app/workers/purge_worker.py:70-77` passes over a status update that fails, and the
  following `nack` may be the last one. `HandOff.LossExactly` says that no other
  statement does it, `HandOff.SupportedExactly` that the support it speaks of is exactly
  what keeps a document accounted for, and `LostDocuments` gives a run for each
  statement and every number of attempts, the configured three included.
- The cache key has no room for `min_score`
  (`app/search/engine.py:30-31`, `:85`): a repeated query with a threshold can return
  items below it. That happens exactly on a hit whose stored answer has such an item, and
  never when all earlier searches under the key asked for at least that threshold.
- The key joins its parts with colons and escapes none. Another document and query with
  the same key exist exactly when the document id or the query has a colon
  (`SearchCache.SharedKeyIff`), and searches in two documents can share a key exactly
  when one id followed by a colon begins the other (`SearchCache.IdsShareKeyIff`).
- With `search_cache_max` below 1 every cache write raises, since `min` is applied to
  an empty dictionary (`app/search/engine.py:50-51`).
- The comment on the window parameters suggests that only noise is filtered
  (`app/ingestion/chunker.py:18-19`); below a size of 60 tokens the end of a text can be
  lost as well, and 60 is the exact bound.
- Uploading a further version of a file can be refused: a worker in flight writes its
  status over the `deleting` of the version just replaced
  (`app/workers/ingest_worker.py:38-44`), so that the query for the file name finds two
  rows and raises (`app/api/routes/ingest.py:169`). `Uploads.UploadOutcome` says exactly
  when.
- A stream can end on a status that is not the stored one. Exactly two steps bring that
  about (`StreamConvergence.LossExactly`): a commit while an update of the same stage with
  another status is committed and not yet broadcast, and a full queue that drops the only
  update of the stage in flight when the reader would otherwise end on another status.
- The first needs two workers on one document. Exactly four steps open a second job
  (`Writers.DoublesExactly`): a requeue while a job is open, a start that finds two jobs
  to resume, an `enqueue` that commits and then raises (`app/workers/db_queue.py:57-63`),
  and an `ack` that raises after the hand-off while the next job is open. The third
  needs no request of any user. In every run without these steps and without a dropped
  last word, subscribers end on the stage table (`LiveStream.ViewersSeeTheTable`).
- `recover_stale_jobs` runs at a start only (`app/main.py:53`) and gives back the jobs locked
  for five minutes or more. A job claimed less than five minutes before a restart is left
  to nobody: it looks as if it were being processed until the next restart
  (`Restart.StuckUntilNextRestart`). After five minutes of downtime no such job is left
  (`Restart.CrashThenRestart`).
- The embed worker takes it that points it stored for a document purged meanwhile are
  swept later (`app/workers/embed_worker.py:141-142`). There is no sweep: such points occur
  (`OrphanPoints.PurgeLeavesOrphans`), and so they do when the vector store raises during a
  purge, and they stay in every continuation (`OrphanPoints.OrphansStay`).
- No statement ever writes the status `deleted` that the requests and the embed worker
  test for (`app/workers/embed_worker.py:42`).
- `claim` finds jobs in order of their schedule, and new or rescheduled jobs are
  scheduled at or after the present, so a due job is only overtaken by jobs already
  ahead of it. `recover_stale_jobs` is the one statement that can put a job in front, and
  it puts there exactly the stale jobs of the stage scheduled no later
  (`Fairness.RecoveryCutsInIff`).

## Model

| member | source | states |
|---|---|---|
| JobQueue.Queue.Enqueue | app/workers/db_queue.py:33-65 | a new pending job under a fresh id, or None and no change when the document is gone |
| JobQueue.Queue.Claim | app/workers/db_queue.py:68-99 | hands out a due job of the stage that is scheduled earliest, marks it and counts the attempt; None exactly when no job is due, so never before its schedule |
| JobQueue.Queue.Ack | app/workers/db_queue.py:102-114 | the job is done and unlocked; nothing happens to a missing row |
| JobQueue.Queue.NackJob | app/workers/db_queue.py:117-156 | failed for good when attempts are used up, else pending again after 10 * 2^attempt seconds; nothing happens to a missing row |
| JobQueue.Queue.RecoverStaleJobs | app/workers/db_queue.py:159-180 | exactly the processing jobs locked for 300 000 000 microseconds or more become pending, attempts untouched, and are counted |
| JobQueue.Queue.CleanupOldJobs | app/workers/db_queue.py:183-203 | deletes and counts exactly the done and failed jobs created seven days ago or earlier; every other row stays |
| JobQueue.Queue.DeleteDocument | app/db/models.py:128-137 | the cascade removes exactly the jobs of the document |
| JobQueue.BackoffDoubles | app/workers/db_queue.py:141-142 | the first delay is 20 seconds and each further one twice as long |
| JobQueue.TotalBackoffClosedForm | app/workers/db_queue.py:141-145 | the delays of a job that keeps failing add up to 10 * (2^(attempts + 1) - 2) seconds |
| JobQueue.WaitForJob | app/workers/db_queue.py:206-219 | the first empty poll sleeps half a second, each further one 1.5 times as long but never more than 5 seconds, and the first hit is returned |
| JobQueue.IdlePollsAreFew | app/workers/db_queue.py:27-29 | any idle stretch of t seconds, from whichever poll of a wait to whichever other, sees at most t/5 + 5 polls |
| Pipeline.InsertedChunks | app/workers/ingest_worker.py:196-204 | existing rows win, missing indices get the new texts and fresh ids |
| Pipeline.PlanUpload | app/api/routes/ingest.py:99-171 | new content is added exactly when no document has the name, and replaces only the one that has it; stored content is retried exactly when one document has it and that failed; a request is ignored only when a query finds several rows or the stored content has not failed |
| Pipeline.Perform | app/workers/ingest_worker.py:135-230 | the frame of every statement of a worker: no worker, clock, limit or history changes, no document is added, and one is removed only by the purge transaction |
| Effects.StageWritten | app/core/pipeline.py:77-106 | one stage row is written, or nothing when the document is gone |
| Effects.StatusWritten | app/workers/ingest_worker.py:38-44 | only the status of the document changes |
| Effects.ChunksStored | app/workers/ingest_worker.py:194-213 | status 'chunked'; exactly the missing indices get a row, with their text, an id of its own and no vector id |
| Effects.PointsUpserted | app/workers/embed_worker.py:92-134 | the points of the rows belong to the document and every other point stays |
| Effects.VectorIdsStored | app/workers/embed_worker.py:134-146 | status 'embedded' and each row's own id as its vector id, or nothing at all when a row is gone |
| Effects.NextStageEnqueued | app/workers/db_queue.py:33-65 | a pending job that is due at once, or nothing when the document is gone |
| Effects.JobAcked | app/workers/db_queue.py:102-114 | the row is done and unlocked; a missing one changes nothing |
| Effects.JobNacked | app/workers/db_queue.py:133-153 | failed at the limit, otherwise pending and due in 10 * 2^attempt seconds |
| Effects.VectorsDropped | app/workers/purge_worker.py:27-31 | a worker at this statement leaves no point of its document, and every other point with its document |
| Effects.DocumentDeleted | app/workers/purge_worker.py:48-62 | the rows of the document in all four tables are gone and all others stay |
| Effects.PointsStayGone | app/workers/embed_worker.py:92-134 | points of a document without any come back only through an upsert of an embed worker that is still at work on it |
| Effects.GuardAnswers | app/workers/embed_worker.py:36-47 | the embed worker goes on if and only if the document is there and not 'deleted' |
| Effects.RowsRead | app/workers/embed_worker.py:54-66 | it takes exactly the chunk rows of its document, or the failure exit when there is none |
| Effects.RowsStillThere | app/workers/embed_worker.py:134-146 | it goes on to the hand-off if and only if all rows it read are still there |
| Effects.JobClaimed | app/workers/db_queue.py:68-99 | an event may hand out only a due job scheduled earliest; its row is marked and the worker starts at the first statement of the stage's procedure |
| Effects.Restarted | app/workers/db_queue.py:159-180 | a start gives back exactly the jobs locked for five minutes or more |
| Effects.CleanedAtStart | app/workers/db_queue.py:183-203 | and then deletes exactly the finished jobs that are seven days old |
| Requests.UploadDoes | app/api/routes/ingest.py:99-227 | stored content starts over when its one document has one of the four failure statuses and is ignored otherwise; new content is added, after the one document with its name is marked for purge, and turned away when several have the name |
| Requests.StoredContent | app/api/routes/ingest.py:107-150 | the first of these cases, row by row: status, four stage rows and a new ingest job |
| Requests.NameInUse | app/api/routes/ingest.py:161-209 | the second: status 'deleting' and a purge job for the old document, then the rows of the new one |
| Server.Server.UploadDocument | app/api/routes/ingest.py:99-227 | the handler's branches amount to one upload event of the protocol, which does to the rows what Requests.UploadDoes says |
| Server.Server.DeleteDocument | app/api/routes/documents.py:78-110 | refused exactly when the document is missing, else status 'deleting', a pending purge job and nothing else: one delete event of the protocol |
| Server.Server.ReprocessDocument | app/api/routes/ingest.py:230-279 | refused exactly when the document is missing or 'deleted', else status 'pending', the four stage rows 'pending', a pending ingest job and nothing else: one reprocess event of the protocol |
| Uploads.UploadOutcome | app/api/routes/ingest.py:99-188 | in every reachable state: stored content belongs to one document and is requeued exactly when that failed; new content is turned away exactly when several documents carry its name, all but one of them asked to be purged, and otherwise added, replacing the one that has the name |
| Uploads.ThirdVersionTurnedAway | app/api/routes/ingest.py:161-169 | for every number of attempts, a reachable state in which new content is turned away |
| Server.Server.ProcessIngestJob | app/workers/ingest_worker.py:135-230 | whatever runs in between and whichever statement raises, the database is reached from the old one by a run of the protocol without a crash, in which this worker executes exactly the statements of its branch, in order, up to one that raises, and then the failed row, the status 'error' and the nack, up to one that raises; it acks only at the end of a branch |
| Server.Server.ProcessTabularJob | app/workers/ingest_worker.py:47-132 | the same for the tabular path with its one summary text |
| Server.Server.ProcessEmbedJob | app/workers/embed_worker.py:31-161 | the same for the embed worker, with the statements of its guard exit, its empty exit, its stale exit and its full path |
| Server.Server.ProcessIndexJob | app/workers/index_worker.py:18-49 | the same for the index worker, whose handler writes the failed row and nacks but leaves the status alone |
| Server.Server.ProcessPurgeJob | app/workers/purge_worker.py:20-78 | the same for the purge worker: vectors, files, row, whatever the first two do; when the row raises the status and the nack, whatever the status does; when it succeeds no row and no job of the document is left, and no point either if the vector store did not raise and nobody upserted for the document after that |
| Server.Server.HandOn | app/workers/embed_worker.py:154-155 | the worker commits the enqueue of the next stage, then the ack, and nothing else; if it fails it is after neither or after the enqueue alone |
| Server.Server.Abandon | app/workers/ingest_worker.py:157-162 | an exit that retrying cannot help: the failed stage row, the failure status, then the ack, in this order, up to one that raises |
| Server.Server.GiveBack | app/workers/ingest_worker.py:226-230 | the except block of ingest and embed: the failed stage row, the status, then the nack, in this order, up to one that raises; never an ack |
| Alone.UndisturbedEffect | app/workers/ingest_worker.py:135-230 | when only one worker is at work, the tables after any run are those after the effects of its statements, one after another |
| Alone.IngestAlone | app/workers/ingest_worker.py:135-224 | an ingest job left to itself ends with 'parse_failed' and the parse stage failed for blank text, 'chunk_failed' and the chunk stage failed without chunks, and else with 'chunked', both stages done, a row for every text and a pending embed job; nothing else changes |
| Alone.IngestReportAlone | app/workers/ingest_worker.py:226-230 | and, when something raised, with 'error', the parse stage failed and the job given back |
| Alone.EmbedAlone | app/workers/embed_worker.py:49-156 | an embed job left to itself ends with 'embedded', the stage done, the own id as vector id and a point for exactly the rows of its document, and a pending index job |
| Alone.EmptyEmbedAlone | app/workers/embed_worker.py:61-66 | without chunk rows it ends with 'embed_failed', the stage failed and the job done |
| Alone.EmbedReportAlone | app/workers/embed_worker.py:157-161 | when something raised, with 'embed_failed', the stage failed and the job given back |
| Alone.IndexAlone | app/workers/index_worker.py:22-49 | an index job left to itself ends with 'indexed' and the stage done, or with the stage failed and the job given back |
| Alone.PurgeAlone | app/workers/purge_worker.py:20-66 | a purge left to itself leaves nothing of the document but, if the vector store raised, its points, and touches nothing else |
| Consistency.StepKeepsConsistency | app/db/models.py:79-137 | every event keeps foreign keys, fresh ids, and that each busy worker alone holds a processing job of its kind and document unless that document is gone |
| Ownership.StepEvolves | app/workers/db_queue.py:68-180 | in any event a job row stays, is claimed when due, is finished or rescheduled while processing, or is recovered when stale; nothing else |
| Ownership.ExclusiveOwnership | app/main.py:50-68 | over any number of crashes and restarts no two workers hold the same job and held jobs are processing |
| Ownership.RowsBelongToDocuments | app/db/models.py:79-137 | in every reachable state all chunk, stage and job rows refer to existing documents |
| Ownership.FinishedJobsStay | app/workers/db_queue.py:102-138 | done and failed jobs never change again and never come back |
| Ownership.PurgeIsPermanent | app/workers/purge_worker.py:48-62 | after the purge transaction no document, chunk, stage or job row with that id exists in any continuation |
| Ownership.AttemptsBounded | app/workers/db_queue.py:133-175 | attempts never exceed max_attempts plus the recoveries of the job |
| Ownership.FailureTakesPatience | app/workers/db_queue.py:133-153 | a job that failed without recovery used max_attempts and waited at least 10 * (2^max_attempts - 2) seconds |
| Restart.RecoveryGivesBackExactly | app/workers/db_queue.py:159-180 | in every reachable state a job is still processing after a recovery if and only if it was locked less than five minutes before |
| Restart.CrashThenRestart | app/main.py:50-56 | after a crash and five minutes of downtime the start leaves no job processing, and exactly those that were are pending |
| Restart.StuckUntilNextRestart | app/main.py:50-56 | a job claimed less than five minutes before a start stays as it is in every continuation until the next start or until its document goes |
| OrphanPoints.OrphansStay | app/workers/embed_worker.py:136-145 | in every reachable state: a point whose document is gone, with no purge of it still to drop its points, stays in the store in every continuation |
| OrphanPoints.PurgeLeavesOrphans | app/workers/embed_worker.py:136-145 | for every number of attempts, a reachable state with such a point |
| OrphanPoints.StepKeepsIdsOwned | app/workers/embed_worker.py:78-90 | every event keeps that chunk rows, ids held by embed workers and points with the same id belong to one document |
| ChunkRows.ChunkIndicesHaveNoGap | app/workers/ingest_worker.py:196-213 | in every reachable state the chunk indices of a document are exactly 0 .. m-1 |
| ChunkRows.FirstTextStays | app/workers/ingest_worker.py:196-204 | the first text and id stored at an index stay while the document exists, whatever later runs insert |
| ChunkRows.ReinsertIsNeutral | app/workers/ingest_worker.py:196-204 | inserting the same list again changes nothing |
| ChunkRows.StepKeepsRowsPresent | app/workers/embed_worker.py:54-93 | rows an embed worker has read stay rows of its document until that is deleted |
| HandOff.LossExactly | app/workers/index_worker.py:42-49 | an event takes the support of a document away if and only if it is the commit of index_worker.py:42 over the failed row that is all the document has, or a failing status update of a last purge attempt with nothing else to speak for it; new documents start supported |
| HandOff.ReachableInv | app/main.py:50-68 | every reachable state meets what the exact conditions of this module ask of a state |
| HandOff.SupportedExactly | app/workers/db_queue.py:102-156 | a document is supported if and only if it stays accounted for (live job, 'indexed', failure status or failed stage) in every continuation without one of these two statements |
| HandOff.UnsupportedIsLost | app/workers/db_queue.py:102-156 | an unsupported document is unaccounted for as soon as the workers about to end its jobs have gone on |
| HandOff.NoHandOffLost | app/workers/ingest_worker.py:135-230 | in every run without a losing statement for it, an existing document has a pending or processing job, is 'indexed', or has a failure status or a failed stage |
| HandOff.NoHandOffLostWhenSteady | app/workers/purge_worker.py:68-78 | the same under a condition on the run alone: the index worker never reports a failure of the document, and the last attempt to purge it, if it fails, reports that |
| LostDocuments.FailedIndexIsForgotten | app/workers/index_worker.py:42-44 | for every number of attempts, a reachable state with an 'embedded' document, no live job and no failed stage |
| LostDocuments.PurgeIsForgotten | app/workers/purge_worker.py:68-78 | for every number of attempts, a reachable state with a document stuck in 'deleting', no live job and no failed stage |
| Runs.ReachableStates | app/main.py:50-68 | the reachable states contain the initial ones and are closed under steps, and are no more than that |
| Dedup.DocumentsAreDistinct | app/api/routes/ingest.py:99-209 | in every reachable state two documents of a tenant differ in checksum, and two that nobody asked to purge differ in file name |
| Dedup.StepKeepsInv | app/api/routes/documents.py:84-99 | no event breaks the distinctness of contents and names, and only purge requests write 'deleting' |
| Work.StepWorth | app/workers/db_queue.py:93-153 | every claim uses up worth of the job table; only a recovery or a requeue adds any |
| Work.OneUploadBoundedWork | app/api/routes/ingest.py:190-227 | one upload causes at most m + m^2 + m^3 claims over ingest, embed and index without restart or requeue |
| Fairness.StepKeepsRank | app/workers/db_queue.py:142-153 | nothing but a recovery puts a job ahead of a waiting one: its rank never grows, and drops with every claim of its stage |
| Fairness.RecoveryCutsInIff | app/workers/db_queue.py:159-180 | a recovery puts exactly the stale jobs of the stage scheduled no later ahead of a waiting job, so the rank grows if and only if there is one |
| Fairness.ClaimFairness | app/workers/db_queue.py:74-99 | while a job whose schedule has passed is pending, the claims of its stage that pass it by are at most the jobs that were scheduled no later |
| Fairness.FirstInLineIsNext | app/workers/db_queue.py:78-88 | a job whose schedule has passed and that nobody is ahead of is the one that the next claim of its stage returns |
| Prerequisites.StagePrerequisites | app/workers/embed_worker.py:54-155 | for a document nobody asked to purge: an embed job implies all its chunks are stored, an index job that each chunk has its own id as vector_id and a point under it |
| Prerequisites.StepKeepsReady | app/workers/ingest_worker.py:196-224 | the invariant behind it: what each statement relies on has been established and no event of any worker takes it away |
| Utf8.EncodeChar | app/ingestion/chunker.py:77-96 | one to four bytes, the length readable off the leading byte, continuation bytes after it |
| Utf8.ContinuationInside | app/ingestion/chunker.py:113-118 | a byte is a continuation byte if and only if no character starts there |
| Chunker.RangeIsTightest | app/ingestion/chunker.py:104-124 | the range of a token covers its bytes and lies inside every character range that does |
| Chunker.RangesAdjoin | app/ingestion/chunker.py:104-124 | ranges run from the first to the last character, each starting at the end of the previous one or one character before |
| Chunker.BuildByteToChar | app/ingestion/chunker.py:81-102 | the table maps every byte to the character containing it and the end to the number of characters |
| Chunker.NextBoundary | app/ingestion/chunker.py:113-118 | skipping continuation bytes stops at the end of the character the token ends in |
| Chunker.CharRange | app/ingestion/chunker.py:106-122 | one round of the loop computes the tightest range of its token |
| Chunker.BuildCharOffsets | app/ingestion/chunker.py:69-124 | the loops compute the tightest range of every token |
| ChunkWindows.SlidingWindow | app/ingestion/chunker.py:127-170 | terminates for every size, zero and negative stride included, and returns exactly the counted windows, or the integrity error exactly when a window's text is too short |
| ChunkWindows.CountIs | app/ingestion/chunker.py:139-144 | the closed form of the chunk count is the number of windows that reach the minimum |
| ChunkWindows.CountedWindows | app/ingestion/chunker.py:139-144 | window k is emitted if and only if at least the minimum of tokens is left |
| ChunkWindows.WindowsAre | app/ingestion/chunker.py:18-23 | chunk k covers size tokens from k * (size - max(8, size / 4)) on, or those that are left, and is there if and only if max(16, size / 6) are left |
| ChunkWindows.TokenInAtMostTwo | app/ingestion/chunker.py:20-23 | two windows with a common token are neighbours |
| ChunkWindows.OnlyTheLastIsContained | app/ingestion/chunker.py:139-168 | a window that ends with its predecessor is the last |
| ChunkWindows.TailIsShort | app/ingestion/chunker.py:20-23 | fewer than MIN_CHUNK_TOKENS - CHUNK_OVERLAP tokens can follow the last window, none from size 60 on |
| ChunkWindows.AllTokensCoveredIff | app/ingestion/chunker.py:20-23 | all tokens of every long enough text are covered if and only if the size is at least 60 |
| ChunkWindows.Reconstruction | app/ingestion/chunker.py:69-170 | joining the chunks without their overlaps gives back the text; below size 60, the text up to a tail of the stated length |
| ChunkWindows.NoChunks | app/ingestion/chunker.py:139-144 | no chunk at all if and only if the size is below 16 or the text has too few tokens |
| ChunkWindows.ChunkFlat | app/ingestion/chunker.py:39-42 | the integrity check never fails, whatever the text and the tokenizer |
| ChunkWindows.ChunkWithPages | app/ingestion/chunker.py:45-66 | the loop gives the pages' chunks one after another, renumbered |
| ChunkWindows.PagedChunksAreIndexedSlices | app/ingestion/chunker.py:45-66 | chunk i has index i and is a slice of the page whose number it carries |
| ChunkWindows.EveryPageIsChunked | app/ingestion/chunker.py:45-66 | behind the chunks of earlier pages come all the chunks of a page, as if it were a text of its own, but for the index |
| ChunkWindows.ChunkDocument | app/ingestion/chunker.py:30-36 | nothing for blank text, by page when pages are known, else the flat chunks |
| EventStream.EventQueue.PutNowait | app/core/pipeline.py:53-57 | an event is appended unless 200 are queued; then it is dropped, and the method says so |
| EventStream.EventBus.Subscribe | app/core/pipeline.py:34-38 | a new empty queue at the end of the tenant's list |
| EventStream.EventBus.Unsubscribe | app/core/pipeline.py:41-47 | removes that queue only, keeps order and other tenants |
| EventStream.EventBus.Broadcast | app/core/pipeline.py:50-57 | every queue of the tenant is offered the event, no other is touched |
| EventStream.Tracker.UpdateStage | app/core/pipeline.py:62-115 | one row is written and every subscriber of the tenant offered the event; neither happens when the document is gone. For the stream machine that mirrors rows and queues it is a commit followed by its broadcast |
| EventStream.Tracker.GetPipelineStatus | app/core/pipeline.py:131-157 | exactly the five stages, each with the status of its row or 'pending' where there is none; None for a document that is gone |
| EventStream.Drain | app/api/routes/status.py:103-108 | the reading loop empties the queue; each stage shows its last queued event of the document, and stages without one stay |
| StreamConvergence.DrainIsReads | app/api/routes/status.py:103-108 | which is what reading them one by one does in the stream machine |
| StreamConvergence.LossExactly | app/core/pipeline.py:50-114 | a step takes away that a subscriber will show the stored status of a stage if and only if it commits while an update of the stage with another status is in flight, or its full queue drops the one update in flight for the stage and it would end on another status |
| StreamConvergence.NewcomerExactly | app/api/routes/status.py:92-101 | a new subscriber will show the stored status if and only if all updates in flight for the stage carry it |
| StreamConvergence.GoodExactly | app/api/routes/status.py:92-108 | a subscriber will show the stored status of a stage if and only if it does at the end of every continuation without a losing step that sends its snapshot, drains its queue and leaves nothing in flight for the stage |
| StreamConvergence.StepKeepsInv | app/core/pipeline.py:77-114 | for every interleaving: that all subscribers will show all stored statuses, and all updates in flight carry them, survives a step if and only if the step commits over no other status in flight and no subscriber loses its last word |
| StreamConvergence.StreamConverges | app/api/routes/status.py:92-108 | in every run of such steps a subscriber with its snapshot and an empty queue, no update of its document in flight, shows the stored statuses |
| StreamConvergence.StreamConvergesWhenOrderly | app/api/routes/status.py:92-108 | so it does with one writer for each stage of a document and no full queue |
| StreamConvergence.TwoWritersDiverge | app/core/pipeline.py:97-114 | with two writers of a stage a run ends on a wrong status |
| StreamConvergence.OverflowDiverges | app/core/pipeline.py:53-57 | with one writer and a reader 200 events behind a run ends on a wrong status |
| Writers.DoublesExactly | app/workers/db_queue.py:33-180 | an event gives a document a second open job (waiting, or held by a worker that has not handed over) if and only if it is one of four: a requeue while one is open, a start that finds two to resume, a hand-off that commits and raises, an ack that raises after the hand-off while the next job is open |
| Writers.OneWriter | app/main.py:63-68 | in every run without such a step at most one worker is at the statements of a document that write its stages |
| LiveStream.StepKeepsLive | app/core/pipeline.py:62-114 | pipeline and bus together, a worker broadcasting each stage row before it goes on: such steps keep that what is in flight for the document is its worker's one event, that the bus agrees with the stage table, and that all subscribers will show it |
| LiveStream.ViewersSeeTheTable | app/api/routes/status.py:92-108 | over all interleavings of workers, requests, crashes and readers without a doubling step and without a dropped last word, a drained subscriber shows the stage table of its document, 'pending' where a stage has no row, while no broadcast of it is pending |
| SearchCache.Cache.Get | app/search/engine.py:34-43 | a hit is the last response stored under the key, less than the TTL ago; a stale entry is dropped |
| SearchCache.Cache.Set | app/search/engine.py:46-53 | makes room by evicting an oldest entry; never more entries than search_cache_max; raises exactly when that is below 1 |
| SearchCache.KeyLooks | app/search/engine.py:30-31 | two keys, spelled out |
| SearchCache.StoreNew | app/search/engine.py:46-53 | storing keeps: entries are last writes, and an unexpired last write is missing only when nothing older is kept |
| SearchCache.EvictOldest | app/search/engine.py:50-52 | evicting an oldest entry keeps the same |
| SearchCache.EqualKeys | app/search/engine.py:30-31 | equal keys mean equal tenant, mode and top_k, and equal document and query when document ids have no colon |
| SearchCache.SharedKeyIff | app/search/engine.py:30-31 | some other document and query have the same key if and only if the document id or the query has a colon |
| SearchCache.IdsShareKeyIff | app/search/engine.py:30-31 | searches in two different documents can share a key if and only if one id followed by a colon begins the other |
| SearchCache.Search | app/search/engine.py:58-99 | whatever other searches do to the cache between its lookup and its store: a fresh entry is returned as it is, anything else is computed, filtered and stored under the key; the threshold is honoured if and only if the call is a miss or all items of the stored answer reach it, and always when every stored answer of the key was asked for with at least this threshold |
| SearchCache.ThresholdIgnoredOnHit | app/search/engine.py:66-86 | a run of two searches whose second answer has an item below its min_score |
| SearchCache.AtLeastKeepsExactly | app/search/engine.py:84-86 | the filter keeps exactly the items that reach the threshold, each as often as it occurs and in order |
| Fusion.Select | app/search/engine.py:126-142 | every candidate scores vector weight * score + lexical weight * ranks; the chosen ids are distinct, in non-increasing order of weighted sum, as many as top_k allows, and no candidate left out scores higher |
| Fusion.OneListAlone | app/search/engine.py:126-133 | a candidate of the vector list alone scores the vector weight times its last score, one with a single full-text row alone the lexical weight times its rank |
| Fusion.RanksAddUp | app/search/engine.py:130-133 | the ranks of several full-text rows of one candidate add up |
| Fusion.ScoresAreFused | app/search/engine.py:129-140 | exactly the candidates of the two lists are scored, each with the weighted sum of its last vector score and its ranks |
| Fusion.FusionIsMonotone | app/search/engine.py:132-137 | a candidate at least as good in both lists scores no lower |
| Fusion.SortIsStable | app/search/engine.py:142 | candidates with equal scores keep the order in which they came |
| Fusion.HybridSearch | app/search/engine.py:110-160 | the results are the visible ones among a top_k selection, in its order: stored chunks of the caller's tenant with their own text and rounded weighted sum, each once; a visible candidate left out scores no higher; with room for all, none is left out |
| Fusion.RoundingKeepsOrder | app/search/engine.py:152 | rounding to six digits keeps the order of scores and moves none by more than half a millionth |
| Fusion.RoundsToNearest | app/search/engine.py:152 | a shown score is a whole number of millionths, no other of which is nearer, the even one of two that are as near |
| Fusion.VisibleAre | app/search/engine.py:144-150 | the ids shown are those of chunks of the tenant whose documents are there, in the order selected |
| PageGrouping.ElementsToDocument | app/parsers/unstructured.py:35-52 | raw text of all non-empty elements; pages in strictly increasing order, each the joined texts of its elements; equal to the raw text when all elements are paged and in page order |
| PageGrouping.KeptAre | app/parsers/unstructured.py:39-43 | the texts kept are the stripped texts of exactly the elements that are not blank, in order |
| PageGrouping.ItemsAre | app/parsers/unstructured.py:44-46 | the paged items are exactly the non-blank elements with a page number, in order |
| PageGrouping.OnPageAre | app/parsers/unstructured.py:46 | the lines of a page are exactly the texts of its items, in order |
| PyText.StripCutsSpaces | app/parsers/unstructured.py:40 | stripping cuts spaces off both ends, all of them and nothing else |
| PyText.JoinConcat | app/parsers/unstructured.py:48-50 | joined texts are separated by one newline |
| PageGrouping.PagesAreAStableSort | app/parsers/unstructured.py:47-52 | flattening the pages is a stable sort of the paged elements by page number |
| PageGrouping.StableSortIsUnique | app/parsers/unstructured.py:49-52 | and there is only one |
| PageGrouping.InOrderPagesGiveRawText | app/parsers/unstructured.py:47-52 | joining the page texts gives the raw text when all elements are paged and in page order |

## Left out

- LossExactly: the hand-off property is false of the code as it stands; it is stated as an exact condition per step, with runs that lose a document and a simpler sufficient condition on runs.
- StagePrerequisites: assumes that parsing and chunking a document always gives the same list, and leaves out runs that recreate the vector collection (`app/workers/embed_worker.py:92-128`), which erases points of other documents.
- StreamConverges: convergence is false of the code as it stands; it is stated as an exact condition per step and per state, with two runs that diverge. It covers streams of one document, not the tenant-wide view, and neither the purge of a document from a view nor the missing snapshot of a document that is gone.
- ViewersSeeTheTable: the rows of a request are committed and broadcast in one step, and a stage update that commits is broadcast unless the process dies; an exception in between is not modelled.
- OneWriter: is about workers; the requests that write stages are single steps.
- GetPipelineStatus: gives the statuses only; progress, details, timestamps, document fields and the comparison of tenants are left out.
- HybridSearch: scores are reals, so the error of binary floating point is not modelled; the rounding to six digits is.
- Search: the retrieval of the mode, the tabular answers and the timing fields of a response are parameters or left out; the clock is monotone.
- ClaimFairness: is about a job scheduled strictly before the present, since a job enqueued at the same instant may tie with one that has just become due; it excludes restarts.
- Perform: its contract is the frame only; what each statement writes is stated by the lemmas of Effects.
- UploadDocument: is a single step of the protocol; a request interrupted between its statements, or overlapping with another request, is not modelled.
- DeleteDocument: is a single step of the protocol as well.
- ReprocessDocument: is a single step of the protocol as well.
- Ids are counters, so that a fresh uuid never equals an old one.
- Of the tabular path (`app/workers/ingest_worker.py:47-132`) the schema, the making of the summary and the MindsDB upload are not modelled.
- A commit that succeeds and still raises is modelled for `enqueue`, whose refresh comes after the commit (`app/workers/db_queue.py:57-63`), and for partly stored upserts; a lost reply to any other commit is not.
- Payloads, error texts, details and timestamps of stage rows, page and token counts of chunk rows, and checksums of chunks are not stored.
- SKIP LOCKED only matters while another claim is uncommitted; claims are single steps here, and ties in the schedule are open.
- One server process, as the Dockerfile starts it; with several, a start could recover a job that another process is working on.
- Text that cannot be encoded as UTF-8 (lone surrogates) and text that spells a special token of the tokenizer, such as `<|endoftext|>`, raise in the original (`app/ingestion/chunker.py:40`, `:77`); here every text has tokens.
- Tenants are carried by documents; the tenant columns of other rows and the queries that compare them are left out, except in search.
- The other search modes, query cleaning, full-text ranking, NL2SQL answers, parsers, authentication, admin routes, migrations and health checks have no hard property or rest on code that is not part of this model.
