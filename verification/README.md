# Proofs about a document question-answering backend

This project models the parts of the backend whose guarantees are hard to see from any one function, and proves
them in Dafny: a job queue over Postgres with a vector store that no rollback undoes, a second queue and a reviewed
knowledge graph that depend on the first, the chunker, tenant membership, and two small programs of the evaluation
kit. `dafny verify dfyconfig.toml` checks everything.

## How it is organized

**Ingestion.** `Ingestion` is a state machine. A short SQL transaction that locks what it reads and writes is one step.
The transaction of `execute_once` is many: the check of the token, each vector store and file operation, the decision
what evidence to withdraw, and the commit. A worker may die between any two steps. `IngestionInvariant` holds the
invariant and its proof step by step, one document's share of all stores at a time, and `IngestionTheorems` says what
it means to a caller. `Admissions` is about which requests are let in and what becomes of a delete. `Search` is about a
search, which reads the documents at one moment and the points at a later one, `Recheck` about one that looks its
documents up once more. `Backend` (a class with the tables as fields: admission and `claim`) and `Worker`
(`execute_once` and what it calls, over the tables of both queues and the graph) are the same operations written as the
source has them, changing tables in place; each is proved to do what the steps of the state machine do. `RateLimit` and
`Storage` are the limiter and the bounded write that admission rests on.

**Knowledge.** `Evidence` is the withdrawal of evidence, `System` the state machine of both queues and the graph
together, `SystemInvariant` its invariant, `Quiescence` the measure under which the queues drain, `Runs` and
`Guarantees` the statements over all runs, `Leases` and `KnowledgeLeases` those about when a job is claimed again,
`Retries` those about how often, `Reviews` those about proposals and the graph, `Fencing` those about when a token is
accepted, `Support` those about when a fact has evidence. `KnowledgeRace` is a run through a hole in the fencing,
`Witness` and `Overlap` are the concrete runs from the empty database, put together from the pieces in `Traces`.
`Knowledge` has the knowledge worker and the review endpoints in place; `Batches` and `Extraction` the prompts;
`GraphSearch` the two-hop search.

**Chunking.** `Words` and `Chunker` split pages into units, `Packing` says what a greedy packing with overlap is,
`Chunks` packs and joins with loops, `ChunkLines` reads the lines of a chunk, `ChunkTheorems` reads the document back
from the chunks, `Tokens` bounds what the hosted provider's counter makes of a chunk.

**Membership.** `Tenancy` has one function for each request, `TenancyTheorems` what holds over all runs, `Memberships`
what granted requests are good for, `Registry` the endpoints in place.

**Evaluation kit.** `Decimals`, `PdfStrings`, `PdfFile`, `PdfText` and `PdfPrinter` are the PDF printer and a reader
written after ISO 32000-1 (sections 7.3.4.2, 7.5.4 and 7.5.5) for files of this shape: it follows `startxref`, the
table, the page tree and the streams, and knows dictionaries and operators by the exact text this printer gives them.
`McNemar` is the exact test.

`Tables` and `Sums` hold the shared rows and sums over maps.

## What the proofs found

- **A search can return text that is stored nowhere.** `search_documents` and `query_documents`
  (`backend/app/api/documents.py:128-132`, `:156-161`) read the READY documents, `retrieve` then waits for an embedding
  (`backend/app/services/retrieval_service.py:42`) and searches the vectors of those documents, with no lock and no
  second look. `SearchReturnsFailedText` is a run from the empty database in which a reindex gets in between, sends a
  point, fails for good, and the search returns that point's text. `SearchHitExact` is the condition, for every path
  and every hit: the text is a stored row if and only if no points of the document were sent in between without the
  commit that stores their rows, and of the current generation if and only if no reindex was admitted in between
  without being committed. The tenant is right in any case. So a search during which nobody asks for a reindex of the
  document returns current text only (`UndisturbedSearchIsCurrent`). Looking the documents up once more after the
  points have come is enough if it compares the generation too: a hit whose document is then READY at the generation
  it had when the ids were read is current at both moments (`RecheckIsEnough`). Looking only at READY is not:
  `ReadyAgainIsNotEnough` is a run in which the reindex has gone through by then and the text is stored nowhere.
- **A confirmed fact can be left without evidence.** The transaction of an ingestion worker decides which facts to
  withdraw by the evidence it sees (`backend/app/worker.py:85`, `backend/app/services/knowledge_service.py:69-82`),
  then waits for the vector store, files and embeddings, and commits at line 104. It locks its document and job, not
  the facts, and nothing sets an isolation level above the default READ COMMITTED (`backend/app/db/database.py:18-28`);
  and `docs/PROJECT_STATUS_SEPT_2026.md:143` scales by running more workers. In `FactWithoutEvidence`, a run from the
  empty database, an entity rests on one chunk of each of two documents and both are deleted at once: each transaction
  sees the evidence the other is about to delete, and the entity stays CONFIRMED with none; later withdrawals look only
  at facts that lose a row. `UnsupportedIff` is the condition over every run: exactly when two transactions that had
  both decided, both to keep the fact, committed while it rested on their two documents alone, and it has been given no
  evidence since. So a confirmed fact has evidence as long as no two transactions past their decision share it
  (`ConfirmedHasEvidence`), always with one ingestion worker (`OneWorkerSuffices`).
- **An entity can be archived with evidence.** The same gap the other way: in `ArchivedWithEvidence` a member accepts
  evidence for an entity between the decision and the commit, and the commit archives it all the same. It happens
  exactly so (`WithdrawnWithEvidenceIff`), and never to a relationship (`RelationshipsAreWithdrawnWhole`).
- **An overtaken worker can pass the fence.** The token is `(job, attempts)`, and `queue_existing`
  (`backend/app/services/document_service.py:136`) sets `attempts` back to zero. A worker that stalled in an earlier
  round is let through again when a later round reaches the number it holds: `AnOvertakenWorkerPasses` is a concrete
  run from the empty database. `FenceExact` says exactly when a token is accepted, by what happened in the run: when
  the last event of the job is the handing out of a token that is as many-th since its admission as the worker's own
  was. If nobody admits the job again it can only be the worker's own claim with nothing after it (`FenceHolds`), and a
  worker that was overtaken changes nothing (`StaleWorkerIsHarmless`). The document lock still allows one writer at a
  time, and the index stays exact all the same. The knowledge queue has the same hole (`enqueue_knowledge`,
  `backend/app/services/knowledge_service.py:46`) and the same answers: `OvertakenExtractorRun`, `KFenceExact`,
  `KFenceHolds`, `StaleKWorkerIsHarmless`; an extraction moreover commits only if no reindex was asked for since that
  claim (`ExtractionCommitsIff`).
- **Rejecting a proposal accepts it.** `review_proposal` sets REJECTED at line 175 and ACCEPTED at line 216 of
  `backend/app/api/knowledge.py` whatever the decision. The model follows the code: `RejectAccepts` shows one rejection,
  `RejectionRun` reaches one from the empty database, and `NothingIsRejected` says that no proposal is REJECTED in any
  reachable state. The mentions do become REJECTED.
- **The rate limiter allows 2 * limit - 1 requests in sixty seconds**, one fewer than twice the limit, and no fewer
  than that: `SlidingBound`, `SlidingBoundIsReached`.
- **A graph search limit below one still selects an edge**, because the limit is checked after the append
  (`backend/app/services/knowledge_service.py:208-212`): `SelectionDistinct` has the exact condition. The two endpoints
  leave the limit at its default of 12, so this is about the function and not about a request.
- **Token counts do not add up across a join** for the hosted provider's counter, contrary to the contract at
  `backend/app/providers/embeddings/base.py:58-61`. A chunk may count for 5b/3 tokens under a budget of b, no more,
  and every budget has a document that reaches this; so no chunk of several units outgrows the model's window exactly
  when the budget is at most 19661 (`WindowKeptIff`), although `backend/app/services/chunking_service.py:124-127`
  promises it for every size a caller may ask for.
- **Chunk ends need not move on**: `StepShape` says exactly when the next chunk is only a suffix of the one before.
- **Comparing generations decides nothing while a document is READY**: its knowledge job is then for its current
  generation in every reachable state (`ReadyMeansFresh`). So a claim and a review never fail for the generation alone;
  only the check inside the extraction transaction, which does not ask for READY, can (`ExtractionCommitsIff`).
- **The check for an owner behind an invitation is redundant** (`backend/app/api/auth.py:106-108`):
  `InviterCheckIsRedundant`.
- **A printed PDF reads back as its pages exactly when every object starts within ten digits of bytes and every line is
  non-empty latin-1 without a carriage return**: `PrintingUndoneIff`.

## Modelling decisions

- uuid4 keys are naturals that are never handed out twice; uuid5 keys of chunks and points are the tuples they hash;
  hashes and tokens are injective. A job is keyed by its document, which the table's unique constraint makes the same.
- The clock is a parameter of each step. Safety holds for any readings; only the bound on admissions assumes that
  they do not go back.
- `round` (in jobs) and `origin` (in keys) are bookkeeping of the model. They are written by every step and read by
  theorems, never by the code.
- A method's `requires` that a document is not locked stands for waiting until the row lock is granted.
- A crash stops all of a worker's actions and frees its locks.
- The queries by which a transaction decides what to withdraw are one moment, the step `Weigh`; the decision is kept
  with the worker and written by the commit. Until then others see the facts and the evidence as they were.
- No table is written as a map comprehension: Dafny 4.11 takes two equal ones to agree outside their domain as well,
  from which falsehoods follow. Rows are filtered with `-`, and computed by recursion.

## Model

| member | source | states |
|---|---|---|
| IngestionInvariant.StepKeepsInv | backend/app/worker.py:32-129 | every step of any number of workers, requests and crashes keeps rows, points, statuses, locks and tokens consistent for every document at once |
| IngestionInvariant.SomethingIsNext | backend/app/worker.py:38-43 | whenever some job can be claimed, the claim query has a row to return |
| IngestionTheorems.IndexExact | backend/app/services/ingestion_service.py:88-173 | a READY document's points are its chunk rows, one each, with ids of its current generation, and at least one |
| IngestionTheorems.OnePointPerRow | backend/app/services/ingestion_service.py:134-146 | different rows get different points |
| IngestionTheorems.SearchReturnsCurrentChunks | backend/app/api/documents.py:62-74 | at the moment a document is READY, each of its points carries a stored row of the current generation, word for word, of the same tenant |
| Search.SearchHitExact | backend/app/api/documents.py:128-132 | of a search that reads ids and points at different moments: a hit is a stored row, and a current one, if and only if nothing is open of what happened to its document in between; it is of the tenant always |
| Search.UndisturbedSearchIsCurrent | backend/app/services/retrieval_service.py:41-64 | unless a reindex of the document is admitted during the search, every hit is a stored row of the current generation, word for word |
| Recheck.RecheckIsEnough | backend/app/api/documents.py:62-74 | a search that looks its documents up a third time, after the points have come, and drops a hit unless its document is READY at the generation read with the ids, returns text that is current both when the points were read and when it looked again |
| Witness.ReadyAgainIsNotEnough | backend/app/services/document_service.py:129-143 | a run from the empty database in which a hit that is stored nowhere belongs to a document that is READY again |
| Witness.SearchReturnsFailedText | backend/app/api/documents.py:156-161 | a run from the empty database in which a search returns the text of an attempt that has failed for good |
| IngestionTheorems.PointsStayWithTenant | backend/app/services/ingestion_service.py:130-165 | every point belongs to an existing document of the tenant it is stored under |
| IngestionTheorems.StatusAgreement | backend/app/worker.py:47-60 | each document has exactly one job; job status and operation determine document status and source state by one table; SUCCEEDED with DELETE cannot be; a source without a document is a DELETED tombstone |
| IngestionTheorems.SourceAlwaysMatches | backend/app/services/source_service.py:10-12 | the RuntimeError of `set_sync_state` is never raised |
| IngestionTheorems.WritesAreFenced | backend/app/worker.py:73-79 | whatever a worker changes of a document, rows, points or outcome, it changes as the holder of the current token, points and rows under the document lock |
| Fencing.AttemptsAreClaims | backend/app/worker.py:56 | the attempts of a job count the tokens handed out since its last admission |
| Fencing.FenceExact | backend/app/worker.py:77-79 | on every run, a worker passes the token check if and only if the last event of the job is the handing out of a token with the same number since its admission |
| Fencing.FenceHolds | backend/app/worker.py:77-79 | without a new admission since its claim, a worker passes if and only if nothing has happened to the job since |
| Fencing.StaleWorkerIsHarmless | backend/app/worker.py:109-114 | a worker whose job was claimed again, finished or given up, and not admitted again, changes nothing of any document |
| IngestionTheorems.OneWriterPerDocument | backend/app/worker.py:74-77 | two workers inside the transaction of one document are the same worker |
| IngestionTheorems.StepKeepsQuotas | backend/app/services/document_service.py:46-66 | no step takes an organization over its number of documents, its bytes or its pending documents |
| Admissions.UploadAdmittedIff | backend/app/services/document_service.py:53-66 | a file is admitted if and only if the limiter has room, the file is neither empty nor too large, and with it the numbers of documents, of waiting jobs and of bytes are still within the quotas |
| Admissions.ReindexAdmittedIff | backend/app/services/document_service.py:114-131 | a reindex is admitted if and only if the document is the organization's and not locked, its job has SUCCEEDED or FAILED, so that it is READY or FAILED, fewer jobs wait than allowed and the limiter has room |
| Admissions.DeleteAdmittedIff | backend/app/services/document_service.py:114-131 | a delete is admitted if and only if the document is the organization's and not locked, its job is not PROCESSING, and the job waits already or fewer jobs wait than allowed |
| Admissions.AdmittedRequest | backend/app/services/document_service.py:130-143 | an admitted request leaves the job QUEUED for what was asked, with no attempt made; a reindex is for the next generation; rows, points and files stay |
| Admissions.DeleteIsCarriedThrough | backend/app/services/document_service.py:118-123 | on every path, once a delete is admitted the document is gone, or the delete waits or is at work, or a worker has given it up in between |
| Admissions.NoReindexInstead | backend/app/services/document_service.py:121-123 | a reindex admitted after a delete was asked for was asked for after the delete had failed for good: a queued delete is never cancelled by one |
| Admissions.DocumentsAreUploads | backend/app/services/document_service.py:77-88 | every document of a run was uploaded in it, once, for its organization and under its name, and its size is the number of bytes uploaded |
| Runs.IndexExactAlways | backend/app/worker.py:83-104 | index exactness in every reachable state, whatever failed, crashed or was written in part before |
| Runs.DeleteIsComplete | backend/app/worker.py:83-94 | once a delete is committed, in every later state no document, job, knowledge job, file, chunk, point, evidence, mention or proposal of it remains and its source is a DELETED tombstone |
| Runs.NoRowNothingLeft | backend/app/worker.py:87-94 | a source without a document row has nothing left in any store |
| Runs.AnOvertakenWorkerPasses | backend/app/services/document_service.py:136 | a run from the empty database in which a twice overtaken worker passes the token check |
| Support.UnsupportedIff | backend/app/worker.py:83-104 | on every run, a CONFIRMED fact is without evidence if and only if two transactions overlapped on it: the one committed when the fact rested on their two documents alone and neither had decided to withdraw it, the other committed later, and no evidence has been given since the first |
| Support.ConfirmedHasEvidence | backend/app/services/knowledge_service.py:54-82 | as long as no two transactions past their decision share the fact, a CONFIRMED entity or relationship has an existing chunk of its own organization as evidence |
| Support.OneWorkerSuffices | docs/PROJECT_STATUS_SEPT_2026.md:143 | with one ingestion worker at a time no CONFIRMED fact is ever without evidence |
| Overlap.FactWithoutEvidence | backend/app/worker.py:83-104 | a run from the empty database in which two documents are deleted at once and the entity that rested on both stays CONFIRMED with no evidence |
| Support.DecisionIs | backend/app/services/knowledge_service.py:69-82 | what an open transaction will withdraw is, until it ends, the facts that were CONFIRMED and rested on its document alone when it decided |
| Support.WithdrawnWithEvidenceIff | backend/app/worker.py:85-104 | on every run, a fact with evidence is not CONFIRMED if and only if evidence in another document was accepted between the decision of a transaction to withdraw it and its commit, is still there, and none has been accepted since |
| Support.RelationshipsAreWithdrawnWhole | backend/app/api/knowledge.py:104-118 | a relationship that is not CONFIRMED has no evidence |
| Overlap.ArchivedWithEvidence | backend/app/api/knowledge.py:186-197 | a run from the empty database in which an entity is given evidence while a delete waits for its commit, and ends ARCHIVED with that evidence |
| Runs.NothingIsRejected | backend/app/api/knowledge.py:174-216 | no proposal is REJECTED in any reachable state |
| Runs.RejectAccepts | backend/app/api/knowledge.py:174-182 | a rejection leaves the proposal ACCEPTED, the graph as it was and the mentions REJECTED |
| Witness.RejectionRun | backend/app/api/knowledge.py:174-216 | a run from the empty database in which a proposal is rejected and is ACCEPTED |
| Fencing.KFenceExact | backend/app/knowledge_worker.py:66-72 | the same for the knowledge queue, where the commit of an index and a retry request admit a job |
| Fencing.KFenceHolds | backend/app/knowledge_worker.py:66-72 | without a new admission since its claim, a knowledge worker holds the current token if and only if nothing has happened to the job since |
| Fencing.StaleKWorkerIsHarmless | backend/app/knowledge_worker.py:96-100 | a knowledge worker whose job has moved on, and was not admitted again, changes neither stores nor jobs nor graph |
| Fencing.ExtractionCommitsIff | backend/app/knowledge_worker.py:66-72 | an extraction commits if and only if the last event of its job is a claim of its own number and no reindex was asked for since that claim |
| Runs.KWritesAreFenced | backend/app/knowledge_worker.py:66-100 | a knowledge worker changes the graph or its job only with the current token, and the stores of the first queue never |
| SystemInvariant.StepKeepsSysInv | backend/app/knowledge_worker.py:25-111 | every step of either queue, review and crash keeps the joint invariant of tables, both queues, open transactions and graph: no evidence, proposal or mention outlives its chunk |
| SystemInvariant.GraphUnderReview | backend/app/api/knowledge.py:154-223 | reviewing leaves no reference dangling and, where every confirmed fact had evidence, every one has |
| SystemInvariant.LedgerWithdrawn | backend/app/services/knowledge_service.py:64-82 | a commit that drops a document's chunks leaves no evidence that cites them, whatever was decided; if the decision is still right at the commit, it leaves no confirmed fact without evidence |
| Quiescence.WorkDecreases | backend/app/worker.py:47-62 | every claim, success, failure, retry and crash of both queues makes one measure smaller, a success that spawns a knowledge job included |
| Quiescence.WorkIsFinite | backend/app/knowledge_worker.py:38-55 | a run without new requests has at most as many steps as the measure of its first state |
| Quiescence.StuckIffSettled | backend/app/worker.py:115-118 | no worker step is possible if and only if nobody is at work and every job of both queues has SUCCEEDED or FAILED |
| Guarantees.StatusAlwaysAgrees | backend/app/worker.py:115-124 | the table of statuses in every reachable state |
| Guarantees.AttemptsAreBounded | backend/app/worker.py:47-56 | in every reachable state no job of either queue has more attempts than the limit |
| Guarantees.EveryWriteIsFenced | backend/app/worker.py:109-114 | in every reachable state a worker that changes a document holds its current token, and its lock if it is locked |
| Guarantees.QuotasAlwaysHold | backend/app/services/document_service.py:63-70 | in every reachable state documents, bytes and pending documents of each organization are within their limits |
| Guarantees.AdmissionsPerMinute | backend/app/services/document_service.py:32-43 | under a clock that does not go back, no sixty seconds of a run see more than 2 * limit - 1 uploads and reindexes of one organization |
| Guarantees.RunIsLogged | backend/app/services/document_service.py:127 | the admissions of a run are a log that the limiter could have written, entry by entry |
| Guarantees.QueuesDrain | backend/app/knowledge_worker.py:101-106 | from any reachable state, without new requests, the run ends within its measure and ends settled |
| Leases.LeaseIsRespected | backend/app/worker.py:38-58 | on every path, a job that was claimed and since not finished, admitted again or written by a failure of the current attempt is not claimed again before its lease is over |
| Leases.BackoffIsRespected | backend/app/worker.py:115-118 | on every path, a retry waits at least the base delay times two to the number of attempts less one |
| Leases.ClaimedAgainIff | backend/app/worker.py:38-58 | a claimed job that was not written since can be claimed again exactly from the end of its lease on |
| Leases.RetriedIff | backend/app/worker.py:115-118 | a job that waits after a failed attempt can be claimed exactly from the end of its delay on |
| Leases.AdmittedIsClaimable | backend/app/services/document_service.py:137-138 | a job just admitted can be claimed exactly from that time on |
| KnowledgeLeases.KLeaseIsRespected | backend/app/knowledge_worker.py:30-53 | on every path, an extraction that was claimed and since not finished, failed or enqueued again is not claimed again before its lease is over |
| KnowledgeLeases.KBackoffIsRespected | backend/app/knowledge_worker.py:101-106 | on every path, a failed extraction waits at least the base delay times two to the number of attempts less one |
| KnowledgeLeases.KClaimedAgainIff | backend/app/knowledge_worker.py:30-53 | it can be claimed again exactly from the end of the lease on |
| KnowledgeLeases.KRetriedIff | backend/app/knowledge_worker.py:101-106 | after a failure it can be claimed exactly from the end of the delay on |
| KnowledgeLeases.KAdmittedIsClaimable | backend/app/services/knowledge_service.py:43-47 | an extraction that a commit or a retry request enqueued can be claimed exactly from that time on |
| Retries.TokenHandedIff | backend/app/worker.py:47-62 | a claim hands out the next token if and only if fewer than the limit have been handed out since the admission; else the job and the document have failed with RETRIES_EXHAUSTED |
| Retries.RetriedWhen | backend/app/worker.py:115-124 | a failure puts the job back in the queue if and only if it may pass and fewer than the limit have been claimed since the admission; else job and document have failed with the code of the failure |
| Retries.KTokenHandedIff | backend/app/knowledge_worker.py:38-53 | the same for an extraction, which must be for the READY generation as well; the reason of a refusal says which it was |
| Retries.KRetriedWhen | backend/app/knowledge_worker.py:101-106 | a failed extraction waits for another attempt exactly while attempts are left, whatever went wrong |
| RateLimit.WindowBound | backend/app/services/document_service.py:39-43 | each window admits at most `limit` requests |
| RateLimit.SlidingSpan | backend/app/services/document_service.py:39-43 | 2 * limit consecutive admissions span at least a minute |
| RateLimit.SlidingBound | backend/app/services/document_service.py:32-43 | any half-open minute holds at most 2 * limit - 1 admissions |
| RateLimit.SlidingBoundIsReached | backend/app/services/document_service.py:32-43 | for every limit there is a log that reaches the bound |
| Storage.LocalStorage.SaveStream | backend/app/providers/storage/local.py:86-104 | the file is stored whole if and only if it is non-empty and within the limit; otherwise nothing is left, not even the staging file |
| Backend.Store.SetSyncState | backend/app/services/source_service.py:9-18 | fails exactly for a missing or foreign source; else sets state and error, and marks the tombstone on DELETED |
| Backend.Store.ConsumeRate | backend/app/services/document_service.py:32-43 | admits and counts as the window says, or leaves the row as it was |
| Backend.Store.StoredBytes | backend/app/services/document_service.py:63-64 | the loop's total is the sum over the tenant's documents |
| Backend.Store.QueueDocument | backend/app/services/document_service.py:53-94 | admits a file if and only if every limit leaves room for it, whatever the order of checks, and records its size; a refused upload changes nothing and says which limit it was |
| Backend.Store.QueueExisting | backend/app/services/document_service.py:114-148 | admits a reindex or delete if and only if the state machine allows it, with the new generation, job and source state; a refused one changes nothing, and is 404 for a document that is not there, 409 for one that is busy or, for a reindex, pending, and 429 otherwise |
| Backend.Store.Claim | backend/app/worker.py:32-63 | takes the first claimable unlocked row by (available_at, id) if there is one, and does to it what the claim step does |
| Backend.UploadResult | backend/app/services/document_service.py:67-88 | the rows an admitted upload leaves are those of the upload step |
| Backend.RequeueResult | backend/app/services/document_service.py:129-143 | the rows an admitted reindex or delete request leaves are those of its step |
| Backend.ClaimResult | backend/app/worker.py:46-63 | the rows a claim leaves are those of the claim step |
| Worker.LockJob | backend/app/worker.py:74-79 | the lock is taken exactly when the token is current; else the run ends with nothing changed |
| Worker.BuildRows | backend/app/services/ingestion_service.py:88-100 | the loop builds one row for each piece, keyed by document, generation and index |
| Worker.BuildPoints | backend/app/services/ingestion_service.py:127-146 | the loop builds the payloads of exactly the pieces a whole or interrupted upsert gets to |
| Worker.WeighEvidence | backend/app/worker.py:85 | the loops over the touched facts find what the decision step of the whole system decides, and nothing is written yet |
| Worker.FinishIndex | backend/app/worker.py:85-104 | the commit of a successful index carries out what the transaction decided: evidence of the old rows gone, the named facts withdrawn, rows replaced, statuses set, the knowledge job started over; together the commit step of the whole system |
| Worker.FinishDelete | backend/app/worker.py:85-104 | the commit of a successful delete carries out what the transaction decided: evidence, rows, job, knowledge job and document gone, the named facts withdrawn, the source DELETED |
| Worker.RecordFailure | backend/app/worker.py:105-128 | an outcome is recorded for the current token only; retry, backoff and the three statuses as the step has them |
| Worker.Recover | backend/app/worker.py:105-128 | after an exception rows, evidence and knowledge job are as they were, the points as the attempt left them, and the job waits again or has failed |
| Worker.Attempt | backend/app/worker.py:83-104 | the try block with nobody in between: which failure it ends with, if any, at each point where it can, from a half-failed vector delete to an exception just before the commit, and exactly what it leaves in every table, in the vector store and on disk |
| Worker.ExecuteOnce | backend/app/worker.py:66-129 | whatever goes right or wrong, all tables end where steps of the state machine lead; success leaves the document READY with exactly the new rows and an extraction waiting, or gone; each failure leaves rows, evidence and knowledge job as they were, the points and the file as that failure leaves them, and the job queued again or failed |
| Evidence.WithdrawExact | backend/app/services/knowledge_service.py:54-82 | a CONFIRMED fact is withdrawn if and only if its non-empty evidence lay wholly in the vanished chunks; nothing else changes |
| Evidence.WithdrawUnion | backend/app/services/knowledge_service.py:54-82 | withdrawing two documents in turn is withdrawing both at once |
| Evidence.WithdrawCommutes | backend/app/services/knowledge_service.py:54-82 | the order of two withdrawals does not matter, and repeating one changes nothing |
| Evidence.WithdrawAllIsUnion | backend/app/services/knowledge_service.py:54-82 | any sequence of withdrawals is the withdrawal of everything in it |
| Evidence.WithdrawAtOnce | backend/app/services/knowledge_service.py:54-82 | deciding and committing with nobody in between is that withdrawal |
| Evidence.KnowledgeTables.WithdrawDocumentKnowledge | backend/app/services/knowledge_service.py:54-82 | with nobody in between, the loops over touched facts, in any order, compute that withdrawal |
| Evidence.KnowledgeTables.LookAgain | backend/app/services/knowledge_service.py:69-82 | looking again at the touched facts only, in any order, finds every fact to withdraw |
| Batches.ExtractionBatches | backend/app/services/knowledge_service.py:85-99 | an order-preserving partition into batches that are single chunks or within the budget, and no such partition has fewer |
| Batches.GreedyStaysAhead | backend/app/services/knowledge_service.py:89-98 | after any number of batches the greedy packing has taken in at least as many chunks as any other |
| Batches.GreedyIsOptimal | backend/app/services/knowledge_service.py:85-99 | so it needs no more batches than any other |
| Extraction.ExtractProposals | backend/app/services/knowledge_service.py:116-155 | drafts are kept if and only if there are chunks, every answer is usable and all drafts together are within the limit; then they are all the answers' drafts, in order |
| Extraction.AskAll | backend/app/services/knowledge_service.py:122-155 | checking the running total after each batch comes to the same as checking the whole |
| Extraction.AcceptableIff | backend/app/services/knowledge_service.py:101-139 | the answers are kept if and only if each is there, cites chunks of its own prompt only, and all hold together no more items than the limit |
| Extraction.EveryItemIsKept | backend/app/services/knowledge_service.py:139-155 | nothing is dropped: the drafts of each answer stand together, behind those before it, entities first, in order |
| Extraction.DraftsCiteTheDocument | backend/app/services/knowledge_service.py:110-112 | every draft cites a chunk of the document |
| GraphSearch.Hop | backend/app/services/knowledge_service.py:198-213 | one hop appends, in list order, the edges at the frontier not selected before, cut at the limit |
| GraphSearch.Walk | backend/app/services/knowledge_service.py:193-217 | the walk selects the first `limit` of the edges at a seed followed by the remaining edges at a neighbour |
| GraphSearch.RetrieveGraph | backend/app/services/knowledge_service.py:179-237 | the answer is the facts of those edges, among the edges active at the moment of the first 2000 rows, and the entities of the first 5000; when no more than `limit` of them lie within two hops, one of them is in it if and only if it holds at the moment, joins confirmed entities, shows an excerpt that passes the filters, and touches, or shares an end with one that touches, an entity the query names, or the subject of a predicate it names when it names no entity |
| GraphSearch.AnswersExactly | backend/app/services/knowledge_service.py:179-237 | the walk, the seeds and the facts together are that answer |
| GraphSearch.SelectionIsNeighbourhood | backend/app/services/knowledge_service.py:197-217 | under the limit an edge is selected if and only if it touches a seed or shares an end with one that does |
| GraphSearch.SelectionIgnoresOrder | backend/app/services/knowledge_service.py:197-217 | under the limit the order of the list does not matter |
| GraphSearch.SelectionDistinct | backend/app/services/knowledge_service.py:203-212 | no edge twice; the limit is kept if and only if it is positive, or zero with nothing to select |
| GraphSearch.FactsAreSupported | backend/app/services/knowledge_service.py:219-237 | a fact is in the answer if and only if its edge is selected, joins confirmed entities and still shows an excerpt |
| GraphSearch.ShownIsEvidence | backend/app/services/knowledge_service.py:223-230 | an excerpt is shown if and only if it is among the first five of the edge's evidence and passes the filters |
| Knowledge.Desk.EnqueueKnowledge | backend/app/services/knowledge_service.py:38-51 | creates the document's job or starts it over |
| Knowledge.Desk.RetryExtraction | backend/app/api/knowledge.py:131-139 | does the extract step exactly when it is possible; else 404 or 409 and nothing changed |
| Knowledge.Desk.Claim | backend/app/knowledge_worker.py:25-55 | takes the first claimable job if there is one; a stale or exhausted one is failed on the spot |
| Knowledge.Desk.ExtractOnce | backend/app/knowledge_worker.py:63-92 | is rolled back exactly when the token is current and the drafts are missing or do not fit; else the drafts replace the unreviewed ones, or an overtaken worker changes nothing |
| Knowledge.Desk.RecordFailure | backend/app/knowledge_worker.py:96-110 | the failure step, for the current token only |
| Knowledge.Desk.RunOnce | backend/app/knowledge_worker.py:58-111 | a whole run is a path of the state machine |
| Knowledge.Desk.RequireEvidence | backend/app/api/knowledge.py:55-66 | passes exactly when all chunks exist in READY documents of the organization; 409 when one of their documents is not such, else 400 |
| Knowledge.Desk.CreateEntityRecord | backend/app/api/knowledge.py:77-87 | the create step exactly when it is possible; else nothing changed |
| Knowledge.Desk.CreateRelationshipRecord | backend/app/api/knowledge.py:104-118 | the create step exactly when both ends are different confirmed entities of the organization and the evidence holds; else nothing changed, with 422, 404 or 409 for the first that is not so |
| Knowledge.Desk.ResolveMentions | backend/app/api/knowledge.py:199-204 | the loop resolves exactly the unreviewed mentions of the same job, chunk and name |
| Knowledge.Desk.ReviewProposal | backend/app/api/knowledge.py:154-223 | succeeds exactly when the step its body asks for is possible, and then is that step; else every table is as before, with 404 for an unknown proposal and 409 for one it reads as reviewed or whose job is not for the READY generation |
| Knowledge.DecisionMeans | backend/app/api/knowledge.py:174-216 | a granted rejection touches no fact; an acceptance makes the entity proposed, or adds the chunk to the entity named, or makes the relationship between the ends named, and touches no other fact |
| Reviews.ReviewedStays | backend/app/api/knowledge.py:172-216 | a reviewed proposal is not reviewed again and stays as it is; it goes only when its document's chunks go |
| Reviews.ReviewedOnce | backend/app/api/knowledge.py:172-173 | on every path a proposal is reviewed at most once as long as it is there |
| Reviews.DraftsKeptIff | backend/app/services/knowledge_service.py:101-139 | an extraction with the current token may commit its drafts if and only if the document has chunks, the proposals are within the limit, and every row is new, unreviewed and cites a chunk of the document |
| Reviews.ExtractionReplaces | backend/app/knowledge_worker.py:78-87 | after an extraction the unreviewed rows of the document are exactly its drafts; reviewed rows and those of other documents are as before |
| Reviews.MentionsResolved | backend/app/api/knowledge.py:176-204 | a review resolves the unreviewed mentions of the same job, chunk and name of an entity proposal, and no others: LINKED or REJECTED as it was decided |
| Reviews.EvidenceIsCurrent | backend/app/api/knowledge.py:55-66 | evidence is given only by chunks of the current generation of READY, unlocked documents of the fact's organization |
| Reviews.RelationshipsJoinEntities | backend/app/api/knowledge.py:104-118 | in every reachable state a relationship joins two different entities of its organization |
| Reviews.UnreviewedIsBounded | backend/app/services/knowledge_service.py:137-139 | in every reachable state a document has at most as many unreviewed proposals as one extraction may make |
| Reviews.ReadyMeansFresh | backend/app/api/knowledge.py:170-171 | the knowledge job of a READY document is for its current generation |
| KnowledgeRace.AnOvertakenExtractorPasses | backend/app/services/knowledge_service.py:44-49 | from every reachable state with one fresh extraction waiting, a worker overtaken twice can pass the token check |
| Witness.OvertakenExtractorRun | backend/app/services/knowledge_service.py:44-49 | such a run from the empty database, through the indexing of the document |
| Words.SplitText | backend/app/services/chunking_service.py:62 | joining words with spaces and splitting at white space gives the words |
| Chunker.Sentences | backend/app/services/chunking_service.py:22 | every piece but the last ends a sentence, no piece has a sentence end inside, the last word stays last |
| Chunker.SentencesConcat | backend/app/services/chunking_service.py:22 | the pieces put together are the paragraph |
| Chunker.CutsAtStops | backend/app/services/chunking_service.py:22 | a piece ends, unless it is the last, at a word with a full stop, an exclamation mark or a question mark, and has none before |
| Chunker.WrittenUnits | backend/app/services/chunking_service.py:50-62 | the loops number the paragraphs that hold a word, on the pages they stand on |
| Chunker.ParagraphsNumbered | backend/app/services/chunking_service.py:50-62 | paragraphs are numbered through the document, from one on, blank ones left out |
| Chunker.SplitUnits | backend/app/services/chunking_service.py:64-86 | the two passes with their early exit are paragraphs where they fit, else sentences where they fit, else words |
| Chunker.CoarsestFirst | backend/app/services/chunking_service.py:43-84 | a unit is there if and only if it is a paragraph that fits, a sentence that fits of one that does not, or a word of a sentence that does not: nothing is split without need |
| Chunker.SplittingKeepsReading | backend/app/services/chunking_service.py:42-86 | splitting loses, adds and reorders no word and moves none to another page or paragraph; every unit fits or is one word |
| Packing.PackingUnique | backend/app/services/chunking_service.py:143-178 | counts and budgets determine the packing |
| Packing.StepShape | backend/app/services/chunking_service.py:171-178 | from chunk to chunk the start moves on, the end does not move back, nothing lies between, the overlap fits its budget; the end stays exactly when the overlap leaves no room for the next unit |
| Packing.StartsIncrease | backend/app/services/chunking_service.py:149-178 | over any number of chunks each start is at least one further than the one before |
| Packing.NoMoreChunksThanUnits | backend/app/services/chunking_service.py:149-178 | never more chunks than units |
| Packing.EndsMayRepeat | backend/app/services/chunking_service.py:153-178 | a packing whose ends do not strictly increase |
| Chunks.FindEnd | backend/app/services/chunking_service.py:150-162 | the inner loop stops where the chunk fits or is one unit and one more would not fit |
| Chunks.StepBack | backend/app/services/chunking_service.py:171-176 | the second loop steps back as far as the overlap budget allows, short of the whole chunk |
| Chunks.Join | backend/app/services/chunking_service.py:183-197 | the texts with a blank line between paragraphs and a space inside one, and the page of the first unit |
| ChunkLines.ContentLines | backend/app/services/chunking_service.py:183-197 | the lines of a chunk are the words of each paragraph it has a part of, a line for each, with a blank line between two |
| Chunks.ChunkPages | backend/app/services/chunking_service.py:89-180 | ValueError exactly when the size asked for, or the provider's own where none is, or the window of the model leaves no token besides the four of the margin; else the units joined along the greedy packing for the largest budget that leaves the margin in both: every chunk keeps both sizes or is one word, and with one unit more would be over one of them |
| ChunkTheorems.SplitContent | backend/app/services/chunking_service.py:183-197 | the words of a chunk's content are the words of its units |
| ChunkTheorems.DocumentRecovered | backend/app/services/chunking_service.py:42-197 | reading the chunks in order without what each shares with the one before gives exactly the words of the document |
| ChunkTheorems.ChunkPage | backend/app/services/chunking_service.py:195-197 | a chunk's page is the page of its first word, blank pages counted |
| ChunkTheorems.ChunkPagesInOrder | backend/app/services/chunking_service.py:149-197 | pages do not decrease along the chunks and are pages of the document |
| ChunkTheorems.ChunkFits | backend/app/services/chunking_service.py:153-162 | the units of a chunk fit the budget, or the chunk is a single word |
| ChunkTheorems.ChunkKeepsBoth | backend/app/services/chunking_service.py:128-130 | the counts of a chunk's units come to at most the size asked for less four and the window less four, or the chunk is a single word |
| Tokens.JoinBound | backend/app/providers/embeddings/nvidia.py:88-98 | units within a budget b join to at most ceil((5b - 2) / 3) tokens |
| Tokens.ChunkBound | backend/app/services/chunking_service.py:153-197 | so does every chunk of the chunker that is not a single word |
| Tokens.BoundIsReached | backend/app/providers/embeddings/base.py:58-61 | every budget has a document whose one chunk reaches the bound, which is over the budget from two on |
| Tokens.WindowKeptIff | backend/app/providers/embeddings/nvidia.py:71-98 | no units within the budget outgrow the window of 32768 tokens if and only if the budget is at most 19661 |
| TenancyTheorems.AlwaysAnOwner | backend/app/api/organizations.py:318-334 | through any sequence of requests every organization keeps an owner |
| TenancyTheorems.StepKeepsOwned | backend/app/api/organizations.py:324-335 | each request on its own keeps it, the removal of an owner by that owner included |
| TenancyTheorems.StepKeepsVouched | backend/app/api/organizations.py:336-346 | each request keeps every live invitation issued by a current owner |
| TenancyTheorems.NoBackDoor | backend/app/api/organizations.py:336-346 | who does not own an organization has no invitation to it that could be accepted, in any reachable state |
| TenancyTheorems.PromotionRevivesNothing | backend/app/api/organizations.py:337-346 | an invitation issued before its issuer lost ownership can never be accepted, even after a new promotion |
| TenancyTheorems.InviterCheckIsRedundant | backend/app/api/auth.py:99-108 | the issuer of a live invitation owns the organization, in every reachable state |
| TenancyTheorems.PendingIsBounded | backend/app/api/organizations.py:211-222 | never more than 100 pending invitations for an organization |
| TenancyTheorems.StepKeepsFewPending | backend/app/api/organizations.py:211-222 | each request keeps that bound |
| TenancyTheorems.OnlyOwnersChangeMembers | backend/app/api/auth.py:95-131 | a membership changes only by an owner's edit, by accepting an owner's invitation with the role it offers, or by founding the organization |
| TenancyTheorems.DeadStaysDead | backend/app/api/auth.py:99-105 | an accepted or revoked invitation stays so |
| TenancyTheorems.RevocationIsFinal | backend/app/api/organizations.py:286-289 | after a granted revocation the invitation is refused in every later state, whoever presents it |
| TenancyTheorems.AcceptedOnce | backend/app/api/auth.py:127-132 | an accepted invitation adds exactly the membership it offers to the account of its email, and is refused in every later state |
| TenancyTheorems.StepKeepsOneLive | backend/app/api/organizations.py:145-166 | of the keys rotated from one another at most one is unrevoked |
| TenancyTheorems.RotationIsBounded | backend/app/api/organizations.py:150-166 | rotation, however often, keeps role and organization, never outlives the first key, and leaves one working key at most |
| TenancyTheorems.RotationHandsOver | backend/app/api/organizations.py:150-166 | a rotated key never works again in any later state; its replacement has its role and no later expiry |
| Memberships.MemberIff | backend/app/api/organizations.py:318-355 | on every run a user is a member with a role if and only if the last granted request about that membership, founding, edit or acceptance, gave this role |
| Memberships.EditGrantedIff | backend/app/api/organizations.py:318-355 | an edit is granted if and only if its actor is an owner, its target a member and not the last owner losing the role; then the target has the role asked for, or is no member, and no other membership changes |
| Memberships.RemovedStaysOut | backend/app/api/organizations.py:332-333 | a removed member is none in any later state until that account accepts an invitation to the organization |
| Memberships.FoundGrantedIff | backend/app/api/organizations.py:58-85 | an organization is founded if and only if the user owns fewer than the limit |
| Memberships.InviteGrantedIff | backend/app/api/organizations.py:202-222 | an invitation is made if and only if its actor is an owner and fewer than 100 of the organization are open |
| Memberships.InvitationIsIssued | backend/app/api/organizations.py:222-235 | every invitation of a run offers the role, to the email and until the time, that the owner who made it asked for |
| Memberships.TakeBackGrantedIff | backend/app/api/organizations.py:271-289 | an invitation is revoked by an owner of its organization; only the first revocation counts |
| Memberships.LiveIff | backend/app/api/auth.py:99-105 | an invitation is live if and only if it was made and neither accepted nor revoked since, and its issuer neither removed nor demoted |
| Memberships.AcceptGrantedIff | backend/app/api/auth.py:86-132 | an acceptance is granted if and only if the invitation is live, not over and for this email, an existing account is enabled and its password right, a new one is not raced, and the account is no member |
| Memberships.RefusalsTell | backend/app/api/organizations.py:58-355 | a refused request changes nothing, and its code tells the reason |
| Memberships.KeyWorksIff | backend/app/api/organizations.py:135-200 | on every run a key works for an organization with a role if and only if it was issued so, not rotated or revoked since, and is not over |
| Memberships.KeyGrantedIff | backend/app/api/organizations.py:88-200 | when a key is made, rotated and revoked |
| Registry.Rows.CreateOrganization | backend/app/api/organizations.py:58-85 | organization, owner and key together, or 429 and nothing |
| Registry.Rows.Invite | backend/app/api/organizations.py:202-235 | one new invitation of this owner, or an error and nothing changed |
| Registry.Rows.RevokeInvitation | backend/app/api/organizations.py:271-289 | revokes once; an error changes nothing |
| Registry.Rows.AcceptInvitation | backend/app/api/auth.py:86-143 | account, membership and acceptance together, or the error of the first check that fails, the conflict over a new account included, and nothing changed |
| Registry.Rows.EditMembership | backend/app/api/organizations.py:318-355 | role change or removal with the revocation of a former owner's invitations, or an error and nothing changed |
| Registry.Rows.RevokeAll | backend/app/api/organizations.py:338-346 | the loop revokes these invitations and no others |
| Registry.Rows.RotateKey | backend/app/api/organizations.py:135-176 | the replacement and the revocation together, or an error and nothing changed |
| PdfStrings.EscapeIsBytewise | backend/eval/build_corpus.py:31-41 | the chain of replacements escapes byte by byte |
| PdfStrings.ReadBack | backend/eval/build_corpus.py:31-41 | a reader of literal strings gets every escaped string back with its line ends normalized, and stops at the closing parenthesis |
| PdfStrings.LineReadsBackIff | backend/eval/build_corpus.py:31-41 | a line reads back unchanged if and only if it is latin-1 without a carriage return |
| PdfFile.ObjectAtOffset | backend/eval/build_corpus.py:132-139 | the recorded offset of object N is the first byte of `N 0 obj` |
| PdfFile.ReadPrintedEntry | backend/eval/build_corpus.py:147-148 | an entry is twenty bytes and reads back if and only if the offset has at most ten digits |
| PdfFile.FileReadsBackIff | backend/eval/build_corpus.py:132-155 | following startxref and the table recovers exactly the objects, if and only if every offset has at most ten digits |
| PdfFile.TrailerCounts | backend/eval/build_corpus.py:149-154 | the trailer states how many entries the table has |
| PdfText.ContentReadsBack | backend/eval/build_corpus.py:96-113 | the content stream of a page reads back as its lines |
| PdfText.SeenIff | backend/eval/build_corpus.py:104-110 | a line comes back as it went in if and only if it is non-empty latin-1 without a carriage return |
| PdfText.PrintingReadsBack | backend/eval/build_corpus.py:69-155 | a reader that follows startxref, table, page tree and streams sees the lines of every page, in order |
| PdfText.PrintingUndoneIff | backend/eval/build_corpus.py:69-155 | a file reads back as the pages it was printed from if and only if every offset has at most ten digits and every line is non-empty latin-1 without a carriage return |
| PdfPrinter.Layout | backend/eval/build_corpus.py:44-66 | the pages put together are the lines, with 46 on each but the last; no lines make one page with an empty line |
| PdfPrinter.StrippedIff | backend/eval/build_corpus.py:53-54 | a stripped line is the one way to take from the raw line all hashes and white space a heading starts with and the white space any line ends with, and nothing else |
| PdfPrinter.LinesInOrder | backend/eval/build_corpus.py:52-59 | no source line is lost: each is printed, and they keep their order |
| PdfPrinter.LineIsWrapped | backend/eval/build_corpus.py:55-59 | a blank line is printed as a blank line, any other wrapped |
| PdfPrinter.PaginationUnique | backend/eval/build_corpus.py:61-64 | there is only one such division into pages |
| PdfPrinter.DrawPage | backend/eval/build_corpus.py:96-113 | the joined operators are the content stream of the page |
| PdfPrinter.WriteFile | backend/eval/build_corpus.py:132-155 | appending objects, noting offsets and appending entries builds the file |
| PdfPrinter.RenderPdf | backend/eval/build_corpus.py:69-155 | the loops build the file of these pages |
| McNemar.DoubledTail | backend/eval/compare.py:51-53 | twice the tail exceeds 2^n if and only if as many were gained as lost, and equals it if and only if they differ by one |
| McNemar.ExactProperties | backend/eval/compare.py:40-53 | symmetric, in (0, 1], 1 if and only if the counts differ by at most one, cut off if and only if they are equal |
| McNemar.ExactIsShareOfOutcomes | backend/eval/compare.py:40-53 | the share of all 2^n outcomes of n coin flips that are at least as one-sided |

## Left out

- ChunkPages: takes the overlap budget as a parameter, because `int(budget * OVERLAP_RATIO)` is floating point.
- Sentences: a paragraph is a sequence of words and a sentence ends after a word ending in `.`, `!` or `?`; the regular expressions that find paragraphs and sentences in raw text are not modelled.
- Layout: takes the source lines as given and `textwrap.wrap` as a function; neither `splitlines` nor the wrapping at 78 columns is modelled.
- Exact: is computed in exact arithmetic; the rounding of the floating-point division is not modelled.
- RetrieveGraph: takes the words of the query, the names and the predicates as given; the regular expression that finds them is not modelled.
- QueueDocument: reads the blocks once for their length; `SaveStream` has the loop, and that a request dying between file and commit leaves a file without a row is the step `Orphan`.
- QueueExisting: does not model the refusal for an empty `storage_path`, which no upload leaves behind.
- AcceptInvitation: the password check is a parameter, and so is whether another request creates the same account at that moment.
- CreateOrganization: is one step; the limit of organizations per user is checked under the user's lock.
- AskAll: an answer is the list of chunks it cites, or nothing where the JSON is invalid; the other fields of a proposal are not modelled.
- ExecuteOnce: runs with nobody in between, as do `Attempt` and `RunOnce`; what other workers, requests and crashes do in between is in the state machine, whose steps it takes.
- ReviewedOnce: holds where each review sees the status of the moment, as `ReviewedStays` does; the next line has the exception.
- ReviewProposal: reads the proposal after it has the document lock. In `backend/app/api/knowledge.py:158-172` a second member who waited for that lock still has the PROPOSED read before, since the row is selected again without `populate_existing`, and so can review the proposal a second time; the model does not have this.
- Claim: row locks are those of the document; the model has no separate lock for the job row, which is only ever locked after its document.
- Setting `status` by PATCH on an entity or relationship can confirm a fact without evidence; the evidence invariant is about runs without it.
- Workers that go on writing to the vector store after losing their database session.
- Legacy organizations that were never created by `create_organization`, and the operator's `attach-owner` for them.
- Who may create or revoke an API key: these requests are allowed to anyone in the model, which makes the bounds on rotation hold for more runs.
- Query admission, authentication throttling, sessions, passwords, audit records, usage records, metrics and response shaping.
- The vector store's search, embeddings, reranking, ranking scores and the language model.
- `compare` beyond the test: the counting of hits and the text of the report.
- Migrations, backup, relocation of storage and restore.
