# A verified model of the support assistant's stores, pool, cache and chat pipeline

The repository is a retrieval-augmented support assistant. Documents are split into chunks and written to three
stores (a SQLite chunk store, a BM25 index, a vector index); questions are answered from retrieved chunks, with a
Redis cache of first-turn answers and Redis-backed sessions. This project models its stateful core in Dafny and
proves what that core promises.

**Ingestion.** `IngestProtocol` is a state machine over the three stores: a step is one store call, which succeeds,
fails (a failed vector call may have reached any subset of its points, a SQLite call is a transaction) or is cut off
by a crash, after which anything may be ingested next. `IngestInvariant` and `IngestSteps` give the inductive
invariant that replaces the informal argument of the pipeline's docstring; `IngestGuarantees` and `IngestSafety` draw
the results from it for every intermediate state of every run, and `IngestOutlook` says exactly what a state can still
lead to. `committed` and `pins` in its world are history only.
`IngestionService` is the pipeline as imperative code over the store objects (`ChunkStore.Store`, `Bm25Index.Index`,
`VectorStore.Index`), each of which counts the calls it failed; each call is one step of the machine, so `Ingest` is
proved from any state that earlier failures and crashes can have left.

**Chunking.** `Words` and `SentenceSplitter` model sentence splitting, and `SentenceCuts` says position by position
where a line is cut. `ChunkWindows` has the window loop and proves what the windows are, `Chunker` makes the drafts and
proves that their texts retell the document.

**The retriever pool.** `RetrieverPool` has any number of threads as program counters over the semaphore, the locked
sections, the factory and the connection closes, interleaved arbitrarily; `PoolGuarantees` holds the results, and
`PoolAfterClose` says which calls a closed pool is sure to answer with an error. `PooledRetrievers` is the object: the
locked sections as methods, and `retrieve` and `close` as one thread executes them while the others, and any finite
number of newcomers, take any steps in between.

**The response cache.** `ResponseCache` models the Redis commands, the two pipelines and the objects; `CacheRuns`
interleaves any number of sets and two-step invalidations; `CacheCoherence` joins the cache with the ingest machine in
runs where answering and ingesting do not overlap.

**Answering.** `StableSort`, `RankFusion` (the fold over exact fractions) and `HybridRetriever` (what a query is
answered with, said by places alone, and the object over its backends), `Reranker` (constrained merge, score parsing),
`PromptContext` (escaped prompt with a reader for it), `Citations`, `SessionStore`, and `Chat`, which runs the whole
request over the other objects.

**Backends.** The embedders, the search indexes and the two models are objects that may answer anything or fail. Each
keeps a record, written by its own methods alone, of what it was asked and what it answered, and counts its faults;
what the pipelines promise about their calls is said about those records.

## Where the code and its own documentation differ

The model follows the code.

- `RetrieverPool.close` documents that later `retrieve` calls raise. A call the closed pool has not served is sure to
  raise exactly when it already has its slot; one still waiting for a slot can be left waiting for ever, because the
  close may take all the slots first and keeps them. So no call made on a closed pool is sure to return
  (`RetrieveAfterCloseRaisesIff`, `ACallAfterCloseIsNeverSafe`; `RetrieveAfterCloseCanBlockForever` is a run). A waiting
  call can still raise on some schedule exactly while no close has all the slots (`RetrieveAfterCloseCanRaiseIff`).
- "A failed request leaves the session exactly as it was" (src/app/api/chat.py:15-18) holds of refusals, unusable
  generations and failing retrievals. When the session store raises on the answer's turns the question alone may stay
  behind; of the three possible results only that one puts the session out of turn (`CutShortKeepsPairsIff`), until ten
  further exchanges have pushed it out (`HalfExchangeHealsIff`) or the session expires.
- `ingest` documents `IngestError` as its failure. The sweep's read is outside the `try`
  (src/app/ingestion/pipeline.py:257), so its error escapes as it is. That can happen exactly to a document of which
  some version is stored (`SweepReadCanRaiseIff`; `SweepReadCanEscape` is a run).
- "The previously active version is never deleted" does not make a complete version permanent: on a first ingest a
  vector call that reports failure after writing everything makes the new version complete for a moment, and the
  rollback removes it (`CompletenessCanBeLost`). A document can lose its last complete version exactly when that is the
  version being written or rolled back (`CompletenessCanBeLostIff`).
- A rolled-back version's number is allocated again, so an id read during an aborted write can come to name other text
  (`AbortedIdsCanBeRebound`). A stored id can be rebound exactly while its version is being written or rolled back:
  rows left by a crash or a failed rollback are as firm as those of a finished ingest (`RowsCanBeReboundIff`).
- "Sentences are never dropped" holds exactly when the overlap is not negative or the text fits one window
  (`EverySentenceIsKeptIff`; `ASentenceCanBeDropped` is a text that loses one).
- `best`, the gate's score, is that of the earliest scored slot of the full merged order. It belongs to a returned chunk
  exactly when some candidate in the first `top_n` fused places was scored (`GateScoreIsShownIff`; in
  `GateScoreCanBeCut` none was).

## Model

| member | source | states |
|---|---|---|
| ChunkIds.ChunkIdReadsBack | src/app/stores/chunk_store.py:51-52 | the printed id determines document, version and position, for every document id, colons included |
| ChunkIds.PrintedId | src/app/stores/chunk_store.py:51-52 | document faq, version 12, position 3 is printed faq:12:3 |
| ChunkIds.ChunkIdInjective | src/app/stores/chunk_store.py:51-52 | two chunk ids are equal only for the same document, version and position |
| ChunkStore.Latest | src/app/stores/chunk_store.py:137-142 | an upper bound of the stored versions that is itself stored, or 0 when none is |
| ChunkStore.UpsertSucceedsIff | src/app/stores/chunk_store.py:82-111 | on well-formed tables the transaction's inserts succeed exactly when no two drafts share a position |
| ChunkStore.UpsertKeeps | src/app/stores/chunk_store.py:89-111 | an upsert keeps rows keyed by their printed ids, no orphan rows, and active exactly at the highest version |
| ChunkStore.DeleteKeeps | src/app/stores/chunk_store.py:152-163 | so does a delete, whichever version goes |
| ChunkStore.AnySequenceKeepsActiveHighest | src/app/stores/chunk_store.py:82-163 | after any sequence of upserts and deletes the active row of each document is exactly its highest version |
| ChunkStore.DeleteUndoesUpsert | src/app/stores/chunk_store.py:144-163 | deleting the version just created restores both tables exactly, active flags included |
| ChunkStore.ByOrd | src/app/stores/chunk_store.py:113-119 | the rows of a version, each once, in strictly ascending position |
| ChunkStore.HydrationKeepsOrder | src/app/stores/chunk_store.py:121-135 | hydration returns the rows of exactly the known ids, in the order asked for |
| ChunkStore.ListingAfterUpsert | src/app/stores/chunk_store.py:113-119 | the only listing possible right after an upsert is the new rows in draft order |
| ChunkStore.Store.UpsertDocument | src/app/stores/chunk_store.py:82-111 | all or nothing: the next version with its rows, or unchanged tables; it fails only on a database fault or a repeated position |
| ChunkStore.Store.DeleteVersion | src/app/stores/chunk_store.py:144-163 | all or nothing: the version's rows gone and the highest remaining version active, or unchanged tables |
| ChunkStore.Store.GetChunks | src/app/stores/chunk_store.py:113-119 | exactly the version's rows, in position order |
| Bm25Index.DedupedHolds | src/app/stores/bm25_index.py:58-61 | deduplicating by id leaves distinct ids and, for each id, the last chunk given |
| Bm25Index.KeptView | src/app/stores/bm25_index.py:80-84 | deleting rows by a property of the row removes exactly the entries of the ids it selects |
| Bm25Index.Index.IndexChunks | src/app/stores/bm25_index.py:58-70 | the row table behaves as a map: the given entries replace those with the same ids, or nothing changes |
| Bm25Index.Index.RemoveDocumentVersion | src/app/stores/bm25_index.py:72-84 | exactly the entries of that document and version go, or nothing changes |
| VectorStore.BatchPairs | src/app/stores/vector_store.py:95-118 | zipping gives each chunk id the vector of its own place, and no other ids |
| VectorStore.LastOfAnId | src/app/stores/vector_store.py:95-118 | of chunks with the same id the last one's vector counts |
| VectorStore.Index.Upsert | src/app/stores/vector_store.py:95-118 | all points written, or on failure those of some subset of ids; mismatched lengths are refused unchanged |
| VectorStore.Index.DeleteDocumentVersion | src/app/stores/vector_store.py:133-152 | all points of the version removed, or on failure some subset of them |
| IngestSteps.StepKeeps | src/app/ingestion/pipeline.py:188-271 | the invariant survives every step: success, failure, partly applied vector call, crash |
| IngestSteps.RunKeeps | src/app/ingestion/pipeline.py:1-45 | the invariant holds in every state of every run |
| IngestGuarantees.EveryStateIsOrderly | src/app/ingestion/pipeline.py:188-271 | in every intermediate state each index entry names a stored version or the next number to be allocated, a version has a document row exactly when it has chunk rows, and the active row is the highest |
| IngestGuarantees.SuccessLeavesOneVersion | src/app/ingestion/pipeline.py:177-186 | a completed sweep leaves the document as exactly its new version: its active document row with the title, chunk rows, texts and each position's own vector, nothing else; other documents are as they were when the ingest began |
| IngestGuarantees.JobBegan | src/app/ingestion/pipeline.py:158-186 | whatever is in progress belongs to the last ingest begun, and its snapshot is the state that ingest began in |
| IngestSafety.StepFrame | src/app/ingestion/pipeline.py:188-271 | one step changes no row or entry outside the one version it is about |
| IngestSafety.AvailabilityIsNeverLost | src/app/ingestion/pipeline.py:11-21 | once a document has a complete version other than the one being written, every later state of the run has one |
| IngestSafety.StaysAvailable | src/app/ingestion/pipeline.py:188-271 | the same for a single step |
| IngestSafety.OnlyTheInFlightVersionIsLost | src/app/ingestion/pipeline.py:217-229 | a step that takes a document's last complete version away is an undo or write step on the version in flight, and that was the only complete one |
| IngestSafety.SweepingStaysComplete | src/app/ingestion/pipeline.py:247-271 | no sweep step, failed or not, touches the new version: it stays complete, each row with its own text and vector |
| IngestSafety.RollbackRestores | src/app/ingestion/pipeline.py:217-245 | when all three undo steps succeed the tables are exactly those of before the ingest and the indexes those of before minus the aborted version |
| IngestSafety.RollbackKeepsCompleteIff | src/app/ingestion/pipeline.py:217-245 | after a clean rollback the document has a complete version exactly when some other version was complete before it |
| IngestSafety.CitationsAreNeverRebound | src/app/ingestion/pipeline.py:20-40 | a chunk id of any fully written version never names other text, title or vector in any of the three stores, in any later state |
| IngestSafety.SuccessPinsItsIds | src/app/ingestion/pipeline.py:202-212 | the ids of a successful ingest are among those, each pinned to its own row and vector |
| IngestSafety.HistoryGrowsInRuns | src/app/ingestion/pipeline.py:188-271 | what was pinned stays pinned to the same row and vector, and the last written version never falls |
| IngestSafety.LaterVersionsAreHigher | src/app/stores/chunk_store.py:89-90 | every version allocated after a fully written one exceeds it |
| IngestOutlook.CanBeAborted | src/app/ingestion/pipeline.py:213-245 | every write phase can still end in a clean rollback to the tables of before, with no further version complete |
| IngestOutlook.CompletenessCanBeLostIff | src/app/ingestion/pipeline.py:11-21 | a document with a complete version can come to have none exactly when its only complete version is the one in flight |
| IngestOutlook.OthersAreKept | src/app/ingestion/pipeline.py:158-271 | while only one document is being ingested, however often and however it fails, nothing of any other document changes in any store |
| IngestOutlook.SettledInRuns | src/app/stores/chunk_store.py:89-109 | a row not in flight stays as it is under its id until its version is superseded, and the id then stays unused |
| IngestOutlook.RowsCanBeReboundIff | src/app/stores/chunk_store.py:89-109 | a stored chunk id can come to name another row, in some continuation, exactly while its version is in flight |
| IngestOutlook.SweepReadCanRaiseIff | src/app/ingestion/pipeline.py:256-258 | an ingest can end in the unguarded read of its sweep exactly when some version of the document is stored |
| IngestWitnesses.CompletenessCanBeLost | src/app/ingestion/pipeline.py:213-229 | a run in which a complete version exists and the rollback removes it |
| IngestWitnesses.AbortedIdsCanBeRebound | src/app/stores/chunk_store.py:89-109 | a run after whose first step the new chunk id can still come to name other text |
| IngestWitnesses.SweepReadCanEscape | src/app/ingestion/pipeline.py:256-258 | after one successful ingest the next can end in the raw error of the sweep's read |
| IngestionService.BatchIsPoints | src/app/stores/vector_store.py:103-117 | zipping rows with vectors by place is giving each row the vector of its position |
| IngestionService.WholeIsEmbedded | src/app/ingestion/pipeline.py:171-176 | in a whole version the point under position i holds the embedder's answer to the text of the row under position i |
| IngestionService.DraftsAreDefault | src/app/ingestion/chunker.py:69 | an ingest chunks under a budget of 350 with an overlap of two sentences, and its drafts retell the text |
| IngestionService.Service.FetchRows | src/app/ingestion/pipeline.py:202-204 | one protocol step; what is read back is the new rows in draft order |
| IngestionService.Service.DropTexts | src/app/ingestion/pipeline.py:209 | one protocol step, whether clearing, undoing or sweeping: the version's keyword entries go or nothing changes |
| IngestionService.Service.DropVectors | src/app/ingestion/pipeline.py:210 | one protocol step: the version's points go, on failure perhaps only some |
| IngestionService.Service.DropRows | src/app/ingestion/pipeline.py:265 | one protocol step: the version's rows go or nothing changes |
| IngestionService.Service.PutTexts | src/app/ingestion/pipeline.py:211 | one protocol step: the new rows' texts are indexed or nothing changes |
| IngestionService.Service.PutPoints | src/app/ingestion/pipeline.py:212 | one protocol step: each new row with the vector of its position, on failure perhaps only some |
| IngestionService.Service.ClearLeftovers | src/app/ingestion/pipeline.py:202-210 | reads the new rows back and clears both indexes for the version, or ends ready to roll back |
| IngestionService.Service.FillIndexes | src/app/ingestion/pipeline.py:211-212 | both indexes filled and the version committed, or ready to roll back |
| IngestionService.Service.IndexVersion | src/app/ingestion/pipeline.py:201-213 | both halves of the guarded writes, or ready to roll back |
| IngestionService.Service.Undo | src/app/ingestion/pipeline.py:229-235 | one undo step; only the fault count of its own store can rise, and the next step follows whether or not it failed |
| IngestionService.Service.Rollback | src/app/ingestion/pipeline.py:217-245 | all three undo steps are tried; the failures listed are exactly the stores that faulted, in order; with none listed all three succeeded |
| IngestionService.Service.ReadVersion | src/app/ingestion/pipeline.py:256-258 | skips a version exactly when no chunk rows are left of it |
| IngestionService.Service.SweepVersion | src/app/ingestion/pipeline.py:259-265 | indexes first, chunk store last; the new version stays complete at every outcome |
| IngestionService.Service.SweepSuperseded | src/app/ingestion/pipeline.py:247-271 | every older number visited highest first, or the sweep stops with the new version complete; the version it names as stuck is the highest of the older ones still stored; its unguarded read can raise only past a first version |
| IngestionService.Service.StoreVersion | src/app/ingestion/pipeline.py:196-200 | the upsert begins a new job on the next version, or nothing is written and a call has failed |
| IngestionService.Service.Embed | src/app/ingestion/pipeline.py:171-172 | one call of the embedder, about exactly the drafts' texts in order |
| IngestionService.Service.Compensate | src/app/ingestion/pipeline.py:214-245 | with no failures listed the tables are those of before the job and its version is in no store |
| IngestionService.Service.WriteNewVersion | src/app/ingestion/pipeline.py:188-215 | nothing written, or the next version written everywhere, or compensated; a clean compensation restores the tables and leaves the number in no store; with no failing call it is written |
| IngestionService.Service.Evict | src/app/ingestion/pipeline.py:178-185 | one protocol step; the document's cached answers go unless Redis fails, and a raising invalidator leaves Redis as it was |
| IngestionService.Service.Finish | src/app/ingestion/pipeline.py:177-186 | after a full sweep the document is its new version only, with the vectors it was given, and all others are as before; otherwise the new version is whole and nothing was evicted |
| IngestionService.Service.Ingest | src/app/ingestion/pipeline.py:158-186 | each outcome with what it leaves in the three stores; past the write phase the point under each position holds the embedder's recorded answer to the text of the row stored there; the embedder is asked once, about the drafts, or not at all for a text without words; the drafts hold every word of the text in order; on every outcome all other documents are as before and none that was fully searchable stops being so; failures and stuck versions are named rightly; the sweep's raw read error needs a stored version; only a successful ingest evicts, and it does unless Redis fails; when no call fails every text with a word in it is ingested, whatever earlier failures left |
| SentenceSplitter.SplitLine | src/app/ingestion/chunker.py:99-117 | the loop finds the sentences of the recursive description |
| SentenceSplitter.SplitSentences | src/app/ingestion/chunker.py:54-61 | line by line, the sentences of every non-blank line |
| SentenceSplitter.SentencesKeepWords | src/app/ingestion/chunker.py:54-61 | the words of the sentences, concatenated, are the words of the text |
| SentenceSplitter.SegmentVerdictIsSentenceVerdict | src/app/ingestion/chunker.py:105-111 | testing the segment since the last boundary gives the same abbreviation verdict as testing the whole sentence so far |
| SentenceSplitter.SplitFromIsSplitWhole | src/app/ingestion/chunker.py:99-117 | the linear-time splitter and the one without the shortcut find the same sentences |
| SentenceSplitter.SegmentHasAWord | src/app/ingestion/chunker.py:120-125 | the empty-segment case of the abbreviation test never arises at a boundary |
| SentenceSplitter.NoSentencesIff | src/app/ingestion/chunker.py:54-61 | no sentences exactly for text without words |
| SentenceCuts.CutAtEveryEnd | src/app/ingestion/chunker.py:25-27 | a line is cut at every mark that whitespace follows, closing quotes and brackets included, unless the word there is an abbreviation, and nowhere else |
| SentenceCuts.BreaksEndSentences | src/app/ingestion/chunker.py:54-61 | a line break always ends a sentence |
| SentenceCuts.OneLineOfSentences | src/app/ingestion/chunker.py:54-61 | a text without breaks is its stripped line's sentences |
| SentenceCuts.AbbreviationIff | src/app/ingestion/chunker.py:120-125 | the test finds a word whose stem, before any trailing marks and closers, is on the list in any case |
| SentenceCuts.AbbreviationsInAnyCase | src/app/ingestion/chunker.py:34-51 | Dr. and E.g. are abbreviations, no. and etc. are not |
| Words.LinesEndAtBreaks | src/app/ingestion/chunker.py:57 | splitlines: a line ends at each break, a carriage return and newline being one |
| Words.StripTrims | src/app/ingestion/chunker.py:58 | strip: whitespace and nothing else goes from both ends |
| Chunker.NoDraftsIff | src/app/ingestion/chunker.py:69-96 | no chunks exactly for text without words, for any budget and overlap |
| ChunkWindows.FillWindow | src/app/ingestion/chunker.py:79-87 | the inner loop grows a window to where the recursive description stops |
| Chunker.ChunkText | src/app/ingestion/chunker.py:69-96 | draft i is numbered i, its text is the sentences of window i with one space between, its estimate is 1.4 times its own words rounded up; with overlap >= 0 the drafts hold every word of the text in order, each repeating only the end of the one before |
| Chunker.DraftsRetell | src/app/ingestion/chunker.py:69-96 | the words each draft adds beyond the end of the draft before, concatenated, are the words of the text |
| Words.JoinIsSpaced | src/app/ingestion/chunker.py:88 | joining puts one space between and changes nothing else |
| ChunkWindows.GrowIsGreedy | src/app/ingestion/chunker.py:82-87 | a window fits the budget or is one sentence, and one more sentence would not fit |
| ChunkWindows.NextFollows | src/app/ingestion/chunker.py:94-95 | the next window starts later, leaves no gap, ends no earlier and shares exactly min(overlap, previous length - 1) sentences |
| ChunkWindows.WindowsTile | src/app/ingestion/chunker.py:76-96 | with overlap >= 0 the windows run from the first sentence to the last, each fitting, maximal and following the one before |
| ChunkWindows.TilingIsUnique | src/app/ingestion/chunker.py:69-96 | fitting, maximal, so overlapping and running to the end: only one list of windows is |
| ChunkWindows.WindowsReassemble | src/app/ingestion/chunker.py:69-96 | the windows minus their shared prefixes concatenate to the sentence list |
| ChunkWindows.ChunkCostsAtMost | src/app/ingestion/chunker.py:64-66 | a joined chunk is never estimated above the sum over its sentences |
| ChunkWindows.OversizedChunksAreSingleSentences | src/app/ingestion/chunker.py:79-95 | a chunk over budget is one sentence, and a sentence over budget has a chunk to itself |
| ChunkWindows.EverySentenceIsKeptIff | src/app/ingestion/chunker.py:72-74 | every sentence is in some window exactly when the overlap is not negative, there is one sentence, or all together are within the budget |
| ChunkWindows.ASentenceCanBeDropped | src/app/ingestion/chunker.py:94-95 | two sentences, a budget for one and an overlap of -1: the second is in no window |
| RetrieverPool.StepKeeps | src/app/retrieval/pool.py:58-122 | the pool invariant survives any step of any thread |
| RetrieverPool.RoomToBuild | src/app/retrieval/pool.py:64-70 | a thread that finds no idle retriever leaves room under the size limit for the one it builds |
| PoolGuarantees.SlotsAndRetrieversAreConserved | src/app/retrieval/pool.py:58-93 | free, held and drained slots sum to the size; a retriever is idle or in one thread's hands; at most `size` are ever built; a slot is never released beyond the bound |
| PoolGuarantees.LastBackIsNextOut | src/app/retrieval/pool.py:64-81 | the retriever given back last is the next one taken |
| PoolGuarantees.NothingIsKeptAfterClose | src/app/retrieval/pool.py:78-82 | a closed pool never grows its idle list |
| PoolGuarantees.ClosesInOrder | src/app/retrieval/pool.py:114-122 | a close works through its list from the front |
| PoolGuarantees.NoRetrieverIsClosedInUse | src/app/retrieval/pool.py:109-122 | no connection is closed or queued for closing while a thread has its retriever |
| PoolGuarantees.EveryRetrieverIsClosedOnce | src/app/retrieval/pool.py:95-122 | never closed twice; after a finished close every retriever ever built is closed, one still in the factory when the flag was set included |
| PoolGuarantees.AnUnfinishedCloseCanProceed | src/app/retrieval/pool.py:109-113 | while a close is unfinished some thread can take a step |
| PoolGuarantees.EveryStepIsProgress | src/app/retrieval/pool.py:58-122 | every step of every thread lowers one measure |
| PoolGuarantees.SchedulesAreFinite | src/app/retrieval/pool.py:58-122 | with no new callers no schedule is longer than the measure |
| PoolGuarantees.WhenAllIsQuietEveryCloseIsDone | src/app/retrieval/pool.py:95-122 | when nobody can move, every close has returned and, on a closed pool, everything built is closed |
| PoolGuarantees.NoRetrieverAfterTheFlag | src/app/retrieval/pool.py:60-63 | a call that has not passed the check when the flag is set never gets a retriever, in any later state |
| PoolAfterClose.RetrieveAfterCloseRaisesIff | src/app/retrieval/pool.py:95-97 | a call that a closed pool has not served raises on every schedule exactly when it already has its slot |
| PoolAfterClose.ACallAfterCloseIsNeverSafe | src/app/retrieval/pool.py:95-113 | no call made on a closed pool is sure to return, however early it comes |
| PoolGuarantees.RetrieveAfterCloseCanRaiseIff | src/app/retrieval/pool.py:59-63 | a call waiting for a slot of a closed pool can still raise, on some schedule, exactly while no closer has all the slots |
| PoolGuarantees.RetrieveAfterCloseCanBlockForever | src/app/retrieval/pool.py:59-63 | a reachable state with a call that can never return |
| PooledRetrievers.Create | src/app/retrieval/pool.py:45-48 | a size below one is refused, any other gives a fresh pool |
| PooledRetrievers.Retrievers.constructor | src/app/retrieval/pool.py:45-56 | all slots free, nothing built |
| PooledRetrievers.Retrievers.Arrive | src/app/retrieval/pool.py:84-97 | a new call of retrieve or close is one step of the machine |
| PooledRetrievers.Retrievers.AcquireSlot | src/app/retrieval/pool.py:59 | one slot from the pool to the thread; also the drain loop's acquire |
| PooledRetrievers.Retrievers.CheckOut | src/app/retrieval/pool.py:60-65 | the locked section of _acquire is one step of the machine |
| PooledRetrievers.Retrievers.CallFactory | src/app/retrieval/pool.py:69-73 | so is the factory call, failing or not |
| PooledRetrievers.Retrievers.Enlist | src/app/retrieval/pool.py:74-75 | so is the registration |
| PooledRetrievers.Retrievers.PutBack | src/app/retrieval/pool.py:78-93 | so is the end of a query, raising or not, with the return to the idle list |
| PooledRetrievers.Retrievers.ReleaseSlot | src/app/retrieval/pool.py:82 | so is the release of the slot |
| PooledRetrievers.Retrievers.SetClosed | src/app/retrieval/pool.py:105-108 | so is setting the flag, once |
| PooledRetrievers.Retrievers.TakeAll | src/app/retrieval/pool.py:114-117 | so is taking the list of connections |
| PooledRetrievers.Retrievers.CloseNext | src/app/retrieval/pool.py:118-122 | so is each close |
| PooledRetrievers.Retrievers.Close | src/app/retrieval/pool.py:95-122 | it returns, whatever finite number of new callers comes meanwhile; unless another close was first, everything ever built is closed and in nobody's hands |
| PooledRetrievers.Retrievers.Acquire | src/app/retrieval/pool.py:58-76 | a retriever of one's own, or the slot given back, or blocked on a closed and drained pool; never a retriever from a pool closed before the call; others, newcomers included, act in between |
| PooledRetrievers.Retrievers.Retrieve | src/app/retrieval/pool.py:84-93 | the slot is given back on every path, a raising query's included; it raises only on a closed pool, after a failed factory call or when its query raised; a pool closed before the call never runs the query; only a closed pool makes a caller wait for ever |
| ResponseCache.KeysNeverCollide | src/app/stores/cache.py:45-50 | cache and tag keys never collide and are injective, for any strings |
| ResponseCache.SetPipeEffect | src/app/stores/cache.py:121-125 | the pipeline writes the entry (when the expiry is positive) and adds its key to exactly the given documents' tag sets |
| ResponseCache.DeletePipeEffect | src/app/stores/cache.py:190-195 | the pipeline removes exactly the listed keys and the tag set |
| ResponseCache.Cache.Get | src/app/stores/cache.py:91-109 | the live entry's answer, a miss when there is none or the server fails; nothing is written |
| ResponseCache.Cache.Set | src/app/stores/cache.py:111-129 | the whole pipeline, or when the server fails perhaps nothing; no exception |
| ResponseCache.Invalidator.InvalidateDocument | src/app/stores/cache.py:168-205 | undisturbed, it removes exactly the tagged entries and the tag set, or when the server fails perhaps nothing; no exception |
| CacheRuns.LiveAnswersStayListed | src/app/stores/cache.py:111-129 | in every interleaving a live answer is listed under each of its documents, unless written between the read and the delete of an invalidation of that document |
| CacheRuns.DeleteLeavesOnlyOrphans | src/app/stores/cache.py:185-195 | after the delete only answers written in such a window still carry the document |
| CacheRuns.AnswersComeFromSets | src/app/stores/cache.py:111-129 | every entry is the last set of its key, unchanged |
| CacheRuns.NoAnswerOutlivesItsWrite | src/app/stores/cache.py:91-129 | no answer is served its ttl or more after that set: reads never prolong it |
| CacheRuns.ASetInTheWindowIsOrphaned | src/app/stores/cache.py:175-184 | the documented race as a run: a live answer no tag set lists |
| CacheCoherence.SiteStepKeeps | src/app/ingestion/pipeline.py:177-186 | no step of an ingest, an answer or time breaks the joint invariant of stores and cache |
| CacheCoherence.NoStaleAnswerAfterIngest | src/app/stores/cache.py:185-195 | after a successful ingest whose invalidation reaches Redis no cached answer cites the document |
| CacheCoherence.CachedCitationIsStoredIff | src/app/ingestion/pipeline.py:26-31 | in every state a cached citation names a stored chunk of its document and title exactly when its version has not been swept since the document's answers were last evicted: a failed write leaves the cache right |
| CacheCoherence.CitationsHoldUntilASweep | src/app/ingestion/pipeline.py:26-31 | from an eviction on every cached citation of the document stays good until a sweep deletes one of its versions, through any failing ingests |
| Citations.CitedDocsAreTheCited | src/app/api/chat.py:363 | the tag list has each cited document exactly once and no other |
| Citations.CitedInOrder | src/app/api/chat.py:363 | in the order they are first cited |
| SessionStore.RangeFromTheEnd | src/app/stores/sessions.py:64-75 | LRANGE from -n gives the last n turns, and from -0 the whole list |
| SessionStore.ValidIdsAreTokens | src/app/stores/sessions.py:28-41 | an id is 8 to 64 letters, digits, underscores and hyphens, so it holds no separator, and its key determines it |
| SessionStore.HistoryIsTheLastTwenty | src/app/stores/sessions.py:52-62 | over any appends and pauses a session is the last 20 turns since it last expired |
| SessionStore.SessionsAreSeparate | src/app/stores/sessions.py:52-62 | an append leaves every other session alone |
| SessionStore.ExchangeKeepsPairs | src/app/api/chat.py:170-180 | an exchange appends its two turns, capped, and keeps question and answer in turn |
| SessionStore.SerialRequestsKeepPairs | src/app/api/chat.py:256-373 | after any serial requests and pauses a session is at most 20 turns, even, user first, alternating |
| SessionStore.CutShortKeepsPairsIff | src/app/api/chat.py:170-180 | of the three results of an exchange whose appends may raise, exactly the question alone puts a paired session out of turn |
| SessionStore.HalfExchangeHealsIff | src/app/stores/sessions.py:52-62 | after a question left alone a living session is in turn again exactly when ten exchanges have followed |
| SessionStore.Store.AppendTurn | src/app/stores/sessions.py:52-62 | malformed ids refused unchanged; otherwise all three commands or, when it raises, perhaps none |
| SessionStore.Store.GetHistory | src/app/stores/sessions.py:64-75 | the last `limit` turns, none for a limit that is not positive |
| StableSort.SortDescIsStableSort | src/app/retrieval/hybrid.py:94 | descending, a permutation, equal scores in their given order |
| StableSort.StableSortIsUnique | src/app/retrieval/hybrid.py:94 | there is only one such order |
| StableSort.TiesKeepTheirOrder | src/app/retrieval/hybrid.py:94 | of two equal scores the earlier stays earlier |
| RankFusion.Fold | src/app/retrieval/hybrid.py:88-92 | one index's hits: the score of the id at place i grows by 1/(61+i), its source is recorded, new ids are appended in order |
| RankFusion.FuseHits | src/app/retrieval/hybrid.py:86-92 | each found id scores 1/(61+i) for its place in each list that has it, and is labelled with exactly those lists |
| RankFusion.FusedByPlace | src/app/retrieval/hybrid.py:3-19 | the folded score of an id is 1/(61+i) when only place i of one list has it, and the sum of both when both lists do |
| HybridRetriever.KeywordIndex.Search | src/app/retrieval/hybrid.py:83 | recorded; at most k ids, each once, or an error |
| HybridRetriever.QueryEmbedder.EmbedQuery | src/app/retrieval/hybrid.py:84 | recorded; a vector, or an error |
| HybridRetriever.VectorIndexSearch.Search | src/app/retrieval/hybrid.py:84 | recorded; at most k ids, each once, or an error |
| HybridRetriever.Retriever.Retrieve | src/app/retrieval/hybrid.py:74-105 | a blank query or top_n <= 0 asks nobody; else each backend is asked once, the vector index with the embedder's answer, and the result is the one answer to the two lists they returned, or the error of a backend; with k_each at most 61 chunks both indexes found come first |
| HybridRetriever.AnswerIsTheTop | src/app/retrieval/hybrid.py:86-105 | fusing, ranking, hydrating and cutting gives the top_n stored chunks either index found: higher score first, ties in the order met, and everything left out is behind a full list |
| HybridRetriever.AnswerIsUnique | src/app/retrieval/hybrid.py:86-105 | there is one such answer |
| HybridRetriever.BetterPlaceFirst | src/app/retrieval/hybrid.py:86-94 | of two results that one index each found, the strictly better place comes strictly first |
| RankFusion.RankingIsTheStableOrder | src/app/retrieval/hybrid.py:94 | the ranking is the one stable descending order of the found ids, keyword hits first among ties |
| RankFusion.RankingHasTheFound | src/app/retrieval/hybrid.py:83-94 | it holds exactly the ids either index found, each with its score by places |
| RankFusion.AnswerLength | src/app/retrieval/hybrid.py:95-105 | exactly min(top_n, stored found ids) results: stale index entries never shorten the answer |
| RankFusion.AnswerIsRanked | src/app/retrieval/hybrid.py:95-105 | every result is a stored chunk with its own score by places and the labels of the lists that have it, best first |
| RankFusion.BothBeforeOne | src/app/retrieval/hybrid.py:16-20 | with at most 61 hits each, a chunk both indexes found precedes every chunk one found |
| RankFusion.SixtyTwoIsTooMany | src/app/retrieval/hybrid.py:16-20 | with 62 a chunk both found can rank behind one that only one found |
| Reranker.ParseScore | src/app/retrieval/reranker.py:154-180 | the number of the first digit run when it has at most two digits and is at most 10, else nothing |
| Reranker.ScoresReadBack | src/app/retrieval/reranker.py:154-180 | a number among other words is read back exactly when it is a score, never clamped |
| Reranker.LongRunsAreNoScores | src/app/retrieval/reranker.py:162-180 | a first digit run of more than two digits is no score, leading zeros included, nor is a reply without digits |
| Reranker.Merge | src/app/retrieval/reranker.py:231-255 | the zip is balanced, the filter drops nothing, and the result is the described rearrangement |
| Reranker.MergeIsUnique | src/app/retrieval/reranker.py:231-255 | unscored in place, scored in the other slots best first with ties in fused order: there is one such rearrangement |
| Reranker.MergedKeepsEveryCandidate | src/app/retrieval/reranker.py:231-255 | every candidate is in exactly one slot, with its own chunk and sources, and its score or the fused one |
| Reranker.BestIsInTheFirstScoredSlot | src/app/retrieval/reranker.py:223-229 | the gate's score is that of the earliest scored slot |
| Reranker.GateScoreIsShownIff | src/app/retrieval/reranker.py:223-229 | it is the score of a returned chunk exactly when some candidate in the first top_n fused places was scored |
| Reranker.GateScoreCanBeCut | src/app/retrieval/reranker.py:223-229 | five unscored candidates in front of a scored sixth: its score is the gate's, its chunk is cut |
| Reranker.RerankScored | src/app/retrieval/reranker.py:207-229 | under the model's recorded replies, the merge cut to top_n, with the greatest of the scores, at most 10, or none exactly when nothing was scored |
| Reranker.RerankIsDecided | src/app/retrieval/reranker.py:207-255 | the replies decide the order returned and the gate's score |
| Reranker.SliceIsAPrefix | src/app/retrieval/reranker.py:226 | the cut keeps the first top_n, or all but the last when it is negative |
| Reranker.ScoringModel.Score | src/app/retrieval/reranker.py:121-130 | recorded; a reply, or an error |
| Reranker.ScoreAll | src/app/retrieval/reranker.py:257-279 | the model is asked once about each candidate, with the query and that chunk's text; a score is what the recorded reply parses to, none for a failed call |
| PromptContext.UnescapeEscape | src/app/chat/context.py:48-57 | escaping loses nothing |
| PromptContext.EscapeIsInert | src/app/chat/context.py:48-57 | escaped text has no angle bracket, and in attributes no quotation mark |
| PromptContext.EscapeIsMinimal | src/app/chat/context.py:48-57 | a text is left alone exactly when it has none of the escaped characters; outside attributes quotation marks are not among them |
| PromptContext.PlainBlockIsVerbatim | src/app/chat/context.py:53-57 | a chunk with nothing to escape is shown word for word in its block |
| PromptContext.BlocksAreSeparated | src/app/chat/context.py:67 | a blank line between blocks and nothing else |
| PromptContext.SourcesReadBack | src/app/chat/context.py:67 | for any ids, titles and texts the rendered sources read back as exactly those chunks in order; the empty list is distinguishable |
| PromptContext.SourcesAreUnforgeable | src/app/chat/context.py:48-67 | two source lists with the same rendering are the same list |
| PromptContext.PromptCitesWhatItShows | src/app/chat/context.py:60-81 | system message, history, question; block k read back from the system message has chunk k's id, title and text, and citation k its id, document and title |
| Chat.Endpoint.AppendTurns | src/app/api/chat.py:170-180 | the question, then the answer; when the store raises, nothing, the question alone or both; a malformed id stores nothing |
| Chat.GenerationModel.Complete | src/app/api/chat.py:166-167 | recorded; a completion, or an error |
| Chat.Endpoint.FindSources | src/app/api/chat.py:297-313 | the chunks found follow from the hits the indexes returned to this question, those to show and the best score from the scoring model's replies about each chunk found |
| Chat.PromptReadsStored | src/app/chat/context.py:60-81 | from stored chunks the sources a reader of the prompt finds are stored rows, with their ids, titles and texts |
| Chat.Endpoint.Generate | src/app/api/chat.py:297-354 | a refusal only when nothing was found or the best score is below the floor; past the gate the model's record grows by exactly the assembled prompt, otherwise not at all; a 503 only on a fault it counted or a blank recorded answer, else the reply is its recorded answer, citing the stored, reranked chunks; the texts it reads are the stored rows' texts; a raising backend fails the request |
| Chat.Endpoint.Respond | src/app/api/chat.py:297-373 | the same, and then the exchange and on a first turn the cache entry are written for an answer and for nothing else |
| Chat.Endpoint.RunChat | src/app/api/chat.py:256-373 | each reply with its reason and what it did to the session, the cache and the records of every backend: a hit asks nobody and adds one exchange; refusals and 503s write nothing; an answer is the model's recorded one and adds one exchange and on a first turn, unless Redis fails, one cache write; past the gate the model is asked once, about the last ten turns and at most five stored rows; a live entry is served on a first turn unless Redis fails; a failing retrieval changes nothing; a failing session store leaves nothing, the question alone or the exchange of an answer there was to give |
| Chat.KeyspacesAreDisjoint | src/app/stores/sessions.py:31-41 | session, cache and tag keys never coincide |
| Chat.PromptsAlternate | src/app/chat/context.py:68-72 | from a paired session every prompt is system, question and answer pairs, question |
| Chat.EveryPromptAlternates | src/app/api/chat.py:272-332 | so it is for every session reached by serial requests, with refusals, pauses and expiries |

## Left out

- Chat.Endpoint.RunChat: after a reply of ServerError (the session store raised) which of the three results holds is open, as the two appends are separate transactions and a raised one may have run.
- PooledRetrievers.Retrievers.Close: returning is shown for every finite number of new callers, as an unfair semaphore could serve an endless stream of them for ever; a connection's close that raises is one that has been attempted.
- PooledRetrievers.Retrievers.Retrieve: a retriever is a name here; what its query returns is the business of HybridRetriever.Retriever.Retrieve.
- HybridRetriever.Retriever.Retrieve: scores are exact fractions; floating-point rounding of the sums is not modelled.
- Reranker.ParseScore: digits are the ASCII ones; other characters that `str.isdigit` accepts are not modelled.
- Chunker.ChunkText: the token estimate is the integer (7w + 4) / 5, which the float form equals for realistic word counts; lower-casing is that of the ASCII letters.
- CacheCoherence.NoStaleAnswerAfterIngest: speaks of runs in which no answer is produced during an ingest; with overlap the orphan window of CacheRuns applies, and an answer may cite a version being swept.
- A cache hit is not claimed to equal a fresh recomputation: a new document nobody cited evicts nothing.
- Clocks other than expiry, `created_at`, logging, timings, HTTP routing, request validation and thread offloading.
- The lock of the pool as a resource of its own: a locked section is one step, and none of them waits for anything inside.
- Ollama, Qdrant, FTS5 search and SQLite internals: search results are any bounded list of distinct ids, an embedding is any list of vectors, a model reply any text or an error.
- Reranker.ScoreAll: the calls of its thread pool are recorded in candidate order, and of the scoring prompt only the query and the document.
- PromptContext.PromptCitesWhatItShows: of the fixed instructions in the system message only the last line, the heading of the sources, is modelled.
- JSON encoding of entries and turns, and entries a foreign client wrote under the same keys.
- The normalisation and hashing of a question into its fingerprint: the digest is a parameter of a request.
- Vector point ids: the hash of the chunk id is taken as the chunk id itself.
- Network effects that arrive late, such as a timed-out upsert landing after its compensating delete.
- Time passing within one request: a session does not expire between its own two appends.
- Index search, match expressions, collection setup, uploads, extraction, evaluation and settings: no state of the core passes through them.
