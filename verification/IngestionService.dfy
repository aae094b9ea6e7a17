/** IngestionService (src/app/ingestion/pipeline.py) over its three stores, each of whose calls may fail. */
module IngestionService {
  import opened Models
  import opened ChunkIds
  import opened ChunkStore
  import opened SearchIndexes
  import opened IngestProtocol
  import opened IngestInvariant
  import opened IngestSteps
  import opened IngestGuarantees
  import opened IngestSafety
  import opened IngestOutlook
  import opened Words
  import opened Chunker
  import opened ChunkWindows
  import opened SentenceSplitter
  import Bm25Index
  import ResponseCache
  import VectorStore

  datatype StoreName = VectorStoreUndo | Bm25Undo | ChunkStoreUndo

  const UNDO_STEPS := [VectorStoreUndo, Bm25Undo, ChunkStoreUndo]

  datatype Outcome =
    | Ingested(result: DocumentVersion)
    | NoChunkableText
    | EmbeddingFailed
    | StoringFailed
    | WriteFailed(version: nat, failures: seq<StoreName>)
    | SweepFailed(version: nat, stuck: nat)
    | InvalidationFailed(version: nat)
    | SweepReadRaised(version: nat)  // not an IngestError: the read is outside the try

  datatype Written = Stored(version: DocumentVersion) | NotStored | Compensated(number: nat, failures: seq<StoreName>)

  datatype Swept = AllSwept | StuckAt(version: nat) | ReadRaised

  datatype Finished = Done | CacheKept | Stuck(version: nat) | Raised

  /** The job's document is its new version and nothing else; every other document is as it was before the job. */
  ghost predicate Replaced(s: Stores, j: Job) {
    OthersKept(s, j.before, j.docId) && ExactlyOneVersion(s, j.docId, j.version, j.title, j.drafts, j.vectors)
  }

  /** The drafts chunk_text makes of a text with its default budget and overlap. */
  function DraftsOf(text: string): seq<ChunkDraft> {
    Drafts(Sentences(text), WindowsFrom(Sentences(text), 0, 350, 2))
  }

  /** Its windows tile the sentences under a budget of 350 and an overlap of two, and it retells the text. */
  lemma DraftsAreDefault(text: string)
    requires Split(text) != []
    ensures exists ws ::
      && Tiled(Sentences(text), ws, 0, 350, 2)
      && PackedAs(Sentences(text), ws, DraftsOf(text))
    ensures Retells(DraftsOf(text), text)
  {
    hide Sentences, Split, WindowsFrom, Tiled, PackedAs, Retells;
    var sentences := Sentences(text);
    var ws := WindowsFrom(sentences, 0, 350, 2);
    NoSentencesIff(text);
    WindowsTile(sentences, 0, 350, 2);
    DraftIs(sentences, ws);
    DraftsRetell(text, 350, 2);
  }

  lemma DraftsInOrder(text: string)
    ensures InOrder(DraftsOf(text))
  {
    hide Sentences, GrowTo;
    DraftAt(Sentences(text), WindowsFrom(Sentences(text), 0, 350, 2));
  }

  lemma RowsDiffer(j: Job)
    requires InOrder(j.drafts)
    ensures DistinctIds(Rows(j)) && |Rows(j)| == |j.drafts|
    ensures forall i :: 0 <= i < |j.drafts| ==> Rows(j)[i].ord == i
  {
    hide ChunkId, Keyed, Owner, OrdOf;
    var rows := Rows(j);
    forall a, b | 0 <= a < b < |rows|
      ensures rows[a].id != rows[b].id
    {
      ChunkIdReadsBack(j.docId, j.version, a);
      ChunkIdReadsBack(j.docId, j.version, b);
    }
  }

  /** Zipping rows with vectors by place is pairing each row with the vector of its position. */
  lemma BatchIsPoints(j: Job)
    requires InOrder(j.drafts) && |j.vectors| == |j.drafts|
    ensures VectorStore.Batch(Rows(j), j.vectors) == Points(j)
  {
    hide ChunkId, Keyed, Owner, OrdOf, Rows, DistinctIds, VectorStore.Batch;
    var rows := Rows(j);
    RowsDiffer(j);
    VectorStore.BatchPairs(rows, j.vectors);
    KeyedHolds(rows);
    assert forall i :: 0 <= i < |rows| ==> Keyed(rows)[rows[i].id] == rows[i];
    forall id
      ensures id in VectorStore.Batch(rows, j.vectors) <==> id in Points(j)
    {
      if id in VectorStore.Batch(rows, j.vectors) {
        var i :| 0 <= i < |rows| && rows[i].id == id;
        assert rows[i].id in Keyed(rows);
      }
      if id in Points(j) {
        var i :| 0 <= i < |rows| && rows[i] == Keyed(rows)[id];
        assert rows[i].id in VectorStore.Batch(rows, j.vectors);
      }
    }
    forall id | id in Points(j)
      ensures VectorStore.Batch(rows, j.vectors)[id] == Points(j)[id]
    {
      var i :| 0 <= i < |rows| && rows[i] == Keyed(rows)[id];
      assert rows[i].ord == i;
    }
  }

  /** The embedder: one network call, one vector per text, or an error. `calls` counts the calls, `asked` is the list of
      texts the last one was given and `answer` what it returned. */
  class Embedder {
    ghost var calls: nat
    ghost var asked: seq<string>
    ghost var answer: seq<Vector>
    ghost var faults: nat

    constructor ()
      ensures calls == 0 && faults == 0
    {
      calls, asked, answer, faults := 0, [], [], 0;
    }

    method EmbedPassages(texts: seq<string>) returns (vectors: Option<seq<Vector>>)
      modifies this
      ensures calls == old(calls) + 1 && asked == texts
      ensures vectors.Some? ==> vectors.value == answer && |answer| == |texts|
      ensures faults == old(faults) + if vectors.Some? then 0 else 1
    {
      calls, asked := calls + 1, texts;
      var answered: bool := *;
      if !answered {
        faults := faults + 1;
        return None;
      }
      var vectorAt: nat -> Vector := *;
      vectors := Some(seq(|texts|, i requires 0 <= i < |texts| => vectorAt(i)));
      answer := vectors.value;
    }
  }

  /** Version `version` of d has a row for each text the embedder was asked about, in that order, and the point under a
      row's id holds the embedder's answer to that row's own text. */
  ghost predicate EmbeddedRows(s: Stores, d: DocId, version: nat, asked: seq<string>, answer: seq<Vector>) {
    && |asked| == |answer|
    && forall i :: 0 <= i < |asked| ==>
         var id := ChunkId(d, version, i);
         && id in s.tables.chunks && s.tables.chunks[id].ord == i && s.tables.chunks[id].text == asked[i]
         && id in s.vectors && s.vectors[id].payload.vector == answer[i]
  }

  /** Of the versions of d that a sweep up to `newVersion` is to remove, `version` is the highest still stored. */
  ghost predicate HighestLeft(t: Tables, d: DocId, version: nat, newVersion: nat) {
    && 0 < version < newVersion && (d, version) in t.documents
    && forall x :: (d, x) in t.documents && x != newVersion ==> x <= version
  }

  /** The last call made was the sweep's read, and it failed. */
  predicate EndsInRead(steps: seq<Step>) {
    steps != [] && steps[|steps| - 1].Fail? && Exec(steps[..|steps| - 1]).phase.SweepRead?
  }

  predicate AsksTexts(asked: seq<string>, drafts: seq<ChunkDraft>) {
    |asked| == |drafts| && forall i :: 0 <= i < |asked| ==> asked[i] == drafts[i].text
  }

  lemma WholeIsEmbedded(s: Stores, j: Job, asked: seq<string>)
    requires Whole(s, j) && InOrder(j.drafts) && AsksTexts(asked, j.drafts)
    ensures EmbeddedRows(s, j.docId, j.version, asked, j.vectors)
  {
    hide ChunkId, Owner, Keyed, Rows;
    forall i | 0 <= i < |asked|
      ensures
        var id := ChunkId(j.docId, j.version, i);
        && id in s.tables.chunks && s.tables.chunks[id].ord == i && s.tables.chunks[id].text == asked[i]
        && id in s.vectors && s.vectors[id].payload.vector == j.vectors[i]
    {
      RowAt(j, i);
      var id := ChunkId(j.docId, j.version, i);
      assert SameAt(s.tables.chunks, Keyed(Rows(j)), id);
      assert SameAt(s.vectors, Points(j), id);
    }
  }

  /** The invalidator an ingest calls last. The interface lets it raise, counted in `faults`, before it has done
      anything; the Redis one behind it never does. */
  class CacheInvalidator {
    const cache: ResponseCache.Invalidator
    ghost var faults: nat

    constructor (cache: ResponseCache.Invalidator)
      ensures faults == 0 && this.cache == cache
    {
      this.cache, faults := cache, 0;
    }

    method InvalidateDocument(d: DocId) returns (ok: bool)
      modifies this, cache.client
      ensures faults == old(faults) + if ok then 0 else 1
      ensures !ok ==> cache.client.db == old(cache.client.db)
      ensures ok ==> Evicts(old(cache.client.db), cache.client.db, d, cache.client.faults > old(cache.client.faults))
    {
      ok := *;
      if ok {
        cache.InvalidateDocument(d);
      } else {
        faults := faults + 1;
      }
    }
  }

  /** Redis before and after an eviction of d's answers, during which the server may have failed. */
  ghost predicate Evicts(before: ResponseCache.Redis, after: ResponseCache.Redis, d: DocId, failed: bool) {
    ResponseCache.SameContents(after, ResponseCache.Invalidated(before, d))
      || (failed && ResponseCache.SameContents(after, before))
  }

  class Service {
    const chunkStore: Store
    const bm25Index: Bm25Index.Index
    const vectorStore: VectorStore.Index
    const embedder: Embedder
    const invalidator: CacheInvalidator
    ghost var steps: seq<Step>

    /** How many calls to any collaborator have failed so far. */
    ghost function Faults(): nat
      reads chunkStore, bm25Index, vectorStore, embedder, invalidator
    {
      chunkStore.faults + bm25Index.faults + vectorStore.faults + embedder.faults + invalidator.faults
    }

    ghost function Redis(): ResponseCache.Redis
      reads invalidator.cache.client
    {
      invalidator.cache.client.db
    }

    ghost function RedisFaults(): nat
      reads invalidator.cache.client
    {
      invalidator.cache.client.faults
    }

    ghost function Snapshot(): Stores
      reads chunkStore, bm25Index, vectorStore
    {
      Stores(chunkStore.tables, Bm25Index.View(bm25Index.rows), vectorStore.points)
    }

    /** The stores are where the run recorded so far has left them. */
    ghost predicate Valid()
      reads this, chunkStore, bm25Index, vectorStore
    {
      chunkStore.Valid() && bm25Index.Valid() && Run(steps) && Exec(steps).stores == Snapshot()
    }

    ghost predicate At(phase: Phase)
      reads this
    {
      Exec(steps).phase == phase
    }

    /** A service over stores that any earlier run, crashes included, left behind. */
    constructor (chunkStore: Store, bm25Index: Bm25Index.Index, embedder: Embedder, vectorStore: VectorStore.Index,
                 invalidator: CacheInvalidator, ghost history: seq<Step>)
      requires chunkStore.Valid() && bm25Index.Valid()
      requires Run(history) && Exec(history).phase.Idle?
      requires Exec(history).stores == Stores(chunkStore.tables, Bm25Index.View(bm25Index.rows), vectorStore.points)
      ensures Valid() && steps == history
      ensures this.chunkStore == chunkStore && this.bm25Index == bm25Index && this.vectorStore == vectorStore
      ensures this.embedder == embedder && this.invalidator == invalidator
    {
      this.chunkStore, this.bm25Index, this.vectorStore := chunkStore, bm25Index, vectorStore;
      this.embedder, this.invalidator := embedder, invalidator;
      steps := history;
    }

    ghost method Record(step: Step)
      requires chunkStore.Valid() && bm25Index.Valid()
      requires Run(steps) && Enabled(Exec(steps), step) && Apply(Exec(steps), step).stores == Snapshot()
      modifies this`steps
      ensures Valid() && steps == old(steps) + [step] && Exec(steps) == Apply(old(Exec(steps)), step)
    {
      hide Apply, Enabled;
      var prior := steps;
      steps := steps + [step];
      assert steps[..|steps| - 1] == prior;
    }

    // ---- one store call each ----

    lemma ValidMeans()
      requires Valid()
      ensures Run(steps) && Exec(steps).stores == Snapshot()
    {
      hide Exec, Run, Snapshot;
    }

    ghost predicate About(w: World, d: DocId, version: nat) {
      w.job.docId == d && Target(w) == version
    }

    /** The call just made was one step of the protocol. */
    twostate predicate Recorded(step: Step, ok: bool)
      reads this, chunkStore, bm25Index, vectorStore
    {
      && Valid() && Run(steps) && Exec(steps).stores == Snapshot()
      && steps == old(steps) + [step] && Exec(steps) == Apply(old(Exec(steps)), step)
      && Enabled(old(Exec(steps)), step)
      && (if ok then step.Ok? else step.Fail?)
      && Exec(steps).job == old(Exec(steps).job)
      && Exec(steps).phase == NextPhase(old(Exec(steps)), ok)
    }

    twostate predicate Stepped(step: Step, ok: bool)
      reads this, chunkStore, bm25Index, vectorStore, embedder, invalidator
    {
      Recorded(step, ok) && Faults() == old(Faults()) + if ok then 0 else 1
    }

    method DropVectors(d: DocId, version: nat) returns (ok: bool, ghost step: Step)
      requires Valid() && About(Exec(steps), d, version)
      requires var p := Exec(steps).phase; p.ClearVectors? || p.UndoVectors? || p.SweepVectors?
      modifies this`steps, vectorStore
      ensures Stepped(step, ok)
    {
      hide Exec, Run, Bm25Index.View, RemoveVersion, RemoveSome, NextPhase;
      ghost var touched;
      ok, touched := vectorStore.DeleteDocumentVersion(d, version);
      step := if ok then Ok else Fail(touched);
      Record(step);
    }

    method DropTexts(d: DocId, version: nat) returns (ok: bool, ghost step: Step)
      requires Valid() && About(Exec(steps), d, version)
      requires var p := Exec(steps).phase; p.ClearBm25? || p.UndoBm25? || p.SweepBm25?
      modifies this`steps, bm25Index
      ensures Stepped(step, ok)
    {
      hide Exec, Run, Bm25Index.View, RemoveVersion, NextPhase;
      ok := bm25Index.RemoveDocumentVersion(d, version);
      step := if ok then Ok else Fail({});
      Record(step);
    }

    method DropRows(d: DocId, version: nat) returns (ok: bool, ghost step: Step)
      requires Valid() && About(Exec(steps), d, version)
      requires var p := Exec(steps).phase; p.UndoTables? || p.SweepTables?
      modifies this`steps, chunkStore
      ensures Stepped(step, ok)
      ensures !ok ==> chunkStore.tables == old(chunkStore.tables)
    {
      hide Exec, Run, Bm25Index.View, Delete, NextPhase;
      ok := chunkStore.DeleteVersion(d, version);
      step := if ok then Ok else Fail({});
      Record(step);
    }

    method FetchRows(d: DocId, version: nat) returns (ok: bool, chunks: seq<Chunk>, ghost step: Step)
      requires Valid() && At(Fetch) && About(Exec(steps), d, version)
      modifies this`steps, chunkStore`faults
      ensures Stepped(step, ok)
      ensures ok ==> chunks == Rows(Exec(steps).job)
    {
      hide ChunkId, Owner, Latest, Keyed, Upsert, Rows, Exec, Run, Inv, Effect, Bm25Index.View;
      RunKeeps(steps);
      ok, chunks := chunkStore.GetChunks(d, version);
      step := if ok then Ok else Fail({});
      if ok {
        FetchedRows(Exec(steps), chunks);
      }
      FetchChangesNothing(Exec(steps), step);
      Record(step);
    }

    method PutTexts(chunks: seq<Chunk>) returns (ok: bool, ghost step: Step)
      requires Valid() && At(PutBm25) && chunks == Rows(Exec(steps).job)
      modifies this`steps, bm25Index
      ensures Stepped(step, ok)
    {
      hide Exec, Run, Rows, Keyed, NextPhase, Bm25Index.View;
      ok := bm25Index.IndexChunks(chunks);
      step := if ok then Ok else Fail({});
      Record(step);
    }

    method PutPoints(chunks: seq<Chunk>, vectors: seq<Vector>) returns (ok: bool, ghost step: Step)
      requires Valid() && At(PutVectors) && chunks == Rows(Exec(steps).job) && vectors == Exec(steps).job.vectors
      requires InOrder(Exec(steps).job.drafts)
      modifies this`steps, vectorStore
      ensures Recorded(step, ok)
      ensures Faults() == old(Faults()) + if ok || |vectors| != |chunks| then 0 else 1
    {
      hide Exec, Run, Rows, Keyed, NextPhase, Points, Bm25Index.View, VectorStore.Batch;
      ghost var touched;
      RowsDiffer(Exec(steps).job);
      if |vectors| == |chunks| {
        BatchIsPoints(Exec(steps).job);
      }
      ok, touched := vectorStore.Upsert(chunks, vectors);
      step := if ok then Ok else Fail(touched);
      Record(step);
    }

    /** The first half of the guarded writes: read the rows back, then clear leftovers out of both indexes. */
    method ClearLeftovers(d: DocId, version: nat) returns (ok: bool, chunks: seq<Chunk>)
      requires Valid() && At(Fetch)
      requires Exec(steps).job.docId == d && Exec(steps).job.version == version
      modifies this`steps, chunkStore`faults, bm25Index, vectorStore
      ensures Valid() && Exec(steps).job == old(Exec(steps).job) && Continues(old(steps), steps, d)
      ensures ok ==> At(PutBm25) && chunks == Rows(Exec(steps).job)
      ensures !ok ==> At(UndoVectors)
      ensures Faults() == old(Faults()) + if ok then 0 else 1
      ensures FaultsGrow()
    {
      hide Rows, Exec, Run, Apply, Valid, Snapshot, Enabled;
      ghost var step;
      ok, chunks, step := FetchRows(d, version);
      if ok {
        ok, step := DropTexts(d, version);
      }
      if ok {
        ok, step := DropVectors(d, version);
      }
    }

    /** The second half: keyword entries, then vectors. */
    method FillIndexes(chunks: seq<Chunk>, vectors: seq<Vector>) returns (ok: bool)
      requires Valid() && At(PutBm25)
      requires chunks == Rows(Exec(steps).job) && vectors == Exec(steps).job.vectors
      modifies this`steps, bm25Index, vectorStore
      ensures Valid() && Exec(steps).job == old(Exec(steps).job)
        && Continues(old(steps), steps, old(Exec(steps)).job.docId)
      ensures ok ==> Exec(steps).job.version > 0 && At(SweepRead(Exec(steps).job.version - 1))
      ensures !ok ==> At(UndoVectors)
      ensures Faults() >= old(Faults())
      ensures |vectors| == |chunks| ==> Faults() == old(Faults()) + if ok then 0 else 1
      ensures FaultsGrow()
    {
      hide Rows, Exec, Run, Inv, Apply, Valid, Snapshot, Enabled;
      ValidMeans();
      RunKeeps(steps);
      JobFacts(Exec(steps));
      ghost var step;
      ok, step := PutTexts(chunks);
      if ok {
        ok, step := PutPoints(chunks, vectors);
      }
    }

    /** The guarded part of the write: both halves, the second only after the first. */
    method IndexVersion(d: DocId, version: nat, vectors: seq<Vector>) returns (ok: bool)
      requires Valid() && At(Fetch) && vectors == Exec(steps).job.vectors
      requires Exec(steps).job.docId == d && Exec(steps).job.version == version
      modifies this`steps, chunkStore`faults, bm25Index, vectorStore
      ensures Valid() && Exec(steps).job == old(Exec(steps).job) && Continues(old(steps), steps, d)
      ensures ok ==> version > 0 && At(SweepRead(version - 1))
      ensures !ok ==> At(UndoVectors)
      ensures FaultsGrow() && Faults() >= old(Faults())
      ensures |vectors| == |Exec(steps).job.drafts| ==> Faults() == old(Faults()) + if ok then 0 else 1
    {
      hide Exec, Run, Valid, Snapshot, Faults;
      var chunks;
      ok, chunks := ClearLeftovers(d, version);
      if ok {
        ok := FillIndexes(chunks, vectors);
      }
    }

    /** No store has faulted less than before. */
    twostate predicate FaultsGrow()
      reads chunkStore, bm25Index, vectorStore
    {
      && vectorStore.faults >= old(vectorStore.faults) && bm25Index.faults >= old(bm25Index.faults)
      && chunkStore.faults >= old(chunkStore.faults)
    }

    /** The failed undo calls, in the order they were tried: those of the stores that have faulted. */
    twostate predicate Names(new failures: seq<StoreName>)
      reads chunkStore, bm25Index, vectorStore
    {
      failures == (if vectorStore.faults > old(vectorStore.faults) then [VectorStoreUndo] else [])
                  + (if bm25Index.faults > old(bm25Index.faults) then [Bm25Undo] else [])
                  + (if chunkStore.faults > old(chunkStore.faults) then [ChunkStoreUndo] else [])
    }

    /** Every store named has faulted, and none is named twice. */
    twostate predicate Blames(new failures: seq<StoreName>)
      reads chunkStore, bm25Index, vectorStore
    {
      && (VectorStoreUndo in failures ==> vectorStore.faults > old(vectorStore.faults))
      && (Bm25Undo in failures ==> bm25Index.faults > old(bm25Index.faults))
      && (ChunkStoreUndo in failures ==> chunkStore.faults > old(chunkStore.faults))
      && forall i, j :: 0 <= i < j < |failures| ==> failures[i] != failures[j]
    }

    method Undo(store: StoreName, d: DocId, version: nat) returns (ok: bool)
      requires Valid() && Exec(steps).job.docId == d && Exec(steps).job.version == version
      requires At(match store
                  case VectorStoreUndo => UndoVectors case Bm25Undo => UndoBm25 case ChunkStoreUndo => UndoTables)
      modifies this`steps, chunkStore, bm25Index, vectorStore
      ensures Valid() && Exec(steps).job == old(Exec(steps).job) && Continues(old(steps), steps, d)
      ensures At(match store case VectorStoreUndo => UndoBm25 case Bm25Undo => UndoTables case ChunkStoreUndo => Idle)
      ensures ok ==> Exec(steps) == Apply(old(Exec(steps)), Ok)
      ensures Faults() == old(Faults()) + if ok then 0 else 1
      ensures vectorStore.faults == old(vectorStore.faults) + if store.VectorStoreUndo? && !ok then 1 else 0
      ensures bm25Index.faults == old(bm25Index.faults) + if store.Bm25Undo? && !ok then 1 else 0
      ensures chunkStore.faults == old(chunkStore.faults) + if store.ChunkStoreUndo? && !ok then 1 else 0
    {
      hide Exec, Run, Apply, Valid, Snapshot, Enabled;
      ghost var step;
      match store
      case VectorStoreUndo =>
        ok, step := DropVectors(d, version);
      case Bm25Undo =>
        ok, step := DropTexts(d, version);
      case ChunkStoreUndo =>
        ok, step := DropRows(d, version);
    }

    /** _rollback: try every undo step even when an earlier one fails, and report the ones that failed. */
    method Rollback(d: DocId, version: nat) returns (failures: seq<StoreName>)
      requires Valid() && At(UndoVectors) && Exec(steps).job.docId == d && Exec(steps).job.version == version
      modifies this`steps, chunkStore, bm25Index, vectorStore
      ensures Valid() && At(Idle) && Exec(steps).job == old(Exec(steps).job) && Continues(old(steps), steps, d)
      ensures failures == [] ==> Exec(steps) == RolledBack(old(Exec(steps)))
      ensures Faults() == old(Faults()) + |failures| && Names(failures)
    {
      hide Exec, Run, Apply, Bm25Index.View;
      failures := [];
      ghost var w := Exec(steps);
      ghost var w1 := Apply(w, Ok);
      ghost var w2 := Apply(w1, Ok);
      for i := 0 to |UNDO_STEPS|
        invariant Valid() && Exec(steps).job == w.job && Continues(old(steps), steps, d)
        invariant Faults() == old(Faults()) + |failures| && Names(failures)
        invariant FaultsGrow()
        invariant i == 0 ==> vectorStore.faults == old(vectorStore.faults)
        invariant i <= 1 ==> bm25Index.faults == old(bm25Index.faults)
        invariant i <= 2 ==> chunkStore.faults == old(chunkStore.faults)
        invariant At(if i == 0 then UndoVectors else if i == 1 then UndoBm25 else if i == 2 then UndoTables else Idle)
        invariant failures == [] ==>
          Exec(steps) == if i == 0 then w else if i == 1 then w1 else if i == 2 then w2 else Apply(w2, Ok)
      {
        var ok := Undo(UNDO_STEPS[i], d, version);
        if !ok {
          failures := failures + [UNDO_STEPS[i]];
        }
      }
    }

    /** One superseded version: indexes first, chunk store last. */
    method SweepVersion(d: DocId, version: nat) returns (ok: bool)
      requires Valid() && version > 0 && At(SweepVectors(version)) && Exec(steps).job.docId == d
      modifies this`steps, chunkStore, bm25Index, vectorStore
      ensures Valid() && Exec(steps).job == old(Exec(steps).job) && Continues(old(steps), steps, d)
      ensures At(if ok then SweepRead(version - 1) else Idle)
      ensures Faults() == old(Faults()) + if ok then 0 else 1
      ensures Complete(Snapshot(), d, Exec(steps).job.version) && Whole(Snapshot(), Exec(steps).job)
      ensures !ok ==> chunkStore.tables == old(chunkStore.tables)
      ensures !ok ==> !EndsInRead(steps)
    {
      hide Exec, Run, Inv, Complete, Whole, Apply, Valid, Snapshot, Faults, Enabled, EndsInRead, Bm25Index.View,
        RemoveVersion, RemoveSome, Delete, Effect;
      ValidMeans();
      RunKeeps(steps);
      ghost var prior, step := steps, Ok;
      ok, step := DropVectors(d, version);
      SweepingStaysComplete(Exec(prior), step);
      if ok {
        RunKeeps(steps);
        prior := steps;
        ok, step := DropTexts(d, version);
        SweepingStaysComplete(Exec(prior), step);
      }
      if ok {
        RunKeeps(steps);
        prior := steps;
        ok, step := DropRows(d, version);
        SweepingStaysComplete(Exec(prior), step);
      }
      LastStep(prior, step, steps);
    }

    /** The head of the sweep loop: is this version still stored? The read is outside the try. */
    method ReadVersion(d: DocId, version: nat) returns (ok: bool, stored: bool)
      requires Valid() && version > 0 && At(SweepRead(version)) && Exec(steps).job.docId == d
      modifies this`steps, chunkStore`faults
      ensures Valid() && Exec(steps).job == old(Exec(steps).job) && Continues(old(steps), steps, d)
      ensures At(if !ok then Idle else if stored then SweepVectors(version) else SweepRead(version - 1))
      ensures Faults() == old(Faults()) + if ok then 0 else 1
      ensures Complete(Snapshot(), d, Exec(steps).job.version) && Whole(Snapshot(), Exec(steps).job)
      ensures ok && stored ==> HighestLeft(chunkStore.tables, d, version, Exec(steps).job.version)
      ensures !ok ==> EndsInRead(steps)
    {
      hide Exec, Run, Inv, Complete, Whole, Bm25Index.View, VersionRows, EndsInRead;
      RunKeeps(steps);
      var chunks;
      ok, chunks := chunkStore.GetChunks(d, version);
      stored := chunks != [];
      SweepingStaysComplete(Exec(steps), if ok then Ok else Fail({}));
      if ok {
        EmptyListing(chunkStore.tables, d, version, chunks);
        if stored {
          FoundIsHighest(Exec(steps));
        }
      }
      ghost var prior := steps;
      Record(if ok then Ok else Fail({}));
      LastStep(prior, if ok then Ok else Fail({}), steps);
    }

    /** _sweep_superseded_versions: every number below the new version, highest first. */
    method SweepSuperseded(d: DocId, newVersion: nat) returns (swept: Swept)
      requires Valid() && newVersion > 0 && At(SweepRead(newVersion - 1))
      requires Exec(steps).job.docId == d && Exec(steps).job.version == newVersion
      modifies this`steps, chunkStore, bm25Index, vectorStore
      ensures Valid() && Exec(steps).job == old(Exec(steps).job) && Continues(old(steps), steps, d)
      ensures At(if swept.AllSwept? then Invalidate else Idle)
      ensures Faults() == old(Faults()) + if swept.AllSwept? then 0 else 1
      ensures swept.ReadRaised? ==> newVersion > 1
      ensures !swept.AllSwept? ==> (swept.ReadRaised? <==> EndsInRead(steps))
      ensures swept.StuckAt? ==> HighestLeft(chunkStore.tables, d, swept.version, newVersion)
      ensures Complete(Snapshot(), d, newVersion) && Whole(Snapshot(), Exec(steps).job)
    {
      hide Exec, Run, Inv, Complete, Whole, Bm25Index.View, Faults, HighestLeft, VersionRows, EndsInRead;
      var version := newVersion - 1;
      while version > 0
        invariant 0 <= version < newVersion && Valid() && At(SweepRead(version))
        invariant Exec(steps).job == old(Exec(steps).job) && Continues(old(steps), steps, d)
        invariant Faults() == old(Faults())
      {
        var ok, stored := ReadVersion(d, version);
        if !ok {
          return ReadRaised;
        }
        if stored {
          ok := SweepVersion(d, version);
          if !ok {
            return StuckAt(version);
          }
        }
        version := version - 1;
      }
      RunKeeps(steps);
      SweepingStaysComplete(Exec(steps), Ok);
      Record(Ok);
      return AllSwept;
    }

    /** The upsert, which is the first step of a new job. */
    method StoreVersion(d: DocId, title: string, drafts: seq<ChunkDraft>, ghost vectors: seq<Vector>)
      returns (stored: Option<DocumentVersion>)
      requires Valid() && At(Idle) && drafts != [] && InOrder(drafts)
      modifies this`steps, chunkStore
      ensures Valid() && Continues(old(steps), steps, d)
      ensures Faults() >= old(Faults()) && (stored.None? ==> Faults() > old(Faults()))
      ensures stored.None? ==> chunkStore.faults > old(chunkStore.faults)
      ensures stored.None? ==> steps == old(steps) && Snapshot() == old(Snapshot())
      ensures stored.Some? ==>
        && At(Fetch)
        && Exec(steps).job == Job(d, title, drafts, vectors, Latest(old(chunkStore.tables), d) + 1, old(Snapshot()))
        && stored.value == DocumentVersion(d, Latest(old(chunkStore.tables), d) + 1, |drafts|)
      ensures FaultsGrow()
    {
      hide ChunkId, Owner, Latest, Exec, Run, Bm25Index.View, Upsert;
      UpsertSucceedsIff(chunkStore.tables, d, title, drafts);
      stored := chunkStore.UpsertDocument(d, title, drafts);
      if stored.Some? {
        Record(Begin(d, title, drafts, vectors));
      }
    }

    /** A rollback none of whose steps failed leaves the tables as before the job, and its version nowhere. */
    method Compensate(d: DocId, version: nat) returns (failures: seq<StoreName>)
      requires Valid() && At(UndoVectors) && About(Exec(steps), d, version)
      modifies this`steps, chunkStore, bm25Index, vectorStore
      ensures Valid() && At(Idle) && Exec(steps).job == old(Exec(steps).job) && Continues(old(steps), steps, d)
      ensures Faults() == old(Faults()) + |failures| && Names(failures) && Blames(failures)
      ensures failures == [] ==>
        var before := old(Exec(steps).job.before);
        && Snapshot() == Stores(before.tables, RemoveVersion(before.bm25, d, version),
                                RemoveVersion(before.vectors, d, version))
        && (d, version) !in Snapshot().tables.documents
    {
      hide Exec, Run, Inv, Apply, Valid, Snapshot, Faults, RolledBack, RemoveVersion;
      ValidMeans();
      RunKeeps(steps);
      RollbackRestores(Exec(steps));
      failures := Rollback(d, version);
      ValidMeans();
    }

    /** _write_new_version: store, fill the indexes, and compensate when filling fails. */
    method WriteNewVersion(d: DocId, title: string, drafts: seq<ChunkDraft>,
                           vectors: seq<Vector>) returns (written: Written)
      requires Valid() && At(Idle) && drafts != [] && InOrder(drafts)
      modifies this`steps, chunkStore, bm25Index, vectorStore
      ensures Valid() && Continues(old(steps), steps, d)
      ensures Faults() >= old(Faults())
      ensures Faults() == old(Faults()) && |vectors| == |drafts| ==> written.Stored?
      ensures written.NotStored? ==> steps == old(steps) && Snapshot() == old(Snapshot())
      ensures written.NotStored? ==> chunkStore.faults > old(chunkStore.faults)
      ensures !written.NotStored? ==>
        Exec(steps).job == Job(d, title, drafts, vectors, Latest(old(chunkStore.tables), d) + 1, old(Snapshot()))
      ensures written.Stored? ==>
        written.version == DocumentVersion(d, Latest(old(chunkStore.tables), d) + 1, |drafts|)
        && At(SweepRead(written.version.version - 1))
      ensures written.Compensated? ==>
        At(Idle) && written.number == Latest(old(chunkStore.tables), d) + 1 && Blames(written.failures)
      ensures written.Compensated? && written.failures == [] ==>
        && Snapshot() == Stores(old(Snapshot()).tables, RemoveVersion(old(Snapshot()).bm25, d, written.number),
                                RemoveVersion(old(Snapshot()).vectors, d, written.number))
        && (d, written.number) !in Snapshot().tables.documents
    {
      hide Latest, Exec, Run, Valid, Snapshot, Faults, RemoveVersion, Names;
      var stored := StoreVersion(d, title, drafts, vectors);
      if stored.None? {
        return NotStored;
      }
      var version := stored.value.version;
      var ok := IndexVersion(d, version, vectors);
      if !ok {
        var failures := Compensate(d, version);
        return Compensated(version, failures);
      }
      return Stored(stored.value);
    }

    method Evict(d: DocId) returns (ok: bool, ghost step: Step)
      requires Valid() && At(Invalidate)
      modifies this`steps, invalidator, invalidator.cache.client
      ensures Stepped(step, ok) && Snapshot() == old(Snapshot())
      ensures invalidator.faults == old(invalidator.faults) + if ok then 0 else 1
      ensures !ok ==> Redis() == old(Redis())
      ensures ok ==> Evicts(old(Redis()), Redis(), d, RedisFaults() > old(RedisFaults()))
    {
      hide Exec, Run, Bm25Index.View, NextPhase, Evicts;
      ok := invalidator.InvalidateDocument(d);
      step := if ok then Ok else Fail({});
      Record(step);
    }

    /** The end of ingest: sweep the superseded versions, then invalidate cached answers. */
    method Finish(d: DocId, version: nat) returns (finished: Finished)
      requires Valid() && version > 0 && At(SweepRead(version - 1))
      requires Exec(steps).job.docId == d && Exec(steps).job.version == version
      modifies this`steps, chunkStore, bm25Index, vectorStore, invalidator, invalidator.cache.client
      ensures Valid() && At(Idle) && Exec(steps).job == old(Exec(steps).job) && Continues(old(steps), steps, d)
      ensures Faults() == old(Faults()) + if finished.Done? then 0 else 1
      ensures finished.Raised? ==> version > 1 && EndsInRead(steps)
      ensures finished.Stuck? ==> !EndsInRead(steps)
      ensures finished.CacheKept? <==> invalidator.faults > old(invalidator.faults)
      ensures finished.Stuck? ==> HighestLeft(chunkStore.tables, d, finished.version, version)
      ensures !finished.Done? ==> Redis() == old(Redis())
      ensures finished.Done? ==> Evicts(old(Redis()), Redis(), d, RedisFaults() > old(RedisFaults()))
      ensures Complete(Snapshot(), d, version) && Whole(Snapshot(), Exec(steps).job)
      ensures finished.Done? || finished.CacheKept? ==> Replaced(Snapshot(), Exec(steps).job)
    {
      hide Exec, Run, Inv, Complete, Whole, Apply, ExactlyOneVersion, OthersKept, Valid, Snapshot, Faults, Evicts,
        HighestLeft, EndsInRead;
      var swept := SweepSuperseded(d, version);
      match swept
      case StuckAt(v) =>
        return Stuck(v);
      case ReadRaised =>
        return Raised;
      case AllSwept =>
        ValidMeans();
        RunKeeps(steps);
        SweptWorld(Exec(steps));
        ghost var step;
        var invalidated;
        invalidated, step := Evict(d);
        return if invalidated then Done else CacheKept;
    }

    /** The embedding call, before anything is written. */
    method Embed(drafts: seq<ChunkDraft>) returns (vectors: Option<seq<Vector>>)
      modifies embedder
      ensures embedder.calls == old(embedder.calls) + 1 && AsksTexts(embedder.asked, drafts)
      ensures vectors.Some? ==> vectors.value == embedder.answer && |embedder.answer| == |drafts|
      ensures embedder.faults == old(embedder.faults) + if vectors.Some? then 0 else 1
      ensures Faults() == old(Faults()) + if vectors.Some? then 0 else 1
    {
      vectors := embedder.EmbedPassages(seq(|drafts|, i requires 0 <= i < |drafts| => drafts[i].text));
    }

    /** ingest: chunk, embed, write, sweep, invalidate.

        Whatever happens, no other document changes and none that was fully searchable stops being so. On success d
        is stored as exactly its new version, with the vectors the embedder gave. Before the first write a failure
        leaves everything as it was; a failed write with a clean rollback too, but for stale index entries of the
        number that was tried; and once the write phase is over the new version stays whole and searchable even when
        the sweep or the invalidation fails. Cached answers are evicted by a successful ingest and by no other.
        When no call fails, every text with a word in it is ingested, whatever state earlier failures left. */
    method Ingest(d: DocId, title: string, text: string) returns (outcome: Outcome)
      requires Valid() && At(Idle)
      modifies this`steps, chunkStore, bm25Index, embedder, vectorStore, invalidator, invalidator.cache.client
      ensures Valid() && At(Idle) && Continues(old(steps), steps, d)
      ensures Faults() == old(Faults()) ==> outcome.Ingested? || outcome.NoChunkableText?
      ensures forall x :: HasComplete(old(Snapshot()), x) ==> HasComplete(Snapshot(), x)
      ensures outcome.NoChunkableText? <==> Split(text) == []
      ensures outcome.NoChunkableText? || outcome.EmbeddingFailed? || outcome.StoringFailed? ==>
        steps == old(steps) && Snapshot() == old(Snapshot())
      ensures outcome.WriteFailed? ==>
        outcome.version == Latest(old(chunkStore.tables), d) + 1 && Blames(outcome.failures)
      ensures outcome.WriteFailed? && outcome.failures == [] ==>
        && Snapshot() == Stores(old(Snapshot()).tables, RemoveVersion(old(Snapshot()).bm25, d, outcome.version),
                                RemoveVersion(old(Snapshot()).vectors, d, outcome.version))
        && (d, outcome.version) !in Snapshot().tables.documents
      ensures outcome.SweepFailed? || outcome.SweepReadRaised? || outcome.InvalidationFailed? ==>
        && outcome.version == Latest(old(chunkStore.tables), d) + 1 && Complete(Snapshot(), d, outcome.version)
        && Whole(Snapshot(), Job(d, title, DraftsOf(text), embedder.answer, outcome.version, old(Snapshot())))
      ensures outcome.Ingested? || outcome.SweepFailed? || outcome.SweepReadRaised? || outcome.InvalidationFailed? ==>
        EmbeddedRows(Snapshot(), d, Latest(old(chunkStore.tables), d) + 1, embedder.asked, embedder.answer)
      ensures embedder.calls == old(embedder.calls) + if outcome.NoChunkableText? then 0 else 1
      ensures !outcome.NoChunkableText? ==> AsksTexts(embedder.asked, DraftsOf(text))
      ensures Retells(DraftsOf(text), text)
      ensures outcome.SweepReadRaised? ==> Latest(old(chunkStore.tables), d) >= 1 && EndsInRead(steps)
      ensures outcome.SweepFailed? ==> !EndsInRead(steps)
      ensures outcome.EmbeddingFailed? <==> embedder.faults > old(embedder.faults)
      ensures outcome.StoringFailed? ==> chunkStore.faults > old(chunkStore.faults)
      ensures outcome.InvalidationFailed? <==> invalidator.faults > old(invalidator.faults)
      ensures outcome.SweepFailed? ==> HighestLeft(chunkStore.tables, d, outcome.stuck, outcome.version)
      ensures OthersKept(Snapshot(), old(Snapshot()), d)
      ensures outcome.Ingested? || outcome.InvalidationFailed? ==>
        ExactlyOneVersion(Snapshot(), d, Latest(old(chunkStore.tables), d) + 1, title, DraftsOf(text), embedder.answer)
      ensures !outcome.Ingested? ==> Redis() == old(Redis())
      ensures outcome.Ingested? ==> Evicts(old(Redis()), Redis(), d, RedisFaults() > old(RedisFaults()))
      ensures outcome.Ingested? ==>
        outcome.result == DocumentVersion(d, Latest(old(chunkStore.tables), d) + 1, |DraftsOf(text)|)
    {
      hide Latest, Exec, Run, Split, Sentences, WindowsFrom, Drafts, Complete, OthersKept, ExactlyOneVersion,
        HasComplete, RemoveVersion, Valid, Snapshot, Faults, Evicts, Whole, EmbeddedRows, AsksTexts, PackedAs, Retells,
        EndsInRead;
      ValidMeans();
      KeptAsItself(Snapshot(), d);
      var drafts := ChunkText(text, 350, 2);
      DraftsInOrder(text);
      NoDraftsIff(text, 350, 2);
      if drafts == [] {
        return NoChunkableText;
      }
      var embedded := Embed(drafts);
      if embedded.None? {
        return EmbeddingFailed;
      }
      ghost var history := steps;
      var written := WriteNewVersion(d, title, drafts, embedded.value);
      if written.NotStored? {
        return StoringFailed;
      }
      if written.Compensated? {
        ValidMeans();
        KeptByIngest(history, steps, d);
        return WriteFailed(written.number, written.failures);
      }
      var version := written.version.version;
      var finished := Finish(d, version);
      ValidMeans();
      KeptByIngest(history, steps, d);
      WholeIsEmbedded(Snapshot(), Exec(steps).job, embedder.asked);
      match finished
      case Stuck(v) =>
        return SweepFailed(version, v);
      case Raised =>
        return SweepReadRaised(version);
      case CacheKept =>
        return InvalidationFailed(version);
      case Done =>
        return Ingested(written.version);
    }
  }

  lemma KeptByIngest(history: seq<Step>, steps: seq<Step>, d: DocId)
    requires Run(steps) && Continues(history, steps, d)
    requires Exec(history).phase.Idle? && Exec(steps).phase.Idle?
    ensures OthersKept(Exec(steps).stores, Exec(history).stores, d)
    ensures forall x :: HasComplete(Exec(history).stores, x) ==> HasComplete(Exec(steps).stores, x)
  {
    hide Exec, Run, Complete, OthersKept;
    OthersAreKept(history, steps, d);
    forall x | HasComplete(Exec(history).stores, x)
      ensures HasComplete(Exec(steps).stores, x)
    {
      assert steps[..|history|] == history;
      var v: nat :| Complete(Exec(history).stores, x, v);
      assert Available(Exec(history), x) by { assert !InFlight(Exec(history), x, v); }
      AvailabilityIsNeverLost(steps, |history|, x);
    }
  }

  /** What the sweep's read finds is the highest of the versions still to be swept. */
  lemma FoundIsHighest(w: World)
    requires Inv(w) && w.phase.SweepRead? && w.phase.u > 0
    requires VersionRows(w.stores.tables, w.job.docId, w.phase.u) != {}
    ensures HighestLeft(w.stores.tables, w.job.docId, w.phase.u, w.job.version)
  {
    hide ChunkId, Owner, Latest, Upsert, Whole, OthersKept, Tight, HistoryOk, IndexOk, ActiveIsHighest, JobOk;
    var t := w.stores.tables;
    var id :| id in t.chunks && t.chunks[id].docId == w.job.docId && t.chunks[id].version == w.phase.u;
    assert RowOk(t, id);
  }

  lemma LastStep(prior: seq<Step>, step: Step, steps: seq<Step>)
    requires steps == prior + [step]
    ensures EndsInRead(steps) <==> step.Fail? && Exec(prior).phase.SweepRead?
  {
    hide Exec;
    assert steps[..|steps| - 1] == prior;
  }

  lemma EmptyListing(t: Tables, d: DocId, version: nat, chunks: seq<Chunk>)
    requires Listing(t, d, version, chunks)
    ensures chunks == [] <==> VersionRows(t, d, version) == {}
  {
    hide VersionRows;
    if chunks != [] {
      HeadIn(chunks);
    }
    if c :| c in VersionRows(t, d, version) {
      assert c in chunks;
    }
  }

  /** What get_chunks returns right after the upsert is the rows of the drafts, in draft order. */
  lemma FetchedRows(w: World, chunks: seq<Chunk>)
    requires Inv(w) && w.phase.Fetch?
    requires Listing(w.stores.tables, w.job.docId, w.job.version, chunks)
    ensures chunks == Rows(w.job)
  {
    hide ChunkId, Owner, Latest, Keyed, Upsert, SweepOk;
    ListingAfterUpsert(w.job.before.tables, w.job.docId, w.job.title, w.job.drafts, chunks);
  }

  lemma FetchChangesNothing(w: World, step: Step)
    requires w.phase.Fetch? && (step.Ok? || step.Fail?)
    ensures Apply(w, step).stores == w.stores && Enabled(w, step)
  {
  }

  lemma JobFacts(w: World)
    requires Inv(w) && w.phase.PutBm25?
    ensures w.job.version > 0 && InOrder(w.job.drafts)
  {
    hide ChunkId, Owner, Latest, Keyed, Upsert, StoresOk, HistoryOk, SweepOk;
  }
}
