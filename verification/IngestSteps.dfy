/** Every enabled step keeps the invariant; hence every state of every run satisfies it. */
module IngestSteps {
  import opened Models
  import opened ChunkIds
  import opened ChunkStore
  import opened SearchIndexes
  import opened IngestProtocol
  import opened IngestInvariant

  // ---- upsert ----

  lemma UpsertTables(t: Tables, d: DocId, title: string, drafts: seq<ChunkDraft>)
    requires TablesOk(t) && drafts != []
    requires Upsert(t, d, title, drafts).Some?
    ensures
      var t' := Upsert(t, d, title, drafts).value;
      var v := Latest(t, d) + 1;
      && TablesOk(t')
      && t'.documents.Keys == t.documents.Keys + {(d, v)}
      && (forall x :: Latest(t', x) == if x == d then v else Latest(t, x))
  {
    hide Keyed, ChunkId, Owner, Latest;
    var t' := Upsert(t, d, title, drafts).value;
    var v := Latest(t, d) + 1;
    var rows := RowsOf(d, title, v, drafts);
    UpsertKeeps(t, d, title, drafts);
    KeyedHolds(rows);
    forall x
      ensures Latest(t', x) == if x == d then v else Latest(t, x)
    {
      LatestAfterUpsert(t, d, title, drafts, x);
    }
    forall x, y: nat
      ensures Populated(t', x, y)
    {
      if (x, y) == (d, v) {
        ChunkIdReadsBack(d, v, drafts[0].ord);
        assert rows[0].id in t'.chunks;
      } else if (x, y) in t.documents {
        assert Populated(t, x, y);
        var id :| id in t.chunks && Owner(id) == (x, y);
        assert id in t'.chunks;
      }
    }
  }

  lemma UpsertIndex<T>(t: Tables, t': Tables, d: DocId, m: map<string, Entry<T>>)
    requires IndexOk(t, m)
    requires t'.documents.Keys == t.documents.Keys + {(d, Latest(t, d) + 1)}
    requires forall x :: x != d ==> Latest(t', x) == Latest(t, x)
    ensures IndexOk(t', m)
    ensures forall id :: id in m && Owner(id).0 == d ==> Owner(id) in t'.documents
  {
    hide Owner, Latest;
    forall id
      ensures EntryOk(t', m, id) && (id in m && Owner(id).0 == d ==> Owner(id) in t'.documents)
    {
      assert EntryOk(t, m, id);
    }
  }

  lemma UpsertChunks(t: Tables, d: DocId, title: string, drafts: seq<ChunkDraft>)
    requires RowsOk(t) && Upsert(t, d, title, drafts).Some?
    ensures
      var v := Latest(t, d) + 1;
      var made := Keyed(RowsOf(d, title, v, drafts));
      && Upsert(t, d, title, drafts).value.chunks == t.chunks + made
      && (forall id :: id in t.chunks ==> Owner(id) != (d, v))
      && (forall id :: id in made ==> Owner(id) == (d, v))
  {
    hide Keyed, ChunkId, Owner, Latest;
    var v := Latest(t, d) + 1;
    RowIds(Job(d, title, drafts, [], v, NO_STORES));
    forall id | id in t.chunks
      ensures Owner(id) != (d, v)
    {
      assert RowOk(t, id);
    }
  }

  lemma BeginKeeps(w: World, step: Step)
    requires Inv(w) && step.Begin? && Enabled(w, step)
    ensures Inv(Apply(w, step))
  {
    hide Keyed, ChunkId, Owner, Latest, Upsert;
    var w' := Apply(w, step);
    var t, d := w.stores.tables, step.docId;
    UpsertTables(t, d, step.title, step.drafts);
    UpsertIndex(t, w'.stores.tables, d, w.stores.bm25);
    UpsertIndex(t, w'.stores.tables, d, w.stores.vectors);
    UpsertChunks(t, d, step.title, step.drafts);
    forall id
      ensures PinOk(w', id)
    {
      assert PinOk(w, id);
    }
  }

  // ---- steps that only drop index entries ----

  lemma DropKeeps(w: World, w': World)
    requires StoresOk(w.stores) && HistoryOk(w)
    requires w'.stores.tables == w.stores.tables
    requires Sub(w'.stores.bm25, w.stores.bm25) && Sub(w'.stores.vectors, w.stores.vectors)
    requires w'.committed == w.committed && w'.pins == w.pins
    ensures StoresOk(w'.stores) && HistoryOk(w')
  {
    hide ChunkId, Owner, Latest;
    forall id
      ensures EntryOk(w'.stores.tables, w'.stores.bm25, id) && EntryOk(w'.stores.tables, w'.stores.vectors, id)
      ensures PinOk(w', id)
    {
      assert EntryOk(w.stores.tables, w.stores.bm25, id) && EntryOk(w.stores.tables, w.stores.vectors, id);
      assert PinOk(w, id);
    }
  }

  /** Fetch, the two clears and the two index undo steps, whatever their outcome. */
  lemma ClearOrUndoKeeps(w: World, step: Step)
    requires Inv(w) && (step.Ok? || step.Fail?)
    requires w.phase.Fetch? || w.phase.ClearBm25? || w.phase.ClearVectors? || w.phase.UndoVectors? || w.phase.UndoBm25?
    ensures Inv(Apply(w, step))
  {
    hide ChunkId, Owner, Latest, Keyed, Upsert, RemoveVersion, RemoveSome;
    var s, j := w.stores, w.job;
    var touched := if step.Fail? then step.touched else {};
    Removed(s.tables, s.bm25, j.docId, j.version, touched);
    Removed(s.tables, s.vectors, j.docId, j.version, touched);
    DropKeeps(w, Apply(w, step));
  }

  lemma WriteFacts(w: World)
    requires WriteOk(w)
    ensures TablesOk(w.stores.tables)
    ensures (w.job.docId, w.job.version) in w.stores.tables.documents
    ensures Latest(w.stores.tables, w.job.docId) == w.job.version > 0
    ensures Tight(w.stores, w.job.docId)
  {
    hide ChunkId, Owner, Latest, Keyed, Upsert;
    var j, s := w.job, w.stores;
    UpsertTables(j.before.tables, j.docId, j.title, j.drafts);
    UpsertIndex(j.before.tables, s.tables, j.docId, j.before.bm25);
    UpsertIndex(j.before.tables, s.tables, j.docId, j.before.vectors);
  }

  /** Writing only entries of an uncommitted version cannot touch a pinned id. */
  lemma WriteHistory(w: World, w': World)
    requires HistoryOk(w) && w'.stores.tables == w.stores.tables
    requires w'.committed == w.committed && w'.pins == w.pins
    requires w.job.docId in w.committed ==> w.committed[w.job.docId] < w.job.version
    requires SameOutside(w'.stores.bm25, w.stores.bm25, w.job.docId, w.job.version)
    requires SameOutside(w'.stores.vectors, w.stores.vectors, w.job.docId, w.job.version)
    ensures HistoryOk(w')
  {
    hide ChunkId, Owner, Latest;
    forall id
      ensures PinOk(w', id)
    {
      assert PinOk(w, id);
    }
  }

  lemma PutBm25Keeps(w: World, step: Step)
    requires Inv(w) && w.phase.PutBm25? && (step.Ok? || step.Fail?)
    ensures Inv(Apply(w, step))
  {
    hide ChunkId, Owner, Latest, Keyed, Upsert, Rows, HistoryOk, JobOk;
    var s, j := w.stores, w.job;
    WriteFacts(w);
    RowIds(j);
    PutKeeps(s.tables, s.bm25, Texts(j), j.docId, j.version);
    WriteHistory(w, Apply(w, step));
  }

  lemma PutVectorsFails(w: World, step: Step)
    requires Inv(w) && w.phase.PutVectors? && step.Fail?
    ensures Inv(Apply(w, step))
  {
    hide ChunkId, Owner, Latest, Keyed, Upsert, Rows, HistoryOk, JobOk, Texts, Points, PutSome, TablesOk;
    var s, j := w.stores, w.job;
    WriteFacts(w);
    PartialPoints(s.tables, s.vectors, j, step.touched);
    WriteHistory(w, Apply(w, step));
  }

  lemma PartialPoints(t: Tables, m: map<string, Entry<Point>>, j: Job, touched: set<string>)
    requires IndexOk(t, m) && (j.docId, j.version) in t.documents
    ensures IndexOk(t, PutSome(m, Points(j), touched))
    ensures SameOutside(PutSome(m, Points(j), touched), m, j.docId, j.version)
  {
    hide ChunkId, Owner, Latest, Keyed, Rows;
    RowIds(j);
    PutKeeps(t, m, Points(j) - (Points(j).Keys - touched), j.docId, j.version);
  }

  // ---- the step that commits a version ----

  ghost predicate Committing(w: World, w': World) {
    && StoresOk(w.stores) && HistoryOk(w) && WriteOk(w) && w.phase.PutVectors?
    && |w.job.vectors| == |w.job.drafts|
    && w' == w.(stores := w.stores.(vectors := w.stores.vectors + Points(w.job)),
                phase := SweepRead(w.job.version - 1),
                committed := w.committed[w.job.docId := w.job.version],
                pins := w.pins + Pins(w.job))
  }

  lemma PinKept(w: World, w': World, id: string)
    requires Committing(w, w') && id in w.pins && id !in Pins(w.job)
    ensures PinOk(w', id)
  {
    hide ChunkId, Owner, Latest, Keyed, Upsert, Rows, StoresOk, JobOk, SameOutside, Exactly, NoneOf;
    assert PinOk(w, id);
    assert id !in Points(w.job);
  }

  lemma WriteChunks(w: World)
    requires WriteOk(w)
    ensures Exactly(w.stores.tables.chunks, Keyed(Rows(w.job)), w.job.docId, w.job.version)
  {
    hide ChunkId, Owner, Latest, Keyed, RowsOf, Insertable, SameOutside, Exactly;
    var j := w.job;
    UpsertChunks(j.before.tables, j.docId, j.title, j.drafts);
    MergedExactly(j.before.tables.chunks, Keyed(Rows(j)), j.docId, j.version);
  }

  lemma MergedExactly<T>(m: map<string, T>, made: map<string, T>, d: DocId, v: nat)
    requires forall id :: id in m ==> Owner(id) != (d, v)
    ensures Exactly(m + made, made, d, v)
  {
  }

  /** At the commit, the rows of the new version are the upserted ones in all three stores. */
  lemma CommitWhole(w: World, w': World)
    requires Committing(w, w')
    ensures Whole(w'.stores, w'.job)
  {
    hide ChunkId, Owner, Latest, Keyed, Upsert, IndexOk, HistoryOk, Rows, Exactly, SameOutside;
    WriteFacts(w);
    WriteChunks(w);
    CommitVectors(w, w');
    UpsertedDocument(w.job.before.tables, w.job.docId, w.job.title, w.job.drafts);
  }

  lemma UpsertedDocument(t: Tables, d: DocId, title: string, drafts: seq<ChunkDraft>)
    requires Upsert(t, d, title, drafts).Some?
    ensures
      var k, t' := (d, Latest(t, d) + 1), Upsert(t, d, title, drafts).value;
      k in t'.documents && t'.documents[k] == DocRow(title, true)
  {
    hide Latest, Keyed;
  }

  lemma CommitVectors(w: World, w': World)
    requires Committing(w, w')
    ensures Exactly(w'.stores.vectors, Points(w.job), w.job.docId, w.job.version)
    ensures SameOutside(w'.stores.vectors, w.stores.vectors, w.job.docId, w.job.version)
    ensures IndexOk(w'.stores.tables, w'.stores.vectors)
  {
    hide ChunkId, Owner, Latest, Keyed, Upsert, Rows;
    WriteFacts(w);
    RowIds(w.job);
    PutKeeps(w.stores.tables, w.stores.vectors, Points(w.job), w.job.docId, w.job.version);
  }

  lemma PinMade(w: World, w': World, id: string)
    requires Committing(w, w') && id in Pins(w.job)
    requires Whole(w'.stores, w'.job)
    ensures PinOk(w', id)
  {
    hide ChunkId, Owner, Latest, Keyed, Upsert, Rows, WriteOk, StoresOk, HistoryOk;
    RowIds(w.job);
    assert SameAt(w'.stores.tables.chunks, Keyed(Rows(w.job)), id);
    assert SameAt(w'.stores.bm25, Texts(w.job), id);
    assert SameAt(w'.stores.vectors, Points(w.job), id);
  }

  lemma CommitHistory(w: World, w': World)
    requires Committing(w, w')
    ensures HistoryOk(w')
  {
    hide ChunkId, Owner, Latest, Keyed, Upsert, Rows, PinOk, Whole, Pins, Points;
    WriteFacts(w);
    CommitWhole(w, w');
    forall id
      ensures PinOk(w', id)
    {
      if id in Pins(w.job) {
        PinMade(w, w', id);
      } else if id in w.pins {
        PinKept(w, w', id);
      } else {
        NoPin(w', id);
      }
    }
  }

  lemma NoPin(w: World, id: string)
    requires id !in w.pins
    ensures PinOk(w, id)
  {
  }

  lemma OutsideIsOther<T>(m: map<string, Entry<T>>, m0: map<string, Entry<T>>, d: DocId, v: nat)
    requires SameOutside(m, m0, d, v)
    ensures forall id :: Owner(id).0 != d ==> SameAt(m, m0, id)
  {
    hide Owner, SameAt;
    forall id | Owner(id).0 != d
      ensures SameAt(m, m0, id)
    {
      assert Owner(id) != (d, v);
    }
  }

  lemma SameTwice<T>(a: map<string, Entry<T>>, b: map<string, Entry<T>>, c: map<string, Entry<T>>, d: DocId, v: nat)
    requires SameOutside(a, b, d, v) && SameOutside(b, c, d, v)
    ensures SameOutside(a, c, d, v)
  {
    hide Owner;
    forall id | Owner(id) != (d, v)
      ensures SameAt(a, c, id)
    {
      assert SameAt(a, b, id) && SameAt(b, c, id);
    }
  }

  /** An upsert touches no row of another document. */
  lemma UpsertOthers(t: Tables, d: DocId, title: string, drafts: seq<ChunkDraft>)
    requires RowsOk(t) && Upsert(t, d, title, drafts).Some?
    ensures
      var t' := Upsert(t, d, title, drafts).value;
      && (forall k: (DocId, nat) :: k.0 != d ==> SameAt(t'.documents, t.documents, k))
      && (forall id :: Owner(id).0 != d ==> SameAt(t'.chunks, t.chunks, id))
  {
    hide ChunkId, Owner, Latest, Keyed, Insertable, RowsOf, RowsOk;
    UpsertChunks(t, d, title, drafts);
  }

  lemma CommitOthers(w: World, w': World)
    requires Committing(w, w')
    ensures OthersKept(w'.stores, w'.job.before, w'.job.docId)
  {
    hide ChunkId, Owner, Latest, Keyed, Rows, StoresOk, HistoryOk, RowsOf, Upsert, SameOutside, SameAt, Points, NoneOf,
      Exactly, InOrder;
    var s, j := w.stores, w.job;
    CommitVectors(w, w');
    SameTwice(w'.stores.vectors, s.vectors, j.before.vectors, j.docId, j.version);
    OutsideIsOther(w'.stores.vectors, j.before.vectors, j.docId, j.version);
    OutsideIsOther(s.bm25, j.before.bm25, j.docId, j.version);
    StoresFacts(j.before);
    UpsertOthers(j.before.tables, j.docId, j.title, j.drafts);
  }

  lemma StoresFacts(s: Stores)
    requires StoresOk(s)
    ensures TablesOk(s.tables) && RowsOk(s.tables) && IndexOk(s.tables, s.bm25) && IndexOk(s.tables, s.vectors)
  {
  }

  lemma CommitTight(w: World, w': World)
    requires Committing(w, w')
    ensures Tight(w'.stores, w.job.docId)
  {
    hide ChunkId, Owner, Latest, Keyed, Upsert, Rows, WriteOk, StoresOk, HistoryOk;
    WriteFacts(w);
    CommitVectors(w, w');
    forall id | id in w'.stores.vectors && Owner(id).0 == w.job.docId
      ensures Owner(id) in w'.stores.tables.documents
    {
      if Owner(id) != (w.job.docId, w.job.version) {
        assert SameAt(w'.stores.vectors, w.stores.vectors, id);
      }
    }
  }

  lemma CommitStep(w: World)
    requires Inv(w) && w.phase.PutVectors? && Enabled(w, Ok)
    ensures Committing(w, Apply(w, Ok))
  {
    hide ChunkId, Owner, Latest, Keyed, Upsert, Rows, WriteOk, StoresOk, HistoryOk;
    WriteFacts(w);
  }

  lemma PutVectorsSucceeds(w: World)
    requires Inv(w) && w.phase.PutVectors? && Enabled(w, Ok)
    ensures Inv(Apply(w, Ok))
  {
    hide ChunkId, Owner, Latest, Keyed, Upsert, Rows, Whole, OthersKept, HistoryOk, TablesOk, JobOk, Tight, IndexOk,
      Apply;
    var w' := Apply(w, Ok);
    CommitStep(w);
    WriteFacts(w);
    CommitVectors(w, w');
    CommitHistory(w, w');
    CommitWhole(w, w');
    CommitOthers(w, w');
    CommitTight(w, w');
  }

  // ---- the last undo step ----

  lemma UndoneIndex<T>(t: Tables, t': Tables, d: DocId, v: nat, m: map<string, Entry<T>>, m0: map<string, Entry<T>>)
    requires IndexOk(t, m) && IndexOk(t', m0) && SameOutside(m, m0, d, v)
    requires v == Latest(t', d) + 1
    ensures IndexOk(t', m)
  {
    hide ChunkId, Owner, Latest;
    forall id
      ensures EntryOk(t', m, id)
    {
      assert EntryOk(t, m, id) && EntryOk(t', m0, id);
    }
  }

  lemma UndoRestores(w: World)
    requires WriteOk(w) && w.phase.UndoTables?
    ensures Apply(w, Ok).stores.tables == w.job.before.tables
  {
    hide ChunkId, Owner, Latest, Keyed, Upsert, Delete;
    var j := w.job;
    DeleteUndoesUpsert(j.before.tables, j.docId, j.title, j.drafts);
  }

  lemma UndoTablesKeeps(w: World, step: Step)
    requires Inv(w) && w.phase.UndoTables? && (step.Ok? || step.Fail?)
    ensures Inv(Apply(w, step))
  {
    hide ChunkId, Owner, Latest, Keyed, Upsert, Delete;
    var s, j, w' := w.stores, w.job, Apply(w, step);
    if step.Ok? {
      UndoRestores(w);
      UpsertTables(j.before.tables, j.docId, j.title, j.drafts);
      UndoneIndex(s.tables, j.before.tables, j.docId, j.version, s.bm25, j.before.bm25);
      UndoneIndex(s.tables, j.before.tables, j.docId, j.version, s.vectors, j.before.vectors);
      UpsertChunks(j.before.tables, j.docId, j.title, j.drafts);
    }
    forall id
      ensures PinOk(w', id)
    {
      assert PinOk(w, id);
    }
  }

  // ---- the sweep ----

  lemma SweepReadKeeps(w: World, step: Step)
    requires Inv(w) && w.phase.SweepRead? && (step.Ok? || step.Fail?)
    ensures Inv(Apply(w, step))
  {
    hide ChunkId, Owner, Latest, Keyed, Upsert, Whole, OthersKept, StoresOk, HistoryOk, JobOk, VersionRows;
    var s, j := w.stores, w.job;
    var u := w.phase.u;
    StoresFacts(s);
    if u > 0 && VersionRows(s.tables, j.docId, u) == {} {
      if (j.docId, u) in s.tables.documents {
        StoredVersionHasRows(s.tables, j.docId, u);
      }
    }
    DropKeeps(w, Apply(w, step));
  }

  lemma StoredVersionHasRows(t: Tables, d: DocId, u: nat)
    requires TablesOk(t) && (d, u) in t.documents
    ensures VersionRows(t, d, u) != {}
  {
    hide ChunkId, Owner, Latest;
    assert Populated(t, d, u);
    var id :| id in t.chunks && Owner(id) == (d, u);
    assert RowOk(t, id);
    assert t.chunks[id] in VersionRows(t, d, u);
  }

  lemma ExactlyFrame<T>(m: map<string, T>, m': map<string, T>, entries: map<string, T>, d: DocId, u: nat, v: nat)
    requires Exactly(m, entries, d, v) && u != v
    requires forall id :: Owner(id) != (d, u) ==> SameAt(m', m, id)
    ensures Exactly(m', entries, d, v)
  {
    hide Owner;
    forall id | Owner(id) == (d, v)
      ensures SameAt(m', entries, id)
    {
      assert SameAt(m', m, id) && SameAt(m, entries, id);
    }
  }

  lemma OthersFrame<T>(m: map<string, T>, m': map<string, T>, m0: map<string, T>, d: DocId, u: nat)
    requires forall id :: Owner(id).0 != d ==> SameAt(m, m0, id)
    requires forall id :: Owner(id) != (d, u) ==> SameAt(m', m, id)
    ensures forall id :: Owner(id).0 != d ==> SameAt(m', m0, id)
  {
    hide Owner;
    forall id | Owner(id).0 != d
      ensures SameAt(m', m0, id)
    {
      assert SameAt(m', m, id) && SameAt(m, m0, id);
    }
  }

  /** Touching only version u of d leaves the rest of d, and every other document, as they were. */
  lemma SweepFrame(s: Stores, s': Stores, j: Job, u: nat)
    requires Whole(s, j) && OthersKept(s, j.before, j.docId) && u != j.version
    requires forall k: (DocId, nat) :: k != (j.docId, u) ==> SameAt(s'.tables.documents, s.tables.documents, k)
    requires forall id :: Owner(id) != (j.docId, u) ==> SameAt(s'.tables.chunks, s.tables.chunks, id)
    requires SameOutside(s'.bm25, s.bm25, j.docId, u) && SameOutside(s'.vectors, s.vectors, j.docId, u)
    ensures Whole(s', j) && OthersKept(s', j.before, j.docId)
  {
    hide ChunkId, Owner, Latest, Keyed, Upsert, Rows, Points, Texts;
    ExactlyFrame(s.tables.chunks, s'.tables.chunks, Keyed(Rows(j)), j.docId, u, j.version);
    ExactlyFrame(s.bm25, s'.bm25, Texts(j), j.docId, u, j.version);
    ExactlyFrame(s.vectors, s'.vectors, Points(j), j.docId, u, j.version);
    OthersFrame(s.tables.chunks, s'.tables.chunks, j.before.tables.chunks, j.docId, u);
    OthersFrame(s.bm25, s'.bm25, j.before.bm25, j.docId, u);
    OthersFrame(s.vectors, s'.vectors, j.before.vectors, j.docId, u);
    assert SameAt(s'.tables.documents, s.tables.documents, (j.docId, j.version));
    forall k: (DocId, nat) | k.0 != j.docId
      ensures SameAt(s'.tables.documents, j.before.tables.documents, k)
    {
      assert SameAt(s'.tables.documents, s.tables.documents, k);
    }
  }

  lemma SweepIndexKeeps(w: World, step: Step)
    requires Inv(w) && (w.phase.SweepVectors? || w.phase.SweepBm25?) && (step.Ok? || step.Fail?)
    ensures Inv(Apply(w, step))
  {
    hide ChunkId, Owner, Latest, Keyed, Upsert, RemoveVersion, RemoveSome, Whole, OthersKept, StoresOk, HistoryOk,
      JobOk;
    var s, j := w.stores, w.job;
    var touched := if step.Fail? then step.touched else {};
    StoresFacts(s);
    Removed(s.tables, s.bm25, j.docId, Target(w), touched);
    Removed(s.tables, s.vectors, j.docId, Target(w), touched);
    DropKeeps(w, Apply(w, step));
    SweepFrame(s, Apply(w, step).stores, j, Target(w));
  }

  lemma SweptTables(t: Tables, d: DocId, u: nat, v: nat)
    requires TablesOk(t) && Latest(t, d) == v && u < v
    ensures
      var t' := Delete(t, d, u);
      && TablesOk(t')
      && t'.documents.Keys == t.documents.Keys - {(d, u)}
      && (forall k: (DocId, nat) :: k != (d, u) ==> SameAt(t'.documents, t.documents, k))
      && (forall x :: Latest(t', x) == Latest(t, x))
      && (forall id :: Owner(id) != (d, u) ==> SameAt(t'.chunks, t.chunks, id))
      && Sub(t'.chunks, t.chunks)
  {
    hide ChunkId, Owner, Latest;
    var t' := Delete(t, d, u);
    forall x
      ensures Latest(t', x) == Latest(t, x)
    {
      LatestAfterDelete(t, d, u, x);
    }
    LatestAfterDelete(t, d, u, d);
    DeleteKeeps(t, d, u);
    assert ActiveOk(t, (d, v));
    forall id
      ensures Owner(id) != (d, u) ==> SameAt(t'.chunks, t.chunks, id)
    {
      assert RowOk(t, id);
    }
    forall x, y: nat
      ensures Populated(t', x, y)
    {
      if (x, y) in t'.documents {
        assert Populated(t, x, y);
        var id :| id in t.chunks && Owner(id) == (x, y);
        assert SameAt(t'.chunks, t.chunks, id);
      }
    }
  }

  lemma SweptIndex<T>(t: Tables, t': Tables, d: DocId, u: nat, m: map<string, Entry<T>>)
    requires IndexOk(t, m) && NoneOf(m, d, u)
    requires t'.documents.Keys == t.documents.Keys - {(d, u)}
    requires forall x :: Latest(t', x) == Latest(t, x)
    ensures IndexOk(t', m)
  {
    hide ChunkId, Owner, Latest;
    forall id
      ensures EntryOk(t', m, id)
    {
      assert EntryOk(t, m, id);
    }
  }

  lemma SweepTablesKeeps(w: World, step: Step)
    requires Inv(w) && w.phase.SweepTables? && (step.Ok? || step.Fail?)
    ensures Inv(Apply(w, step))
  {
    hide ChunkId, Owner, Latest, Keyed, Upsert, Delete, Whole, OthersKept, JobOk, HistoryOk, TablesOk;
    var s, j, w' := w.stores, w.job, Apply(w, step);
    if step.Ok? {
      var u := w.phase.u;
      SweptTables(s.tables, j.docId, u, j.version);
      SweptIndex(s.tables, w'.stores.tables, j.docId, u, s.bm25);
      SweptIndex(s.tables, w'.stores.tables, j.docId, u, s.vectors);
      SweepFrame(s, w'.stores, j, u);
      SweptHistory(w, w');
    } else {
      DropKeeps(w, w');
    }
  }

  lemma SweptHistory(w: World, w': World)
    requires HistoryOk(w) && w'.committed == w.committed && w'.pins == w.pins
    requires w'.stores.bm25 == w.stores.bm25 && w'.stores.vectors == w.stores.vectors
    requires Sub(w'.stores.tables.chunks, w.stores.tables.chunks)
    requires forall x :: Latest(w'.stores.tables, x) == Latest(w.stores.tables, x)
    ensures HistoryOk(w')
  {
    hide ChunkId, Owner, Latest;
    forall id
      ensures PinOk(w', id)
    {
      assert PinOk(w, id);
    }
  }

  // ---- every step, every run ----

  lemma StepKeeps(w: World, step: Step)
    requires Inv(w) && Enabled(w, step)
    ensures Inv(Apply(w, step))
  {
    hide Inv, WriteOk, SweepOk, StoresOk, HistoryOk;
    match step
    case Begin(_, _, _, _) => BeginKeeps(w, step);
    case Crash => StopKeeps(w, step);
    case _ =>
      match w.phase
      case PutBm25 => PutBm25Keeps(w, step);
      case PutVectors => if step.Ok? { PutVectorsSucceeds(w); } else { PutVectorsFails(w, step); }
      case UndoTables => UndoTablesKeeps(w, step);
      case SweepRead(_) => SweepReadKeeps(w, step);
      case SweepVectors(_) => SweepIndexKeeps(w, step);
      case SweepBm25(_) => SweepIndexKeeps(w, step);
      case SweepTables(_) => SweepTablesKeeps(w, step);
      case Invalidate => StopKeeps(w, step);
      case _ => ClearOrUndoKeeps(w, step);
  }

  lemma StopKeeps(w: World, step: Step)
    requires Inv(w) && (step.Crash? || (w.phase.Invalidate? && !step.Begin?))
    ensures Inv(Apply(w, step))
  {
    hide ChunkId, Owner, Latest, Keyed, Upsert, WriteOk, SweepOk, StoresOk, HistoryOk;
    DropKeeps(w, Apply(w, step));
  }

  /** Every state of every run - failed steps, half-applied vector calls, failed rollbacks, crashes -
      satisfies the invariant. */
  lemma {:induction false} RunKeeps(steps: seq<Step>)
    requires Run(steps)
    ensures Inv(Exec(steps))
  {
    if steps != [] {
      var prior := steps[..|steps| - 1];
      RunKeeps(prior);
      StepKeeps(Exec(prior), steps[|steps| - 1]);
    }
  }

  /** One more enabled step makes a longer run. */
  lemma Extend(steps: seq<Step>, step: Step, longer: seq<Step>)
    requires Run(steps) && Enabled(Exec(steps), step) && longer == steps + [step]
    ensures Run(longer) && Exec(longer) == Apply(Exec(steps), step)
  {
    hide Apply, Enabled;
    assert longer[..|steps|] == steps;
  }
}
