/** What the ingest pipeline promises, for every run. */
module IngestGuarantees {
  import opened Models
  import opened ChunkIds
  import opened ChunkStore
  import opened SearchIndexes
  import opened IngestProtocol
  import opened IngestInvariant
  import opened IngestSteps

  // ---- index entries and rows, at every step ----

  ghost predicate RowOf(t: Tables, id: string, d: DocId, version: nat) {
    id in t.chunks && t.chunks[id].docId == d && t.chunks[id].version == version
  }

  ghost predicate Located<T>(t: Tables, m: map<string, Entry<T>>) {
    forall id :: id in m ==> Near(t, m[id].docId, m[id].version)
  }

  /** In every state of every run an index entry names a stored version or the next number to be allocated;
      a version has a document row exactly when it has chunk rows; and the active row is the highest one. */
  lemma EveryStateIsOrderly(steps: seq<Step>)
    requires Run(steps)
    ensures
      var s := Exec(steps).stores;
      && Located(s.tables, s.bm25) && Located(s.tables, s.vectors)
      && (forall d, v: nat :: (d, v) in s.tables.documents <==> exists id :: RowOf(s.tables, id, d, v))
      && ActiveIsHighest(s.tables)
  {
    hide ChunkId, Owner, Latest, Exec, Run, WriteOk, SweepOk, HistoryOk;
    var s := Exec(steps).stores;
    RunKeeps(steps);
    forall id
      ensures id in s.bm25 ==> Near(s.tables, s.bm25[id].docId, s.bm25[id].version)
      ensures id in s.vectors ==> Near(s.tables, s.vectors[id].docId, s.vectors[id].version)
    {
      assert EntryOk(s.tables, s.bm25, id) && EntryOk(s.tables, s.vectors, id);
    }
    forall d, v: nat
      ensures (d, v) in s.tables.documents <==> exists id :: RowOf(s.tables, id, d, v)
    {
      if (d, v) in s.tables.documents {
        assert Populated(s.tables, d, v);
        var id :| id in s.tables.chunks && Owner(id) == (d, v);
        assert RowOk(s.tables, id);
        assert RowOf(s.tables, id, d, v);
      }
      if id :| RowOf(s.tables, id, d, v) {
        assert RowOk(s.tables, id);
      }
    }
  }

  // ---- success ----

  /** Document d is stored as exactly one version: n rows, n texts, n vectors, each vector at its own position. */
  ghost predicate ExactlyOneVersion(s: Stores, d: DocId, version: nat, title: string, drafts: seq<ChunkDraft>,
                                    vectors: seq<Vector>) {
    && |vectors| == |drafts|
    && (forall x :: (d, x) in s.tables.documents <==> x == version)
    && s.tables.documents[(d, version)] == DocRow(title, true)
    && (forall i :: 0 <= i < |drafts| ==>
          var id := ChunkId(d, version, i);
          && id in s.tables.chunks && s.tables.chunks[id] == Chunk(id, d, version, i, drafts[i].text, title)
          && id in s.bm25 && s.bm25[id] == Entry(d, version, drafts[i].text)
          && id in s.vectors && s.vectors[id] == Entry(d, version, Point(vectors[i], title)))
    && (forall id :: id in s.tables.chunks && s.tables.chunks[id].docId == d ==> Numbered(id, d, version, |drafts|))
    && (forall id :: id in s.bm25 && s.bm25[id].docId == d ==> Numbered(id, d, version, |drafts|))
    && (forall id :: id in s.vectors && s.vectors[id].docId == d ==> Numbered(id, d, version, |drafts|))
  }

  ghost predicate Numbered(id: string, d: DocId, version: nat, n: nat) {
    exists i :: 0 <= i < n && id == ChunkId(d, version, i)
  }

  lemma KeyedNumbered(j: Job, id: string)
    requires InOrder(j.drafts) && id in Keyed(Rows(j))
    ensures Numbered(id, j.docId, j.version, |j.drafts|)
  {
    hide ChunkId, Owner, Keyed;
    KeyedHolds(Rows(j));
    var i :| 0 <= i < |Rows(j)| && Rows(j)[i] == Keyed(Rows(j))[id];
    assert id == ChunkId(j.docId, j.version, i);
  }

  lemma RowAt(j: Job, i: nat)
    requires InOrder(j.drafts) && i < |j.drafts|
    ensures
      var id := ChunkId(j.docId, j.version, i);
      && Owner(id) == (j.docId, j.version)
      && id in Keyed(Rows(j)) && Keyed(Rows(j))[id] == Chunk(id, j.docId, j.version, i, j.drafts[i].text, j.title)
  {
    hide ChunkId, Owner, Keyed, OrdOf;
    var rows := Rows(j);
    KeyedHolds(rows);
    ChunkIdReadsBack(j.docId, j.version, i);
    forall a, b | 0 <= a < b < |rows|
      ensures rows[a].id != rows[b].id
    {
      ChunkIdReadsBack(j.docId, j.version, a);
      ChunkIdReadsBack(j.docId, j.version, b);
    }
    assert rows[i].id == ChunkId(j.docId, j.version, i);
  }

  lemma SweptEntries<T>(t: Tables, m: map<string, Entry<T>>, entries: map<string, Entry<T>>, j: Job)
    requires IndexOk(t, m) && InOrder(j.drafts)
    requires forall x: nat :: (j.docId, x) in t.documents <==> x == j.version
    requires forall id :: id in m && Owner(id).0 == j.docId ==> Owner(id) in t.documents
    requires Exactly(m, entries, j.docId, j.version)
    requires forall id :: id in entries ==> id in Keyed(Rows(j))
    ensures forall id :: id in m && m[id].docId == j.docId ==> Numbered(id, j.docId, j.version, |j.drafts|)
  {
    hide ChunkId, Owner, Keyed, Latest, Rows, Numbered;
    forall id | id in m && m[id].docId == j.docId
      ensures Numbered(id, j.docId, j.version, |j.drafts|)
    {
      assert EntryOk(t, m, id);
      assert Owner(id) == (j.docId, Owner(id).1);
      assert SameAt(m, entries, id);
      KeyedNumbered(j, id);
    }
  }

  lemma SweptWorld(w: World)
    requires Inv(w) && w.phase.Invalidate?
    ensures ExactlyOneVersion(w.stores, w.job.docId, w.job.version, w.job.title, w.job.drafts, w.job.vectors)
    ensures OthersKept(w.stores, w.job.before, w.job.docId)
  {
    hide ChunkId, Owner, Keyed, Latest, Rows, Numbered, Upsert, HistoryOk;
    var s, j := w.stores, w.job;
    forall x: nat
      ensures (j.docId, x) in s.tables.documents <==> x == j.version
    {
      if (j.docId, x) in s.tables.documents && x == 0 {
        StoresFacts(s);
      }
    }
    SweptEntries(s.tables, s.bm25, Texts(j), j);
    SweptEntries(s.tables, s.vectors, Points(j), j);
    SuccessRows(w);
    forall i | 0 <= i < |j.drafts|
      ensures
        var id := ChunkId(j.docId, j.version, i);
        && id in s.tables.chunks && s.tables.chunks[id] == Chunk(id, j.docId, j.version, i, j.drafts[i].text, j.title)
        && id in s.bm25 && s.bm25[id] == Entry(j.docId, j.version, j.drafts[i].text)
        && id in s.vectors && s.vectors[id] == Entry(j.docId, j.version, Point(j.vectors[i], j.title))
    {
      RowAt(j, i);
      var id := ChunkId(j.docId, j.version, i);
      assert SameAt(s.tables.chunks, Keyed(Rows(j)), id);
      assert SameAt(s.bm25, Texts(j), id);
      assert SameAt(s.vectors, Points(j), id);
    }
  }

  lemma SuccessRows(w: World)
    requires Inv(w) && w.phase.Invalidate?
    ensures forall id :: id in w.stores.tables.chunks && w.stores.tables.chunks[id].docId == w.job.docId ==>
      Numbered(id, w.job.docId, w.job.version, |w.job.drafts|)
  {
    hide ChunkId, Owner, Keyed, Latest, Rows, Numbered, Upsert, HistoryOk, ActiveIsHighest;
    var s, j := w.stores, w.job;
    forall id | id in s.tables.chunks && s.tables.chunks[id].docId == j.docId
      ensures Numbered(id, j.docId, j.version, |j.drafts|)
    {
      assert RowOk(s.tables, id);
      assert Owner(id) == (j.docId, j.version);
      assert SameAt(s.tables.chunks, Keyed(Rows(j)), id);
      KeyedNumbered(j, id);
    }
  }

  /** The job a run is working on is that of its last Begin, and `before` is what the stores held then. */
  ghost predicate BeganAt(steps: seq<Step>, k: nat) {
    k < |steps| && steps[k].Begin?
    && (forall i :: k < i < |steps| ==> !steps[i].Begin?)
    && Exec(steps).job.before == Exec(steps[..k]).stores
    && steps[k] == Begin(Exec(steps).job.docId, Exec(steps).job.title, Exec(steps).job.drafts, Exec(steps).job.vectors)
  }

  lemma StepJob(w: World, step: Step)
    requires Enabled(w, step)
    ensures
      var w' := Apply(w, step);
      if step.Begin? then
        w'.job.docId == step.docId && w'.job.title == step.title && w'.job.drafts == step.drafts
        && w'.job.vectors == step.vectors && w'.job.before == w.stores
      else w'.job == w.job && (w'.phase != Idle ==> w.phase != Idle)
  {
    hide Effect, Upsert;
  }

  lemma {:induction false} JobBegan(steps: seq<Step>)
    requires Run(steps) && Exec(steps).phase != Idle
    ensures exists k: nat :: BeganAt(steps, k)
  {
    hide Apply, Enabled;
    var n := |steps| - 1;
    var prior := steps[..n];
    StepJob(Exec(prior), steps[n]);
    if steps[n].Begin? {
      assert BeganAt(steps, n);
    } else {
      JobBegan(prior);
      var k: nat :| BeganAt(prior, k);
      assert prior[..k] == steps[..k];
      assert BeganAt(steps, k);
    }
  }

  /** An ingest that gets through its sweep - in whatever state earlier failures left the stores - leaves d
      stored as exactly the one new version, and every other document as it was when the ingest began. */
  lemma SuccessLeavesOneVersion(steps: seq<Step>)
    requires Run(steps) && Exec(steps).phase.Invalidate?
    ensures exists k: nat ::
      && BeganAt(steps, k)
      && ExactlyOneVersion(Exec(steps).stores, steps[k].docId, Exec(steps).job.version, steps[k].title,
                           steps[k].drafts, steps[k].vectors)
      && OthersKept(Exec(steps).stores, Exec(steps[..k]).stores, steps[k].docId)
  {
    hide Exec, Run, Inv, ExactlyOneVersion, OthersKept;
    RunKeeps(steps);
    JobBegan(steps);
    SweptWorld(Exec(steps));
    var k: nat :| BeganAt(steps, k);
  }
}
