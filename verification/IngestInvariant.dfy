/** What every state of every ingest run satisfies. */
module IngestInvariant {
  import opened Models
  import opened ChunkIds
  import opened ChunkStore
  import opened SearchIndexes
  import opened IngestProtocol

  // ---- the stores, in any phase ----

  /** An index entry may name a stored version, or the one number the next upsert will allocate. */
  ghost predicate Near(t: Tables, d: DocId, version: nat) {
    (d, version) in t.documents || version == Latest(t, d) + 1
  }

  ghost predicate EntryOk<T>(t: Tables, m: map<string, Entry<T>>, id: string) {
    id in m ==> Owner(id) == (m[id].docId, m[id].version) && Near(t, m[id].docId, m[id].version)
  }

  ghost predicate IndexOk<T>(t: Tables, m: map<string, Entry<T>>) {
    forall id :: EntryOk(t, m, id)
  }

  ghost predicate HasRows(t: Tables, d: DocId, version: nat) {
    exists id :: id in t.chunks && Owner(id) == (d, version)
  }

  ghost predicate Populated(t: Tables, d: DocId, version: nat) {
    (d, version) in t.documents ==> HasRows(t, d, version)
  }

  ghost predicate TablesOk(t: Tables) {
    RowsOk(t) && ActiveIsHighest(t) && forall d, v :: Populated(t, d, v)
  }

  ghost predicate StoresOk(s: Stores) {
    TablesOk(s.tables) && IndexOk(s.tables, s.bm25) && IndexOk(s.tables, s.vectors)
  }

  // ---- history ----

  ghost predicate PinOk(w: World, id: string) {
    id in w.pins ==>
      var p := w.pins[id];
      && p.chunk.id == id && Owner(id) == (p.chunk.docId, p.chunk.version)
      && p.chunk.docId in w.committed && p.chunk.version <= w.committed[p.chunk.docId]
      && (id in w.stores.tables.chunks ==> w.stores.tables.chunks[id] == p.chunk)
      && (id in w.stores.bm25 ==> w.stores.bm25[id] == TextEntry(p.chunk))
      && (id in w.stores.vectors ==> w.stores.vectors[id] == PointEntry(p.chunk, p.vector))
  }

  ghost predicate HistoryOk(w: World) {
    && (forall d :: d in w.committed ==> w.committed[d] <= Latest(w.stores.tables, d))
    && forall id :: PinOk(w, id)
  }

  // ---- the document being ingested, phase by phase ----

  predicate Writing(p: Phase) {
    p.Fetch? || p.ClearBm25? || p.ClearVectors? || p.PutBm25? || p.PutVectors?
    || p.UndoVectors? || p.UndoBm25? || p.UndoTables?
  }

  ghost predicate SameAt<K, T>(m: map<K, T>, m0: map<K, T>, id: K) {
    (id in m <==> id in m0) && (id in m ==> m[id] == m0[id])
  }

  ghost predicate SameOutside<T>(m: map<string, Entry<T>>, m0: map<string, Entry<T>>, d: DocId, version: nat) {
    forall id :: Owner(id) != (d, version) ==> SameAt(m, m0, id)
  }

  ghost predicate NoneOf<T>(m: map<string, Entry<T>>, d: DocId, version: nat) {
    forall id :: id in m ==> Owner(id) != (d, version)
  }

  /** The entries of (d, version) in m are exactly `entries`. */
  ghost predicate Exactly<T>(m: map<string, T>, entries: map<string, T>, d: DocId, version: nat) {
    forall id :: Owner(id) == (d, version) ==> SameAt(m, entries, id)
  }

  ghost predicate JobOk(j: Job) {
    && StoresOk(j.before)
    && j.drafts != [] && InOrder(j.drafts)
    && j.version == Latest(j.before.tables, j.docId) + 1
    && Upsert(j.before.tables, j.docId, j.title, j.drafts).Some?
  }

  ghost predicate WriteOk(w: World) {
    var j, s := w.job, w.stores;
    && JobOk(j)
    && s.tables == Upsert(j.before.tables, j.docId, j.title, j.drafts).value
    && (j.docId in w.committed ==> w.committed[j.docId] < j.version)
    && SameOutside(s.bm25, j.before.bm25, j.docId, j.version)
    && SameOutside(s.vectors, j.before.vectors, j.docId, j.version)
    && (w.phase.ClearVectors? || w.phase.PutBm25? ==> NoneOf(s.bm25, j.docId, j.version))
    && (w.phase.PutBm25? || w.phase.PutVectors? ==> NoneOf(s.vectors, j.docId, j.version))
    && (w.phase.PutVectors? ==> Exactly(s.bm25, Texts(j), j.docId, j.version))
  }

  /** Everything that is not document d is as it was. */
  ghost predicate OthersKept(s: Stores, s0: Stores, d: DocId) {
    && (forall k: (DocId, nat) :: k.0 != d ==> SameAt(s.tables.documents, s0.tables.documents, k))
    && (forall id :: Owner(id).0 != d ==> SameAt(s.tables.chunks, s0.tables.chunks, id))
    && (forall id :: Owner(id).0 != d ==> SameAt(s.bm25, s0.bm25, id))
    && (forall id :: Owner(id).0 != d ==> SameAt(s.vectors, s0.vectors, id))
  }

  /** Version `version` of d is whole: its active document row, its chunk rows, and for each of these the text and the
      vector of its position. */
  ghost predicate Whole(s: Stores, j: Job) {
    && |j.vectors| == |j.drafts|
    && (j.docId, j.version) in s.tables.documents
    && s.tables.documents[(j.docId, j.version)] == DocRow(j.title, true)
    && Exactly(s.tables.chunks, Keyed(Rows(j)), j.docId, j.version)
    && Exactly(s.bm25, Texts(j), j.docId, j.version)
    && Exactly(s.vectors, Points(j), j.docId, j.version)
  }

  /** No index entry of d names a version that is not stored. */
  ghost predicate Tight(s: Stores, d: DocId) {
    && (forall id :: id in s.bm25 && Owner(id).0 == d ==> Owner(id) in s.tables.documents)
    && (forall id :: id in s.vectors && Owner(id).0 == d ==> Owner(id) in s.tables.documents)
  }

  ghost predicate SweptAbove(t: Tables, d: DocId, u: nat, kept: nat) {
    forall x :: (d, x) in t.documents ==> x <= u || x == kept
  }

  /** The oldest version number the sweep may still find. */
  function Bound(p: Phase): nat {
    match p
    case SweepRead(u) => u
    case SweepVectors(u) => u
    case SweepBm25(u) => u
    case SweepTables(u) => u
    case _ => 0
  }

  ghost predicate SweepOk(w: World) {
    var j, s := w.job, w.stores;
    && JobOk(j)
    && OthersKept(s, j.before, j.docId)
    && Whole(s, j)
    && Tight(s, j.docId)
    && Latest(s.tables, j.docId) == j.version
    && j.docId in w.committed && w.committed[j.docId] == j.version
    && Sub(Pins(j), w.pins)
    && Bound(w.phase) < j.version
    && SweptAbove(s.tables, j.docId, Bound(w.phase), j.version)
    && (w.phase.SweepVectors? || w.phase.SweepBm25? || w.phase.SweepTables? ==> Bound(w.phase) > 0)
    && (w.phase.SweepBm25? || w.phase.SweepTables? ==> NoneOf(s.vectors, j.docId, Bound(w.phase)))
    && (w.phase.SweepTables? ==> NoneOf(s.bm25, j.docId, Bound(w.phase)))
  }

  ghost predicate Inv(w: World) {
    && StoresOk(w.stores)
    && HistoryOk(w)
    && (Writing(w.phase) ==> WriteOk(w))
    && (w.phase != Idle && !Writing(w.phase) ==> SweepOk(w))
  }

  // ---- small facts about index operations ----

  ghost predicate Sub<T>(m: map<string, T>, m0: map<string, T>) {
    forall id :: id in m ==> id in m0 && m[id] == m0[id]
  }

  /** A cut-short removal only removes entries of its own version; a complete one removes them all. */
  lemma Removed<T>(t: Tables, m: map<string, Entry<T>>, d: DocId, v: nat, touched: set<string>)
    requires IndexOk(t, m)
    ensures Sub(RemoveSome(m, d, v, touched), m) && SameOutside(RemoveSome(m, d, v, touched), m, d, v)
    ensures Sub(RemoveVersion(m, d, v), m) && SameOutside(RemoveVersion(m, d, v), m, d, v)
    ensures NoneOf(RemoveVersion(m, d, v), d, v)
  {
    hide Owner;
    forall id
      ensures Owner(id) != (d, v) ==>
        SameAt(RemoveSome(m, d, v, touched), m, id) && SameAt(RemoveVersion(m, d, v), m, id)
      ensures id in RemoveVersion(m, d, v) ==> Owner(id) != (d, v)
    {
      assert EntryOk(t, m, id);
    }
  }

  lemma RowIds(j: Job)
    ensures forall id :: id in Keyed(Rows(j)) ==>
      var c := Keyed(Rows(j))[id];
      c.id == id && Owner(id) == (j.docId, j.version) && c.docId == j.docId && c.version == j.version
      && 0 <= c.ord && (InOrder(j.drafts) ==> c.ord < |j.drafts|)
  {
    hide Keyed, ChunkId, Owner;
    var rows := Rows(j);
    KeyedHolds(rows);
    forall id | id in Keyed(rows)
      ensures Owner(id) == (j.docId, j.version)
      ensures InOrder(j.drafts) ==> Keyed(rows)[id].ord < |j.drafts|
    {
      var i :| 0 <= i < |rows| && rows[i] == Keyed(rows)[id];
      ChunkIdReadsBack(j.docId, j.version, j.drafts[i].ord);
    }
  }

  /** Adding rows of a stored version keeps an index well-formed. */
  lemma PutKeeps<T>(t: Tables, m: map<string, Entry<T>>, entries: map<string, Entry<T>>, d: DocId, v: nat)
    requires IndexOk(t, m) && (d, v) in t.documents
    requires forall id :: id in entries ==> Owner(id) == (d, v) && Of(entries[id], d, v)
    ensures IndexOk(t, m + entries) && SameOutside(m + entries, m, d, v)
    ensures NoneOf(m, d, v) ==> Exactly(m + entries, entries, d, v)
  {
    hide Owner;
    forall id
      ensures EntryOk(t, m + entries, id)
    {
      assert EntryOk(t, m, id);
    }
  }
}
