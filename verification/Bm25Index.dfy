/** The keyword index (src/app/stores/bm25_index.py): an FTS5 table, which has no primary key of its own. */
module Bm25Index {
  import opened Models
  import opened ChunkStore
  import opened SearchIndexes

  datatype FtsRow = FtsRow(chunkId: string, docId: DocId, version: nat, text: string)

  predicate UniqueIds(rows: seq<FtsRow>) {
    forall i, j :: 0 <= i < j < |rows| ==> rows[i].chunkId != rows[j].chunkId
  }

  /** The table as a map from chunk id to what is indexed under it. */
  function View(rows: seq<FtsRow>): map<string, Entry<string>> {
    if rows == [] then map[]
    else
      var last := rows[|rows| - 1];
      View(rows[..|rows| - 1])[last.chunkId := EntryOf(last)]
  }

  function EntryOf(r: FtsRow): Entry<string> {
    Entry(r.docId, r.version, r.text)
  }

  /** The rows a DELETE leaves. */
  function Kept(rows: seq<FtsRow>, deleted: FtsRow -> bool): seq<FtsRow> {
    if rows == [] then []
    else Kept(rows[..|rows| - 1], deleted) + (if deleted(rows[|rows| - 1]) then [] else [rows[|rows| - 1]])
  }

  function Ids(chunks: seq<Chunk>): set<string> {
    set i | 0 <= i < |chunks| :: chunks[i].id
  }

  /** The values of a Python dict keyed by chunk id: first occurrence gives the place, last one the value. */
  function Deduped(chunks: seq<Chunk>): seq<Chunk> {
    if chunks == [] then []
    else
      var earlier, c := Deduped(chunks[..|chunks| - 1]), chunks[|chunks| - 1];
      if c.id in Ids(earlier)
      then seq(|earlier|, i requires 0 <= i < |earlier| => if earlier[i].id == c.id then c else earlier[i])
      else earlier + [c]
  }

  function Inserted(chunks: seq<Chunk>): (rows: seq<FtsRow>)
    ensures |rows| == |chunks|
    ensures forall i :: 0 <= i < |rows| ==>
      rows[i] == FtsRow(chunks[i].id, chunks[i].docId, chunks[i].version, chunks[i].text)
  {
    seq(|chunks|, i requires 0 <= i < |chunks| =>
      FtsRow(chunks[i].id, chunks[i].docId, chunks[i].version, chunks[i].text))
  }

  // ---- the table behaves as a map ----

  lemma {:induction false} ViewHas(rows: seq<FtsRow>)
    requires UniqueIds(rows)
    ensures forall r :: r in rows ==> r.chunkId in View(rows) && View(rows)[r.chunkId] == EntryOf(r)
    ensures forall id :: id in View(rows) ==> exists r :: r in rows && r.chunkId == id
  {
    if rows != [] {
      var front, last := rows[..|rows| - 1], rows[|rows| - 1];
      ViewHas(front);
      assert rows == front + [last];
      assert forall r :: r in front ==> r.chunkId != last.chunkId;
    }
  }

  lemma {:induction false} KeptHas(rows: seq<FtsRow>, deleted: FtsRow -> bool)
    ensures forall r :: r in Kept(rows, deleted) <==> r in rows && !deleted(r)
    ensures UniqueIds(rows) ==> UniqueIds(Kept(rows, deleted))
  {
    if rows != [] {
      var front, last := rows[..|rows| - 1], rows[|rows| - 1];
      KeptHas(front, deleted);
      assert rows == front + [last];
      if UniqueIds(rows) {
        assert forall r :: r in front ==> r.chunkId != last.chunkId;
        assert forall r :: r in Kept(front, deleted) ==> r.chunkId != last.chunkId;
      }
    }
  }

  /** Deleting rows by a property of the row deletes their ids from the map. */
  lemma KeptView(rows: seq<FtsRow>, deleted: FtsRow -> bool, ids: set<string>)
    requires UniqueIds(rows)
    requires forall r :: r in rows ==> (deleted(r) <==> r.chunkId in ids)
    ensures UniqueIds(Kept(rows, deleted)) && View(Kept(rows, deleted)) == View(rows) - ids
  {
    hide View, Kept;
    var kept := Kept(rows, deleted);
    KeptHas(rows, deleted);
    ViewHas(rows);
    ViewHas(kept);
    forall id
      ensures id in View(kept) <==> id in View(rows) && id !in ids
      ensures id in View(kept) && id in View(rows) ==> View(kept)[id] == View(rows)[id]
    {
      if id in View(rows) {
        var r :| r in rows && r.chunkId == id;
        assert r in kept <==> id !in ids;
      }
    }
  }

  lemma UniqueConcat(a: seq<FtsRow>, b: seq<FtsRow>)
    requires UniqueIds(a) && UniqueIds(b)
    requires forall r, q :: r in a && q in b ==> r.chunkId != q.chunkId
    ensures UniqueIds(a + b)
  {
    var rows := a + b;
    forall i, j | 0 <= i < j < |rows|
      ensures rows[i].chunkId != rows[j].chunkId
    {
      if i < |a| <= j {
        assert rows[i] == a[i] && rows[j] == b[j - |a|];
        assert a[i] in a && b[j - |a|] in b;
      }
    }
  }

  lemma ViewConcat(a: seq<FtsRow>, b: seq<FtsRow>)
    requires UniqueIds(a) && UniqueIds(b)
    requires forall r, q :: r in a && q in b ==> r.chunkId != q.chunkId
    ensures UniqueIds(a + b) && View(a + b) == View(a) + View(b)
  {
    hide View, UniqueIds, EntryOf;
    UniqueConcat(a, b);
    ViewHas(a);
    ViewHas(b);
    ViewHas(a + b);
    forall r
      ensures r in a + b <==> r in a || r in b
    {
    }
    forall id
      ensures id in View(a + b) <==> id in View(a) || id in View(b)
      ensures id in View(a + b) ==> View(a + b)[id] == (View(a) + View(b))[id]
    {
      if id in View(b) {
        var r :| r in b && r.chunkId == id;
        assert r in a + b;
      } else if id in View(a) {
        var r :| r in a && r.chunkId == id;
        assert r in a + b;
      }
    }
  }

  lemma {:induction false} DedupedHolds(chunks: seq<Chunk>)
    ensures DistinctIds(Deduped(chunks))
    ensures forall c :: c in Deduped(chunks) <==> c.id in Keyed(chunks) && Keyed(chunks)[c.id] == c
  {
    if chunks != [] {
      var earlier, c := Deduped(chunks[..|chunks| - 1]), chunks[|chunks| - 1];
      DedupedHolds(chunks[..|chunks| - 1]);
      var result := Deduped(chunks);
      if c.id in Ids(earlier) {
        Replaced(earlier, c, result);
      } else {
        assert forall i :: 0 <= i < |earlier| ==> earlier[i].id in Ids(earlier);
        assert result == earlier + [c];
        KeyedIsDeduped(chunks[..|chunks| - 1], c.id);
      }
    }
  }

  lemma KeyedIsDeduped(chunks: seq<Chunk>, id: string)
    requires forall c :: c in Deduped(chunks) <==> c.id in Keyed(chunks) && Keyed(chunks)[c.id] == c
    ensures id in Keyed(chunks) ==> id in Ids(Deduped(chunks))
  {
    hide Keyed, Deduped;
    KeyedHolds(chunks);
    if id in Keyed(chunks) {
      var c := Keyed(chunks)[id];
      assert c in Deduped(chunks);
      var i :| 0 <= i < |Deduped(chunks)| && Deduped(chunks)[i] == c;
    }
  }

  lemma Replaced(earlier: seq<Chunk>, c: Chunk, result: seq<Chunk>)
    requires DistinctIds(earlier) && c.id in Ids(earlier)
    requires |result| == |earlier|
    requires forall i :: 0 <= i < |result| ==> result[i] == if earlier[i].id == c.id then c else earlier[i]
    ensures DistinctIds(result)
    ensures forall x :: x in result <==> x == c || (x in earlier && x.id != c.id)
  {
    assert forall i :: 0 <= i < |result| ==> result[i].id == earlier[i].id;
    var k :| 0 <= k < |earlier| && earlier[k].id == c.id;
    assert result[k] == c;
    forall x
      ensures x in result <==> x == c || (x in earlier && x.id != c.id)
    {
      if x in earlier && x.id != c.id {
        var i :| 0 <= i < |earlier| && earlier[i] == x;
        assert result[i] == x;
      }
    }
  }

  lemma InsertedView(chunks: seq<Chunk>, rows: seq<FtsRow>)
    requires DistinctIds(chunks) && rows == Inserted(chunks)
    ensures UniqueIds(rows)
    ensures forall c :: c in chunks ==> c.id in View(rows) && View(rows)[c.id] == TextEntry(c)
    ensures forall id :: id in View(rows) ==> exists c :: c in chunks && c.id == id
    ensures forall r :: r in rows ==> r.chunkId in Ids(chunks)
  {
    hide View;
    ViewHas(rows);
    forall c | c in chunks
      ensures c.id in View(rows) && View(rows)[c.id] == TextEntry(c)
    {
      var i :| 0 <= i < |chunks| && chunks[i] == c;
      assert rows[i] in rows;
    }
    forall id | id in View(rows)
      ensures exists c :: c in chunks && c.id == id
    {
      var r :| r in rows && r.chunkId == id;
      var i :| 0 <= i < |rows| && rows[i] == r;
      assert chunks[i] in chunks;
    }
  }

  /** What one index_chunks call inserts is one row per id, with the text of the last chunk given for that id. */
  lemma DedupedView(chunks: seq<Chunk>)
    ensures UniqueIds(Inserted(Deduped(chunks)))
    ensures View(Inserted(Deduped(chunks))) == TextEntries(Keyed(chunks))
    ensures Ids(Deduped(chunks)) == Keyed(chunks).Keys
    ensures forall r :: r in Inserted(Deduped(chunks)) ==> r.chunkId in Ids(Deduped(chunks))
  {
    hide View, Keyed, Deduped;
    var deduped := Deduped(chunks);
    var view := View(Inserted(deduped));
    DedupedHolds(chunks);
    KeyedHolds(chunks);
    InsertedView(deduped, Inserted(deduped));
    forall id
      ensures id in view <==> id in Keyed(chunks)
      ensures id in Ids(deduped) <==> id in Keyed(chunks)
      ensures id in Keyed(chunks) ==> id in view && view[id] == TextEntry(Keyed(chunks)[id])
    {
      if id in Keyed(chunks) {
        var c := Keyed(chunks)[id];
        assert c in deduped;
        var i :| 0 <= i < |deduped| && deduped[i] == c;
      }
    }
  }

  class Index {
    var rows: seq<FtsRow>
    ghost var faults: nat

    /** The table's own invariant: no chunk id is ever indexed twice. */
    ghost predicate Valid()
      reads this
    {
      UniqueIds(rows)
    }

    constructor ()
      ensures Valid() && View(rows) == map[] && faults == 0
    {
      rows, faults := [], 0;
    }

    /** A repeated chunk id, across or within calls, replaces the previous row. One transaction: all or nothing. */
    method IndexChunks(chunks: seq<Chunk>) returns (ok: bool)
      requires Valid()
      modifies this
      ensures Valid()
      ensures View(rows) == if ok then View(old(rows)) + TextEntries(Keyed(chunks)) else View(old(rows))
      ensures faults == old(faults) + if ok then 0 else 1
    {
      ok := *;
      if !ok {
        faults := faults + 1;
        return;
      }
      hide View, Kept, Deduped, Keyed, Inserted, Ids, TextEntries, UniqueIds;
      var deduped := Deduped(chunks);
      var ids := Ids(deduped);
      var replaced := (r: FtsRow) => r.chunkId in ids;
      KeptView(rows, replaced, ids);
      KeptHas(rows, replaced);
      DedupedView(chunks);
      ViewConcat(Kept(rows, replaced), Inserted(deduped));
      ReplaceAll(View(rows), TextEntries(Keyed(chunks)), ids) by { KeysOfTexts(chunks); }
      rows := Kept(rows, replaced) + Inserted(deduped);
    }

    method RemoveDocumentVersion(d: DocId, version: nat) returns (ok: bool)
      requires Valid()
      modifies this
      ensures Valid()
      ensures View(rows) == if ok then RemoveVersion(View(old(rows)), d, version) else View(old(rows))
      ensures faults == old(faults) + if ok then 0 else 1
    {
      ok := *;
      if !ok {
        faults := faults + 1;
      } else {
        var ofVersion := (r: FtsRow) => r.docId == d && r.version == version;
        VersionIds(rows, d, version);
        KeptView(rows, ofVersion, set id | id in View(rows) && Of(View(rows)[id], d, version));
        rows := Kept(rows, ofVersion);
      }
    }
  }

  lemma ReplaceAll<T>(m: map<string, T>, entries: map<string, T>, ids: set<string>)
    requires ids == entries.Keys
    ensures m - ids + entries == m + entries
  {
  }

  lemma KeysOfTexts(chunks: seq<Chunk>)
    ensures TextEntries(Keyed(chunks)).Keys == Keyed(chunks).Keys
  {
  }

  lemma VersionIds(rows: seq<FtsRow>, d: DocId, version: nat)
    requires UniqueIds(rows)
    ensures forall r :: r in rows ==>
      (r.docId == d && r.version == version
       <==> r.chunkId in (set id | id in View(rows) && Of(View(rows)[id], d, version)))
  {
    hide View;
    ViewHas(rows);
  }
}
