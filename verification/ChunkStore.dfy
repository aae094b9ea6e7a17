/** The versioned chunk store (src/app/stores/chunk_store.py): two SQLite tables, changed by transactions. */
module ChunkStore {
  import opened Models
  import opened ChunkIds

  datatype DocRow = DocRow(title: string, active: bool)

  /** `documents` is keyed by (doc_id, version) and `chunks` by id, the primary keys of the schema. */
  datatype Tables = Tables(documents: map<(DocId, nat), DocRow>, chunks: map<string, Chunk>)

  const EMPTY_TABLES := Tables(map[], map[])

  function Versions(t: Tables, d: DocId): set<nat> {
    set k | k in t.documents && k.0 == d :: k.1
  }

  lemma MaxExists(s: set<nat>)
    requires s != {}
    ensures exists m :: m in s && forall x :: x in s ==> x <= m
  {
    var x :| x in s;
    if s != {x} {
      MaxExists(s - {x});
      var m :| m in s - {x} && forall y :: y in s - {x} ==> y <= m;
      assert forall y :: y in s ==> y == x || y in s - {x};
      if m < x {
        assert forall y :: y in s ==> y <= x;
      }
    }
  }

  /** SELECT MAX(version), with 0 standing for "no version stored". */
  function Latest(t: Tables, d: DocId): (n: nat)
    ensures forall v :: (d, v) in t.documents ==> v <= n
    ensures n == 0 || (d, n) in t.documents
  {
    var versions := Versions(t, d);
    assert forall v :: (d, v) in t.documents ==> (d, v).1 in versions;
    if versions == {} then 0
    else
      MaxExists(versions);
      var m :| m in versions && forall x :: x in versions ==> x <= m;
      m
  }

  lemma LatestUnique(t: Tables, d: DocId, n: nat)
    requires forall v :: (d, v) in t.documents ==> v <= n
    requires n == 0 || (d, n) in t.documents
    ensures Latest(t, d) == n
  {
  }

  function RowsOf(d: DocId, title: string, version: nat, drafts: seq<ChunkDraft>): (rows: seq<Chunk>)
    ensures |rows| == |drafts|
    ensures forall i :: 0 <= i < |rows| ==>
      rows[i] == Chunk(ChunkId(d, version, drafts[i].ord), d, version, drafts[i].ord, drafts[i].text, title)
  {
    seq(|drafts|, i requires 0 <= i < |drafts| =>
      Chunk(ChunkId(d, version, drafts[i].ord), d, version, drafts[i].ord, drafts[i].text, title))
  }

  predicate DistinctIds(rows: seq<Chunk>) {
    forall i, j :: 0 <= i < j < |rows| ==> rows[i].id != rows[j].id
  }

  /** Rows by id; a later row with the same id wins, as in a Python dict comprehension. */
  function Keyed(rows: seq<Chunk>): map<string, Chunk> {
    if rows == [] then map[]
    else Keyed(rows[..|rows| - 1])[rows[|rows| - 1].id := rows[|rows| - 1]]
  }

  lemma {:induction false} KeyedHolds(rows: seq<Chunk>)
    ensures forall i :: 0 <= i < |rows| ==> rows[i].id in Keyed(rows)
    ensures forall id :: id in Keyed(rows) ==> Keyed(rows)[id] in rows && Keyed(rows)[id].id == id
    ensures DistinctIds(rows) ==> forall i :: 0 <= i < |rows| ==> Keyed(rows)[rows[i].id] == rows[i]
  {
    if rows != [] {
      KeyedHolds(rows[..|rows| - 1]);
    }
  }

  function Deactivated(documents: map<(DocId, nat), DocRow>, d: DocId): map<(DocId, nat), DocRow> {
    map k | k in documents :: if k.0 == d then documents[k].(active := false) else documents[k]
  }

  /** The inserts succeed when no primary key is already taken. */
  predicate Insertable(t: Tables, rows: seq<Chunk>) {
    DistinctIds(rows) && forall i :: 0 <= i < |rows| ==> rows[i].id !in t.chunks
  }

  /** upsert_document as one transaction: all of it, or (None) none of it. */
  function Upsert(t: Tables, d: DocId, title: string, drafts: seq<ChunkDraft>): Option<Tables> {
    var version := Latest(t, d) + 1;
    var rows := RowsOf(d, title, version, drafts);
    if Insertable(t, rows) then
      Some(Tables(Deactivated(t.documents, d)[(d, version) := DocRow(title, true)], t.chunks + Keyed(rows)))
    else None
  }

  function Without(t: Tables, d: DocId, version: nat): Tables {
    Tables(t.documents - {(d, version)},
           t.chunks - set id | id in t.chunks && t.chunks[id].docId == d && t.chunks[id].version == version)
  }

  /** delete_version: drop the version's rows, then re-activate the highest version left. */
  function Delete(t: Tables, d: DocId, version: nat): Tables {
    var rest := Without(t, d, version);
    var top := (d, Latest(rest, d));
    if top in rest.documents
    then rest.(documents := rest.documents[top := rest.documents[top].(active := true)])
    else rest
  }

  // ---- what every sequence of operations keeps ----

  ghost predicate ActiveOk(t: Tables, k: (DocId, nat)) {
    k in t.documents ==> (t.documents[k].active <==> k.1 == Latest(t, k.0))
  }

  ghost predicate ActiveIsHighest(t: Tables) {
    forall k :: ActiveOk(t, k)
  }

  ghost predicate RowOk(t: Tables, id: string) {
    id in t.chunks ==>
      var c := t.chunks[id];
      c.id == id && id == ChunkId(c.docId, c.version, c.ord) && Owner(id) == (c.docId, c.version)
      && (c.docId, c.version) in t.documents
  }

  ghost predicate RowsOk(t: Tables) {
    (forall id :: RowOk(t, id)) && forall k :: k in t.documents ==> k.1 >= 1
  }

  lemma LatestAfterUpsert(t: Tables, d: DocId, title: string, drafts: seq<ChunkDraft>, x: DocId)
    requires Upsert(t, d, title, drafts).Some?
    ensures Latest(Upsert(t, d, title, drafts).value, x) == if x == d then Latest(t, d) + 1 else Latest(t, x)
  {
    var version := Latest(t, d) + 1;
    hide Keyed, ChunkId;
    var t' := Upsert(t, d, title, drafts).value;
    assert t'.documents.Keys == t.documents.Keys + {(d, version)};
    if x == d {
      assert (d, version) in t'.documents;
      LatestUnique(t', x, version);
    } else {
      assert forall v :: (x, v) in t'.documents <==> (x, v) in t.documents;
      LatestUnique(t', x, Latest(t, x));
    }
  }

  lemma LatestAfterDelete(t: Tables, d: DocId, version: nat, x: DocId)
    ensures Latest(Delete(t, d, version), x) == Latest(Without(t, d, version), x)
    ensures x != d || version != Latest(t, d) ==> Latest(Delete(t, d, version), x) == Latest(t, x)
  {
    LatestUnique(Delete(t, d, version), x, Latest(Without(t, d, version), x));
    if x != d || version != Latest(t, d) {
      assert Latest(t, x) == 0 || (x, Latest(t, x)) in Delete(t, d, version).documents;
      LatestUnique(Delete(t, d, version), x, Latest(t, x));
    }
  }

  lemma UpsertedRowOk(t: Tables, d: DocId, title: string, drafts: seq<ChunkDraft>, id: string)
    requires RowsOk(t) && Upsert(t, d, title, drafts).Some?
    ensures RowOk(Upsert(t, d, title, drafts).value, id)
  {
    hide Keyed, ChunkId, Owner, Latest;
    var version := Latest(t, d) + 1;
    var rows := RowsOf(d, title, version, drafts);
    KeyedHolds(rows);
    if id in Keyed(rows) {
      ChunkIdReadsBack(d, version, Keyed(rows)[id].ord);
    } else {
      assert RowOk(t, id);
    }
  }

  lemma UpsertKeeps(t: Tables, d: DocId, title: string, drafts: seq<ChunkDraft>)
    requires RowsOk(t) && ActiveIsHighest(t)
    requires Upsert(t, d, title, drafts).Some?
    ensures RowsOk(Upsert(t, d, title, drafts).value) && ActiveIsHighest(Upsert(t, d, title, drafts).value)
  {
    hide Keyed, ChunkId, Owner, RowOk;
    var t' := Upsert(t, d, title, drafts).value;
    forall id
      ensures RowOk(t', id)
    {
      UpsertedRowOk(t, d, title, drafts, id);
    }
    forall k
      ensures ActiveOk(t', k)
    {
      assert ActiveOk(t, k);
      LatestAfterUpsert(t, d, title, drafts, k.0);
    }
  }

  lemma DeleteKeeps(t: Tables, d: DocId, version: nat)
    requires RowsOk(t) && ActiveIsHighest(t)
    ensures RowsOk(Delete(t, d, version)) && ActiveIsHighest(Delete(t, d, version))
  {
    var t' := Delete(t, d, version);
    forall id
      ensures RowOk(t', id)
    {
      assert RowOk(t, id);
    }
    forall k
      ensures ActiveOk(t', k)
    {
      assert ActiveOk(t, k);
      LatestAfterDelete(t, d, version, k.0);
    }
  }

  /** A version that has no document row yet has no chunk ids in the table. */
  lemma FreshIds(t: Tables, d: DocId, title: string, version: nat, drafts: seq<ChunkDraft>)
    requires RowsOk(t) && (d, version) !in t.documents
    ensures forall i :: 0 <= i < |drafts| ==> RowsOf(d, title, version, drafts)[i].id !in t.chunks
    ensures DistinctIds(RowsOf(d, title, version, drafts))
      <==> forall i, j :: 0 <= i < j < |drafts| ==> drafts[i].ord != drafts[j].ord
  {
    hide ChunkId, Owner, OrdOf;
    var rows := RowsOf(d, title, version, drafts);
    forall i | 0 <= i < |drafts|
      ensures rows[i].id !in t.chunks && OrdOf(rows[i].id) == drafts[i].ord
    {
      ChunkIdReadsBack(d, version, drafts[i].ord);
      assert RowOk(t, rows[i].id);
    }
    forall i, j | 0 <= i < j < |drafts|
      ensures rows[i].id == rows[j].id <==> drafts[i].ord == drafts[j].ord
    {
      assert OrdOf(rows[i].id) == drafts[i].ord && OrdOf(rows[j].id) == drafts[j].ord;
    }
  }

  /** With well-formed rows an upsert fails only when the drafts repeat a position. */
  lemma UpsertSucceedsIff(t: Tables, d: DocId, title: string, drafts: seq<ChunkDraft>)
    requires RowsOk(t)
    ensures Upsert(t, d, title, drafts).Some?
      <==> forall i, j :: 0 <= i < j < |drafts| ==> drafts[i].ord != drafts[j].ord
  {
    hide Keyed, ChunkId;
    FreshIds(t, d, title, Latest(t, d) + 1, drafts);
  }

  datatype Op = UpsertOp(docId: DocId, title: string, drafts: seq<ChunkDraft>) | DeleteOp(docId: DocId, version: nat)

  function ApplyAll(ops: seq<Op>): Tables {
    if ops == [] then EMPTY_TABLES
    else
      var t := ApplyAll(ops[..|ops| - 1]);
      match ops[|ops| - 1]
      case UpsertOp(d, title, drafts) =>
        (match Upsert(t, d, title, drafts) case Some(t') => t' case None => t)
      case DeleteOp(d, version) => Delete(t, d, version)
  }

  /** After any sequence of upserts and deletes the active row of a document is exactly its highest version,
      every chunk id is the printed key of its row, and no chunk row outlives its document row. */
  lemma {:induction false} AnySequenceKeepsActiveHighest(ops: seq<Op>)
    ensures ActiveIsHighest(ApplyAll(ops)) && RowsOk(ApplyAll(ops))
  {
    if ops != [] {
      var t := ApplyAll(ops[..|ops| - 1]);
      AnySequenceKeepsActiveHighest(ops[..|ops| - 1]);
      match ops[|ops| - 1]
      case UpsertOp(d, title, drafts) =>
        if Upsert(t, d, title, drafts).Some? { UpsertKeeps(t, d, title, drafts); }
      case DeleteOp(d, version) => DeleteKeeps(t, d, version);
    }
  }

  lemma DocumentsRestored(t: Tables, t': Tables, d: DocId, version: nat, row: DocRow)
    requires ActiveIsHighest(t) && version == Latest(t, d) + 1
    requires t'.documents == Deactivated(t.documents, d)[(d, version) := row]
    ensures Delete(t', d, version).documents == t.documents
  {
    var rest := Without(t', d, version);
    assert rest.documents == Deactivated(t.documents, d);
    LatestUnique(rest, d, Latest(t, d));
    forall k | k in t.documents
      ensures k in Delete(t', d, version).documents && Delete(t', d, version).documents[k] == t.documents[k]
    {
      assert ActiveOk(t, k);
    }
  }

  lemma ChunksRestored(t: Tables, t': Tables, d: DocId, version: nat, rows: map<string, Chunk>)
    requires RowsOk(t) && (d, version) !in t.documents
    requires forall id :: id in rows ==> id !in t.chunks && rows[id].docId == d && rows[id].version == version
    requires t'.chunks == t.chunks + rows
    ensures Delete(t', d, version).chunks == t.chunks
  {
    forall id
      ensures id in Without(t', d, version).chunks <==> id in t.chunks
    {
      assert RowOk(t, id);
    }
  }

  /** Deleting the version an upsert just made gives back exactly the tables before it, the active flag included. */
  lemma DeleteUndoesUpsert(t: Tables, d: DocId, title: string, drafts: seq<ChunkDraft>)
    requires RowsOk(t) && ActiveIsHighest(t)
    requires Upsert(t, d, title, drafts).Some?
    ensures Delete(Upsert(t, d, title, drafts).value, d, Latest(t, d) + 1) == t
  {
    hide Keyed, ChunkId, Owner, Delete;
    var version := Latest(t, d) + 1;
    var t' := Upsert(t, d, title, drafts).value;
    var rows := RowsOf(d, title, version, drafts);
    KeyedHolds(rows);
    DocumentsRestored(t, t', d, version, DocRow(title, true));
    ChunksRestored(t, t', d, version, Keyed(rows));
  }

  // ---- reading ----

  lemma MinExists(rows: set<Chunk>)
    requires rows != {}
    ensures exists c :: c in rows && forall x :: x in rows ==> c.ord <= x.ord
  {
    var y :| y in rows;
    var rest := rows - {y};
    assert forall x :: x in rows ==> x == y || x in rest;
    if rest != {} {
      MinExists(rest);
      var m :| m in rest && forall x :: x in rest ==> m.ord <= x.ord;
      var least := if y.ord < m.ord then y else m;
      assert forall x :: x in rows ==> least.ord <= x.ord;
    }
  }

  ghost predicate DistinctOrds(rows: set<Chunk>) {
    forall x, y :: x in rows && y in rows && x.ord == y.ord ==> x == y
  }

  /** ORDER BY seq, over rows whose positions differ. */
  function ByOrd(rows: set<Chunk>): (sorted: seq<Chunk>)
    requires DistinctOrds(rows)
    ensures forall c :: c in sorted <==> c in rows
    ensures forall i, j :: 0 <= i < j < |sorted| ==> sorted[i].ord < sorted[j].ord
  {
    if rows == {} then []
    else
      MinExists(rows);
      var first :| first in rows && forall x :: x in rows ==> first.ord <= x.ord;
      [first] + ByOrd(rows - {first})
  }

  function VersionRows(t: Tables, d: DocId, version: nat): set<Chunk> {
    set id | id in t.chunks && t.chunks[id].docId == d && t.chunks[id].version == version :: t.chunks[id]
  }

  lemma InVersionRows(t: Tables, d: DocId, version: nat, c: Chunk)
    requires RowsOk(t)
    ensures c in VersionRows(t, d, version)
      <==> c.id in t.chunks && t.chunks[c.id] == c && c.docId == d && c.version == version
  {
    hide ChunkId, Owner;
    if c in VersionRows(t, d, version) {
      var id :| id in t.chunks && t.chunks[id] == c;
      assert RowOk(t, id);
    }
  }

  lemma VersionOrdsDiffer(t: Tables, d: DocId, version: nat)
    requires RowsOk(t)
    ensures DistinctOrds(VersionRows(t, d, version))
  {
    hide ChunkId, Owner;
    forall x, y | x in VersionRows(t, d, version) && y in VersionRows(t, d, version) && x.ord == y.ord
      ensures x == y
    {
      InVersionRows(t, d, version, x);
      InVersionRows(t, d, version, y);
      assert RowOk(t, x.id) && RowOk(t, y.id);
    }
  }

  /** get_chunks: the version's rows in position order. */
  ghost predicate Listing(t: Tables, d: DocId, version: nat, rows: seq<Chunk>) {
    && (forall c :: c in rows <==> c in VersionRows(t, d, version))
    && forall i, j :: 0 <= i < j < |rows| ==> rows[i].ord < rows[j].ord
  }

  /** get_chunks_by_ids: known ids in the order asked for, unknown ones skipped. */
  function GetChunksByIds(t: Tables, ids: seq<string>): (found: seq<Chunk>) {
    if ids == [] then []
    else (if ids[0] in t.chunks then [t.chunks[ids[0]]] else []) + GetChunksByIds(t, ids[1..])
  }

  ghost predicate Precedes(ids: seq<string>, a: string, b: string) {
    exists i, j :: 0 <= i < j < |ids| && ids[i] == a && ids[j] == b
  }

  lemma PrecedesInTail(ids: seq<string>, a: string, b: string)
    requires ids != [] && (Precedes(ids[1..], a, b) || (ids[0] == a && b in ids[1..]))
    ensures Precedes(ids, a, b)
  {
    var rest := ids[1..];
    if Precedes(rest, a, b) {
      var i, j :| 0 <= i < j < |rest| && rest[i] == a && rest[j] == b;
      assert ids[i + 1] == a && ids[j + 1] == b;
    } else {
      var j :| 0 <= j < |rest| && rest[j] == b;
      assert ids[j + 1] == b;
    }
  }

  lemma {:induction false} HydratedExactly(t: Tables, ids: seq<string>)
    requires RowsOk(t)
    ensures forall c :: c in GetChunksByIds(t, ids) <==> c.id in ids && c.id in t.chunks && t.chunks[c.id] == c
  {
    hide Owner, ChunkId;
    if ids != [] {
      HydratedExactly(t, ids[1..]);
      assert RowOk(t, ids[0]);
    }
  }

  lemma OrderCons(ids: seq<string>, head: Chunk, rest: seq<Chunk>, i: nat, j: nat)
    requires ids != [] && head.id == ids[0] && i < j < |rest| + 1
    requires forall c :: c in rest ==> c.id in ids[1..]
    requires forall k, l :: 0 <= k < l < |rest| ==> Precedes(ids[1..], rest[k].id, rest[l].id)
    ensures Precedes(ids, ([head] + rest)[i].id, ([head] + rest)[j].id)
  {
    hide Precedes;
    assert rest[j - 1] in rest;
    PrecedesInTail(ids, ([head] + rest)[i].id, ([head] + rest)[j].id);
  }

  /** Hydration returns the rows of exactly the known ids, in the order they were asked for. */
  lemma {:induction false} HydrationKeepsOrder(t: Tables, ids: seq<string>)
    requires RowsOk(t)
    ensures forall c :: c in GetChunksByIds(t, ids) <==> c.id in ids && c.id in t.chunks && t.chunks[c.id] == c
    ensures forall i, j :: 0 <= i < j < |GetChunksByIds(t, ids)| ==>
      Precedes(ids, GetChunksByIds(t, ids)[i].id, GetChunksByIds(t, ids)[j].id)
  {
    hide Owner, ChunkId, Precedes, RowsOk;
    HydratedExactly(t, ids);
    if ids != [] {
      var rest := GetChunksByIds(t, ids[1..]);
      HydrationKeepsOrder(t, ids[1..]);
      RowAtKey(t, ids[0]);
      forall i: nat, j: nat | i < j < |GetChunksByIds(t, ids)|
        ensures Precedes(ids, GetChunksByIds(t, ids)[i].id, GetChunksByIds(t, ids)[j].id)
      {
        if ids[0] in t.chunks {
          OrderCons(ids, t.chunks[ids[0]], rest, i, j);
        } else {
          assert GetChunksByIds(t, ids) == rest;
          PrecedesInTail(ids, rest[i].id, rest[j].id);
        }
      }
    }
  }

  lemma RowAtKey(t: Tables, id: string)
    requires RowsOk(t)
    ensures id in t.chunks ==> t.chunks[id].id == id
  {
    hide Owner, ChunkId;
    assert RowOk(t, id);
  }

  lemma HeadIn(rows: seq<Chunk>)
    requires rows != []
    ensures rows[0] in rows
  {
  }

  /** A strictly increasing listing is determined by its elements. */
  lemma {:induction false} AscendingUnique(a: seq<Chunk>, b: seq<Chunk>)
    requires forall c :: c in a <==> c in b
    requires forall i, j :: 0 <= i < j < |a| ==> a[i].ord < a[j].ord
    requires forall i, j :: 0 <= i < j < |b| ==> b[i].ord < b[j].ord
    ensures a == b
  {
    if a == [] {
      if b != [] {
        HeadIn(b);
        assert false;
      }
    } else {
      HeadIn(a);
      HeadIn(b);
      assert a[0] == b[0];
      forall c
        ensures c in a[1..] <==> c in b[1..]
      {
        assert c in a[1..] ==> c in a && c != a[0];
        assert c in b[1..] ==> c in b && c != b[0];
      }
      AscendingUnique(a[1..], b[1..]);
    }
  }

  lemma UpsertedRow(t: Tables, d: DocId, title: string, drafts: seq<ChunkDraft>, c: Chunk)
    requires RowsOk(t)
    requires Upsert(t, d, title, drafts).Some?
    ensures
      var t' := Upsert(t, d, title, drafts).value;
      var version := Latest(t, d) + 1;
      c in RowsOf(d, title, version, drafts)
      <==> c.id in t'.chunks && t'.chunks[c.id] == c && c.docId == d && c.version == version
  {
    hide Keyed, ChunkId, Owner;
    var made := RowsOf(d, title, Latest(t, d) + 1, drafts);
    KeyedHolds(made);
    assert RowOk(t, c.id);
  }

  /** Right after an upsert of in-order drafts, get_chunks can only return the rows of those drafts, in draft order. */
  lemma ListingAfterUpsert(t: Tables, d: DocId, title: string, drafts: seq<ChunkDraft>, rows: seq<Chunk>)
    requires RowsOk(t) && ActiveIsHighest(t)
    requires Upsert(t, d, title, drafts).Some?
    requires forall i, j :: 0 <= i < j < |drafts| ==> drafts[i].ord < drafts[j].ord
    requires Listing(Upsert(t, d, title, drafts).value, d, Latest(t, d) + 1, rows)
    ensures rows == RowsOf(d, title, Latest(t, d) + 1, drafts)
  {
    hide Keyed, ChunkId, Owner, VersionRows;
    var version := Latest(t, d) + 1;
    var t' := Upsert(t, d, title, drafts).value;
    var made := RowsOf(d, title, version, drafts);
    UpsertKeeps(t, d, title, drafts);
    forall c
      ensures c in rows <==> c in made
    {
      InVersionRows(t', d, version, c);
      UpsertedRow(t, d, title, drafts, c);
    }
    AscendingUnique(rows, made);
  }

  /** One connection to the two tables. Every transaction may raise (`ok` is false), and then nothing changed;
      `faults` counts the calls the database failed. */
  class Store {
    var tables: Tables
    ghost var faults: nat

    ghost predicate Valid()
      reads this
    {
      RowsOk(tables) && ActiveIsHighest(tables)
    }

    constructor ()
      ensures Valid() && tables == EMPTY_TABLES && faults == 0
    {
      tables, faults := EMPTY_TABLES, 0;
    }

    method UpsertDocument(d: DocId, title: string, drafts: seq<ChunkDraft>) returns (stored: Option<DocumentVersion>)
      requires Valid()
      modifies this
      ensures Valid()
      ensures stored.None? ==> tables == old(tables)
      ensures stored.Some? ==> stored.value == DocumentVersion(d, Latest(old(tables), d) + 1, |drafts|)
      ensures stored.Some? ==> Upsert(old(tables), d, title, drafts) == Some(tables)
      ensures faults >= old(faults)
      ensures stored.None? ==> faults > old(faults) || Upsert(old(tables), d, title, drafts).None?
    {
      var fails: bool := *;
      if fails {
        faults := faults + 1;
        return None;
      }
      var result := Upsert(tables, d, title, drafts);
      if result.None? {
        return None;
      }
      UpsertKeeps(tables, d, title, drafts);
      var version := Latest(tables, d) + 1;
      tables := result.value;
      return Some(DocumentVersion(d, version, |drafts|));
    }

    method DeleteVersion(d: DocId, version: nat) returns (ok: bool)
      requires Valid()
      modifies this
      ensures Valid()
      ensures tables == if ok then Delete(old(tables), d, version) else old(tables)
      ensures faults == old(faults) + if ok then 0 else 1
    {
      ok := *;
      if ok {
        DeleteKeeps(tables, d, version);
        tables := Delete(tables, d, version);
      } else {
        faults := faults + 1;
      }
    }

    method GetChunks(d: DocId, version: nat) returns (ok: bool, rows: seq<Chunk>)
      requires Valid()
      modifies `faults
      ensures Valid() && (ok ==> Listing(tables, d, version, rows))
      ensures faults == old(faults) + if ok then 0 else 1
    {
      ok := *;
      rows := [];
      if !ok {
        faults := faults + 1;
        return;
      }
      VersionOrdsDiffer(tables, d, version);
      rows := ByOrd(VersionRows(tables, d, version));
    }
  }
}
