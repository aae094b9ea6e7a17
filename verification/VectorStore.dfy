/** The vector index (src/app/stores/vector_store.py): points keyed by a hash of the chunk id, taken as injective. */
module VectorStore {
  import opened Models
  import opened ChunkStore
  import opened SearchIndexes

  /** The points of one upsert call, vectors paired with chunks by position; a repeated id keeps the last. */
  function Batch(chunks: seq<Chunk>, vectors: seq<Vector>): map<string, Entry<Point>>
    requires |chunks| == |vectors|
  {
    if chunks == [] then map[]
    else
      var n := |chunks| - 1;
      Batch(chunks[..n], vectors[..n])[chunks[n].id := PointEntry(chunks[n], vectors[n])]
  }

  predicate HasId(chunks: seq<Chunk>, id: string) {
    exists i :: 0 <= i < |chunks| && chunks[i].id == id
  }

  lemma HasIdLast(chunks: seq<Chunk>, id: string)
    requires chunks != []
    ensures HasId(chunks, id) <==> HasId(chunks[..|chunks| - 1], id) || chunks[|chunks| - 1].id == id
  {
    var front := chunks[..|chunks| - 1];
    if HasId(front, id) {
      var i :| 0 <= i < |front| && front[i].id == id;
      assert chunks[i].id == id;
    }
    if HasId(chunks, id) {
      var i :| 0 <= i < |chunks| && chunks[i].id == id;
      assert i < |front| ==> front[i].id == id;
    }
  }

  lemma {:induction false} BatchKeys(chunks: seq<Chunk>, vectors: seq<Vector>)
    requires |chunks| == |vectors|
    ensures forall id :: id in Batch(chunks, vectors) <==> HasId(chunks, id)
  {
    hide HasId;
    if chunks == [] {
      NoIds();
    } else {
      BatchKeys(chunks[..|chunks| - 1], vectors[..|chunks| - 1]);
      forall id
        ensures id in Batch(chunks, vectors) <==> HasId(chunks, id)
      {
        HasIdLast(chunks, id);
      }
    }
  }

  lemma NoIds()
    ensures forall id :: !HasId([], id)
  {
  }

  /** Of chunks with the same id the last one counts. */
  lemma LastOfAnId(chunks: seq<Chunk>, vectors: seq<Vector>, i: nat)
    requires |chunks| == |vectors| && i < |chunks|
    requires forall j :: i < j < |chunks| ==> chunks[j].id != chunks[i].id
    ensures chunks[i].id in Batch(chunks, vectors)
    ensures Batch(chunks, vectors)[chunks[i].id] == PointEntry(chunks[i], vectors[i])
  {
    var n := |chunks| - 1;
    if i < n {
      LastOfAnId(chunks[..n], vectors[..n], i);
    }
  }

  /** With distinct ids every chunk gets the vector at its own place in the list, and nothing else is written. */
  lemma {:induction false} BatchPairs(chunks: seq<Chunk>, vectors: seq<Vector>)
    requires |chunks| == |vectors| && DistinctIds(chunks)
    ensures forall i :: 0 <= i < |chunks| ==>
      && chunks[i].id in Batch(chunks, vectors)
      && Batch(chunks, vectors)[chunks[i].id] == PointEntry(chunks[i], vectors[i])
    ensures forall id :: id in Batch(chunks, vectors) ==> exists i :: 0 <= i < |chunks| && chunks[i].id == id
  {
    BatchKeys(chunks, vectors);
    if chunks != [] {
      BatchPairs(chunks[..|chunks| - 1], vectors[..|chunks| - 1]);
    }
  }

  /** A call to the remote index may fail, and a failed call may have applied to any of its points: `touched`. */
  class Index {
    var points: map<string, Entry<Point>>
    ghost var faults: nat

    constructor ()
      ensures points == map[] && faults == 0
    {
      points, faults := map[], 0;
    }

    method Upsert(chunks: seq<Chunk>, vectors: seq<Vector>) returns (ok: bool, ghost touched: set<string>)
      modifies this
      ensures |chunks| != |vectors| ==> !ok && points == old(points)
      ensures ok ==> points == old(points) + Batch(chunks, vectors)
      ensures !ok && |chunks| == |vectors| ==> points == PutSome(old(points), Batch(chunks, vectors), touched)
      ensures faults == old(faults) + if ok || |chunks| != |vectors| then 0 else 1
    {
      touched := {};
      if |chunks| != |vectors| {
        return false, {};
      }
      if chunks == [] {
        assert points + map[] == points;
        return true, {};
      }
      ok := *;
      var batch := Batch(chunks, vectors);
      if ok {
        points := points + batch;
      } else {
        var reached: set<string> := *;
        touched := reached;
        faults := faults + 1;
        points := PutSome(points, batch, reached);
      }
    }

    method DeleteDocumentVersion(d: DocId, version: nat) returns (ok: bool, ghost touched: set<string>)
      modifies this
      ensures points == if ok then RemoveVersion(old(points), d, version)
        else RemoveSome(old(points), d, version, touched)
      ensures faults == old(faults) + if ok then 0 else 1
    {
      ok := *;
      touched := {};
      if ok {
        points := RemoveVersion(points, d, version);
      } else {
        var reached: set<string> := *;
        touched := reached;
        faults := faults + 1;
        points := RemoveSome(points, d, version, reached);
      }
    }
  }
}
