/** HybridRetriever (src/app/retrieval/hybrid.py): what a query is answered with, and the object over its backends. */
module HybridRetriever {
  import opened Models
  import opened ChunkIds
  import opened ChunkStore
  import opened RankFusion
  import opened StableSort
  import opened Words

  // ---- the answer, said by places alone ----

  /** a goes before b: the higher score, and among equals the one met first, keyword hits before vector hits. */
  predicate Ahead(bm25: seq<string>, vector: seq<string>, a: string, b: string)
    requires Distinct(bm25) && Distinct(vector)
  {
    var x, y := PlaceScore(bm25, vector, a), PlaceScore(bm25, vector, b);
    x > y || (x == y && Place(bm25 + vector, a) < Place(bm25 + vector, b))
  }

  /** A stored chunk, with its score and with exactly the indexes that found it. */
  predicate IsResult(t: Tables, bm25: seq<string>, vector: seq<string>, r: RetrievedChunk)
    requires Distinct(bm25) && Distinct(vector)
  {
    var id := r.chunk.id;
    && id in t.chunks && t.chunks[id] == r.chunk
    && (id in bm25 || id in vector) && r.score == PlaceScore(bm25, vector, id)
    && (Bm25 in r.sources <==> id in bm25) && (VectorIndex in r.sources <==> id in vector)
  }

  predicate Among(found: seq<RetrievedChunk>, id: string) {
    exists k :: 0 <= k < |found| && found[k].chunk.id == id
  }

  /** Found and stored but not returned: then the list is full, and all of it is ahead. */
  ghost predicate LeftBehind(t: Tables, bm25: seq<string>, vector: seq<string>, topN: nat, found: seq<RetrievedChunk>,
                             id: string)
    requires Distinct(bm25) && Distinct(vector)
  {
    id in t.chunks && (id in bm25 || id in vector) && !Among(found, id) ==>
      |found| == topN && forall k :: 0 <= k < |found| ==> Ahead(bm25, vector, found[k].chunk.id, id)
  }

  /** What the retriever answers when the keyword index returned `bm25` and the vector index `vector`: the top_n of the
      stored chunks either of them found, in order. */
  ghost predicate IsAnswer(t: Tables, bm25: seq<string>, vector: seq<string>, topN: nat, found: seq<RetrievedChunk>)
    requires Distinct(bm25) && Distinct(vector)
  {
    && |found| <= topN
    && (forall k :: 0 <= k < |found| ==> IsResult(t, bm25, vector, found[k]))
    && (forall k, l :: 0 <= k < l < |found| ==> Ahead(bm25, vector, found[k].chunk.id, found[l].chunk.id))
    && forall id :: LeftBehind(t, bm25, vector, topN, found, id)
  }

  lemma OneIsAhead(bm25: seq<string>, vector: seq<string>, a: string, b: string)
    requires Distinct(bm25) && Distinct(vector) && a != b && (a in bm25 || a in vector) && (b in bm25 || b in vector)
    ensures Ahead(bm25, vector, a, b) || Ahead(bm25, vector, b, a)
  {
    var hits := bm25 + vector;
    assert a in hits && b in hits;
  }

  lemma NotBothAhead(bm25: seq<string>, vector: seq<string>, a: string, b: string)
    requires Distinct(bm25) && Distinct(vector) && Ahead(bm25, vector, a, b)
    ensures !Ahead(bm25, vector, b, a) && a != b
  {
  }

  lemma SameChunk(t: Tables, bm25: seq<string>, vector: seq<string>, a: RetrievedChunk, b: RetrievedChunk)
    requires Distinct(bm25) && Distinct(vector) && a.chunk.id == b.chunk.id
    requires IsResult(t, bm25, vector, a) && IsResult(t, bm25, vector, b)
    ensures a == b
  {
    assert a.sources == b.sources by {
      forall x
        ensures x in a.sources <==> x in b.sources
      {
        assert x == Bm25 || x == VectorIndex;
      }
    }
  }

  /** Where two answers agree so far, neither has a result the other lacks. */
  lemma NextInBoth(t: Tables, bm25: seq<string>, vector: seq<string>, topN: nat, a: seq<RetrievedChunk>,
                   b: seq<RetrievedChunk>, i: nat)
    requires Distinct(bm25) && Distinct(vector)
    requires IsAnswer(t, bm25, vector, topN, a) && IsAnswer(t, bm25, vector, topN, b)
    requires i < |a| && i <= |b| && a[..i] == b[..i]
    requires i < |b| && a[i].chunk.id != b[i].chunk.id ==> Ahead(bm25, vector, a[i].chunk.id, b[i].chunk.id)
    ensures i < |b| && a[i].chunk.id == b[i].chunk.id
  {
    hide Ahead, PlaceScore;
    var id := a[i].chunk.id;
    if !(i < |b| && b[i].chunk.id == id) {
      forall k | 0 <= k < |b|
        ensures b[k].chunk.id != id
      {
        if k < i {
          assert b[k] == b[..i][k] == a[k];
          NotBothAhead(bm25, vector, a[k].chunk.id, id);
        } else {
          NotBothAhead(bm25, vector, id, b[i].chunk.id);
        }
      }
      assert IsResult(t, bm25, vector, a[i]) && LeftBehind(t, bm25, vector, topN, b, id);
      if i < |b| {
        NotBothAhead(bm25, vector, id, b[i].chunk.id);
      }
    }
  }

  lemma {:induction false} AnswersAgree(t: Tables, bm25: seq<string>, vector: seq<string>, topN: nat,
                                        a: seq<RetrievedChunk>, b: seq<RetrievedChunk>, n: nat)
    requires Distinct(bm25) && Distinct(vector) && n <= |a|
    requires IsAnswer(t, bm25, vector, topN, a) && IsAnswer(t, bm25, vector, topN, b)
    ensures n <= |b| && a[..n] == b[..n]
  {
    hide Ahead, PlaceScore, IsResult, LeftBehind;
    if n > 0 {
      var i := n - 1;
      AnswersAgree(t, bm25, vector, topN, a, b, i);
      if i < |b| && a[i].chunk.id != b[i].chunk.id {
        BothFound(t, bm25, vector, a[i], b[i]);
        OneIsAhead(bm25, vector, a[i].chunk.id, b[i].chunk.id);
        if Ahead(bm25, vector, b[i].chunk.id, a[i].chunk.id) {
          NextInBoth(t, bm25, vector, topN, b, a, i);
        }
      }
      NextInBoth(t, bm25, vector, topN, a, b, i);
      SameChunk(t, bm25, vector, a[i], b[i]);
      assert a[..n] == a[..i] + [a[i]] && b[..n] == b[..i] + [b[i]];
    }
  }

  lemma BothFound(t: Tables, bm25: seq<string>, vector: seq<string>, a: RetrievedChunk, b: RetrievedChunk)
    requires Distinct(bm25) && Distinct(vector) && IsResult(t, bm25, vector, a) && IsResult(t, bm25, vector, b)
    ensures (a.chunk.id in bm25 || a.chunk.id in vector) && (b.chunk.id in bm25 || b.chunk.id in vector)
  {
  }

  /** There is one such answer. */
  lemma AnswerIsUnique(t: Tables, bm25: seq<string>, vector: seq<string>, topN: nat, a: seq<RetrievedChunk>,
                       b: seq<RetrievedChunk>)
    requires Distinct(bm25) && Distinct(vector)
    requires IsAnswer(t, bm25, vector, topN, a) && IsAnswer(t, bm25, vector, topN, b)
    ensures a == b
  {
    hide IsAnswer;
    AnswersAgree(t, bm25, vector, topN, a, b, |a|);
    AnswersAgree(t, bm25, vector, topN, b, a, |b|);
    assert a[..|a|] == a && b[..|b|] == b;
  }

  // ---- the ranking is in that order ----

  predicate FirstMetFirst(hits: seq<string>, ids: seq<string>) {
    forall i, j :: 0 <= i < j < |ids| ==> Place(hits, ids[i]) < Place(hits, ids[j])
  }

  lemma {:induction false} PlaceInFront(front: seq<string>, rest: seq<string>, id: string)
    requires id in front
    ensures Place(front + rest, id) == Place(front, id)
  {
    if front[0] != id {
      PlaceInFront(front[1..], rest, id);
      assert (front + rest)[1..] == front[1..] + rest;
    }
  }

  lemma {:induction false} PlaceOfNew(front: seq<string>, id: string)
    requires id !in front
    ensures Place(front + [id], id) == |front|
  {
    if front != [] {
      PlaceOfNew(front[1..], id);
      assert (front + [id])[1..] == front[1..] + [id];
    }
  }

  lemma {:induction false} AppendedInOrder(hits: seq<string>)
    ensures FirstMetFirst(hits, Appended([], hits))
  {
    if hits != [] {
      hide Place;
      var front, last := hits[..|hits| - 1], hits[|hits| - 1];
      AppendedInOrder(front);
      AppendedHas([], front);
      assert hits == front + [last];
      var earlier, ids := Appended([], front), Appended([], hits);
      forall i, j | 0 <= i < j < |ids|
        ensures Place(hits, ids[i]) < Place(hits, ids[j])
      {
        assert i < |earlier| && ids[i] == earlier[i] && earlier[i] in front;
        PlaceInFront(front, [last], ids[i]);
        if j < |earlier| {
          assert ids[j] == earlier[j] && earlier[j] in front;
          PlaceInFront(front, [last], ids[j]);
        } else {
          PlaceOfNew(front, last);
        }
      }
    }
  }

  lemma {:induction false} AppendedTwice(a: seq<string>, b: seq<string>)
    ensures Appended(Appended([], a), b) == Appended([], a + b)
  {
    if b == [] {
      assert a + b == a;
    } else {
      AppendedTwice(a, b[..|b| - 1]);
      assert (a + b)[..|a + b| - 1] == a + b[..|b| - 1];
    }
  }

  /** Equal scores are ranked in the order their ids were first met. */
  lemma TiesAsMet(bm25: seq<string>, vector: seq<string>, k: nat, l: nat)
    requires k < l < |Ranking(bm25, vector)|
    requires Ranking(bm25, vector)[k].score == Ranking(bm25, vector)[l].score
    ensures
      var ranked := Ranking(bm25, vector);
      Place(bm25 + vector, ranked[k].item) < Place(bm25 + vector, ranked[l].item)
  {
    hide SortDesc, Level, Fused, Place, Appended;
    var list, ranked := ScoredIds(bm25, vector), Ranking(bm25, vector);
    var x, y := ranked[k], ranked[l];
    SortDescIsStableSort(list);
    DistinctRanking(bm25, vector);
    assert Items(ranked)[k] == x.item && Items(ranked)[l] == y.item;
    assert x in multiset(ranked) && y in multiset(ranked);
    var i :| 0 <= i < |list| && list[i] == x;
    var j :| 0 <= j < |list| && list[j] == y;
    if j < i {
      assert InThatOrder(list, y, x);
      TiesKeepTheirOrder(list, ranked, y, x);
      OnlyOnePlace(ranked, k, l);
    }
    AppendedTwice(bm25, vector);
    AppendedInOrder(bm25 + vector);
    assert list[i].item == Found(bm25, vector)[i] && list[j].item == Found(bm25, vector)[j];
  }

  lemma OnlyOnePlace(ranked: seq<Scored<string>>, k: nat, l: nat)
    requires k < l < |ranked| && Distinct(Items(ranked))
    ensures !InThatOrder(ranked, ranked[l], ranked[k])
  {
    forall i, j | 0 <= i < j < |ranked|
      ensures !(ranked[i] == ranked[l] && ranked[j] == ranked[k])
    {
      SamePlace(ranked, i, l);
      SamePlace(ranked, j, k);
    }
  }

  lemma SamePlace(ranked: seq<Scored<string>>, i: nat, j: nat)
    requires i < |ranked| && j < |ranked| && Distinct(Items(ranked))
    ensures ranked[i] == ranked[j] ==> i == j
  {
    assert Items(ranked)[i] == ranked[i].item && Items(ranked)[j] == ranked[j].item;
  }

  lemma RankingIsAhead(bm25: seq<string>, vector: seq<string>, k: nat, l: nat)
    requires Distinct(bm25) && Distinct(vector) && k < l < |Ranking(bm25, vector)|
    ensures Ahead(bm25, vector, Ranking(bm25, vector)[k].item, Ranking(bm25, vector)[l].item)
  {
    hide SortDesc, Level, Fused, Place, PlaceScore, Ranking;
    var ranked := Ranking(bm25, vector);
    RankingHasTheFound(bm25, vector);
    RankingIsTheStableOrder(bm25, vector, []);
    assert ranked[k] in ranked && ranked[l] in ranked;
    FusedByPlace(bm25, vector, ranked[k].item);
    FusedByPlace(bm25, vector, ranked[l].item);
    if ranked[k].score == ranked[l].score {
      TiesAsMet(bm25, vector, k, l);
    }
  }

  lemma HydratedIsAhead(t: Tables, bm25: seq<string>, vector: seq<string>, i: nat, j: nat)
    requires RowsOk(t) && Distinct(bm25) && Distinct(vector)
    requires i < j < |GetChunksByIds(t, Items(Ranking(bm25, vector)))|
    ensures
      var chunks := GetChunksByIds(t, Items(Ranking(bm25, vector)));
      Ahead(bm25, vector, chunks[i].id, chunks[j].id)
  {
    hide RowsOk, Ranking, Ahead, GetChunksByIds;
    var ids := Items(Ranking(bm25, vector));
    HydrationKeepsOrder(t, ids);
    var chunks := GetChunksByIds(t, ids);
    assert Precedes(ids, chunks[i].id, chunks[j].id);
    var k, l :| 0 <= k < l < |ids| && ids[k] == chunks[i].id && ids[l] == chunks[j].id;
    RankingIsAhead(bm25, vector, k, l);
  }

  lemma AnswerResult(t: Tables, bm25: seq<string>, vector: seq<string>, topN: nat, k: nat)
    requires RowsOk(t) && Distinct(bm25) && Distinct(vector) && k < |Answer(t, bm25, vector, topN)|
    ensures IsResult(t, bm25, vector, Answer(t, bm25, vector, topN)[k])
  {
    hide RowsOk, Answer, Fused, PlaceScore;
    AnswerIsRanked(t, bm25, vector, topN);
    FusedByPlace(bm25, vector, Answer(t, bm25, vector, topN)[k].chunk.id);
  }

  lemma NoneIsLeftBehind(t: Tables, bm25: seq<string>, vector: seq<string>, topN: nat, id: string)
    requires RowsOk(t) && Distinct(bm25) && Distinct(vector)
    ensures LeftBehind(t, bm25, vector, topN, Answer(t, bm25, vector, topN), id)
  {
    hide RowsOk, SortDesc, Ahead, GetChunksByIds, Fused, FoundBy;
    var ids, found := Items(Ranking(bm25, vector)), Answer(t, bm25, vector, topN);
    var chunks := GetChunksByIds(t, ids);
    if id in t.chunks && (id in bm25 || id in vector) && !Among(found, id) {
      RankingHasTheFound(bm25, vector);
      HydrationKeepsOrder(t, ids);
      RowKey(t, id);
      var m: nat :| m < |chunks| && chunks[m] == t.chunks[id];
      AmongAt(found, m);
      forall k: nat | k < |found|
        ensures Ahead(bm25, vector, found[k].chunk.id, id)
      {
        HydratedIsAhead(t, bm25, vector, k, m);
      }
    }
  }

  lemma AmongAt(found: seq<RetrievedChunk>, m: nat)
    ensures m < |found| ==> Among(found, found[m].chunk.id)
  {
  }

  lemma RowKey(t: Tables, id: string)
    requires RowsOk(t) && id in t.chunks
    ensures t.chunks[id].id == id
  {
    hide Owner, ChunkId;
    assert RowOk(t, id);
  }

  /** Fusing, ranking, hydrating and cutting gives exactly that answer. */
  lemma AnswerIsTheTop(t: Tables, bm25: seq<string>, vector: seq<string>, topN: nat)
    requires RowsOk(t) && Distinct(bm25) && Distinct(vector)
    ensures IsAnswer(t, bm25, vector, topN, Answer(t, bm25, vector, topN))
  {
    hide RowsOk, SortDesc, Ahead, IsResult, LeftBehind, Fused, FoundBy, GetChunksByIds;
    var found := Answer(t, bm25, vector, topN);
    forall k: nat | k < |found|
      ensures IsResult(t, bm25, vector, found[k])
    {
      AnswerResult(t, bm25, vector, topN, k);
    }
    forall k: nat, l: nat | k < l < |found|
      ensures Ahead(bm25, vector, found[k].chunk.id, found[l].chunk.id)
    {
      HydratedIsAhead(t, bm25, vector, k, l);
    }
    forall id
      ensures LeftBehind(t, bm25, vector, topN, found, id)
    {
      NoneIsLeftBehind(t, bm25, vector, topN, id);
    }
  }

  lemma StrictInverse(x: real, y: real, u: real, v: real)
    requires 0.0 < x < y && x * u == 1.0 && y * v == 1.0
    ensures v < u
  {
    InverseFalls(x, y, u, v);
    assert (y - x) * v == y * v - x * v;
    assert x * (u - v) == x * u - x * v;
  }

  lemma EarlierIsMore(i: nat, j: nat)
    requires i < j
    ensures 1.0 / (61 + i) as real > 1.0 / (61 + j) as real
  {
    StrictInverse((61 + i) as real, (61 + j) as real, 1.0 / (61 + i) as real, 1.0 / (61 + j) as real);
  }

  /** `place` is where the only index that found id has it. */
  predicate OnlyAt(bm25: seq<string>, vector: seq<string>, id: string, place: nat) {
    || (id in bm25 && id !in vector && Place(bm25, id) == place)
    || (id in vector && id !in bm25 && Place(vector, id) == place)
  }

  lemma OnlyAtScore(bm25: seq<string>, vector: seq<string>, id: string, place: nat)
    requires Distinct(bm25) && Distinct(vector) && OnlyAt(bm25, vector, id, place)
    ensures PlaceScore(bm25, vector, id) == 1.0 / (61 + place) as real
  {
  }

  /** Of two results that one index each found, the one with the strictly better place comes first. */
  lemma BetterPlaceFirst(t: Tables, bm25: seq<string>, vector: seq<string>, topN: nat, found: seq<RetrievedChunk>,
                         k: nat, l: nat, i: nat, j: nat)
    requires Distinct(bm25) && Distinct(vector) && IsAnswer(t, bm25, vector, topN, found)
    requires k < |found| && l < |found| && i < j
    requires OnlyAt(bm25, vector, found[k].chunk.id, i) && OnlyAt(bm25, vector, found[l].chunk.id, j)
    ensures found[k].score > found[l].score && k < l
  {
    hide LeftBehind, PlaceScore, Place, OnlyAt;
    EarlierIsMore(i, j);
    OnlyAtScore(bm25, vector, found[k].chunk.id, i);
    OnlyAtScore(bm25, vector, found[l].chunk.id, j);
    assert IsResult(t, bm25, vector, found[k]) && IsResult(t, bm25, vector, found[l]);
    AheadInOrder(t, bm25, vector, topN, found, l, k);
  }

  lemma AheadInOrder(t: Tables, bm25: seq<string>, vector: seq<string>, topN: nat, found: seq<RetrievedChunk>,
                     k: nat, l: nat)
    requires Distinct(bm25) && Distinct(vector) && IsAnswer(t, bm25, vector, topN, found)
    ensures k < l < |found| ==> Ahead(bm25, vector, found[k].chunk.id, found[l].chunk.id)
  {
  }

  // ---- the backends ----

  /** The keyword index: `asked` is every search so far, `hits` what the last one returned. */
  class KeywordIndex {
    ghost var asked: seq<(string, int)>
    ghost var hits: seq<string>
    ghost var faults: nat

    constructor ()
      ensures asked == [] && faults == 0 && Distinct(hits)
    {
      asked, hits, faults := [], [], 0;
    }

    /** At most k ids, each once, best first, or an error. */
    method Search(query: string, k: int) returns (ok: bool, found: seq<string>)
      modifies this
      ensures asked == old(asked) + [(query, k)] && hits == found
      ensures faults == old(faults) + if ok then 0 else 1
      ensures Distinct(found) && |found| <= if k > 0 then k else 0
    {
      ok, found := AnyHits(k);
      asked, hits, faults := asked + [(query, k)], found, faults + if ok then 0 else 1;
    }
  }

  /** The vector index, likewise. */
  class VectorIndexSearch {
    ghost var asked: seq<(Vector, int)>
    ghost var hits: seq<string>
    ghost var faults: nat

    constructor ()
      ensures asked == [] && faults == 0 && Distinct(hits)
    {
      asked, hits, faults := [], [], 0;
    }

    method Search(vector: Vector, k: int) returns (ok: bool, found: seq<string>)
      modifies this
      ensures asked == old(asked) + [(vector, k)] && hits == found
      ensures faults == old(faults) + if ok then 0 else 1
      ensures Distinct(found) && |found| <= if k > 0 then k else 0
    {
      ok, found := AnyHits(k);
      asked, hits, faults := asked + [(vector, k)], found, faults + if ok then 0 else 1;
    }
  }

  method AnyHits(k: int) returns (ok: bool, found: seq<string>)
    ensures Distinct(found) && |found| <= if k > 0 then k else 0
  {
    ok := *;
    if !ok {
      return false, [];
    }
    var any: seq<string> := *;
    AppendedHas([], any);
    found := Take(Appended([], any), if k > 0 then k else 0);
  }

  /** The embedder in query mode: `asked` is every query so far, `answer` the last vector. */
  class QueryEmbedder {
    ghost var asked: seq<string>
    ghost var answer: Vector
    ghost var faults: nat

    constructor ()
      ensures asked == [] && faults == 0
    {
      asked, answer, faults := [], [], 0;
    }

    method EmbedQuery(query: string) returns (ok: bool, vector: Vector)
      modifies this
      ensures asked == old(asked) + [query] && answer == vector
      ensures faults == old(faults) + if ok then 0 else 1
    {
      ok, vector := *, *;
      asked, answer, faults := asked + [query], vector, faults + if ok then 0 else 1;
    }
  }

  // ---- the object ----

  /** The retriever; `faults` counts the reads of the chunk store that raised. */
  class Retriever {
    const keywords: KeywordIndex
    const embedder: QueryEmbedder
    const vectors: VectorIndexSearch
    ghost var faults: nat

    constructor (keywords: KeywordIndex, embedder: QueryEmbedder, vectors: VectorIndexSearch)
      ensures faults == 0
      ensures this.keywords == keywords && this.embedder == embedder && this.vectors == vectors
    {
      this.keywords, this.embedder, this.vectors, faults := keywords, embedder, vectors, 0;
    }

    /** How many calls of any backend have raised so far. */
    ghost function Faults(): nat
      reads this, keywords, embedder, vectors
    {
      keywords.faults + embedder.faults + vectors.faults + faults
    }

    /** No backend has been asked. */
    twostate predicate NobodyAsked()
      reads keywords, embedder, vectors
    {
      && keywords.asked == old(keywords.asked) && embedder.asked == old(embedder.asked)
      && vectors.asked == old(vectors.asked)
    }

    /** Each backend has been asked once: the query of the keyword index and of the embedder, and the vector the
        embedder gave of the vector index. */
    twostate predicate EachAskedOnce(query: string, kEach: int)
      reads keywords, embedder, vectors
    {
      && keywords.asked == old(keywords.asked) + [(query, kEach)]
      && embedder.asked == old(embedder.asked) + [query]
      && vectors.asked == old(vectors.asked) + [(embedder.answer, kEach)]
      && Distinct(keywords.hits) && Distinct(vectors.hits)
    }

    /** The chunk store's answer, or an error. */
    method Hydrate(t: Tables, ids: seq<string>) returns (ok: bool, chunks: seq<Chunk>)
      modifies this
      ensures faults == old(faults) + if ok then 0 else 1
      ensures ok ==> chunks == GetChunksByIds(t, ids)
    {
      ok := *;
      chunks := GetChunksByIds(t, ids);
      if !ok {
        faults := faults + 1;
      }
    }

    /** retrieve. A blank query or a non-positive top_n asks nobody; any error of a backend is the caller's. */
    method Retrieve(t: Tables, query: string, kEach: int, topN: int) returns (ok: bool, found: seq<RetrievedChunk>)
      requires RowsOk(t)
      modifies this, keywords, embedder, vectors
      ensures Faults() == old(Faults()) + if ok then 0 else 1
      ensures !ok ==> found == []
      ensures topN <= 0 || Strip(query) == "" ==> ok && found == [] && NobodyAsked()
      ensures ok && topN > 0 && Strip(query) != "" ==>
        && EachAskedOnce(query, kEach)
        && IsAnswer(t, keywords.hits, vectors.hits, topN, found)
        && (kEach > 0 ==> |keywords.hits| <= kEach && |vectors.hits| <= kEach)
      ensures 0 < kEach <= 61 ==> AgreementFirst(found)
    {
      hide Strip, SortDesc, Found, Fused, FoundBy, RowsOk, GetChunksByIds, AgreementFirst, IsAnswer;
      ok, found := true, [];
      NothingDisagrees();
      if topN <= 0 || Strip(query) == "" {
        return;
      }
      var bm25, vector, queryVector;
      ok, bm25 := keywords.Search(query, kEach);
      if !ok {
        return;
      }
      ok, queryVector := embedder.EmbedQuery(query);
      if !ok {
        return;
      }
      ok, vector := vectors.Search(queryVector, kEach);
      if !ok {
        return;
      }
      var order, scores, sources := FuseHits(bm25, vector);
      var keyed := seq(|order|, i requires 0 <= i < |order| => Scored(order[i], scores[order[i]]));
      assert keyed == ScoredIds(bm25, vector);
      var rankedIds := Items(SortDesc(keyed));
      RankingHasTheFound(bm25, vector);
      HydrationKeepsOrder(t, rankedIds);
      var stored;
      ok, stored := Hydrate(t, rankedIds);
      if !ok {
        return;
      }
      var chunks := Take(stored, topN);
      found := seq(|chunks|, i requires 0 <= i < |chunks| =>
        RetrievedChunk(chunks[i], scores[chunks[i].id], sources[chunks[i].id]));
      assert found == Answer(t, bm25, vector, topN);
      AnswerIsTheTop(t, bm25, vector, topN);
      if 0 < kEach <= 61 {
        AnswerAgrees(t, bm25, vector, topN);
      }
    }
  }

  lemma NothingDisagrees()
    ensures AgreementFirst([])
  {
  }

  lemma AnswerAgrees(t: Tables, bm25: seq<string>, vector: seq<string>, topN: nat)
    requires RowsOk(t) && Distinct(bm25) && Distinct(vector) && |bm25| <= 61 && |vector| <= 61
    ensures AgreementFirst(Answer(t, bm25, vector, topN))
  {
    hide RowsOk, Answer, Distinct;
    var found := Answer(t, bm25, vector, topN);
    forall i: nat, j: nat | i < |found| && j < |found|
      && found[i].sources == {Bm25, VectorIndex} && |found[j].sources| == 1
      ensures i < j
    {
      BothBeforeOne(t, bm25, vector, topN, i, j);
    }
  }
}
