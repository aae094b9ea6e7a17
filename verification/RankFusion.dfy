/** Reciprocal rank fusion of keyword and vector hits (src/app/retrieval/hybrid.py), over exact fractions. */
module RankFusion {
  import opened Models
  import opened ChunkIds
  import opened ChunkStore
  import opened StableSort

  const RRF_K := 60

  /** 1 / (60 + rank), rank counted from 1. */
  function Share(rank: nat): real
    requires rank > 0
  {
    1.0 / (RRF_K + rank) as real
  }

  /** What a ranked list contributes to an id: the sum over the places it appears in. */
  function Contribution(hits: seq<string>, id: string): real {
    if hits == [] then 0.0
    else Contribution(hits[..|hits| - 1], id) + if hits[|hits| - 1] == id then Share(|hits|) else 0.0
  }

  /** The ids of a list not already known, in order of first appearance. */
  function Appended(known: seq<string>, hits: seq<string>): seq<string> {
    if hits == [] then known
    else
      var earlier, id := Appended(known, hits[..|hits| - 1]), hits[|hits| - 1];
      if id in earlier then earlier else earlier + [id]
  }

  /** The keys of the score dict, in insertion order: keyword hits first, then vector hits. */
  function Found(bm25: seq<string>, vector: seq<string>): seq<string> {
    Appended(Appended([], bm25), vector)
  }

  function Fused(bm25: seq<string>, vector: seq<string>, id: string): real {
    Contribution(bm25, id) + Contribution(vector, id)
  }

  function FoundBy(bm25: seq<string>, vector: seq<string>, id: string): set<Source> {
    (if id in bm25 then {Bm25} else {}) + (if id in vector then {VectorIndex} else {})
  }

  /** Every found id with its fused score, in insertion order. */
  function ScoredIds(bm25: seq<string>, vector: seq<string>): seq<Scored<string>> {
    var ids := Found(bm25, vector);
    seq(|ids|, i requires 0 <= i < |ids| => Scored(ids[i], Fused(bm25, vector, ids[i])))
  }

  function Items(list: seq<Scored<string>>): seq<string> {
    seq(|list|, i requires 0 <= i < |list| => list[i].item)
  }

  function Take<T>(list: seq<T>, n: nat): (prefix: seq<T>)
    ensures |prefix| == if n <= |list| then n else |list|
    ensures prefix <= list
  {
    if n <= |list| then list[..n] else list
  }

  /** The returned chunks, given the two hit lists: rank everything, keep what is stored, then cut. */
  function Answer(t: Tables, bm25: seq<string>, vector: seq<string>, topN: nat): seq<RetrievedChunk> {
    var chunks := Take(GetChunksByIds(t, Items(SortDesc(ScoredIds(bm25, vector)))), topN);
    seq(|chunks|, i requires 0 <= i < |chunks| =>
      RetrievedChunk(chunks[i], Fused(bm25, vector, chunks[i].id), FoundBy(bm25, vector, chunks[i].id)))
  }

  predicate Distinct(ids: seq<string>) {
    forall i, j :: 0 <= i < j < |ids| ==> ids[i] != ids[j]
  }

  // ---- scores by place ----

  /** The place of id in a list, counted from 0, or the list's length. */
  function Place(hits: seq<string>, id: string): (i: nat)
    ensures i <= |hits| && (i < |hits| <==> id in hits)
    ensures i < |hits| ==> hits[i] == id && id !in hits[..i]
  {
    if hits == [] || hits[0] == id then 0 else 1 + Place(hits[1..], id)
  }

  /** The score of a found id: 1/61 for the first place of a list, 1/62 for the second and so on, summed over the lists
      that have it. */
  function PlaceScore(bm25: seq<string>, vector: seq<string>, id: string): (score: real)
    requires Distinct(bm25) && Distinct(vector)
    ensures forall i :: 0 <= i < |bm25| && bm25[i] == id && id !in vector ==> score == 1.0 / (61 + i) as real
    ensures forall j :: 0 <= j < |vector| && vector[j] == id && id !in bm25 ==> score == 1.0 / (61 + j) as real
    ensures forall i, j :: 0 <= i < |bm25| && bm25[i] == id && 0 <= j < |vector| && vector[j] == id ==>
      score == 1.0 / (61 + i) as real + 1.0 / (61 + j) as real
  {
    var i, j := Place(bm25, id), Place(vector, id);
    (if i < |bm25| then 1.0 / (61 + i) as real else 0.0) + (if j < |vector| then 1.0 / (61 + j) as real else 0.0)
  }

  lemma {:induction false} NotAmong(hits: seq<string>, id: string)
    requires id !in hits
    ensures Contribution(hits, id) == 0.0
  {
    if hits != [] {
      NotAmong(hits[..|hits| - 1], id);
    }
  }

  lemma {:induction false} ContributionAt(hits: seq<string>, i: nat)
    requires Distinct(hits) && i < |hits|
    ensures Contribution(hits, hits[i]) == 1.0 / (61 + i) as real
  {
    var front := hits[..|hits| - 1];
    if i < |front| {
      ContributionAt(front, i);
      assert front[i] == hits[i];
    } else {
      NotAmong(front, hits[i]);
    }
  }

  /** Adding up the fold's shares gives that score. */
  lemma FusedByPlace(bm25: seq<string>, vector: seq<string>, id: string)
    requires Distinct(bm25) && Distinct(vector)
    ensures Fused(bm25, vector, id) == PlaceScore(bm25, vector, id)
  {
    hide Contribution;
    var i, j := Place(bm25, id), Place(vector, id);
    if i < |bm25| { ContributionAt(bm25, i); } else { NotAmong(bm25, id); }
    if j < |vector| { ContributionAt(vector, j); } else { NotAmong(vector, id); }
  }

  // ---- the method ----

  /** What one index's hits do to the two dicts, at one key. */
  ghost predicate Folded(source: Source, hits: seq<string>, scores: map<string, real>,
                         sources: map<string, set<Source>>,
                         scores': map<string, real>, sources': map<string, set<Source>>, id: string) {
    && (id in scores' <==> id in scores || id in hits) && (id in sources' <==> id in scores')
    && (id in scores' ==> scores'[id] == (if id in scores then scores[id] else 0.0) + Contribution(hits, id))
    && (id in sources' ==>
          sources'[id] == (if id in sources then sources[id] else {}) + if id in hits then {source} else {})
  }

  lemma NothingFolded(source: Source, scores: map<string, real>, sources: map<string, set<Source>>, id: string)
    requires id in scores <==> id in sources
    ensures Folded(source, [], scores, sources, scores, sources, id)
  {
  }

  lemma HitFolded(source: Source, hits: seq<string>, i: nat, scores: map<string, real>,
                  sources: map<string, set<Source>>,
                  scores': map<string, real>, sources': map<string, set<Source>>, id: string)
    requires scores.Keys == sources.Keys
    requires i < |hits| && Folded(source, hits[..i], scores, sources, scores', sources', id)
    requires Folded(source, hits[..i], scores, sources, scores', sources', hits[i])
    ensures
      var before := if hits[i] in scores' then scores'[hits[i]] else 0.0;
      var known := if hits[i] in sources' then sources'[hits[i]] else {};
      Folded(source, hits[..i + 1], scores, sources,
             scores'[hits[i] := before + Share(i + 1)], sources'[hits[i] := known + {source}], id)
  {
    hide Share;
    assert hits[..i + 1][..i] == hits[..i] && hits[..i + 1] == hits[..i] + [hits[i]];
    assert Contribution(hits[..i + 1], id) == Contribution(hits[..i], id) + if hits[i] == id then Share(i + 1) else 0.0;
    if id == hits[i] {
      if id !in scores' {
        NotAmong(hits[..i], id);
        assert {} + {source} == {source};
      } else {
        var before := if id in sources then sources[id] else {};
        assert sources'[id] + {source} == before + {source};
      }
    } else {
      assert id in hits[..i + 1] <==> id in hits[..i];
    }
  }

  /** One index's hits folded into the two dicts; `order` is the dicts' key order. */
  method Fold(source: Source, hits: seq<string>, order: seq<string>, scores: map<string, real>,
              sources: map<string, set<Source>>)
    returns (order': seq<string>, scores': map<string, real>, sources': map<string, set<Source>>)
    requires (forall id :: id in order <==> id in scores) && scores.Keys == sources.Keys
    ensures order' == Appended(order, hits)
    ensures forall id :: id in order' <==> id in scores'
    ensures forall id :: Folded(source, hits, scores, sources, scores', sources', id)
    ensures Distinct(hits) ==> forall i :: 0 <= i < |hits| ==>
      && hits[i] in scores' && hits[i] in sources' && source in sources'[hits[i]]
      && scores'[hits[i]] == (if hits[i] in scores then scores[hits[i]] else 0.0) + 1.0 / (61 + i) as real
  {
    hide Share, Folded;
    order', scores', sources' := order, scores, sources;
    forall id
      ensures Folded(source, [], scores, sources, scores, sources, id)
    {
      NothingFolded(source, scores, sources, id);
    }
    for i := 0 to |hits|
      invariant order' == Appended(order, hits[..i])
      invariant forall id :: id in order' <==> id in scores'
      invariant forall id :: Folded(source, hits[..i], scores, sources, scores', sources', id)
    {
      var id := hits[i];
      assert hits[..i + 1][..i] == hits[..i];
      var score := (if id in scores' then scores'[id] else 0.0) + Share(i + 1);
      var known := (if id in sources' then sources'[id] else {}) + {source};
      var nextScores, nextSources := scores'[id := score], sources'[id := known];
      ghost var seen := hits[..i + 1];
      forall x
        ensures Folded(source, seen, scores, sources, nextScores, nextSources, x)
      {
        HitFolded(source, hits, i, scores, sources, scores', sources', x);
      }
      if id !in scores' {
        order' := order' + [id];
      }
      scores', sources' := nextScores, nextSources;
    }
    assert hits[..|hits|] == hits;
    if Distinct(hits) {
      forall i: nat | i < |hits|
        ensures hits[i] in scores' && hits[i] in sources' && source in sources'[hits[i]]
        ensures scores'[hits[i]] == (if hits[i] in scores then scores[hits[i]] else 0.0) + 1.0 / (61 + i) as real
      {
        assert Folded(source, hits, scores, sources, scores', sources', hits[i]);
        FoldedAt(source, hits, scores, sources, scores', sources', i);
      }
    }
  }

  lemma FoldedAt(source: Source, hits: seq<string>, scores: map<string, real>, sources: map<string, set<Source>>,
                 scores': map<string, real>, sources': map<string, set<Source>>, i: nat)
    requires Distinct(hits) && i < |hits|
    requires Folded(source, hits, scores, sources, scores', sources', hits[i])
    ensures hits[i] in scores' && hits[i] in sources' && source in sources'[hits[i]]
    ensures scores'[hits[i]] == (if hits[i] in scores then scores[hits[i]] else 0.0) + 1.0 / (61 + i) as real
  {
    hide Contribution;
    ContributionAt(hits, i);
  }

  /** The loop over both indexes. */
  method FuseHits(bm25: seq<string>, vector: seq<string>)
    returns (order: seq<string>, scores: map<string, real>, sources: map<string, set<Source>>)
    ensures order == Found(bm25, vector)
    ensures forall id :: id in bm25 || id in vector || id in order ==>
      id in scores && id in sources && scores[id] == Fused(bm25, vector, id) && sources[id] == FoundBy(bm25, vector, id)
    ensures Distinct(bm25) && Distinct(vector) ==> forall id :: id in order ==>
      && (id in bm25 || id in vector) && id in scores && scores[id] == PlaceScore(bm25, vector, id)
      && id in sources && (Bm25 in sources[id] <==> id in bm25) && (VectorIndex in sources[id] <==> id in vector)
  {
    hide Contribution, Appended;
    order, scores, sources := Fold(Bm25, bm25, [], map[], map[]);
    forall id
      ensures id in scores <==> id in sources
    {
      assert Folded(Bm25, bm25, map[], map[], scores, sources, id);
    }
    ghost var scores1, sources1 := scores, sources;
    order, scores, sources := Fold(VectorIndex, vector, order, scores, sources);
    forall id | id in bm25 || id in vector || id in order
      ensures id in scores && id in sources && scores[id] == Fused(bm25, vector, id)
        && sources[id] == FoundBy(bm25, vector, id)
    {
      assert Folded(Bm25, bm25, map[], map[], scores1, sources1, id);
      assert Folded(VectorIndex, vector, scores1, sources1, scores, sources, id);
      if id !in bm25 {
        NotAmong(bm25, id);
      }
    }
    if Distinct(bm25) && Distinct(vector) {
      FoundHas(bm25, vector);
      forall id | id in order
        ensures scores[id] == PlaceScore(bm25, vector, id)
      {
        FusedByPlace(bm25, vector, id);
      }
    }
  }

  // ---- the ranking ----

  /** Every found id once, best fused score first, ties in insertion order. */
  function Ranking(bm25: seq<string>, vector: seq<string>): seq<Scored<string>> {
    SortDesc(ScoredIds(bm25, vector))
  }

  lemma {:induction false} AppendedHas(known: seq<string>, hits: seq<string>)
    requires Distinct(known)
    ensures Distinct(Appended(known, hits))
    ensures forall id :: id in Appended(known, hits) <==> id in known || id in hits
  {
    if hits != [] {
      AppendedHas(known, hits[..|hits| - 1]);
      assert hits == hits[..|hits| - 1] + [hits[|hits| - 1]];
    }
  }

  lemma FoundHas(bm25: seq<string>, vector: seq<string>)
    ensures Distinct(Found(bm25, vector))
    ensures forall id :: id in Found(bm25, vector) <==> id in bm25 || id in vector
  {
    AppendedHas([], bm25);
    AppendedHas(Appended([], bm25), vector);
  }

  lemma InItems(list: seq<Scored<string>>, id: string)
    ensures id in Items(list) <==> exists x :: x in list && x.item == id
  {
    if id in Items(list) {
      var i :| 0 <= i < |list| && Items(list)[i] == id;
      assert list[i] in list;
    }
    if x :| x in list && x.item == id {
      var i :| 0 <= i < |list| && list[i] == x;
      assert Items(list)[i] == id;
    }
  }

  lemma RankingHasTheFound(bm25: seq<string>, vector: seq<string>)
    ensures forall id :: id in Items(Ranking(bm25, vector)) <==> id in bm25 || id in vector
    ensures forall x :: x in Ranking(bm25, vector) ==> x.score == Fused(bm25, vector, x.item)
    ensures Distinct(bm25) && Distinct(vector) ==>
      forall x :: x in Ranking(bm25, vector) ==> x.score == PlaceScore(bm25, vector, x.item)
  {
    hide SortDesc, Fused, Found, Items, PlaceScore, Distinct;
    var scored, ranked := ScoredIds(bm25, vector), Ranking(bm25, vector);
    SortDescIsStableSort(scored);
    FoundHas(bm25, vector);
    forall x
      ensures x in ranked <==> x in scored
    {
      assert x in ranked <==> x in multiset(ranked);
      assert x in scored <==> x in multiset(scored);
    }
    forall id
      ensures id in Items(ranked) <==> id in Found(bm25, vector)
    {
      InItems(ranked, id);
      if id in Found(bm25, vector) {
        var i :| 0 <= i < |Found(bm25, vector)| && Found(bm25, vector)[i] == id;
        assert scored[i] in scored;
      }
    }
    if Distinct(bm25) && Distinct(vector) {
      forall x | x in ranked
        ensures x.score == PlaceScore(bm25, vector, x.item)
      {
        FusedByPlace(bm25, vector, x.item);
      }
    }
  }

  /** The ranking is the one and only stable descending order of the found ids by fused score. */
  lemma RankingIsTheStableOrder(bm25: seq<string>, vector: seq<string>, other: seq<Scored<string>>)
    ensures IsStableSort(ScoredIds(bm25, vector), Ranking(bm25, vector))
    ensures IsStableSort(ScoredIds(bm25, vector), other) ==> other == Ranking(bm25, vector)
  {
    hide SortDesc, Level;
    SortDescIsStableSort(ScoredIds(bm25, vector));
    if IsStableSort(ScoredIds(bm25, vector), other) {
      StableSortIsUnique(other, Ranking(bm25, vector));
    }
  }

  lemma DistinctRanking(bm25: seq<string>, vector: seq<string>)
    ensures Distinct(Items(Ranking(bm25, vector)))
  {
    hide SortDesc, Fused, Found;
    var scored, ranked := ScoredIds(bm25, vector), Ranking(bm25, vector);
    SortDescIsStableSort(scored);
    FoundHas(bm25, vector);
    DistinctStays(scored, ranked);
  }

  lemma DistinctStays(list: seq<Scored<string>>, sorted: seq<Scored<string>>)
    requires multiset(list) == multiset(sorted) && Distinct(Items(list))
    ensures Distinct(Items(sorted))
  {
    forall i, j | 0 <= i < j < |sorted|
      ensures Items(sorted)[i] != Items(sorted)[j]
    {
      if sorted[i].item == sorted[j].item {
        assert sorted[i] in multiset(sorted) && sorted[j] in multiset(sorted);
        var k: nat :| k < |list| && list[k] == sorted[i];
        var l: nat :| l < |list| && list[l] == sorted[j];
        assert Items(list)[k] == Items(list)[l];
        TwoOccurrences(sorted, i, j);
        OneOccurrence(list, sorted[i]);
      }
    }
  }

  lemma TwoOccurrences<T>(list: seq<T>, i: nat, j: nat)
    requires i < j < |list| && list[i] == list[j]
    ensures multiset(list)[list[i]] >= 2
  {
    var x := list[i];
    assert list == list[..j] + list[j..];
    assert multiset(list) == multiset(list[..j]) + multiset(list[j..]);
    assert list[..j][i] == x && list[j..][0] == x;
    assert x in multiset(list[..j]) && x in multiset(list[j..]);
  }

  lemma {:induction false} OneOccurrence(list: seq<Scored<string>>, x: Scored<string>)
    requires Distinct(Items(list))
    ensures multiset(list)[x] <= 1
  {
    if list != [] {
      var front, last := list[..|list| - 1], list[|list| - 1];
      assert list == front + [last];
      forall i, j | 0 <= i < j < |front|
        ensures Items(front)[i] != Items(front)[j]
      {
        assert Items(list)[i] != Items(list)[j];
      }
      OneOccurrence(front, x);
      forall i | 0 <= i < |front|
        ensures front[i] != last
      {
        assert Items(list)[i] != Items(list)[|front|];
      }
    }
  }

  // ---- hydration and truncation ----

  function StoredIds(t: Tables, ids: seq<string>): set<string> {
    set id | id in ids && id in t.chunks
  }

  lemma {:induction false} StoredCount(t: Tables, ids: seq<string>)
    requires Distinct(ids)
    ensures |GetChunksByIds(t, ids)| == |StoredIds(t, ids)|
  {
    if ids != [] {
      StoredCount(t, ids[1..]);
      if ids[0] in t.chunks {
        assert StoredIds(t, ids) == StoredIds(t, ids[1..]) + {ids[0]};
        assert ids[0] !in ids[1..];
      } else {
        assert StoredIds(t, ids) == StoredIds(t, ids[1..]);
      }
    }
  }

  /** Hydrating before cutting: stale index entries never shorten the answer. */
  lemma AnswerLength(t: Tables, bm25: seq<string>, vector: seq<string>, topN: nat)
    ensures
      var stored := |StoredIds(t, bm25 + vector)|;
      |Answer(t, bm25, vector, topN)| == if topN <= stored then topN else stored
  {
    hide SortDesc, Fused, FoundBy;
    var ids := Items(Ranking(bm25, vector));
    RankingHasTheFound(bm25, vector);
    DistinctRanking(bm25, vector);
    StoredCount(t, ids);
    assert StoredIds(t, ids) == StoredIds(t, bm25 + vector);
  }

  predicate Falling(chunks: seq<Chunk>, bm25: seq<string>, vector: seq<string>) {
    forall i, j :: 0 <= i < j < |chunks| ==> Fused(bm25, vector, chunks[i].id) >= Fused(bm25, vector, chunks[j].id)
  }

  lemma FallingCons(c: Chunk, rest: seq<Chunk>, bm25: seq<string>, vector: seq<string>)
    requires Falling(rest, bm25, vector)
    requires forall x :: x in rest ==> Fused(bm25, vector, c.id) >= Fused(bm25, vector, x.id)
    ensures Falling([c] + rest, bm25, vector)
  {
    hide Fused;
  }

  lemma {:induction false} HydratedDescend(t: Tables, ranked: seq<Scored<string>>, bm25: seq<string>,
                                           vector: seq<string>)
    requires RowsOk(t) && Descending(ranked)
    requires forall x :: x in ranked ==> x.score == Fused(bm25, vector, x.item)
    ensures Falling(GetChunksByIds(t, Items(ranked)), bm25, vector)
  {
    hide Owner, ChunkId, Fused, Falling;
    if ranked == [] {
      FallingEmpty(bm25, vector);
    } else {
      HydratedDescend(t, ranked[1..], bm25, vector);
      var ids, rest := Items(ranked), Items(ranked[1..]);
      assert ids[1..] == rest;
      assert RowOk(t, ids[0]);
      HydrationKeepsOrder(t, rest);
      forall c | c in GetChunksByIds(t, rest)
        ensures Fused(bm25, vector, ids[0]) >= Fused(bm25, vector, c.id)
      {
        var k :| 0 <= k < |rest| && rest[k] == c.id;
        assert ranked[0] in ranked && ranked[k + 1] in ranked;
      }
      if ids[0] in t.chunks {
        FallingCons(t.chunks[ids[0]], GetChunksByIds(t, rest), bm25, vector);
      } else {
        assert [] + GetChunksByIds(t, rest) == GetChunksByIds(t, rest);
      }
    }
  }

  lemma FallingEmpty(bm25: seq<string>, vector: seq<string>)
    ensures Falling([], bm25, vector)
  {
  }

  lemma FoundByIs(bm25: seq<string>, vector: seq<string>, id: string)
    ensures Bm25 in FoundBy(bm25, vector, id) <==> id in bm25
    ensures VectorIndex in FoundBy(bm25, vector, id) <==> id in vector
  {
  }

  /** Every answer is stored, found by the indexes it names, scored by their shares, and in descending order. */
  lemma AnswerIsRanked(t: Tables, bm25: seq<string>, vector: seq<string>, topN: nat)
    requires RowsOk(t)
    ensures
      var found := Answer(t, bm25, vector, topN);
      && (forall i :: 0 <= i < |found| ==>
            var id := found[i].chunk.id;
            && id in t.chunks && t.chunks[id] == found[i].chunk
            && (id in bm25 || id in vector)
            && found[i].sources == FoundBy(bm25, vector, id)
            && (Bm25 in found[i].sources <==> id in bm25) && (VectorIndex in found[i].sources <==> id in vector)
            && found[i].score == Fused(bm25, vector, id)
            && (Distinct(bm25) && Distinct(vector) ==> found[i].score == PlaceScore(bm25, vector, id)))
      && forall i, j :: 0 <= i < j < |found| ==> found[i].score >= found[j].score
  {
    hide SortDesc, Fused, FoundBy, RowsOk, Level, PlaceScore, Distinct;
    var ranked := Ranking(bm25, vector);
    RankingHasTheFound(bm25, vector);
    SortDescIsStableSort(ScoredIds(bm25, vector));
    HydrationKeepsOrder(t, Items(ranked));
    HydratedDescend(t, ranked, bm25, vector);
    var chunks := GetChunksByIds(t, Items(ranked));
    var found := Answer(t, bm25, vector, topN);
    forall i | 0 <= i < |found|
      ensures found[i].chunk == chunks[i] && chunks[i] in chunks
      ensures var id := found[i].chunk.id;
        (Bm25 in found[i].sources <==> id in bm25) && (VectorIndex in found[i].sources <==> id in vector)
      ensures Distinct(bm25) && Distinct(vector) ==> found[i].score == PlaceScore(bm25, vector, found[i].chunk.id)
    {
      FoundByIs(bm25, vector, found[i].chunk.id);
      if Distinct(bm25) && Distinct(vector) {
        FusedByPlace(bm25, vector, found[i].chunk.id);
      }
    }
  }

  // ---- agreement between the indexes ----

  lemma CancelRight(u: real, v: real, y: real)
    requires y > 0.0 && v * y <= u * y
    ensures v <= u
  {
    assert (v - u) * y == v * y - u * y;
  }

  lemma ScaleRight(x: real, y: real, u: real)
    requires x <= y && u > 0.0
    ensures x * u <= y * u
  {
    assert (y - x) * u == y * u - x * u;
  }

  lemma InverseFalls(x: real, y: real, u: real, v: real)
    requires 0.0 < x <= y && x * u == 1.0 && y * v == 1.0
    ensures 0.0 < v <= u
  {
    assert u > 0.0 && v > 0.0;
    ScaleRight(x, y, u);
    CancelRight(u, v, y);
  }

  lemma ShareFalls(a: nat, b: nat)
    requires 0 < a <= b
    ensures 0.0 < Share(b) <= Share(a)
  {
    InverseFalls((RRF_K + a) as real, (RRF_K + b) as real, Share(a), Share(b));
  }

  lemma {:induction false} OneShare(hits: seq<string>, id: string)
    requires Distinct(hits) && id in hits
    ensures Share(|hits|) <= Contribution(hits, id) <= Share(1)
  {
    hide Share;
    var front, last := hits[..|hits| - 1], hits[|hits| - 1];
    ShareFalls(1, |hits|);
    if last == id {
      assert id !in front;
      NotAmong(front, id);
    } else {
      assert id in front;
      OneShare(front, id);
      ShareFalls(|front|, |hits|);
    }
  }

  lemma AgreementWins(bm25: seq<string>, vector: seq<string>, both: string, one: string)
    requires Distinct(bm25) && Distinct(vector) && |bm25| <= 61 && |vector| <= 61
    requires both in bm25 && both in vector
    requires (one in bm25) != (one in vector)
    ensures Fused(bm25, vector, both) > Fused(bm25, vector, one)
  {
    hide Share;
    OneShare(bm25, both);
    OneShare(vector, both);
    ShareFalls(|bm25|, 61);
    ShareFalls(|vector|, 61);
    if one in bm25 {
      OneShare(bm25, one);
      NotAmong(vector, one);
    } else {
      OneShare(vector, one);
      NotAmong(bm25, one);
    }
    TwoBeatOne();
  }

  lemma TwoBeatOne()
    ensures Share(61) + Share(61) > Share(1)
    ensures Share(62) + Share(62) == Share(1)
  {
  }

  /** With at most 61 hits from each index, every chunk both found comes before every chunk only one found. */
  lemma BothBeforeOne(t: Tables, bm25: seq<string>, vector: seq<string>, topN: nat, i: nat, j: nat)
    requires RowsOk(t) && Distinct(bm25) && Distinct(vector) && |bm25| <= 61 && |vector| <= 61
    requires i < |Answer(t, bm25, vector, topN)| && j < |Answer(t, bm25, vector, topN)|
    requires Answer(t, bm25, vector, topN)[i].sources == {Bm25, VectorIndex}
    requires |Answer(t, bm25, vector, topN)[j].sources| == 1
    ensures i < j
  {
    hide Fused, RowsOk, Answer;
    AnswerIsRanked(t, bm25, vector, topN);
    var found := Answer(t, bm25, vector, topN);
    SourcesOf(bm25, vector, found[i].chunk.id);
    SourcesOf(bm25, vector, found[j].chunk.id);
    AgreementWins(bm25, vector, found[i].chunk.id, found[j].chunk.id);
  }

  lemma SourcesOf(bm25: seq<string>, vector: seq<string>, id: string)
    ensures FoundBy(bm25, vector, id) == {Bm25, VectorIndex} <==> id in bm25 && id in vector
    ensures |FoundBy(bm25, vector, id)| == 1 <==> (id in bm25) != (id in vector)
  {
    assert {Bm25} + {VectorIndex} == {Bm25, VectorIndex};
    assert Bm25 in {Bm25, VectorIndex} && VectorIndex in {Bm25, VectorIndex};
    assert VectorIndex !in {Bm25} && Bm25 !in {VectorIndex};
  }

  /** 61 is the most: with 62 hits each, a chunk both indexes found last only ties with the best keyword hit, and
      ranks behind it. */
  lemma SixtyTwoIsTooMany(bm25: seq<string>, vector: seq<string>)
    requires Distinct(bm25) && Distinct(vector) && |bm25| == 62 && |vector| == 62
    requires bm25[61] == vector[61] && bm25[0] !in vector
    ensures
      var score := Fused(bm25, vector, bm25[0]);
      Fused(bm25, vector, bm25[61]) == score
      && InThatOrder(Ranking(bm25, vector), Scored(bm25[0], score), Scored(bm25[61], score))
  {
    hide Share, SortDesc, Level, Contribution, Appended;
    LastShare(bm25);
    LastShare(vector);
    FirstShare(bm25, 62);
    NotAmong(vector, bm25[0]);
    TwoBeatOne();
    KeywordHitsComeFirst(bm25, vector, 62);
    var list := ScoredIds(bm25, vector);
    var score := Fused(bm25, vector, bm25[0]);
    assert list[0] == Scored(bm25[0], score) && list[61] == Scored(bm25[61], score);
    SortDescIsStableSort(list);
    TiesKeepTheirOrder(list, SortDesc(list), list[0], list[61]);
  }

  lemma {:induction false} NewAppended(hits: seq<string>, n: nat)
    requires Distinct(hits) && n <= |hits|
    ensures Appended([], hits[..n]) == hits[..n]
  {
    if n > 0 {
      NewAppended(hits, n - 1);
      assert hits[..n][..n - 1] == hits[..n - 1] && hits[..n] == hits[..n - 1] + [hits[n - 1]];
    }
  }

  lemma {:induction false} AppendedExtends(known: seq<string>, hits: seq<string>)
    ensures known <= Appended(known, hits)
  {
    if hits != [] {
      AppendedExtends(known, hits[..|hits| - 1]);
    }
  }

  lemma KeywordHitsComeFirst(bm25: seq<string>, vector: seq<string>, n: nat)
    requires Distinct(bm25) && n <= |bm25|
    ensures n <= |Found(bm25, vector)| && Found(bm25, vector)[..n] == bm25[..n]
    ensures forall i :: 0 <= i < n ==> Found(bm25, vector)[i] == bm25[i]
  {
    hide Appended;
    NewAppended(bm25, |bm25|);
    assert bm25[..|bm25|] == bm25;
    AppendedExtends(bm25, vector);
  }

  lemma LastShare(hits: seq<string>)
    requires Distinct(hits) && hits != []
    ensures Contribution(hits, hits[|hits| - 1]) == Share(|hits|)
  {
    NotAmong(hits[..|hits| - 1], hits[|hits| - 1]);
  }

  lemma {:induction false} FirstShare(hits: seq<string>, n: nat)
    requires Distinct(hits) && 0 < n <= |hits|
    ensures Contribution(hits[..n], hits[0]) == Share(1)
    ensures hits[..|hits|] == hits
  {
    hide Share;
    if n > 1 {
      FirstShare(hits, n - 1);
      assert hits[..n][..n - 1] == hits[..n - 1] && hits[..n][n - 1] == hits[n - 1];
    } else {
      assert hits[..1] == [hits[0]] && hits[..1][..0] == [];
    }
  }

  /** Chunks both indexes found come before those only one found. */
  ghost predicate AgreementFirst(found: seq<RetrievedChunk>) {
    forall i, j :: 0 <= i < |found| && 0 <= j < |found|
      && found[i].sources == {Bm25, VectorIndex} && |found[j].sources| == 1
      ==> i < j
  }
}
