/** The pointwise reranker (src/app/retrieval/reranker.py): reading scores, and merging them into the fused order. */
module Reranker {
  import opened Models
  import opened ChunkIds
  import opened StableSort

  const MIN_SCORE := 0
  const MAX_SCORE := 10

  // ---- parse_score ----

  predicate IsDigit(c: char) {
    '0' <= c <= '9'
  }

  /** raw[i..j] is the first run of digits: none before it, and it does not go on after. */
  predicate FirstRun(raw: string, i: nat, j: nat) {
    && i < j <= |raw| && IsDigit(raw[i])
    && (forall k :: 0 <= k < i ==> !IsDigit(raw[k]))
    && (forall k :: i <= k < j ==> IsDigit(raw[k]))
    && (j < |raw| ==> !IsDigit(raw[j]))
  }

  predicate Acceptable(digits: string) {
    |digits| <= 2 && MIN_SCORE <= NumberOf(digits) <= MAX_SCORE
  }

  /** What a model reply means: the number its first run of digits spells, if that is a score. */
  ghost predicate IsScoreOf(raw: string, score: Option<nat>) {
    if exists i: nat, j: nat :: FirstRun(raw, i, j) && Acceptable(raw[i..j])
    then score.Some? && exists i: nat, j: nat ::
      FirstRun(raw, i, j) && Acceptable(raw[i..j]) && score.value == NumberOf(raw[i..j])
    else score.None?
  }

  lemma FirstRunIsUnique(raw: string, i: nat, j: nat, i': nat, j': nat)
    requires FirstRun(raw, i, j) && FirstRun(raw, i', j')
    ensures i == i' && j == j'
  {
  }

  method ParseScore(raw: string) returns (score: Option<nat>)
    ensures IsScoreOf(raw, score)
  {
    hide NumberOf;
    var digits := "";
    ghost var start := 0;
    var n := 0;
    while n < |raw|
      invariant start <= n <= |raw| && digits == raw[start..n]
      invariant forall k :: 0 <= k < start ==> !IsDigit(raw[k])
      invariant forall k :: start <= k < n ==> IsDigit(raw[k])
    {
      if IsDigit(raw[n]) {
        assert raw[start..n] + [raw[n]] == raw[start..n + 1];
        digits := digits + [raw[n]];
      } else if digits != "" {
        break;
      } else {
        start := n + 1;
      }
      n := n + 1;
    }
    if digits == "" {
      return None;
    }
    FirstRunIs(raw, start, n);
    if |digits| > 2 {
      return None;
    }
    var value := NumberOf(digits);
    if MIN_SCORE <= value <= MAX_SCORE {
      return Some(value);
    }
    return None;
  }

  lemma FirstRunIs(raw: string, i: nat, j: nat)
    requires FirstRun(raw, i, j)
    ensures forall i': nat, j': nat :: FirstRun(raw, i', j') ==> i' == i && j' == j
  {
    forall i': nat, j': nat | FirstRun(raw, i', j')
      ensures i' == i && j' == j
    {
      FirstRunIsUnique(raw, i, j, i', j');
    }
  }

  lemma {:induction false} DecimalDigits(n: nat)
    ensures forall k :: 0 <= k < |Decimal(n)| ==> IsDigit(Decimal(n)[k])
    ensures |Decimal(n)| <= 2 <==> n < 100
    ensures |Decimal(n)| > 0
  {
    if n >= 10 {
      DecimalDigits(n / 10);
      if n >= 100 {
        DecimalDigits(n / 100);
        assert |Decimal(n / 10)| >= 2;
      }
    }
  }

  /** A number wrapped in any other words is read back exactly when it is a score, and never clamped. */
  lemma ScoresReadBack(before: string, n: nat, after: string, score: Option<nat>)
    requires forall k :: 0 <= k < |before| ==> !IsDigit(before[k])
    requires after != "" ==> !IsDigit(after[0])
    requires IsScoreOf(before + Decimal(n) + after, score)
    ensures score == if n <= 10 then Some(n) else None
  {
    hide Decimal, NumberOf;
    var raw, i, j := before + Decimal(n) + after, |before|, |before| + |Decimal(n)|;
    DecimalDigits(n);
    DecimalReadsBack(n);
    assert raw[i..j] == Decimal(n);
    forall k | i <= k < j
      ensures IsDigit(raw[k])
    {
      assert raw[k] == Decimal(n)[k - i];
    }
    assert FirstRun(raw, i, j);
    FirstRunIs(raw, i, j);
  }

  /** More than two digits in a row are no score, leading zeros included; nor is a reply without digits one. */
  lemma LongRunsAreNoScores(raw: string, i: nat, j: nat, score: Option<nat>)
    requires IsScoreOf(raw, score)
    ensures FirstRun(raw, i, j) && j - i > 2 ==> score == None
    ensures (forall k :: 0 <= k < |raw| ==> !('0' <= raw[k] <= '9')) ==> score == None
  {
    hide NumberOf;
    if FirstRun(raw, i, j) {
      FirstRunIs(raw, i, j);
    }
  }

  // ---- permutations ----

  predicate Permutation(p: seq<nat>) {
    && (forall i :: 0 <= i < |p| ==> p[i] < |p|)
    && forall i, j :: 0 <= i < j < |p| ==> p[i] != p[j]
  }

  lemma OneMore(s: set<nat>, x: nat)
    requires x !in s
    ensures |s + {x}| == |s| + 1
  {
  }

  function Below(n: nat): (s: set<nat>)
    ensures |s| == n && forall x: nat :: x in s <==> x < n
  {
    if n == 0 then {}
    else
      var smaller := Below(n - 1);
      OneMore(smaller, n - 1);
      smaller + {n - 1}
  }

  lemma {:induction false} DistinctElements(p: seq<nat>)
    requires forall i, j :: 0 <= i < j < |p| ==> p[i] != p[j]
    ensures |set x: nat | x in p| == |p|
  {
    if p != [] {
      var front, last := p[..|p| - 1], p[|p| - 1];
      DistinctElements(front);
      OneMore((set x: nat | x in front), last);
      assert (set x: nat | x in p) == (set x: nat | x in front) + {last};
    }
  }

  lemma SameSize(a: set<nat>, b: set<nat>)
    requires a <= b && |a| == |b|
    ensures a == b
  {
    assert b == a + (b - a);
    assert |b| == |a| + |b - a|;
  }

  lemma PermutationHits(p: seq<nat>, x: nat) returns (i: nat)
    requires Permutation(p) && x < |p|
    ensures i < |p| && p[i] == x
  {
    DistinctElements(p);
    var elements := set y: nat | y in p;
    assert forall y :: y in elements ==> y < |p|;
    SameSize(elements, Below(|p|));
    assert x in elements;
    i :| i < |p| && p[i] == x;
  }

  // ---- _merge ----

  function Rescored(c: RetrievedChunk, score: Option<nat>): RetrievedChunk {
    match score
    case None => c
    case Some(v) => RetrievedChunk(c.chunk, v as real, c.sources)
  }

  /** Candidate a goes before candidate b: higher score, or equal scores and fused earlier. */
  predicate Before(scores: seq<Option<nat>>, a: nat, b: nat)
    requires a < |scores| && b < |scores|
  {
    && scores[a].Some? && scores[b].Some?
    && (scores[a].value > scores[b].value || (scores[a].value == scores[b].value && a < b))
  }

  /** `merged` is the candidates rearranged by p: unscored ones stay where they were, with their fused score; the
      others fill the remaining slots from the best score down, ties in fused order. */
  predicate Merged(candidates: seq<RetrievedChunk>, scores: seq<Option<nat>>, p: seq<nat>,
                   merged: seq<RetrievedChunk>) {
    && |scores| == |candidates| == |p| == |merged|
    && Permutation(p)
    && (forall i :: 0 <= i < |p| ==> merged[i] == Rescored(candidates[p[i]], scores[p[i]]))
    && (forall i :: 0 <= i < |p| && scores[i].None? ==> p[i] == i)
    && (forall i, j :: 0 <= i < j < |p| && scores[i].Some? && scores[j].Some? ==> Before(scores, p[i], p[j]))
  }

  /** Where two merges agree on all earlier slots, neither puts a better candidate in this one. */
  lemma NoBetter(candidates: seq<RetrievedChunk>, scores: seq<Option<nat>>,
                 p: seq<nat>, a: seq<RetrievedChunk>, q: seq<nat>, b: seq<RetrievedChunk>, i: nat)
    requires Merged(candidates, scores, p, a) && Merged(candidates, scores, q, b)
    requires i < |p| && scores[i].Some? && forall j :: 0 <= j < i ==> p[j] == q[j]
    ensures q[i] == p[i] || Before(scores, q[i], p[i])
  {
    hide Before;
    var j := PermutationHits(q, p[i]);
    ScoredSlot(candidates, scores, p, a, i);
    ScoredSlot(candidates, scores, q, b, j);
  }

  lemma {:induction false} MergedPrefixIsUnique(candidates: seq<RetrievedChunk>, scores: seq<Option<nat>>,
                                                p: seq<nat>, a: seq<RetrievedChunk>, q: seq<nat>,
                                                b: seq<RetrievedChunk>, n: nat)
    requires Merged(candidates, scores, p, a) && Merged(candidates, scores, q, b) && n <= |p|
    ensures forall i :: 0 <= i < n ==> p[i] == q[i]
  {
    hide Merged;
    if n > 0 {
      MergedPrefixIsUnique(candidates, scores, p, a, q, b, n - 1);
      SlotIsUnique(candidates, scores, p, a, q, b, n - 1);
    }
  }

  lemma SlotIsUnique(candidates: seq<RetrievedChunk>, scores: seq<Option<nat>>,
                     p: seq<nat>, a: seq<RetrievedChunk>, q: seq<nat>, b: seq<RetrievedChunk>, i: nat)
    requires Merged(candidates, scores, p, a) && Merged(candidates, scores, q, b)
    requires i < |p| && forall j :: 0 <= j < i ==> p[j] == q[j]
    ensures p[i] == q[i]
  {
    if scores[i].Some? {
      NoBetter(candidates, scores, p, a, q, b, i);
      NoBetter(candidates, scores, q, b, p, a, i);
    }
  }

  /** A slot holds a scored candidate exactly when its own candidate was scored. */
  lemma ScoredSlot(candidates: seq<RetrievedChunk>, scores: seq<Option<nat>>, p: seq<nat>,
                   merged: seq<RetrievedChunk>, i: nat)
    requires Merged(candidates, scores, p, merged) && i < |p|
    ensures scores[p[i]].Some? <==> scores[i].Some?
  {
    if scores[i].Some? && scores[p[i]].None? {
      assert p[p[i]] == p[i];
    }
  }

  /** `merged` is the merge of the candidates under these scores. */
  ghost predicate IsMerge(candidates: seq<RetrievedChunk>, scores: seq<Option<nat>>, merged: seq<RetrievedChunk>) {
    exists p :: Merged(candidates, scores, p, merged)
  }

  lemma PlacesAreUnique(candidates: seq<RetrievedChunk>, scores: seq<Option<nat>>,
                        p: seq<nat>, a: seq<RetrievedChunk>, q: seq<nat>, b: seq<RetrievedChunk>)
    requires Merged(candidates, scores, p, a) && Merged(candidates, scores, q, b)
    ensures p == q && a == b
  {
    MergedPrefixIsUnique(candidates, scores, p, a, q, b, |p|);
  }

  /** The merge is determined by the scores. */
  lemma MergeIsUnique(candidates: seq<RetrievedChunk>, scores: seq<Option<nat>>, a: seq<RetrievedChunk>,
                      b: seq<RetrievedChunk>)
    requires IsMerge(candidates, scores, a) && IsMerge(candidates, scores, b)
    ensures a == b
  {
    hide Merged;
    var p :| Merged(candidates, scores, p, a);
    var q :| Merged(candidates, scores, q, b);
    PlacesAreUnique(candidates, scores, p, a, q, b);
  }

  /** Nothing is dropped or invented: every candidate's chunk is in exactly one slot. */
  lemma MergedKeepsEveryCandidate(candidates: seq<RetrievedChunk>, scores: seq<Option<nat>>, p: seq<nat>,
                                  merged: seq<RetrievedChunk>, x: nat)
    requires Merged(candidates, scores, p, merged) && x < |candidates|
    ensures exists i ::
      && 0 <= i < |merged| && p[i] == x
      && merged[i].chunk == candidates[x].chunk && merged[i].sources == candidates[x].sources
      && merged[i].score == if scores[x].Some? then scores[x].value as real else candidates[x].score
    ensures forall i, j :: 0 <= i < |p| && 0 <= j < |p| && p[i] == x && p[j] == x ==> i == j
  {
    var i := PermutationHits(p, x);
  }

  /** The first scored slot holds the best score. */
  lemma FirstScoredIsBest(candidates: seq<RetrievedChunk>, scores: seq<Option<nat>>, p: seq<nat>,
                          merged: seq<RetrievedChunk>, i: nat, x: nat)
    requires Merged(candidates, scores, p, merged)
    requires i < |p| && scores[i].Some? && forall k :: 0 <= k < i ==> scores[k].None?
    requires x < |scores| && scores[x].Some?
    ensures |merged| == |scores| == |p| && p[i] < |scores|
    ensures scores[p[i]].Some? && merged[i].score == scores[p[i]].value as real && scores[p[i]].value >= scores[x].value
  {
    var j := PermutationHits(p, x);
    ScoredSlot(candidates, scores, p, merged, i);
    ScoredSlot(candidates, scores, p, merged, j);
    assert j >= i;
    if j > i { assert Before(scores, p[i], p[j]); }
  }

  // ---- the sort by score, on candidate indices ----

  function Score(scores: seq<Option<nat>>, i: nat): Scored<nat>
    requires i < |scores| && scores[i].Some?
  {
    Scored(i, scores[i].value as real)
  }

  predicate OnScored(scores: seq<Option<nat>>, list: seq<Scored<nat>>) {
    forall k :: 0 <= k < |list| ==>
      list[k].item < |scores| && scores[list[k].item].Some? && list[k] == Score(scores, list[k].item)
  }

  predicate InOrder(scores: seq<Option<nat>>, list: seq<Scored<nat>>)
    requires OnScored(scores, list)
  {
    forall k, l :: 0 <= k < l < |list| ==> Before(scores, list[k].item, list[l].item)
  }

  lemma {:induction false} InsertHas(list: seq<Scored<nat>>, x: Scored<nat>)
    ensures forall y :: y in Insert(list, x) <==> y in list || y == x
    ensures |Insert(list, x)| == |list| + 1
  {
    if list != [] && list[|list| - 1].score < x.score {
      var front := list[..|list| - 1];
      InsertHas(front, x);
      assert list == front + [list[|list| - 1]];
    }
  }

  predicate IsScored(scores: seq<Option<nat>>, x: Scored<nat>) {
    x.item < |scores| && scores[x.item].Some? && x == Score(scores, x.item)
  }

  lemma OrderedLast(scores: seq<Option<nat>>, front: seq<Scored<nat>>, last: Scored<nat>)
    requires OnScored(scores, front) && IsScored(scores, last) && InOrder(scores, front)
    requires forall y :: y in front ==> y.item < |scores| && Before(scores, y.item, last.item)
    ensures OnScored(scores, front + [last]) && InOrder(scores, front + [last])
  {
    hide Before;
    var list := front + [last];
    forall k | 0 <= k < |list|
      ensures IsScored(scores, list[k])
    {
      assert k < |front| ==> list[k] == front[k];
    }
    assert OnScored(scores, list);
    forall k, l | 0 <= k < l < |list|
      ensures Before(scores, list[k].item, list[l].item)
    {
      assert list[k] == front[k] && front[k] in front;
      assert l < |front| ==> list[l] == front[l];
    }
  }

  lemma {:induction false} InsertInOrder(scores: seq<Option<nat>>, list: seq<Scored<nat>>, x: Scored<nat>)
    requires IsScored(scores, x) && OnScored(scores, list) && InOrder(scores, list)
    requires forall k :: 0 <= k < |list| ==> list[k].item < x.item
    ensures OnScored(scores, Insert(list, x)) && InOrder(scores, Insert(list, x))
  {
    if list == [] || list[|list| - 1].score >= x.score {
      forall y | y in list
        ensures y.item < |scores| && Before(scores, y.item, x.item)
      {
        ScoresFall(scores, list, y);
      }
      OrderedLast(scores, list, x);
    } else {
      var front: seq<Scored<nat>>, last: Scored<nat> := list[..|list| - 1], list[|list| - 1];
      InsertInOrder(scores, front, x);
      InsertHas(front, x);
      forall y | y in Insert(front, x)
        ensures y.item < |scores| && Before(scores, y.item, last.item)
      {
        if y in front {
          var k :| 0 <= k < |front| && front[k] == y;
          assert list[k] == y;
        }
      }
      OrderedLast(scores, Insert(front, x), last);
    }
  }

  lemma ScoresFall(scores: seq<Option<nat>>, list: seq<Scored<nat>>, y: Scored<nat>)
    requires OnScored(scores, list) && InOrder(scores, list) && y in list
    ensures IsScored(scores, y) && y.score >= list[|list| - 1].score
  {
    var k :| 0 <= k < |list| && list[k] == y;
    if k < |list| - 1 {
      assert Before(scores, list[k].item, list[|list| - 1].item);
    }
  }

  /** The scored indices, ascending. */
  function ScoredIndices(scores: seq<Option<nat>>): (list: seq<Scored<nat>>)
    ensures OnScored(scores, list)
  {
    if scores == [] then []
    else
      var n := |scores| - 1;
      Grown(scores, ScoredIndices(scores[..n]));
      ScoredIndices(scores[..n]) + (if scores[n].Some? then [Score(scores, n)] else [])
  }

  lemma Grown(scores: seq<Option<nat>>, list: seq<Scored<nat>>)
    requires scores != [] && OnScored(scores[..|scores| - 1], list)
    ensures OnScored(scores, list)
  {
  }

  lemma {:induction false} ScoredIndicesAscend(scores: seq<Option<nat>>)
    ensures forall k, l :: 0 <= k < l < |ScoredIndices(scores)| ==>
      ScoredIndices(scores)[k].item < ScoredIndices(scores)[l].item
    ensures forall i: nat :: i < |scores| && scores[i].Some? ==> Score(scores, i) in ScoredIndices(scores)
  {
    if scores != [] {
      var n := |scores| - 1;
      ScoredIndicesAscend(scores[..n]);
      forall i: nat | i < |scores| && scores[i].Some?
        ensures Score(scores, i) in ScoredIndices(scores)
      {
        if i < n {
          assert Score(scores[..n], i) in ScoredIndices(scores[..n]);
        }
      }
    }
  }

  lemma {:induction false} SortedInOrder(scores: seq<Option<nat>>, list: seq<Scored<nat>>)
    requires OnScored(scores, list)
    requires forall k, l :: 0 <= k < l < |list| ==> list[k].item < list[l].item
    ensures OnScored(scores, SortDesc(list)) && InOrder(scores, SortDesc(list))
    ensures forall y :: y in SortDesc(list) <==> y in list
    ensures |SortDesc(list)| == |list|
  {
    hide Insert;
    if list != [] {
      var front: seq<Scored<nat>>, last: Scored<nat> := list[..|list| - 1], list[|list| - 1];
      SortedInOrder(scores, front);
      var sorted: seq<Scored<nat>> := SortDesc(front);
      forall k | 0 <= k < |sorted|
        ensures sorted[k].item < last.item
      {
        assert sorted[k] in front;
      }
      InsertInOrder(scores, sorted, last);
      InsertHas(sorted, last);
      assert list == front + [last];
    }
  }

  /** The slots no unscored candidate occupies, ascending. */
  predicate AreFreeSlots(scores: seq<Option<nat>>, n: nat, slots: seq<nat>) {
    && n <= |scores|
    && (forall k :: 0 <= k < |slots| ==> slots[k] < n && scores[slots[k]].Some?)
    && (forall k, l :: 0 <= k < l < |slots| ==> slots[k] < slots[l])
    && (forall i :: 0 <= i < n && scores[i].Some? ==> i in slots)
  }

  predicate Filled(scores: seq<Option<nat>>, slots: seq<nat>, order: seq<Scored<nat>>, p: seq<nat>) {
    && |p| == |scores| && |slots| <= |order|
    && (forall i :: 0 <= i < |p| && scores[i].None? ==> p[i] == i)
    && (forall k :: 0 <= k < |slots| ==> slots[k] < |p| && p[slots[k]] == order[k].item)
  }

  lemma FilledOrder(scores: seq<Option<nat>>, slots: seq<nat>, order: seq<Scored<nat>>, p: seq<nat>, i: nat, j: nat)
    requires AreFreeSlots(scores, |scores|, slots) && Filled(scores, slots, order, p)
    requires OnScored(scores, order) && InOrder(scores, order)
    requires i < j < |scores| && scores[i].Some? && scores[j].Some?
    ensures p[i] < |scores| && p[j] < |scores| && Before(scores, p[i], p[j])
  {
    var k: nat :| k < |slots| && slots[k] == i;
    var l: nat :| l < |slots| && slots[l] == j;
    assert p[slots[k]] == order[k].item && p[slots[l]] == order[l].item;
  }

  lemma FilledSlot(scores: seq<Option<nat>>, slots: seq<nat>, order: seq<Scored<nat>>, p: seq<nat>, i: nat)
    requires AreFreeSlots(scores, |scores|, slots) && Filled(scores, slots, order, p) && OnScored(scores, order)
    requires i < |scores|
    ensures p[i] < |scores| && (scores[p[i]].Some? <==> scores[i].Some?) && (scores[i].None? ==> p[i] == i)
  {
    if scores[i].Some? {
      var k: nat :| k < |slots| && slots[k] == i;
      assert p[slots[k]] == order[k].item;
    }
  }

  lemma FilledApart(scores: seq<Option<nat>>, slots: seq<nat>, order: seq<Scored<nat>>, p: seq<nat>, i: nat, j: nat)
    requires AreFreeSlots(scores, |scores|, slots) && Filled(scores, slots, order, p)
    requires OnScored(scores, order) && InOrder(scores, order)
    requires i < j < |scores|
    ensures p[i] != p[j]
  {
    hide AreFreeSlots, OnScored, InOrder, Filled;
    FilledSlot(scores, slots, order, p, i);
    FilledSlot(scores, slots, order, p, j);
    if scores[i].Some? && scores[j].Some? {
      FilledOrder(scores, slots, order, p, i, j);
    }
  }

  lemma FilledIsPermutation(scores: seq<Option<nat>>, slots: seq<nat>, order: seq<Scored<nat>>, p: seq<nat>)
    requires AreFreeSlots(scores, |scores|, slots) && Filled(scores, slots, order, p)
    requires OnScored(scores, order) && InOrder(scores, order)
    ensures Permutation(p)
    ensures forall i, j :: 0 <= i < j < |p| && scores[i].Some? && scores[j].Some? ==> Before(scores, p[i], p[j])
  {
    hide AreFreeSlots, OnScored, InOrder, Before;
    forall i: nat | i < |p|
      ensures p[i] < |p|
    {
      FilledSlot(scores, slots, order, p, i);
    }
    forall i: nat, j: nat | i < j < |p|
      ensures p[i] != p[j]
    {
      FilledApart(scores, slots, order, p, i, j);
    }
    forall i: nat, j: nat | i < j < |p| && scores[i].Some? && scores[j].Some?
      ensures Before(scores, p[i], p[j])
    {
      FilledOrder(scores, slots, order, p, i, j);
    }
  }

  /** _merge. The free slots and the sorted candidates are equally many, and every slot ends up filled. */
  method Merge(candidates: seq<RetrievedChunk>, scores: seq<Option<nat>>) returns (merged: seq<RetrievedChunk>)
    requires |scores| == |candidates|
    ensures IsMerge(candidates, scores, merged)
  {
    hide SortDesc, ScoredIndices, Before, Permutation, Placement;
    var n := |candidates|;
    var order := SortDesc(ScoredIndices(scores));
    ScoredIndicesAscend(scores);
    SortedInOrder(scores, ScoredIndices(scores));
    var result := new Option<RetrievedChunk>[n](_ => None);
    for i := 0 to n
      invariant forall j :: 0 <= j < n ==> result[j] == if j < i && scores[j].None? then Some(candidates[j]) else None
    {
      if scores[i].None? {
        result[i] := Some(Rescored(candidates[i], scores[i]));
      }
    }
    var slots := FreeSlots(scores, result);
    FillSlots(candidates, scores, slots, order, result);
    ghost var p := Placement(scores, slots, order);
    FilledIsPermutation(scores, slots, order, p);
    AllFilled(candidates, scores, slots, order, p, result[..]);
    merged := Present(result);
    assert Merged(candidates, scores, p, merged);
  }

  /** The final filter; it has nothing to drop. */
  method Present(result: array<Option<RetrievedChunk>>) returns (merged: seq<RetrievedChunk>)
    requires forall i :: 0 <= i < result.Length ==> result[i].Some?
    ensures |merged| == result.Length && forall i :: 0 <= i < |merged| ==> result[i] == Some(merged[i])
  {
    merged := [];
    for i := 0 to result.Length
      invariant |merged| == i
      invariant forall j :: 0 <= j < i ==> result[j] == Some(merged[j])
    {
      if result[i].Some? {
        merged := merged + [result[i].value];
      }
    }
  }

  predicate ItemsBelow(order: seq<Scored<nat>>, n: nat) {
    forall k :: 0 <= k < |order| ==> order[k].item < n
  }

  /** The scored candidates, best first, with their new scores. */
  function Ranked(candidates: seq<RetrievedChunk>, scores: seq<Option<nat>>,
                  order: seq<Scored<nat>>): (ranked: seq<RetrievedChunk>)
    requires |scores| == |candidates| && ItemsBelow(order, |scores|)
    ensures |ranked| == |order|
    ensures forall k :: 0 <= k < |order| ==> ranked[k] == Rescored(candidates[order[k].item], scores[order[k].item])
  {
    seq(|order|, k requires 0 <= k < |order| => Rescored(candidates[order[k].item], scores[order[k].item]))
  }

  /** Which candidate ends up in which slot. */
  ghost function Placement(scores: seq<Option<nat>>, slots: seq<nat>, order: seq<Scored<nat>>): (p: seq<nat>)
    requires AreFreeSlots(scores, |scores|, slots) && |slots| == |order|
    ensures Filled(scores, slots, order, p)
  {
    var p := seq(|scores|, i requires 0 <= i < |scores| =>
      if scores[i].None? then i else order[RankOf(scores, slots, i)].item);
    assert forall k :: 0 <= k < |slots| ==> RankOf(scores, slots, slots[k]) == k;
    p
  }

  ghost function RankOf(scores: seq<Option<nat>>, slots: seq<nat>, i: nat): (k: nat)
    requires AreFreeSlots(scores, |scores|, slots) && i < |scores| && scores[i].Some?
    ensures k < |slots| && slots[k] == i
  {
    var k: nat :| k < |slots| && slots[k] == i;
    k
  }

  method FillSlots(candidates: seq<RetrievedChunk>, scores: seq<Option<nat>>, slots: seq<nat>, order: seq<Scored<nat>>,
                   result: array<Option<RetrievedChunk>>)
    requires |scores| == |candidates| == result.Length
    requires AreFreeSlots(scores, |scores|, slots) && |slots| == |order| && ItemsBelow(order, |scores|)
    modifies result
    ensures forall i :: 0 <= i < result.Length && scores[i].None? ==> result[i] == old(result[i])
    ensures forall m :: 0 <= m < |slots| ==> result[slots[m]] == Some(Ranked(candidates, scores, order)[m])
  {
    hide Rescored, Ranked;
    ghost var ranked := Ranked(candidates, scores, order);
    for k := 0 to |slots|
      invariant forall i :: 0 <= i < result.Length && scores[i].None? ==> result[i] == old(result[i])
      invariant forall m :: 0 <= m < k ==> result[slots[m]] == Some(ranked[m])
    {
      var slot, source := slots[k], order[k].item;
      assert forall m :: 0 <= m < k ==> slots[m] != slot;
      result[slot] := Some(Rescored(candidates[source], scores[source]));
    }
  }

  lemma NoSlotsYet(scores: seq<Option<nat>>)
    ensures AreFreeSlots(scores, 0, []) && |ScoredIndices(scores[..0])| == 0
  {
  }

  lemma SlotStep(scores: seq<Option<nat>>, i: nat, slots: seq<nat>)
    requires i < |scores| && AreFreeSlots(scores, i, slots)
    ensures AreFreeSlots(scores, i + 1, if scores[i].Some? then slots + [i] else slots)
  {
    var next := slots + [i];
    forall j | j in slots
      ensures j in next
    {
    }
    assert next[|slots|] == i;
  }

  lemma CountStep(scores: seq<Option<nat>>, i: nat)
    requires i < |scores|
    ensures |ScoredIndices(scores[..i + 1])| == |ScoredIndices(scores[..i])| + if scores[i].Some? then 1 else 0
  {
    assert scores[..i + 1][..i] == scores[..i];
  }

  method FreeSlots(scores: seq<Option<nat>>, result: array<Option<RetrievedChunk>>) returns (slots: seq<nat>)
    requires result.Length == |scores|
    requires forall i :: 0 <= i < result.Length ==> (result[i].None? <==> scores[i].Some?)
    ensures AreFreeSlots(scores, |scores|, slots) && |slots| == |ScoredIndices(scores)|
  {
    hide AreFreeSlots, ScoredIndices;
    slots := [];
    NoSlotsYet(scores);
    for i := 0 to result.Length
      invariant AreFreeSlots(scores, i, slots) && |slots| == |ScoredIndices(scores[..i])|
    {
      SlotStep(scores, i, slots);
      CountStep(scores, i);
      if result[i].None? {
        slots := slots + [i];
      }
    }
    assert scores[..result.Length] == scores;
  }

  lemma AllFilled(candidates: seq<RetrievedChunk>, scores: seq<Option<nat>>, slots: seq<nat>, order: seq<Scored<nat>>,
                  p: seq<nat>, result: seq<Option<RetrievedChunk>>)
    requires |scores| == |candidates| == |result|
    requires AreFreeSlots(scores, |scores|, slots) && Filled(scores, slots, order, p) && OnScored(scores, order)
    requires Permutation(p)
    requires forall i :: 0 <= i < |result| && scores[i].None? ==> result[i] == Some(candidates[i])
    requires forall m :: 0 <= m < |slots| ==> result[slots[m]] == Some(Ranked(candidates, scores, order)[m])
    ensures forall i :: 0 <= i < |result| ==> result[i] == Some(Rescored(candidates[p[i]], scores[p[i]]))
  {
    forall i | 0 <= i < |result|
      ensures result[i] == Some(Rescored(candidates[p[i]], scores[p[i]]))
    {
      if scores[i].Some? {
        var k: nat :| k < |slots| && slots[k] == i;
        assert result[slots[k]].Some?;
      }
    }
  }

  // ---- rerank_scored ----

  /** list[:n] */
  function Slice<T>(list: seq<T>, n: int): seq<T> {
    if n >= |list| then list
    else if n >= 0 then list[..n]
    else if |list| + n > 0 then list[..|list| + n]
    else []
  }

  /** A cut never reorders: it keeps the first n, or all but the last -n. */
  lemma SliceIsAPrefix<T>(list: seq<T>, n: int)
    ensures Slice(list, n) <= list
    ensures n >= 0 ==> |Slice(list, n)| == if n <= |list| then n else |list|
    ensures n < 0 ==> |Slice(list, n)| == if |list| + n >= 0 then |list| + n else 0
  {
  }

  /** The scores of the model's replies, a failed call (None) and an unreadable reply both giving none. */
  ghost predicate ScoresOf(replies: seq<Option<string>>, scores: seq<Option<nat>>) {
    |replies| == |scores| && forall i :: 0 <= i < |scores| ==> ScoreOf(replies[i], scores[i])
  }

  ghost predicate ScoreOf(reply: Option<string>, score: Option<nat>) {
    if reply.Some? then IsScoreOf(reply.value, score) else score.None?
  }

  /** What the scoring prompt is filled with; the fixed words around the two are not part of this model. */
  datatype Ask = Ask(query: string, document: string)

  /** The scoring model: `asked` is every prompt so far, `replies` what came back, None for a call that failed. */
  class ScoringModel {
    ghost var asked: seq<Ask>
    ghost var replies: seq<Option<string>>
    ghost var faults: nat

    constructor ()
      ensures asked == [] && replies == [] && faults == 0
    {
      asked, replies, faults := [], [], 0;
    }

    method Score(prompt: Ask) returns (reply: Option<string>)
      modifies this
      ensures asked == old(asked) + [prompt] && replies == old(replies) + [reply]
      ensures faults == old(faults) + if reply.Some? then 0 else 1
    {
      reply := *;
      asked, replies := asked + [prompt], replies + [reply];
      faults := faults + if reply.Some? then 0 else 1;
    }
  }

  function AsksAbout(query: string, candidates: seq<RetrievedChunk>): (asks: seq<Ask>)
    ensures |asks| == |candidates|
    ensures forall i :: 0 <= i < |asks| ==> asks[i].query == query && asks[i].document == candidates[i].chunk.text
  {
    seq(|candidates|, i requires 0 <= i < |candidates| => Ask(query, candidates[i].chunk.text))
  }

  /** The model has been asked about each candidate once, and `replies` is what it said. */
  twostate predicate AskedAbout(model: ScoringModel, query: string, candidates: seq<RetrievedChunk>,
                                new replies: seq<Option<string>>)
    reads model
  {
    && model.asked == old(model.asked) + AsksAbout(query, candidates)
    && model.replies == old(model.replies) + replies
    && |replies| == |candidates|
    && (model.faults > old(model.faults) <==> None in replies)
  }

  /** _score_one for each candidate: what its reply parses to, none for a failed call. */
  method ScoreAll(model: ScoringModel, query: string, candidates: seq<RetrievedChunk>)
    returns (scores: seq<Option<nat>>, ghost replies: seq<Option<string>>)
    modifies model
    ensures |scores| == |candidates| && ScoresOf(replies, scores)
    ensures AskedAbout(model, query, candidates, replies)
  {
    hide IsScoreOf;
    scores, replies := [], [];
    for i := 0 to |candidates|
      invariant |scores| == i && ScoresOf(replies, scores)
      invariant model.asked == old(model.asked) + AsksAbout(query, candidates)[..i]
      invariant model.replies == old(model.replies) + replies
      invariant model.faults >= old(model.faults) && (model.faults > old(model.faults) <==> None in replies)
    {
      var raw := model.Score(Ask(query, candidates[i].chunk.text));
      assert AsksAbout(query, candidates)[..i + 1]
        == AsksAbout(query, candidates)[..i] + [Ask(query, candidates[i].chunk.text)];
      replies := replies + [raw];
      if raw.Some? {
        var score := ParseScore(raw.value);
        scores := scores + [score];
      } else {
        scores := scores + [None];
      }
    }
    assert AsksAbout(query, candidates)[..|candidates|] == AsksAbout(query, candidates);
  }

  lemma ScoresAreInRange(replies: seq<Option<string>>, scores: seq<Option<nat>>, i: nat)
    requires ScoresOf(replies, scores) && i < |scores| && scores[i].Some?
    ensures MIN_SCORE <= scores[i].value <= MAX_SCORE
  {
    assert ScoreOf(replies[i], scores[i]);
  }

  predicate IsBest(scores: seq<Option<nat>>, best: Option<nat>) {
    match best
    case None => forall i :: 0 <= i < |scores| ==> scores[i].None?
    case Some(b) => Some(b) in scores && forall i :: 0 <= i < |scores| && scores[i].Some? ==> scores[i].value <= b
  }

  /** What rerank_scored answers when the model replied so: the merge under the replies' scores, cut to top_n, with the
      best of those scores. */
  ghost predicate Reranked(replies: seq<Option<string>>, candidates: seq<RetrievedChunk>, topN: int,
                           ordered: seq<RetrievedChunk>, best: Option<nat>) {
    exists scores, merged ::
      ScoresOf(replies, scores) && IsMerge(candidates, scores, merged) && ordered == Slice(merged, topN)
      && IsBest(scores, best)
  }

  /** The merged order cut to top_n, and the best score given to any candidate, or none when nothing was scored. */
  method RerankScored(model: ScoringModel, query: string, candidates: seq<RetrievedChunk>, topN: int)
    returns (ordered: seq<RetrievedChunk>, best: Option<nat>, ghost replies: seq<Option<string>>)
    modifies model
    ensures AskedAbout(model, query, candidates, replies)
    ensures Reranked(replies, candidates, topN, ordered, best)
    ensures best.Some? ==> best.value <= 10
    ensures candidates == [] ==> ordered == [] && best == None
    ensures topN >= 0 ==> |ordered| == if topN <= |candidates| then topN else |candidates|
  {
    hide IsMerge, ScoresOf;
    if candidates == [] {
      NothingMerged();
      assert ScoresOf([], []) && IsMerge([], [], []) && Slice<RetrievedChunk>([], topN) == [] && IsBest([], None);
      replies := [];
      assert AsksAbout(query, candidates) == [];
      assert model.asked + [] == model.asked && model.replies + [] == model.replies;
      return [], None, [];
    }
    var scores;
    scores, replies := ScoreAll(model, query, candidates);
    var merged := Merge(candidates, scores);
    MergeSizes(candidates, scores, merged);
    best := None;
    for i := 0 to |scores|
      invariant IsBest(scores[..i], best)
      invariant best.Some? ==> best.value <= MAX_SCORE
      invariant AskedAbout(model, query, candidates, replies)
    {
      assert scores[..i + 1] == scores[..i] + [scores[i]];
      if scores[i].Some? {
        ScoresAreInRange(replies, scores, i);
        if best.None? || best.value < scores[i].value {
          best := scores[i];
        }
      }
    }
    assert scores[..|scores|] == scores;
    ordered := Slice(merged, topN);
  }

  lemma {:induction false} ScoresAreUnique(replies: seq<Option<string>>, a: seq<Option<nat>>, b: seq<Option<nat>>)
    requires ScoresOf(replies, a) && ScoresOf(replies, b)
    ensures a == b
  {
    hide IsScoreOf;
    forall i | 0 <= i < |a|
      ensures a[i] == b[i]
    {
      assert ScoreOf(replies[i], a[i]) && ScoreOf(replies[i], b[i]);
      if replies[i].Some? {
        ScoreIsUnique(replies[i].value, a[i], b[i]);
      }
    }
  }

  lemma ScoreIsUnique(raw: string, a: Option<nat>, b: Option<nat>)
    requires IsScoreOf(raw, a) && IsScoreOf(raw, b)
    ensures a == b
  {
    hide NumberOf;
    if i: nat, j: nat :| FirstRun(raw, i, j) && Acceptable(raw[i..j]) {
      FirstRunIs(raw, i, j);
    }
  }

  /** The replies decide what is returned, and the gate's score. */
  lemma RerankIsDecided(replies: seq<Option<string>>, candidates: seq<RetrievedChunk>, topN: int,
                        ordered: seq<RetrievedChunk>, best: Option<nat>, ordered': seq<RetrievedChunk>,
                        best': Option<nat>)
    requires Reranked(replies, candidates, topN, ordered, best) && Reranked(replies, candidates, topN, ordered', best')
    ensures ordered == ordered' && best == best'
  {
    hide ScoresOf, IsMerge;
    var scores, merged :| ScoresOf(replies, scores) && IsMerge(candidates, scores, merged)
      && ordered == Slice(merged, topN) && IsBest(scores, best);
    var scores', merged' :| ScoresOf(replies, scores') && IsMerge(candidates, scores', merged')
      && ordered' == Slice(merged', topN) && IsBest(scores', best');
    ScoresAreUnique(replies, scores, scores');
    MergeIsUnique(candidates, scores, merged, merged');
    BestIsUnique(scores, best, best');
  }

  lemma BestIsUnique(scores: seq<Option<nat>>, a: Option<nat>, b: Option<nat>)
    requires IsBest(scores, a) && IsBest(scores, b)
    ensures a == b
  {
  }

  lemma NothingMerged()
    ensures IsMerge([], [], []) && ScoresOf([], [])
  {
    assert Merged([], [], [], []);
  }

  lemma Sizes(candidates: seq<RetrievedChunk>, scores: seq<Option<nat>>, p: seq<nat>, merged: seq<RetrievedChunk>)
    requires Merged(candidates, scores, p, merged)
    ensures |scores| == |candidates| == |p| == |merged|
  {
  }

  /** The gate's score is the one in the earliest scored slot of the merged order. */
  lemma BestIsInTheFirstScoredSlot(candidates: seq<RetrievedChunk>, scores: seq<Option<nat>>,
                                   merged: seq<RetrievedChunk>,
                                   best: Option<nat>, i: nat)
    requires IsMerge(candidates, scores, merged) && IsBest(scores, best)
    requires i < |scores| && scores[i].Some? && forall k :: 0 <= k < i ==> scores[k].None?
    ensures best.Some? && i < |merged| && merged[i].score == best.value as real
  {
    hide Merged;
    var p :| Merged(candidates, scores, p, merged);
    Sizes(candidates, scores, p, merged);
    assert best.Some?;
    var x: nat :| x < |scores| && scores[x] == Some(best.value);
    FirstScoredIsBest(candidates, scores, p, merged, i, x);
  }

  predicate AnyScored(scores: seq<Option<nat>>, n: int) {
    exists i :: 0 <= i < n && i < |scores| && scores[i].Some?
  }

  /** The first scored index below n. */
  lemma {:induction false} FirstScored(scores: seq<Option<nat>>, n: nat) returns (i: nat)
    requires AnyScored(scores, n)
    ensures i < n && i < |scores| && scores[i].Some? && forall k :: 0 <= k < i ==> scores[k].None?
    decreases n
  {
    if AnyScored(scores, n - 1) {
      i := FirstScored(scores, n - 1);
    } else {
      i := n - 1;
    }
  }

  /** The chunk with the gate's score is among the chunks returned exactly when some candidate in the first top_n fused
      places was scored; otherwise none of those returned was scored at all. */
  lemma GateScoreIsShownIff(candidates: seq<RetrievedChunk>, scores: seq<Option<nat>>, merged: seq<RetrievedChunk>,
                            best: Option<nat>, topN: nat)
    requires IsMerge(candidates, scores, merged) && IsBest(scores, best) && best.Some?
    ensures |scores| == |merged|
    ensures AnyScored(scores, topN) <==> exists k ::
      0 <= k < |Slice(merged, topN)| && scores[k].Some? && Slice(merged, topN)[k].score == best.value as real
  {
    hide Merged, IsBest, IsMerge;
    MergeSizes(candidates, scores, merged);
    if AnyScored(scores, topN) {
      var i := FirstScored(scores, topN);
      BestIsInTheFirstScoredSlot(candidates, scores, merged, best, i);
      assert Slice(merged, topN)[i] == merged[i];
    }
  }

  lemma MergeSizes(candidates: seq<RetrievedChunk>, scores: seq<Option<nat>>, merged: seq<RetrievedChunk>)
    requires IsMerge(candidates, scores, merged)
    ensures |scores| == |candidates| == |merged|
  {
    hide Merged;
    var p :| Merged(candidates, scores, p, merged);
    Sizes(candidates, scores, p, merged);
  }

  lemma AlreadyMerged(candidates: seq<RetrievedChunk>, scores: seq<Option<nat>>, merged: seq<RetrievedChunk>)
    requires |scores| == |candidates| == |merged| && scores != []
    requires forall i :: 0 <= i < |scores| ==> merged[i] == Rescored(candidates[i], scores[i])
    requires forall i :: 0 <= i < |scores| - 1 ==> scores[i].None?
    ensures IsMerge(candidates, scores, merged)
  {
    var p: seq<nat> := seq(|scores|, i => i);
    assert Merged(candidates, scores, p, merged);
  }

  /** A partial outage in front: five candidates the model did not score fill the five places returned, and the gate
      goes by the 9 of a sixth that is cut. */
  lemma GateScoreCanBeCut(c: RetrievedChunk)
    ensures
      var candidates, scores := [c, c, c, c, c, c], [None, None, None, None, None, Some(9)];
      var merged := [c, c, c, c, c, Rescored(c, Some(9))];
      IsMerge(candidates, scores, merged) && IsBest(scores, Some(9)) && Slice(merged, 5) == [c, c, c, c, c]
  {
    hide IsMerge;
    var candidates, scores := [c, c, c, c, c, c], [None, None, None, None, None, Some(9)];
    var merged := [c, c, c, c, c, Rescored(c, Some(9))];
    AlreadyMerged(candidates, scores, merged);
    assert scores[5] == Some(9);
  }
}
