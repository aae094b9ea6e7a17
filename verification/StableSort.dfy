/** sorted(..., reverse=True) by a score: the stable sort both rankings rest on. */
module StableSort {
  datatype Scored<T> = Scored(item: T, score: real)

  /** Put x after everything that scores at least as much. */
  function Insert<T>(list: seq<Scored<T>>, x: Scored<T>): seq<Scored<T>> {
    if list == [] || list[|list| - 1].score >= x.score then list + [x]
    else Insert(list[..|list| - 1], x) + [list[|list| - 1]]
  }

  function SortDesc<T>(list: seq<Scored<T>>): seq<Scored<T>> {
    if list == [] then [] else Insert(SortDesc(list[..|list| - 1]), list[|list| - 1])
  }

  predicate Descending<T>(list: seq<Scored<T>>) {
    forall i, j :: 0 <= i < j < |list| ==> list[i].score >= list[j].score
  }

  /** The elements with a given score, in order. */
  function Level<T>(list: seq<Scored<T>>, score: real): seq<Scored<T>> {
    if list == [] then []
    else (if list[0].score == score then [list[0]] else []) + Level(list[1..], score)
  }

  /** `sorted` is `list` in descending order, equal scores keeping the order they came in. */
  ghost predicate IsStableSort<T>(list: seq<Scored<T>>, sorted: seq<Scored<T>>) {
    Descending(sorted) && forall score :: Level(sorted, score) == Level(list, score)
  }

  lemma {:induction false} LevelConcat<T>(a: seq<Scored<T>>, b: seq<Scored<T>>, score: real)
    ensures Level(a + b, score) == Level(a, score) + Level(b, score)
  {
    if a == [] {
      assert a + b == b;
    } else {
      var head := if a[0].score == score then [a[0]] else [];
      LevelConcat(a[1..], b, score);
      assert Level(a + b, score) == head + Level(a[1..] + b, score) by { assert (a + b)[1..] == a[1..] + b; }
      assert Level(a, score) == head + Level(a[1..], score);
    }
  }

  lemma LevelLast<T>(list: seq<Scored<T>>, x: Scored<T>, score: real)
    ensures Level(list + [x], score) == Level(list, score) + if x.score == score then [x] else []
  {
    LevelConcat(list, [x], score);
    assert [x][1..] == [];
  }

  lemma {:induction false} InsertAdds<T>(list: seq<Scored<T>>, x: Scored<T>)
    ensures multiset(Insert(list, x)) == multiset(list) + multiset{x}
    ensures |Insert(list, x)| == |list| + 1
  {
    if list != [] && list[|list| - 1].score < x.score {
      InsertAdds(list[..|list| - 1], x);
      assert list == list[..|list| - 1] + [list[|list| - 1]];
    }
  }

  predicate AllAtLeast<T>(list: seq<Scored<T>>, score: real) {
    forall i :: 0 <= i < |list| ==> list[i].score >= score
  }

  lemma {:induction false} InsertDescends<T>(list: seq<Scored<T>>, x: Scored<T>)
    requires Descending(list)
    ensures Descending(Insert(list, x))
    ensures forall score :: AllAtLeast(list, score) && x.score >= score ==> AllAtLeast(Insert(list, x), score)
  {
    if list != [] && list[|list| - 1].score < x.score {
      var last := list[|list| - 1];
      InsertDescends(list[..|list| - 1], x);
      assert AllAtLeast(list[..|list| - 1], last.score);
    }
  }

  lemma {:induction false} InsertLevel<T>(list: seq<Scored<T>>, x: Scored<T>, score: real)
    ensures Level(Insert(list, x), score) == Level(list, score) + if x.score == score then [x] else []
  {
    if list == [] || list[|list| - 1].score >= x.score {
      LevelLast(list, x, score);
    } else {
      var front, last := list[..|list| - 1], list[|list| - 1];
      InsertLevel(front, x, score);
      LevelLast(Insert(front, x), last, score);
      LevelLast(front, last, score);
      assert list == front + [last];
    }
  }

  lemma {:induction false} SortLevel<T>(list: seq<Scored<T>>, score: real)
    ensures Level(SortDesc(list), score) == Level(list, score)
  {
    if list != [] {
      var front, last := list[..|list| - 1], list[|list| - 1];
      SortLevel(front, score);
      InsertLevel(SortDesc(front), last, score);
      LevelLast(front, last, score);
      assert list == front + [last];
    }
  }

  lemma {:induction false} SortDescends<T>(list: seq<Scored<T>>)
    ensures Descending(SortDesc(list)) && multiset(SortDesc(list)) == multiset(list)
    ensures |SortDesc(list)| == |list|
  {
    hide Insert;
    if list != [] {
      var front, last := list[..|list| - 1], list[|list| - 1];
      SortDescends(front);
      InsertDescends(SortDesc(front), last);
      InsertAdds(SortDesc(front), last);
      assert list == front + [last];
    }
  }

  lemma SortDescIsStableSort<T>(list: seq<Scored<T>>)
    ensures IsStableSort(list, SortDesc(list))
    ensures multiset(SortDesc(list)) == multiset(list) && |SortDesc(list)| == |list|
  {
    hide SortDesc, Level;
    SortDescends(list);
    forall score: real
      ensures Level(SortDesc(list), score) == Level(list, score)
    {
      SortLevel(list, score);
    }
  }

  lemma {:induction false} LevelHead<T>(list: seq<Scored<T>>, score: real)
    ensures forall x :: x in Level(list, score) ==> x in list && x.score == score
    ensures list != [] && list[0].score == score ==> Level(list, score) == [list[0]] + Level(list[1..], score)
  {
    if list != [] {
      LevelHead(list[1..], score);
    }
  }

  lemma HeadIsTop<T>(list: seq<Scored<T>>, x: Scored<T>)
    requires Descending(list) && x in list
    ensures list[0].score >= x.score
  {
  }

  /** Two descending lists with the same levels have the same head. */
  lemma SameHead<T>(a: seq<Scored<T>>, b: seq<Scored<T>>)
    requires Descending(a) && Descending(b) && a != [] && b != []
    requires Level(a, a[0].score) == Level(b, a[0].score) && Level(a, b[0].score) == Level(b, b[0].score)
    ensures a[0] == b[0]
  {
    hide Level, Descending;
    LevelHead(a, a[0].score);
    LevelHead(b, a[0].score);
    LevelHead(a, b[0].score);
    LevelHead(b, b[0].score);
    HeadIn(a[0], Level(a[1..], a[0].score));
    HeadIn(b[0], Level(b[1..], b[0].score));
    HeadIsTop(b, a[0]);
    HeadIsTop(a, b[0]);
    assert a[0] == Level(a, a[0].score)[0] && b[0] == Level(b, b[0].score)[0];
  }

  lemma HeadIn<T>(x: T, rest: seq<T>)
    ensures x in [x] + rest
  {
  }

  lemma TailLevel<T>(list: seq<Scored<T>>, score: real)
    requires list != []
    ensures Level(list[1..], score) == Level(list, score)[if list[0].score == score then 1 else 0..]
  {
  }

  lemma EmptyByLevels<T>(none: seq<Scored<T>>, list: seq<Scored<T>>)
    requires none == [] && forall score :: Level(none, score) == Level(list, score)
    ensures list == []
  {
    if list != [] {
      LevelHead(list, list[0].score);
    }
  }

  /** There is only one stable sort. */
  lemma {:induction false} StableSortIsUnique<T>(a: seq<Scored<T>>, b: seq<Scored<T>>)
    requires Descending(a) && Descending(b) && forall score :: Level(a, score) == Level(b, score)
    ensures a == b
  {
    if a == [] {
      EmptyByLevels(a, b);
    } else if b == [] {
      EmptyByLevels(b, a);
    } else {
      assert Level(a, a[0].score) == Level(b, a[0].score) && Level(a, b[0].score) == Level(b, b[0].score);
      SameHead(a, b);
      forall score: real
        ensures Level(a[1..], score) == Level(b[1..], score)
      {
        assert Level(a, score) == Level(b, score);
        TailLevel(a, score);
        TailLevel(b, score);
      }
      StableSortIsUnique(a[1..], b[1..]);
    }
  }

  ghost predicate InThatOrder<T>(list: seq<Scored<T>>, x: Scored<T>, y: Scored<T>) {
    exists i, j :: 0 <= i < j < |list| && list[i] == x && list[j] == y
  }

  lemma {:induction false} IntoLevel<T>(list: seq<Scored<T>>, x: Scored<T>, y: Scored<T>)
    requires InThatOrder(list, x, y) && x.score == y.score
    ensures InThatOrder(Level(list, x.score), x, y)
  {
    var i, j :| 0 <= i < j < |list| && list[i] == x && list[j] == y;
    var rest := Level(list[1..], x.score);
    if i == 0 {
      AtLevel(list[1..], j - 1);
      var k :| 0 <= k < |rest| && rest[k] == y;
      assert Level(list, x.score)[0] == x && Level(list, x.score)[k + 1] == y;
    } else {
      assert list[1..][i - 1] == x && list[1..][j - 1] == y;
      IntoLevel(list[1..], x, y);
      var k, l :| 0 <= k < l < |rest| && rest[k] == x && rest[l] == y;
      var shift := if list[0].score == x.score then 1 else 0;
      assert Level(list, x.score)[k + shift] == x && Level(list, x.score)[l + shift] == y;
    }
  }

  lemma {:induction false} AtLevel<T>(list: seq<Scored<T>>, i: nat)
    requires i < |list|
    ensures list[i] in Level(list, list[i].score)
  {
    if i > 0 {
      AtLevel(list[1..], i - 1);
    }
  }

  lemma {:induction false} FromLevel<T>(list: seq<Scored<T>>, score: real, x: Scored<T>, y: Scored<T>)
    requires InThatOrder(Level(list, score), x, y)
    ensures InThatOrder(list, x, y)
  {
    var level, rest := Level(list, score), Level(list[1..], score);
    var i, j :| 0 <= i < j < |level| && level[i] == x && level[j] == y;
    var shift := if list[0].score == score then 1 else 0;
    if shift == 1 && i == 0 {
      assert rest[j - 1] == y;
      LevelHead(list[1..], score);
      var k :| 0 <= k < |list[1..]| && list[1..][k] == y;
      assert list[0] == x && list[k + 1] == y;
    } else {
      assert rest[i - shift] == x && rest[j - shift] == y;
      FromLevel(list[1..], score, x, y);
      var k, l :| 0 <= k < l < |list[1..]| && list[1..][k] == x && list[1..][l] == y;
      assert list[k + 1] == x && list[l + 1] == y;
    }
  }

  /** Equal scores stay in the order they came in. */
  lemma TiesKeepTheirOrder<T>(list: seq<Scored<T>>, sorted: seq<Scored<T>>, x: Scored<T>, y: Scored<T>)
    requires IsStableSort(list, sorted) && InThatOrder(list, x, y) && x.score == y.score
    ensures InThatOrder(sorted, x, y)
  {
    hide Level, InThatOrder;
    IntoLevel(list, x, y);
    assert Level(sorted, x.score) == Level(list, x.score);
    FromLevel(sorted, x.score, x, y);
  }
}
