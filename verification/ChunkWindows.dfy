/** What the windows of chunk_text guarantee (src/app/ingestion/chunker.py, chunk_text). */
module ChunkWindows {
  import opened SentenceSplitter
  import opened Words

  /** math.ceil(words * 1.4), in exact arithmetic. */
  function EstimateTokens(text: string): nat {
    (7 * |Split(text)| + 4) / 5
  }

  /** The end of the window that starts at `start` and has reached `end` with `tokens` tokens. */
  function GrowTo(sentences: seq<string>, start: nat, end: nat, tokens: nat, maxTokens: int): (e: nat)
    requires start <= end <= |sentences|
    ensures end <= e <= |sentences| && (start == end < |sentences| ==> e > start)
    decreases |sentences| - end
  {
    if end == |sentences| then end
    else
      var cost := EstimateTokens(sentences[end]);
      if end > start && tokens + cost > maxTokens then end
      else GrowTo(sentences, start, end + 1, tokens + cost, maxTokens)
  }

  datatype Window = Window(start: nat, end: nat)

  function Max(a: int, b: int): int {
    if a > b then a else b
  }

  function Min(a: int, b: int): int {
    if a < b then a else b
  }

  function WindowsFrom(sentences: seq<string>, start: nat, maxTokens: int, overlap: int): (ws: seq<Window>)
    ensures forall w :: w in ws ==> w.start < w.end <= |sentences|
    decreases |sentences| - start
  {
    if start >= |sentences| then []
    else
      var end := GrowTo(sentences, start, start, 0, maxTokens);
      [Window(start, end)]
      + (if end >= |sentences| then [] else WindowsFrom(sentences, Max(end - overlap, start + 1), maxTokens, overlap))
  }

  /** The sentences of a window. */
  function Slice(sentences: seq<string>, w: Window): seq<string> {
    if w.start <= w.end <= |sentences| then sentences[w.start..w.end] else []
  }

  /** The inner loop of chunk_text: take sentences while the budget allows, and always at least one. */
  method FillWindow(sentences: seq<string>, start: nat, maxTokens: int) returns (end: nat)
    requires start < |sentences|
    ensures end == GrowTo(sentences, start, start, 0, maxTokens)
  {
    hide EstimateTokens;
    var tokens: nat := 0;
    end := start;
    while end < |sentences|
      invariant start <= end <= |sentences|
      invariant GrowTo(sentences, start, end, tokens, maxTokens) == GrowTo(sentences, start, start, 0, maxTokens)
    {
      var cost := EstimateTokens(sentences[end]);
      if end > start && tokens + cost > maxTokens {
        break;
      }
      tokens := tokens + cost;
      end := end + 1;
    }
  }

  // ---- what the windows are ----

  /** The budget a run of sentences uses: the sum of their estimates. */
  function Cost(sentences: seq<string>, i: nat, j: nat): nat
    requires i <= j <= |sentences|
    decreases j
  {
    if i == j then 0 else Cost(sentences, i, j - 1) + EstimateTokens(sentences[j - 1])
  }

  lemma {:induction false} CostSplits(sentences: seq<string>, i: nat, k: nat, j: nat)
    requires i <= k <= j <= |sentences|
    ensures Cost(sentences, i, j) == Cost(sentences, i, k) + Cost(sentences, k, j)
    decreases j
  {
    hide EstimateTokens;
    if k < j {
      CostSplits(sentences, i, k, j - 1);
    }
  }

  /** Within budget, or a single sentence. */
  predicate Fits(sentences: seq<string>, w: Window, maxTokens: int) {
    w.start < w.end <= |sentences| && (w.end == w.start + 1 || Cost(sentences, w.start, w.end) <= maxTokens)
  }

  /** One more sentence would break the budget. */
  predicate Maximal(sentences: seq<string>, w: Window, maxTokens: int) {
    w.start < w.end <= |sentences| && (w.end == |sentences| || Cost(sentences, w.start, w.end + 1) > maxTokens)
  }

  lemma {:induction false} GrowIsGreedy(sentences: seq<string>, start: nat, end: nat, tokens: nat, maxTokens: int)
    requires start <= end <= |sentences| && start < |sentences| && tokens == Cost(sentences, start, end)
    requires end > start ==> Fits(sentences, Window(start, end), maxTokens)
    ensures
      var w := Window(start, GrowTo(sentences, start, end, tokens, maxTokens));
      Fits(sentences, w, maxTokens) && Maximal(sentences, w, maxTokens)
    decreases |sentences| - end
  {
    hide EstimateTokens;
    if end < |sentences| {
      var cost := EstimateTokens(sentences[end]);
      if !(end > start && tokens + cost > maxTokens) {
        GrowIsGreedy(sentences, start, end + 1, tokens + cost, maxTokens);
      }
    }
  }

  /** A window never stops short of a run of sentences that fits. */
  lemma {:induction false} GrowReaches(sentences: seq<string>, start: nat, end: nat, tokens: nat, target: nat,
                                       maxTokens: int)
    requires start <= end <= target <= |sentences| && tokens == Cost(sentences, start, end)
    requires start < target && Fits(sentences, Window(start, target), maxTokens)
    ensures GrowTo(sentences, start, end, tokens, maxTokens) >= target
    decreases target - end
  {
    hide EstimateTokens;
    if end < target {
      CostSplits(sentences, start, end + 1, target);
      GrowReaches(sentences, start, end + 1, tokens + EstimateTokens(sentences[end]), target, maxTokens);
    }
  }

  /** How the next window sits against the one before: it starts later, never leaves a gap, shares exactly
      min(overlap, previous length - 1) sentences, and ends no earlier. */
  predicate Follows(w: Window, next: Window, overlap: int) {
    && w.start < next.start <= w.end <= next.end
    && w.end - next.start == Min(overlap, w.end - w.start - 1)
  }

  lemma NextFollows(sentences: seq<string>, w: Window, maxTokens: int, overlap: nat)
    requires Fits(sentences, w, maxTokens) && w.end < |sentences|
    ensures
      var start := Max(w.end - overlap, w.start + 1);
      Follows(w, Window(start, GrowTo(sentences, start, start, 0, maxTokens)), overlap)
  {
    hide EstimateTokens, GrowTo;
    var start := Max(w.end - overlap, w.start + 1);
    if start < w.end {
      CostSplits(sentences, w.start, start, w.end);
      GrowReaches(sentences, start, start, 0, w.end, maxTokens);
    }
  }

  predicate LinkedAt(ws: seq<Window>, i: nat, overlap: int) {
    i + 1 < |ws| ==> Follows(ws[i], ws[i + 1], overlap)
  }

  ghost predicate Tiled(sentences: seq<string>, ws: seq<Window>, start: nat, maxTokens: int, overlap: int) {
    && ws != [] && ws[0].start == start && ws[|ws| - 1].end == |sentences|
    && (forall i :: 0 <= i < |ws| ==> Fits(sentences, ws[i], maxTokens) && Maximal(sentences, ws[i], maxTokens))
    && (forall i: nat :: LinkedAt(ws, i, overlap))
    && (forall i: nat :: InnerAt(ws, i, |sentences|))
  }

  /** Only the last window reaches the end. */
  predicate InnerAt(ws: seq<Window>, i: nat, n: nat) {
    i + 1 < |ws| ==> ws[i].end < n
  }

  lemma TiledCons(sentences: seq<string>, w: Window, rest: seq<Window>, next: nat, maxTokens: int, overlap: int)
    requires Fits(sentences, w, maxTokens) && Maximal(sentences, w, maxTokens)
    requires Tiled(sentences, rest, next, maxTokens, overlap) && Follows(w, rest[0], overlap) && w.end < |sentences|
    ensures Tiled(sentences, [w] + rest, w.start, maxTokens, overlap)
  {
    hide Fits, Maximal, Follows;
    var ws := [w] + rest;
    forall i: nat
      ensures LinkedAt(ws, i, overlap)
    {
      assert i > 0 ==> LinkedAt(rest, i - 1, overlap);
    }
    forall i: nat
      ensures InnerAt(ws, i, |sentences|)
    {
      assert i > 0 ==> InnerAt(rest, i - 1, |sentences|);
    }
  }

  lemma TiledTail(sentences: seq<string>, ws: seq<Window>, start: nat, maxTokens: int, overlap: int)
    requires Tiled(sentences, ws, start, maxTokens, overlap) && |ws| > 1
    ensures Tiled(sentences, ws[1..], ws[1].start, maxTokens, overlap)
    ensures Follows(ws[0], ws[1], overlap) && ws[0].end < |sentences|
  {
    hide Fits, Maximal, Follows;
    var rest := ws[1..];
    assert LinkedAt(ws, 0, overlap) && InnerAt(ws, 0, |sentences|);
    forall i: nat
      ensures LinkedAt(rest, i, overlap)
    {
      assert LinkedAt(ws, i + 1, overlap);
    }
    forall i: nat
      ensures InnerAt(rest, i, |sentences|)
    {
      assert InnerAt(ws, i + 1, |sentences|);
    }
  }

  /** Of two windows from the same place, a maximal one is not the shorter. */
  lemma NoLonger(sentences: seq<string>, w: Window, other: Window, maxTokens: int)
    requires Maximal(sentences, w, maxTokens) && Fits(sentences, other, maxTokens) && w.start == other.start
    ensures other.end <= w.end
  {
    hide EstimateTokens;
    if w.end < other.end {
      CostSplits(sentences, w.start, w.end + 1, other.end);
    }
  }

  lemma OneWindowIff(sentences: seq<string>, ws: seq<Window>, start: nat, maxTokens: int, overlap: int)
    requires Tiled(sentences, ws, start, maxTokens, overlap)
    ensures |ws| == 1 <==> ws[0].end == |sentences|
  {
    hide Fits, Maximal, Follows;
    assert InnerAt(ws, 0, |sentences|);
  }

  /** The description determines the windows: there is one such tiling. */
  lemma {:induction false} TilingIsUnique(sentences: seq<string>, a: seq<Window>, b: seq<Window>, start: nat,
                                          maxTokens: int, overlap: int)
    requires Tiled(sentences, a, start, maxTokens, overlap) && Tiled(sentences, b, start, maxTokens, overlap)
    ensures a == b
    decreases |a|
  {
    hide Fits, Maximal;
    NoLonger(sentences, a[0], b[0], maxTokens);
    NoLonger(sentences, b[0], a[0], maxTokens);
    assert a[0] == b[0];
    OneWindowIff(sentences, a, start, maxTokens, overlap);
    OneWindowIff(sentences, b, start, maxTokens, overlap);
    if |a| > 1 {
      TiledTail(sentences, a, start, maxTokens, overlap);
      TiledTail(sentences, b, start, maxTokens, overlap);
      TilingIsUnique(sentences, a[1..], b[1..], a[1].start, maxTokens, overlap);
      assert a == [a[0]] + a[1..] && b == [b[0]] + b[1..];
    }
  }

  lemma TiledLast(sentences: seq<string>, w: Window, maxTokens: int, overlap: int)
    requires Fits(sentences, w, maxTokens) && Maximal(sentences, w, maxTokens) && w.end == |sentences|
    ensures Tiled(sentences, [w], w.start, maxTokens, overlap)
  {
    hide Fits, Maximal, Follows;
  }

  /** With a non-negative overlap the windows tile the sentences from `start` to the end. */
  lemma {:induction false} WindowsTile(sentences: seq<string>, start: nat, maxTokens: int, overlap: nat)
    requires start < |sentences|
    ensures Tiled(sentences, WindowsFrom(sentences, start, maxTokens, overlap), start, maxTokens, overlap)
    decreases |sentences| - start
  {
    hide EstimateTokens, GrowTo, Cost, Fits, Maximal, Follows, Tiled;
    var end := GrowTo(sentences, start, start, 0, maxTokens);
    var w := Window(start, end);
    Starts(sentences, start, maxTokens);
    if end == |sentences| {
      TiledLast(sentences, w, maxTokens, overlap);
      assert WindowsFrom(sentences, start, maxTokens, overlap) == [w];
    } else {
      var next := Max(end - overlap, start + 1);
      NextFollows(sentences, w, maxTokens, overlap);
      WindowsTile(sentences, next, maxTokens, overlap);
      HeadWindow(sentences, next, maxTokens, overlap);
      TiledCons(sentences, w, WindowsFrom(sentences, next, maxTokens, overlap), next, maxTokens, overlap);
    }
  }

  lemma Starts(sentences: seq<string>, start: nat, maxTokens: int)
    requires start < |sentences|
    ensures
      var w := Window(start, GrowTo(sentences, start, start, 0, maxTokens));
      Fits(sentences, w, maxTokens) && Maximal(sentences, w, maxTokens)
  {
    GrowIsGreedy(sentences, start, start, 0, maxTokens);
  }

  lemma HeadWindow(sentences: seq<string>, start: nat, maxTokens: int, overlap: int)
    requires start < |sentences|
    ensures WindowsFrom(sentences, start, maxTokens, overlap) != []
    ensures WindowsFrom(sentences, start, maxTokens, overlap)[0]
      == Window(start, GrowTo(sentences, start, start, 0, maxTokens))
  {
  }

  /** A window's sentences without the prefix it shares with the window before. */
  function Own(sentences: seq<string>, prev: Window, w: Window, overlap: int): seq<string> {
    var all, shared := Slice(sentences, w), Min(overlap, prev.end - prev.start - 1);
    if 0 <= shared <= |all| then all[shared..] else all
  }

  function Unshared(sentences: seq<string>, ws: seq<Window>, overlap: int): seq<string> {
    if ws == [] then []
    else if |ws| == 1 then Slice(sentences, ws[0])
    else Unshared(sentences, ws[..|ws| - 1], overlap) + Own(sentences, ws[|ws| - 2], ws[|ws| - 1], overlap)
  }

  lemma {:induction false} UnsharedPrefix(sentences: seq<string>, ws: seq<Window>, maxTokens: int, overlap: nat)
    requires ws != []
    requires forall i :: 0 <= i < |ws| ==> Fits(sentences, ws[i], maxTokens)
    requires forall i: nat :: LinkedAt(ws, i, overlap)
    ensures ws[0].start <= ws[|ws| - 1].end <= |sentences|
    ensures Unshared(sentences, ws, overlap) == sentences[ws[0].start..ws[|ws| - 1].end]
  {
    hide Fits, Follows, Slice, Own;
    FitsBounds(sentences, ws[|ws| - 1], maxTokens);
    if |ws| > 1 {
      var front, prev, last := ws[..|ws| - 1], ws[|ws| - 2], ws[|ws| - 1];
      LinkedFront(ws, front, overlap);
      UnsharedPrefix(sentences, front, maxTokens, overlap);
      assert LinkedAt(ws, |ws| - 2, overlap);
      FitsBounds(sentences, prev, maxTokens);
      UnsharedStep(sentences, ws[0].start, prev, last, overlap);
    }
  }

  lemma LinkedFront(ws: seq<Window>, front: seq<Window>, overlap: nat)
    requires ws != [] && front == ws[..|ws| - 1]
    requires forall i: nat :: LinkedAt(ws, i, overlap)
    ensures forall i: nat :: LinkedAt(front, i, overlap)
  {
    forall i: nat
      ensures LinkedAt(front, i, overlap)
    {
      assert LinkedAt(ws, i, overlap);
    }
  }

  lemma UnsharedStep(sentences: seq<string>, start: nat, prev: Window, last: Window, overlap: nat)
    requires start <= prev.end <= |sentences| && last.start < last.end <= |sentences|
    requires prev.start < prev.end && Follows(prev, last, overlap)
    ensures start <= last.end
    ensures sentences[start..prev.end] + Own(sentences, prev, last, overlap) == sentences[start..last.end]
  {
    var shared := Min(overlap, prev.end - prev.start - 1);
    assert Slice(sentences, last)[shared..] == sentences[prev.end..last.end];
  }

  lemma FitsBounds(sentences: seq<string>, w: Window, maxTokens: int)
    requires Fits(sentences, w, maxTokens)
    ensures w.start < w.end <= |sentences| && Slice(sentences, w) == sentences[w.start..w.end]
  {
  }

  /** Nothing is lost or repeated: dropping each window's shared prefix gives back the sentence list. */
  lemma WindowsReassemble(sentences: seq<string>, maxTokens: int, overlap: nat)
    ensures Unshared(sentences, WindowsFrom(sentences, 0, maxTokens, overlap), overlap) == sentences
  {
    if sentences != [] {
      var ws := WindowsFrom(sentences, 0, maxTokens, overlap);
      WindowsTile(sentences, 0, maxTokens, overlap);
      UnsharedPrefix(sentences, ws, maxTokens, overlap);
    }
  }

  // ---- token estimates ----

  /** ceil(7w/5) is subadditive, so a chunk is never estimated above the budget its sentences used. */
  lemma {:induction false} ChunkCostsAtMost(sentences: seq<string>, i: nat, j: nat)
    requires i <= j <= |sentences|
    ensures (7 * |WordsOf(sentences[i..j])| + 4) / 5 <= Cost(sentences, i, j)
    decreases j
  {
    hide Split;
    if i < j {
      ChunkCostsAtMost(sentences, i, j - 1);
      assert sentences[i..j] == sentences[i..j - 1] + [sentences[j - 1]];
      WordsOfConcat(sentences[i..j - 1], [sentences[j - 1]]);
      OneText(sentences[j - 1]);
    }
  }

  lemma {:induction false} CostCovers(sentences: seq<string>, i: nat, j: nat, k: nat)
    requires i <= k < j <= |sentences|
    ensures Cost(sentences, i, j) >= EstimateTokens(sentences[k])
    decreases j
  {
    hide EstimateTokens;
    if k < j - 1 {
      CostCovers(sentences, i, j - 1, k);
    }
  }

  /** A chunk estimated above the budget is a single sentence, and a sentence above the budget has a chunk to itself. */
  lemma OversizedChunksAreSingleSentences(sentences: seq<string>, maxTokens: int, overlap: nat, i: nat)
    requires i < |WindowsFrom(sentences, 0, maxTokens, overlap)|
    ensures
      var w := WindowsFrom(sentences, 0, maxTokens, overlap)[i];
      && (EstimateTokens(Join(Slice(sentences, w))) > maxTokens ==> w.end == w.start + 1)
      && (forall k :: w.start <= k < w.end && EstimateTokens(sentences[k]) > maxTokens ==> w == Window(k, k + 1))
  {
    hide Split;
    WindowsTile(sentences, 0, maxTokens, overlap);
    var w := WindowsFrom(sentences, 0, maxTokens, overlap)[i];
    assert Fits(sentences, w, maxTokens);
    JoinKeepsWords(Slice(sentences, w));
    ChunkCostsAtMost(sentences, w.start, w.end);
    forall k | w.start <= k < w.end && EstimateTokens(sentences[k]) > maxTokens
      ensures w == Window(k, k + 1)
    {
      CostCovers(sentences, w.start, w.end, k);
    }
  }

  // ---- a negative overlap ----

  ghost predicate Covered(ws: seq<Window>, k: nat) {
    exists w :: w in ws && w.start <= k < w.end
  }

  lemma {:induction false} LaterWindows(sentences: seq<string>, start: nat, maxTokens: int, overlap: int)
    ensures forall w :: w in WindowsFrom(sentences, start, maxTokens, overlap) ==> w.start >= start
    decreases |sentences| - start
  {
    hide GrowTo;
    if start < |sentences| {
      var end := GrowTo(sentences, start, start, 0, maxTokens);
      if end < |sentences| {
        LaterWindows(sentences, Max(end - overlap, start + 1), maxTokens, overlap);
      }
    }
  }

  /** One unfolding of the window loop. */
  lemma WindowsUnfold(sentences: seq<string>, start: nat, maxTokens: int, overlap: int)
    requires start < |sentences|
    ensures
      var end := GrowTo(sentences, start, start, 0, maxTokens);
      && start < end <= |sentences|
      && WindowsFrom(sentences, start, maxTokens, overlap)
         == [Window(start, end)]
            + WindowsFrom(sentences, if end < |sentences| then Max(end - overlap, start + 1) else end, maxTokens,
                          overlap)
  {
    hide EstimateTokens, GrowTo;
    Starts(sentences, start, maxTokens);
  }

  lemma CoveredCons(w: Window, rest: seq<Window>, k: nat)
    ensures Covered([w] + rest, k) <==> w.start <= k < w.end || Covered(rest, k)
  {
    var ws := [w] + rest;
    assert w == ws[0] && w in ws;
    if Covered(rest, k) {
      var x :| x in rest && x.start <= k < x.end;
      assert x in ws;
    }
  }

  lemma {:induction false} TilesCover(sentences: seq<string>, start: nat, maxTokens: int, overlap: nat, k: nat)
    requires start <= k < |sentences|
    ensures Covered(WindowsFrom(sentences, start, maxTokens, overlap), k)
    decreases |sentences| - start
  {
    hide EstimateTokens, GrowTo, WindowsFrom, Covered;
    var end := GrowTo(sentences, start, start, 0, maxTokens);
    WindowsUnfold(sentences, start, maxTokens, overlap);
    var next := if end < |sentences| then Max(end - overlap, start + 1) else end;
    CoveredCons(Window(start, end), WindowsFrom(sentences, next, maxTokens, overlap), k);
    if end <= k {
      TilesCover(sentences, next, maxTokens, overlap, k);
    }
  }

  /** With a negative overlap the sentence after the first window is in no window. */
  lemma GapAfterFirstWindow(sentences: seq<string>, maxTokens: int, overlap: int)
    requires overlap < 0 && sentences != [] && GrowTo(sentences, 0, 0, 0, maxTokens) < |sentences|
    ensures !Covered(WindowsFrom(sentences, 0, maxTokens, overlap), GrowTo(sentences, 0, 0, 0, maxTokens))
  {
    hide GrowTo, WindowsFrom;
    var end := GrowTo(sentences, 0, 0, 0, maxTokens);
    WindowsUnfold(sentences, 0, maxTokens, overlap);
    var rest := WindowsFrom(sentences, Max(end - overlap, 1), maxTokens, overlap);
    LaterWindows(sentences, Max(end - overlap, 1), maxTokens, overlap);
    CoveredCons(Window(0, end), rest, end);
  }

  lemma OneWindowCovers(sentences: seq<string>, maxTokens: int, overlap: int, k: nat)
    requires k < |sentences| && GrowTo(sentences, 0, 0, 0, maxTokens) == |sentences|
    ensures Covered(WindowsFrom(sentences, 0, maxTokens, overlap), k)
  {
    hide GrowTo, WindowsFrom, Covered;
    WindowsUnfold(sentences, 0, maxTokens, overlap);
    CoveredCons(Window(0, |sentences|), WindowsFrom(sentences, |sentences|, maxTokens, overlap), k);
  }

  /** The text is one sentence, or all of it is within the budget. */
  predicate OneWindowSuffices(sentences: seq<string>, maxTokens: int) {
    |sentences| == 1 || Cost(sentences, 0, |sentences|) <= maxTokens
  }

  lemma FirstWindowTakesAllIff(sentences: seq<string>, maxTokens: int)
    requires sentences != []
    ensures GrowTo(sentences, 0, 0, 0, maxTokens) == |sentences| <==> OneWindowSuffices(sentences, maxTokens)
  {
    hide EstimateTokens, GrowTo;
    Starts(sentences, 0, maxTokens);
    if OneWindowSuffices(sentences, maxTokens) {
      GrowReaches(sentences, 0, 0, 0, |sentences|, maxTokens);
    }
  }

  ghost predicate KeepsEverySentence(sentences: seq<string>, maxTokens: int, overlap: int) {
    forall k: nat :: k < |sentences| ==> Covered(WindowsFrom(sentences, 0, maxTokens, overlap), k)
  }

  /** "Sentences are never dropped" holds exactly when the overlap is not negative, or the text fits one window. */
  lemma EverySentenceIsKeptIff(sentences: seq<string>, maxTokens: int, overlap: int)
    requires sentences != []
    ensures KeepsEverySentence(sentences, maxTokens, overlap)
      <==> overlap >= 0 || OneWindowSuffices(sentences, maxTokens)
  {
    hide GrowTo, WindowsFrom, Covered, OneWindowSuffices;
    FirstWindowTakesAllIff(sentences, maxTokens);
    if overlap >= 0 {
      forall k: nat | k < |sentences|
        ensures Covered(WindowsFrom(sentences, 0, maxTokens, overlap), k)
      {
        TilesCover(sentences, 0, maxTokens, overlap, k);
      }
    } else if OneWindowSuffices(sentences, maxTokens) {
      forall k: nat | k < |sentences|
        ensures Covered(WindowsFrom(sentences, 0, maxTokens, overlap), k)
      {
        OneWindowCovers(sentences, maxTokens, overlap, k);
      }
    } else {
      GapAfterFirstWindow(sentences, maxTokens, overlap);
    }
  }

  /** Two one-word sentences, a budget for one of them and an overlap of -1: the second is in no chunk. */
  lemma ASentenceCanBeDropped()
    ensures WindowsFrom(["a", "b"], 0, 2, -1) == [Window(0, 1)]
    ensures !Covered(WindowsFrom(["a", "b"], 0, 2, -1), 1)
  {
    hide EstimateTokens;
    OneWordCosts("a");
    OneWordCosts("b");
    assert GrowTo(["a", "b"], 0, 1, 2, 2) == 1;
    assert GrowTo(["a", "b"], 0, 0, 0, 2) == 1;
    WindowsUnfold(["a", "b"], 0, 2, -1);
    assert WindowsFrom(["a", "b"], 2, 2, -1) == [];
  }

  lemma OneWordCosts(word: string)
    requires |word| == 1 && !IsSpace(word[0])
    ensures EstimateTokens(word) == 2
  {
    SplitStep("", word[0]);
    assert word == "" + [word[0]];
  }

  // ---- the windows so far ----

  lemma NoWindows(sentences: seq<string>, start: nat, maxTokens: int, overlap: int, done: seq<Window>)
    requires start >= |sentences|
    ensures done + WindowsFrom(sentences, start, maxTokens, overlap) == done
  {
    assert done + [] == done;
  }

  lemma WindowsStep(sentences: seq<string>, start: nat, maxTokens: int, overlap: int, done: seq<Window>)
    requires start < |sentences|
    ensures
      var end := GrowTo(sentences, start, start, 0, maxTokens);
      var after := done + [Window(start, end)];
      done + WindowsFrom(sentences, start, maxTokens, overlap)
      == if end >= |sentences| then after
         else after + WindowsFrom(sentences, Max(end - overlap, start + 1), maxTokens, overlap)
  {
    hide GrowTo, EstimateTokens;
    var end := GrowTo(sentences, start, start, 0, maxTokens);
    if end >= |sentences| {
      assert WindowsFrom(sentences, start, maxTokens, overlap) == [Window(start, end)];
    } else {
      var rest := WindowsFrom(sentences, Max(end - overlap, start + 1), maxTokens, overlap);
      assert WindowsFrom(sentences, start, maxTokens, overlap) == [Window(start, end)] + rest;
      assert done + ([Window(start, end)] + rest) == done + [Window(start, end)] + rest;
    }
  }
}
