/** Chunk drafts (src/app/ingestion/chunker.py, chunk_text): the windows' sentences, joined. */
module Chunker {
  import opened ChunkWindows
  import opened Models
  import opened SentenceSplitter
  import opened Words

  function DraftOf(sentences: seq<string>, w: Window, ord: nat): ChunkDraft {
    var chunk := Join(Slice(sentences, w));
    ChunkDraft(ord, chunk, EstimateTokens(chunk))
  }

  function Drafts(sentences: seq<string>, ws: seq<Window>): seq<ChunkDraft> {
    if ws == [] then []
    else Drafts(sentences, ws[..|ws| - 1]) + [DraftOf(sentences, ws[|ws| - 1], |ws| - 1)]
  }

  lemma {:induction false} DraftAt(sentences: seq<string>, ws: seq<Window>)
    ensures |Drafts(sentences, ws)| == |ws|
    ensures forall i :: 0 <= i < |ws| ==> Drafts(sentences, ws)[i] == DraftOf(sentences, ws[i], i)
  {
    hide DraftOf;
    if ws != [] {
      DraftAt(sentences, ws[..|ws| - 1]);
    }
  }

  // ---- what the drafts are, said on their own texts ----

  /** e is words * 1.4, rounded up. */
  predicate IsEstimate(text: string, e: nat) {
    7 * |Split(text)| <= 5 * e < 7 * |Split(text)| + 5
  }

  /** Draft i is the sentences of window i joined by spaces, numbered i, with the estimate of its own text. */
  predicate PackedAs(sentences: seq<string>, ws: seq<Window>, drafts: seq<ChunkDraft>) {
    && |drafts| == |ws|
    && forall i :: 0 <= i < |ws| ==>
         && ws[i].start < ws[i].end <= |sentences|
         && drafts[i].ord == i
         && drafts[i].text == Join(sentences[ws[i].start..ws[i].end])
         && IsEstimate(drafts[i].text, drafts[i].tokenEstimate)
  }

  function Drop<T>(list: seq<T>, n: nat): seq<T> {
    if n <= |list| then list[n..] else []
  }

  /** The words of the drafts, each without its first `shared[i]` ones. */
  function NewWords(drafts: seq<ChunkDraft>, shared: seq<nat>): seq<string>
    requires |shared| == |drafts|
  {
    if drafts == [] then []
    else
      var n := |drafts| - 1;
      NewWords(drafts[..n], shared[..n]) + Drop(Split(drafts[n].text), shared[n])
  }

  /** The next draft begins with the last `shared` words of this one. */
  predicate Overlaps(drafts: seq<ChunkDraft>, shared: seq<nat>, i: nat) {
    i + 1 < |drafts| && i + 1 < |shared| ==>
      var a, b, k := Split(drafts[i].text), Split(drafts[i + 1].text), shared[i + 1];
      k <= |a| && k <= |b| && b[..k] == a[|a| - k..]
  }

  /** The drafts hold every word of the text, in order: what a draft has beyond the end of the one before it,
      concatenated, is the text. */
  ghost predicate Retells(drafts: seq<ChunkDraft>, text: string) {
    exists shared: seq<nat> ::
      && |shared| == |drafts| && (forall i: nat :: Overlaps(drafts, shared, i))
      && NewWords(drafts, shared) == Split(text)
  }

  lemma DraftIs(sentences: seq<string>, ws: seq<Window>)
    requires forall w :: w in ws ==> w.start < w.end <= |sentences|
    ensures PackedAs(sentences, ws, Drafts(sentences, ws))
  {
    hide Join, Split;
    DraftAt(sentences, ws);
  }

  /** How many words draft i shares with the one before. */
  function SharedAt(sentences: seq<string>, ws: seq<Window>, i: nat): nat {
    if 0 < i < |ws| && ws[i].start <= ws[i - 1].end <= |sentences|
    then |WordsOf(sentences[ws[i].start..ws[i - 1].end])| else 0
  }

  function SharedBy(sentences: seq<string>, ws: seq<Window>): seq<nat> {
    seq(|ws|, i requires 0 <= i < |ws| => SharedAt(sentences, ws, i))
  }

  lemma DraftWords(sentences: seq<string>, ws: seq<Window>, drafts: seq<ChunkDraft>, i: nat)
    requires PackedAs(sentences, ws, drafts) && i < |ws|
    ensures Split(drafts[i].text) == WordsOf(sentences[ws[i].start..ws[i].end])
  {
    hide Split, WordsOf;
    JoinKeepsWords(sentences[ws[i].start..ws[i].end]);
  }

  lemma WordsSplit(sentences: seq<string>, i: nat, k: nat, j: nat)
    requires i <= k <= j <= |sentences|
    ensures WordsOf(sentences[i..j]) == WordsOf(sentences[i..k]) + WordsOf(sentences[k..j])
  {
    hide WordsOf;
    WordsOfConcat(sentences[i..k], sentences[k..j]);
    assert sentences[i..j] == sentences[i..k] + sentences[k..j];
  }

  lemma DraftsOverlap(sentences: seq<string>, ws: seq<Window>, drafts: seq<ChunkDraft>, overlap: nat, i: nat)
    requires PackedAs(sentences, ws, drafts) && LinkedAt(ws, i, overlap)
    ensures Overlaps(drafts, SharedBy(sentences, ws), i)
  {
    hide Split, WordsOf, IsEstimate;
    if i + 1 < |ws| {
      var w, next := ws[i], ws[i + 1];
      DraftWords(sentences, ws, drafts, i);
      DraftWords(sentences, ws, drafts, i + 1);
      WordsSplit(sentences, w.start, next.start, w.end);
      WordsSplit(sentences, next.start, w.end, next.end);
    }
  }

  lemma {:induction false} NewWordsUpTo(sentences: seq<string>, ws: seq<Window>, drafts: seq<ChunkDraft>, overlap: nat,
                                        n: nat)
    requires PackedAs(sentences, ws, drafts) && 0 < n <= |ws| && ws[0].start == 0
    requires forall i: nat :: LinkedAt(ws, i, overlap)
    ensures NewWords(drafts[..n], SharedBy(sentences, ws)[..n]) == WordsOf(sentences[..ws[n - 1].end])
  {
    hide Split, WordsOf, IsEstimate, Follows;
    var i, shared := n - 1, SharedBy(sentences, ws);
    var w := ws[i];
    DraftWords(sentences, ws, drafts, i);
    assert drafts[..n][..i] == drafts[..i] && shared[..n][..i] == shared[..i];
    if i == 0 {
      assert sentences[0..w.end] == sentences[..w.end];
    } else {
      NewWordsUpTo(sentences, ws, drafts, overlap, i);
      assert LinkedAt(ws, i - 1, overlap);
      FollowsBounds(ws[i - 1], w, overlap);
      WordsSplit(sentences, w.start, ws[i - 1].end, w.end);
      WordsSplit(sentences, 0, ws[i - 1].end, w.end);
      assert sentences[0..ws[i - 1].end] == sentences[..ws[i - 1].end] && sentences[0..w.end] == sentences[..w.end];
    }
  }

  lemma FollowsBounds(w: Window, next: Window, overlap: int)
    requires Follows(w, next, overlap)
    ensures next.start <= w.end <= next.end
  {
  }

  lemma NothingToRetell(text: string)
    requires Split(text) == []
    ensures Retells([], text)
  {
    hide Split;
    assert NewWords([], []) == [];
    assert forall i: nat :: Overlaps([], [], i);
  }

  /** With a non-negative overlap the drafts retell the text. */
  lemma DraftsRetell(text: string, maxTokens: int, overlap: nat)
    ensures Retells(Drafts(Sentences(text), WindowsFrom(Sentences(text), 0, maxTokens, overlap)), text)
  {
    hide Split, WordsOf, Sentences, GrowTo, PackedAs, WindowsFrom, NewWords;
    var sentences := Sentences(text);
    var ws := WindowsFrom(sentences, 0, maxTokens, overlap);
    var drafts := Drafts(sentences, ws);
    SentencesKeepWords(text);
    DraftIs(sentences, ws);
    DraftAt(sentences, ws);
    if sentences == [] {
      NoSentencesIff(text);
      NoWindows(sentences, 0, maxTokens, overlap, []);
      NothingToRetell(text);
    } else {
      WindowsTile(sentences, 0, maxTokens, overlap);
      NewWordsUpTo(sentences, ws, drafts, overlap, |ws|);
      var shared := SharedBy(sentences, ws);
      assert drafts[..|ws|] == drafts && shared[..|ws|] == shared && sentences[..|sentences|] == sentences;
      forall i: nat
        ensures Overlaps(drafts, shared, i)
      {
        DraftsOverlap(sentences, ws, drafts, overlap, i);
      }
    }
  }

  // ---- the method ----

  method ChunkText(text: string, maxTokens: int, overlap: int) returns (drafts: seq<ChunkDraft>)
    ensures drafts == Drafts(Sentences(text), WindowsFrom(Sentences(text), 0, maxTokens, overlap))
    ensures PackedAs(Sentences(text), WindowsFrom(Sentences(text), 0, maxTokens, overlap), drafts)
    ensures overlap >= 0 ==> Retells(drafts, text)
  {
    hide EstimateTokens, Join, Sentences, GrowTo, WindowsFrom, Drafts, PackedAs, Retells;
    DraftIs(Sentences(text), WindowsFrom(Sentences(text), 0, maxTokens, overlap));
    if overlap >= 0 {
      DraftsRetell(text, maxTokens, overlap);
    }
    var sentences := SplitSentences(text);
    drafts := [];
    var start: nat := 0;
    ghost var windows: seq<Window> := [];
    NoDrafts(sentences);
    while start < |sentences|
      invariant windows + WindowsFrom(sentences, start, maxTokens, overlap)
        == WindowsFrom(sentences, 0, maxTokens, overlap)
      invariant drafts == Drafts(sentences, windows) && |drafts| == |windows|
      decreases |sentences| - start
    {
      var end := FillWindow(sentences, start, maxTokens);
      var chunk := Join(sentences[start..end]);
      WindowsStep(sentences, start, maxTokens, overlap, windows);
      DraftsStep(sentences, windows, Window(start, end));
      drafts := drafts + [ChunkDraft(|drafts|, chunk, EstimateTokens(chunk))];
      windows := windows + [Window(start, end)];
      if end >= |sentences| {
        return;
      }
      start := Max(end - overlap, start + 1);
    }
    NoWindows(sentences, start, maxTokens, overlap, windows);
  }

  lemma NoDrafts(sentences: seq<string>)
    ensures Drafts(sentences, []) == []
  {
  }

  lemma DraftsStep(sentences: seq<string>, ws: seq<Window>, w: Window)
    ensures Drafts(sentences, ws + [w]) == Drafts(sentences, ws) + [DraftOf(sentences, w, |ws|)]
  {
    hide DraftOf;
    assert (ws + [w])[..|ws|] == ws;
  }

  lemma NoDraftsIff(text: string, maxTokens: int, overlap: int)
    ensures Drafts(Sentences(text), WindowsFrom(Sentences(text), 0, maxTokens, overlap)) == [] <==> Split(text) == []
  {
    hide Split, Sentences, GrowTo, DraftOf;
    NoSentencesIff(text);
    DraftAt(Sentences(text), WindowsFrom(Sentences(text), 0, maxTokens, overlap));
  }
}
