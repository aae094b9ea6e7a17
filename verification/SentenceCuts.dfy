/** Where split_sentences (src/app/ingestion/chunker.py) cuts a line, said position by position. */
module SentenceCuts {
  import opened Models
  import opened SentenceSplitter
  import opened Words

  /** A mark at p, then only closing quotes and brackets up to e. */
  predicate MarkedFrom(line: string, p: nat, e: nat) {
    p < e <= |line| && line[p] in ".!?" && forall k :: p < k < e ==> line[k] in "\"')]"
  }

  /** line[..e] ends in a mark and its closers, and whitespace follows. */
  ghost predicate Marked(line: string, e: nat) {
    e < |line| && IsSpace(line[e]) && exists p: nat :: MarkedFrom(line, p, e)
  }

  predicate AllIn(s: string, chars: string) {
    forall i :: 0 <= i < |s| ==> s[i] in chars
  }

  /** The word is one of the abbreviations, in any case, with any marks and closers after it. */
  ghost predicate IsAbbreviation(word: string) {
    exists stem, tail :: word == stem + tail && AllIn(tail, ".!?\"')]") && Lower(stem) in ABBREVIATIONS
  }

  /** A sentence of the line ends at e: at a mark before whitespace, unless the word there is an abbreviation. */
  ghost predicate Cut(line: string, e: nat) {
    Marked(line, e) && Split(line[..e]) != [] && !IsAbbreviation(Split(line[..e])[|Split(line[..e])| - 1])
  }

  /** `ends` is every cut at or after `from`, in order. */
  ghost predicate AllCuts(line: string, from: nat, ends: seq<nat>) {
    && (forall i, j :: 0 <= i < j < |ends| ==> ends[i] < ends[j])
    && forall e: nat :: e in ends <==> from <= e && Cut(line, e)
  }

  /** The line from `start` on, taken apart at `ends`, each piece stripped. */
  function Pieces(line: string, start: nat, ends: seq<nat>): seq<string>
    decreases |ends|
  {
    if start > |line| then []
    else if ends == [] || ends[0] < start || ends[0] > |line| then [Strip(line[start..])]
    else [Strip(line[start..ends[0]])] + Pieces(line, ends[0], ends[1..])
  }

  // ---- abbreviations ----

  lemma AbbreviationsEndInLetters(stem: string)
    requires Lower(stem) in ABBREVIATIONS
    ensures stem != "" && stem[|stem| - 1] !in ".!?\"')]"
  {
    assert |Lower(stem)| == |stem|;
    var abbreviation := Lower(stem);
    assert abbreviation != "" && 'a' <= abbreviation[|abbreviation| - 1] <= 'z';
  }

  lemma {:induction false} TrimmedOff(word: string) returns (tail: string)
    ensures word == RTrim(word) + tail && AllIn(tail, ".!?\"')]")
  {
    tail := "";
    if word != "" && (IsTerminal(word[|word| - 1]) || IsCloser(word[|word| - 1])) {
      var more := TrimmedOff(word[..|word| - 1]);
      tail := more + [word[|word| - 1]];
    }
  }

  lemma {:induction false} TrimsTail(stem: string, tail: string)
    requires AllIn(tail, ".!?\"')]") && stem != "" && stem[|stem| - 1] !in ".!?\"')]"
    ensures RTrim(stem + tail) == stem
  {
    if tail == "" {
      assert stem + tail == stem;
    } else {
      TrimsTail(stem, tail[..|tail| - 1]);
      assert (stem + tail)[..|stem + tail| - 1] == stem + tail[..|tail| - 1];
    }
  }

  lemma AbbreviationIff(word: string)
    ensures Lower(RTrim(word)) in ABBREVIATIONS <==> IsAbbreviation(word)
  {
    hide RTrim, Lower;
    if Lower(RTrim(word)) in ABBREVIATIONS {
      var tail := TrimmedOff(word);
    }
    if IsAbbreviation(word) {
      var stem, tail :| word == stem + tail && AllIn(tail, ".!?\"')]") && Lower(stem) in ABBREVIATIONS;
      AbbreviationsEndInLetters(stem);
      TrimsTail(stem, tail);
    }
  }

  // ---- the scanner finds the marked places in order ----

  lemma {:induction false} ClosersEnd(line: string, i: nat, e: nat)
    requires i <= e < |line| && IsSpace(line[e]) && forall k :: i <= k < e ==> line[k] in "\"')]"
    ensures SkipClosers(line, i) == e
    decreases e - i
  {
    if i < e {
      ClosersEnd(line, i + 1, e);
    }
  }

  lemma {:induction false} ClosersOnly(line: string, i: nat)
    requires i <= |line|
    ensures forall k :: i <= k < SkipClosers(line, i) ==> line[k] in "\"')]"
    decreases |line| - i
  {
    if i < |line| && IsCloser(line[i]) {
      ClosersOnly(line, i + 1);
    }
  }

  lemma SpacesStart(line: string, i: nat)
    requires i <= |line|
    ensures SkipSpaces(line, i) > i <==> i < |line| && IsSpace(line[i])
  {
  }

  /** The mark at p is a boundary exactly when whitespace follows its closers. */
  lemma MarkAt(line: string, p: nat, e: nat)
    requires p < |line| && IsTerminal(line[p])
    ensures MarkedFrom(line, p, SkipClosers(line, p + 1))
    ensures MarkedFrom(line, p, e) && e < |line| && IsSpace(line[e]) ==> e == SkipClosers(line, p + 1)
  {
    ClosersOnly(line, p + 1);
    if MarkedFrom(line, p, e) && e < |line| && IsSpace(line[e]) {
      ClosersEnd(line, p + 1, e);
    }
  }

  ghost predicate MarkedPast(line: string, from: nat, e: nat) {
    e < |line| && IsSpace(line[e]) && exists p: nat :: from <= p && MarkedFrom(line, p, e)
  }

  lemma {:induction false} NextIsFirst(line: string, from: nat, e: nat)
    requires from <= |line|
    ensures
      match NextBoundary(line, from)
      case None => !MarkedPast(line, from, e)
      case Some(b) =>
        && MarkedPast(line, from, b.sentenceEnd)
        && (MarkedPast(line, from, e) ==> e >= b.sentenceEnd)
    decreases |line| - from
  {
    hide IsSpace, SkipClosers, SkipSpaces, MarkedFrom;
    if from < |line| {
      NextIsFirst(line, from + 1, e);
      Later(line, from, e);
      if IsTerminal(line[from]) {
        var end := SkipClosers(line, from + 1);
        MarkAt(line, from, e);
        SpacesStart(line, end);
        NoMarkInside(line, from, end, e);
      } else {
        NoMarkHere(line, from, e);
      }
      var next := NextBoundary(line, from);
      if next.Some? {
        Later(line, from, next.value.sentenceEnd);
      }
    } else {
      NothingPast(line, from, e);
    }
  }

  lemma Later(line: string, from: nat, e: nat)
    ensures MarkedPast(line, from, e) <==>
      MarkedPast(line, from + 1, e) || (e < |line| && IsSpace(line[e]) && MarkedFrom(line, from, e))
  {
    hide IsSpace, MarkedFrom;
    if MarkedPast(line, from, e) {
      var p: nat :| from <= p && MarkedFrom(line, p, e);
      assert p == from || from + 1 <= p;
    }
    if MarkedPast(line, from + 1, e) {
      var p: nat :| from + 1 <= p && MarkedFrom(line, p, e);
      assert from <= p;
    }
  }

  lemma NoMarkHere(line: string, from: nat, e: nat)
    requires from < |line| && !IsTerminal(line[from])
    ensures !MarkedFrom(line, from, e)
  {
  }

  lemma NothingPast(line: string, from: nat, e: nat)
    requires from >= |line|
    ensures !MarkedPast(line, from, e)
  {
  }

  /** No mark among the closers of a mark. */
  lemma NoMarkInside(line: string, p: nat, end: nat, e: nat)
    requires p < |line| && IsTerminal(line[p]) && end == SkipClosers(line, p + 1)
    ensures MarkedPast(line, p + 1, e) ==> e >= end
  {
    hide IsSpace;
    ClosersOnly(line, p + 1);
    if MarkedPast(line, p + 1, e) {
      var q: nat :| p + 1 <= q && MarkedFrom(line, q, e);
      assert q < end ==> line[q] in "\"')]";
    }
  }

  /** After whitespace every later marked place has its mark after it too. */
  lemma MarkStaysPast(line: string, from: nat, e: nat)
    requires from <= e && from <= |line| && AfterSpace(line, from)
    ensures Marked(line, e) <==> MarkedPast(line, from, e)
  {
    hide IsSpace, MarkedFrom;
    forall p: nat | p < from
      ensures !MarkedFrom(line, p, e)
    {
      NoMarkAcrossSpace(line, p, from, e);
    }
  }

  lemma NoMarkAcrossSpace(line: string, p: nat, from: nat, e: nat)
    requires p < from <= e && from <= |line| && IsSpace(line[from - 1])
    ensures !MarkedFrom(line, p, e)
  {
    assert line[from - 1] !in ".!?" && line[from - 1] !in "\"')]";
  }

  /** None of the whitespace after a boundary is marked again. */
  lemma NotMarkedInGap(line: string, i: nat, end: nat, e: nat)
    requires i < end <= |line| && AllSpace(line[i..end]) && i < e < end
    ensures !Marked(line, e)
  {
    assert IsSpace(line[i..end][e - 1 - i]);
    forall p: nat
      ensures !MarkedFrom(line, p, e)
    {
      assert p < e ==> line[e - 1] == line[p] || p < e - 1;
    }
  }

  // ---- the verdict at a marked place ----

  lemma VerdictAt(line: string, prevEnd: nat)
    requires prevEnd <= |line| && AfterSpace(line, prevEnd) && NextBoundary(line, prevEnd).Some?
    ensures
      var e := NextBoundary(line, prevEnd).value.sentenceEnd;
      Cut(line, e) <==> !EndsWithAbbreviation(line[prevEnd..e])
  {
    hide NextBoundary, IsSpace, Split, Lower, RTrim, IsAbbreviation, MarkedFrom;
    var e := NextBoundary(line, prevEnd).value.sentenceEnd;
    NextIsFirst(line, prevEnd, e);
    MarkStaysPast(line, prevEnd, e);
    SegmentHasAWord(line, prevEnd);
    assert line[..e] == line[..prevEnd] + line[prevEnd..e];
    SplitConcat(line[..prevEnd], line[prevEnd..e]);
    var words := Split(line[prevEnd..e]);
    AbbreviationIff(words[|words| - 1]);
  }

  // ---- the pieces ----

  lemma {:induction false} LStripSkips(gap: string, s: string)
    requires AllSpace(gap)
    ensures LStrip(gap + s) == LStrip(s)
  {
    if gap == "" {
      assert gap + s == s;
    } else {
      LStripSkips(gap[1..], s);
      assert (gap + s)[1..] == gap[1..] + s;
    }
  }

  lemma PieceAfterGap(line: string, i: nat, start: nat, j: nat)
    requires i <= start <= j <= |line| && AllSpace(line[i..start])
    ensures Strip(line[i..j]) == Strip(line[start..j])
  {
    hide IsSpace;
    LStripSkips(line[i..start], line[start..j]);
    assert line[i..j] == line[i..start] + line[start..j];
  }

  lemma PiecesAfterGap(line: string, i: nat, start: nat, ends: seq<nat>)
    requires i <= start <= |line| && AllSpace(line[i..start])
    requires ends == [] || start <= ends[0] <= |line|
    ensures Pieces(line, i, ends) == Pieces(line, start, ends)
  {
    hide Strip, IsSpace;
    PieceAfterGap(line, i, start, |line|);
    assert line[i..] == line[i..|line|] && line[start..] == line[start..|line|];
    if ends != [] {
      PieceAfterGap(line, i, start, ends[0]);
    }
  }

  lemma {:induction false} NonEmptyCons(head: string, rest: seq<string>)
    ensures NonEmpty([head] + rest) == (if head == "" then [] else [head]) + NonEmpty(rest)
  {
    if rest == [] {
      assert [head] + rest == [head];
      assert NonEmpty([head][..0]) == [];
    } else {
      var front, last := rest[..|rest| - 1], rest[|rest| - 1];
      NonEmptyCons(head, front);
      assert ([head] + rest)[..|[head] + rest| - 1] == [head] + front;
    }
  }

  /** What the scanner still finds from a state is the pieces between the cuts still ahead. */
  lemma {:induction false} CutsAhead(line: string, start: nat, prevEnd: nat) returns (ends: seq<nat>)
    requires start <= prevEnd <= |line| && AfterSpace(line, prevEnd)
    ensures AllCuts(line, prevEnd, ends)
    ensures NonEmpty(SplitFrom(line, start, prevEnd)) == NonEmpty(Pieces(line, start, ends))
    decreases |line| - prevEnd
  {
    hide NextBoundary, IsSpace, AllSpace, Split, Strip, EndsWithAbbreviation, NonEmpty, Cut, Marked, MarkedPast;
    match NextBoundary(line, prevEnd)
    case None =>
      NoCutsAhead(line, prevEnd);
      ends := [];
      NonEmptyCons(Strip(line[start..]), []);
      assert [Strip(line[start..])] + [] == [Strip(line[start..])];
      NonEmptyOfNone();
    case Some(b) =>
      VerdictAt(line, prevEnd);
      LastIsSpace(line, b.sentenceEnd, b.end);
      if EndsWithAbbreviation(line[prevEnd..b.sentenceEnd]) {
        ends := CutsAhead(line, start, b.end);
        SameCuts(line, prevEnd, b, ends);
      } else {
        var rest := CutsAhead(line, b.end, b.end);
        ends := [b.sentenceEnd] + rest;
        OneMoreCut(line, prevEnd, b, rest);
        CutBounds(line, b.end, rest);
        PiecesAfterGap(line, b.sentenceEnd, b.end, rest);
        var head := Strip(line[start..b.sentenceEnd]);
        NonEmptyCons(head, SplitFrom(line, b.end, b.end));
        NonEmptyCons(head, Pieces(line, b.sentenceEnd, rest));
        assert ends[1..] == rest;
      }
  }

  lemma NonEmptyOfNone()
    ensures NonEmpty([]) == []
  {
  }

  lemma NoCutsAhead(line: string, from: nat)
    requires from <= |line| && AfterSpace(line, from) && NextBoundary(line, from).None?
    ensures AllCuts(line, from, [])
  {
    hide NextBoundary, MarkedPast, Marked;
    forall e: nat | from <= e
      ensures !Cut(line, e)
    {
      NextIsFirst(line, from, e);
      MarkStaysPast(line, from, e);
    }
  }

  lemma CutBounds(line: string, from: nat, ends: seq<nat>)
    requires AllCuts(line, from, ends)
    ensures ends == [] || from <= ends[0] <= |line|
  {
    if ends != [] {
      assert ends[0] in ends;
    }
  }

  /** Between a place and the end of its next boundary only the boundary itself may be a cut. */
  lemma CutsUpTo(line: string, from: nat, b: Boundary, e: nat)
    requires from <= |line| && AfterSpace(line, from) && NextBoundary(line, from) == Some(b)
    requires from <= e < b.end && e != b.sentenceEnd
    ensures !Cut(line, e)
  {
    hide NextBoundary, MarkedPast, Marked;
    NextIsFirst(line, from, e);
    MarkStaysPast(line, from, e);
    if e > b.sentenceEnd {
      NotMarkedInGap(line, b.sentenceEnd, b.end, e);
    }
  }

  lemma SameCuts(line: string, from: nat, b: Boundary, ends: seq<nat>)
    requires from <= |line| && AfterSpace(line, from) && NextBoundary(line, from) == Some(b)
    requires AllCuts(line, b.end, ends) && !Cut(line, b.sentenceEnd)
    ensures AllCuts(line, from, ends)
  {
    hide NextBoundary, Cut;
    forall e: nat | from <= e < b.end
      ensures !Cut(line, e)
    {
      if e != b.sentenceEnd {
        CutsUpTo(line, from, b, e);
      }
    }
  }

  lemma OneMoreCut(line: string, from: nat, b: Boundary, rest: seq<nat>)
    requires from <= |line| && AfterSpace(line, from) && NextBoundary(line, from) == Some(b)
    requires AllCuts(line, b.end, rest) && Cut(line, b.sentenceEnd)
    ensures AllCuts(line, from, [b.sentenceEnd] + rest)
  {
    hide NextBoundary, Cut;
    forall e: nat | from <= e < b.end && e != b.sentenceEnd
      ensures !Cut(line, e)
    {
      CutsUpTo(line, from, b, e);
    }
    forall j | 0 <= j < |rest|
      ensures rest[j] >= b.end
    {
      assert rest[j] in rest;
    }
  }

  /** The sentences of a line are its pieces between one cut and the next: it is cut at every mark that whitespace
      follows, closers included, unless the word there is an abbreviation, and nowhere else. */
  lemma CutAtEveryEnd(line: string) returns (ends: seq<nat>)
    ensures AllCuts(line, 0, ends)
    ensures SentencesOfLine(line) == NonEmpty(Pieces(line, 0, ends))
  {
    ends := CutsAhead(line, 0, 0);
  }

  // ---- lines ----

  lemma {:induction false} LinesApart(a: seq<string>, b: seq<string>)
    ensures SentencesOfLines(a + b) == SentencesOfLines(a) + SentencesOfLines(b)
  {
    hide Strip, SentencesOfLine;
    if b == [] {
      assert a + b == a;
    } else {
      LinesApart(a, b[..|b| - 1]);
      assert (a + b)[..|a + b| - 1] == a + b[..|b| - 1];
    }
  }

  /** A line break always ends a sentence. */
  lemma BreaksEndSentences(a: string, c: char, b: string)
    requires NoBreak(a) && IsBreak(c)
    ensures Sentences(a + [c] + b) == Sentences(a) + if c == '\r' && "\n" <= b then Sentences(b[1..]) else Sentences(b)
  {
    hide SentencesOfLines, SplitLines, IsBreak;
    LinesEndAtBreaks(a, c, b);
    OneLine(a);
    var rest := if c == '\r' && "\n" <= b then b[1..] else b;
    LinesApart([a], SplitLines(rest));
    if a == "" {
      EmptyLine();
    }
  }

  lemma EmptyLine()
    ensures SentencesOfLines([""]) == [] == SentencesOfLines([])
  {
    assert [""][..0] == [];
    assert LStrip("") == "";
  }

  /** A text without line breaks is one stripped line, or nothing. */
  lemma OneLineOfSentences(s: string)
    requires NoBreak(s)
    ensures Sentences(s) == if Strip(s) == "" then [] else SentencesOfLine(Strip(s))
  {
    hide Strip, SentencesOfLine, SplitLines, IsBreak;
    OneLine(s);
    if s == "" {
      EmptyStrip();
      NoLines();
    } else {
      assert [s][..0] == [];
      NoLines();
    }
  }

  lemma EmptyStrip()
    ensures Strip("") == ""
  {
  }

  lemma NoLines()
    ensures SentencesOfLines([]) == []
  {
  }

  lemma StopVerdict(stem: string, lower: string)
    requires stem != "" && stem[|stem| - 1] !in ".!?\"')]" && lower == Lower(stem)
    ensures IsAbbreviation(stem + ".") <==> lower in ABBREVIATIONS
  {
    hide IsAbbreviation, ABBREVIATIONS, RTrim, Lower;
    AbbreviationIff(stem + ".");
    TrimsTail(stem, ".");
  }

  /** Titles and Latin short forms in any case; words that often end sentences are not on the list. */
  lemma AbbreviationsInAnyCase()
    ensures IsAbbreviation("Dr" + ".") && IsAbbreviation("E.g" + ".")
    ensures !IsAbbreviation("no" + ".") && !IsAbbreviation("etc" + ".")
  {
    hide IsAbbreviation;
    StopVerdict("Dr", "dr");
    StopVerdict("E.g", "e.g");
    StopVerdict("no", "no");
    StopVerdict("etc", "etc");
  }
}
