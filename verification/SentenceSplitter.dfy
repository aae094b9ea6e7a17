/** Sentence splitting (src/app/ingestion/chunker.py, split_sentences). */
module SentenceSplitter {
  import opened Models
  import opened Words

  // ---- sentence boundaries ----

  predicate IsTerminal(c: char) {
    c == '.' || c == '!' || c == '?'
  }

  predicate IsCloser(c: char) {
    c == '"' || c == '\'' || c == ')' || c == ']'
  }

  const ABBREVIATIONS := {"dr", "mr", "mrs", "ms", "prof", "sr", "jr", "st", "vs", "e.g", "i.e", "a.m", "p.m", "inc",
    "ltd", "fig"}

  function SkipClosers(s: string, i: nat): (e: nat)
    requires i <= |s|
    ensures i <= e <= |s|
    decreases |s| - i
  {
    if i < |s| && IsCloser(s[i]) then SkipClosers(s, i + 1) else i
  }

  function SkipSpaces(s: string, i: nat): (e: nat)
    requires i <= |s|
    ensures i <= e <= |s| && AllSpace(s[i..e])
    decreases |s| - i
  {
    if i < |s| && IsSpace(s[i]) then SkipSpaces(s, i + 1) else i
  }

  /** A match of the boundary pattern: where the sentence ends, and where the whitespace after it ends. */
  datatype Boundary = Boundary(sentenceEnd: nat, end: nat)

  /** The leftmost match at or after `from`: a terminal mark, any closers, then at least one space. */
  function NextBoundary(s: string, from: nat): (b: Option<Boundary>)
    requires from <= |s|
    ensures b.Some? ==> from < b.value.sentenceEnd < b.value.end <= |s|
    ensures b.Some? ==> AllSpace(s[b.value.sentenceEnd..b.value.end])
    ensures b.Some? ==> !IsSpace(s[b.value.sentenceEnd - 1])
    decreases |s| - from
  {
    if from == |s| then None
    else if IsTerminal(s[from]) then
      var sentenceEnd := SkipClosers(s, from + 1);
      var end := SkipSpaces(s, sentenceEnd);
      if end > sentenceEnd then
        ClosersAreNotSpace(s, from + 1);
        Some(Boundary(sentenceEnd, end))
      else NextBoundary(s, from + 1)
    else NextBoundary(s, from + 1)
  }

  lemma ClosersAreNotSpace(s: string, i: nat)
    requires 0 < i <= |s| && !IsSpace(s[i - 1])
    ensures !IsSpace(s[SkipClosers(s, i) - 1])
    decreases |s| - i
  {
    if i < |s| && IsCloser(s[i]) {
      ClosersAreNotSpace(s, i + 1);
    }
  }

  function RTrim(s: string): string {
    if s != "" && (IsTerminal(s[|s| - 1]) || IsCloser(s[|s| - 1])) then RTrim(s[..|s| - 1]) else s
  }

  function Lower(s: string): string {
    seq(|s|, i requires 0 <= i < |s| => if 'A' <= s[i] <= 'Z' then (s[i] as int + 32) as char else s[i])
  }

  predicate EndsWithAbbreviation(segment: string) {
    var words := Split(segment);
    words == [] || Lower(RTrim(words[|words| - 1])) in ABBREVIATIONS
  }

  /** What _split_line produces from a state where the current sentence began at `start`
      and the last boundary examined ended at `prevEnd`. */
  function SplitFrom(line: string, start: nat, prevEnd: nat): seq<string>
    requires start <= prevEnd <= |line|
    decreases |line| - prevEnd
  {
    match NextBoundary(line, prevEnd)
    case None => if Strip(line[start..]) == "" then [] else [Strip(line[start..])]
    case Some(b) =>
      if EndsWithAbbreviation(line[prevEnd..b.sentenceEnd]) then SplitFrom(line, start, b.end)
      else [Strip(line[start..b.sentenceEnd])] + SplitFrom(line, b.end, b.end)
  }

  function NonEmpty(parts: seq<string>): seq<string> {
    if parts == [] then []
    else
      var last := parts[|parts| - 1];
      NonEmpty(parts[..|parts| - 1]) + (if last == "" then [] else [last])
  }

  function SentencesOfLine(line: string): seq<string> {
    NonEmpty(SplitFrom(line, 0, 0))
  }

  function SentencesOfLines(lines: seq<string>): seq<string> {
    if lines == [] then []
    else
      var line := Strip(lines[|lines| - 1]);
      SentencesOfLines(lines[..|lines| - 1]) + (if line == "" then [] else SentencesOfLine(line))
  }

  function Sentences(text: string): seq<string> {
    SentencesOfLines(SplitLines(text))
  }

  // ---- the methods ----

  method SplitLine(line: string) returns (sentences: seq<string>)
    ensures sentences == SentencesOfLine(line)
  {
    hide EndsWithAbbreviation, Strip, NextBoundary, NonEmpty;
    var parts := [];
    var start: nat, prevEnd: nat := 0, 0;
    var boundary := NextBoundary(line, 0);
    while boundary.Some?
      invariant start <= prevEnd <= |line| && boundary == NextBoundary(line, prevEnd)
      invariant parts + SplitFrom(line, start, prevEnd) == SplitFrom(line, 0, 0)
      decreases |line| - prevEnd
    {
      var b := boundary.value;
      ghost var rest := SplitFrom(line, b.end, b.end);
      var segment := line[prevEnd..b.sentenceEnd];
      if EndsWithAbbreviation(segment) {
        prevEnd := b.end;
      } else {
        var sentence := Strip(line[start..b.sentenceEnd]);
        assert parts + ([sentence] + rest) == parts + [sentence] + rest;
        parts := parts + [sentence];
        prevEnd := b.end;
        start := b.end;
      }
      boundary := NextBoundary(line, prevEnd);
    }
    var tail := Strip(line[start..]);
    assert parts + [] == parts;
    if tail != "" {
      parts := parts + [tail];
    }
    return NonEmpty(parts);
  }

  method SplitSentences(text: string) returns (sentences: seq<string>)
    ensures sentences == Sentences(text)
  {
    sentences := [];
    var lines := SplitLines(text);
    for i := 0 to |lines|
      invariant sentences == SentencesOfLines(lines[..i])
    {
      assert lines[..i + 1][..i] == lines[..i];
      var line := Strip(lines[i]);
      if line != "" {
        var parts := SplitLine(line);
        sentences := sentences + parts;
      }
    }
    assert lines[..|lines|] == lines;
  }

  // ---- no word is lost, invented or moved ----

  /** Between sentences the scanner stands at the line's start or just after whitespace. */
  predicate AfterSpace(line: string, at: nat)
    requires at <= |line|
  {
    at == 0 || IsSpace(line[at - 1])
  }

  lemma {:induction false} NonEmptyKeepsWords(parts: seq<string>)
    ensures WordsOf(NonEmpty(parts)) == WordsOf(parts)
  {
    hide Split;
    if parts != [] {
      var front, last := parts[..|parts| - 1], parts[|parts| - 1];
      NonEmptyKeepsWords(front);
      assert parts == front + [last];
      WordsOfConcat(front, [last]);
      OneText(last);
      if last == "" {
        NoWords();
        assert NonEmpty(parts) == NonEmpty(front);
      } else {
        WordsOfConcat(NonEmpty(front), [last]);
      }
    }
  }

  lemma OneText(text: string)
    ensures WordsOf([text]) == Split(text)
  {
    hide Split;
    assert [text][1..] == [];
  }

  lemma {:induction false} SplitFromKeepsWords(line: string, start: nat, prevEnd: nat)
    requires start <= prevEnd <= |line|
    ensures WordsOf(SplitFrom(line, start, prevEnd)) == Split(line[start..])
    decreases |line| - prevEnd
  {
    hide Split, EndsWithAbbreviation, IsSpace, AllSpace, Strip;
    match NextBoundary(line, prevEnd)
    case None =>
      StripKeepsWords(line[start..]);
      OneText(Strip(line[start..]));
      NoWords();
    case Some(b) =>
      if EndsWithAbbreviation(line[prevEnd..b.sentenceEnd]) {
        SplitFromKeepsWords(line, start, b.end);
      } else {
        var head := line[start..b.sentenceEnd];
        SplitFromKeepsWords(line, b.end, b.end);
        StripKeepsWords(head);
        OneText(Strip(head));
        WordsOfConcat([Strip(head)], SplitFrom(line, b.end, b.end));
        assert line[start..] == head + line[b.sentenceEnd..b.end] + line[b.end..];
        SplitAround(head, line[b.sentenceEnd..b.end], line[b.end..]);
      }
  }

  lemma {:induction false} LinesSentencesKeepWords(lines: seq<string>)
    ensures WordsOf(SentencesOfLines(lines)) == WordsOf(lines)
  {
    hide Split, Strip, SplitFrom, NonEmpty;
    if lines != [] {
      var front, last := lines[..|lines| - 1], lines[|lines| - 1];
      LinesSentencesKeepWords(front);
      assert lines == front + [last];
      WordsOfConcat(front, [last]);
      OneText(last);
      StripKeepsWords(last);
      var line := Strip(last);
      if line == "" {
        NoWords();
        assert SentencesOfLines(lines) == SentencesOfLines(front);
      } else {
        WordsOfConcat(SentencesOfLines(front), SentencesOfLine(line));
        NonEmptyKeepsWords(SplitFrom(line, 0, 0));
        SplitFromKeepsWords(line, 0, 0);
        assert line[0..] == line;
      }
    }
  }

  /** The words of all sentences, concatenated, are the words of the text. */
  lemma SentencesKeepWords(text: string)
    ensures WordsOf(Sentences(text)) == Split(text)
  {
    LinesSentencesKeepWords(SplitLines(text));
    LinesKeepWords(text);
  }

  lemma {:induction false} StripEndsInWord(s: string)
    ensures RStrip(s) != "" ==> !IsSpace(RStrip(s)[|RStrip(s)| - 1])
  {
    if s != "" && IsSpace(s[|s| - 1]) {
      StripEndsInWord(s[..|s| - 1]);
    }
  }

  predicate HasWord(s: string) {
    Split(s) != []
  }

  lemma {:induction false} PartsHaveWords(line: string, start: nat, prevEnd: nat)
    requires start <= prevEnd <= |line|
    ensures forall s :: s in SplitFrom(line, start, prevEnd) ==> s == "" || HasWord(s)
    decreases |line| - prevEnd
  {
    hide Split, EndsWithAbbreviation, IsSpace, LStrip, RStrip;
    match NextBoundary(line, prevEnd)
    case None => StripEndsInWord(LStrip(line[start..]));
    case Some(b) =>
      StripEndsInWord(LStrip(line[start..b.sentenceEnd]));
      if EndsWithAbbreviation(line[prevEnd..b.sentenceEnd]) {
        PartsHaveWords(line, start, b.end);
      } else {
        PartsHaveWords(line, b.end, b.end);
      }
  }

  lemma {:induction false} NonEmptyIn(parts: seq<string>)
    ensures forall s :: s in NonEmpty(parts) ==> s in parts && s != ""
  {
    if parts != [] {
      NonEmptyIn(parts[..|parts| - 1]);
    }
  }

  lemma {:induction false} LineSentencesHaveWords(lines: seq<string>)
    ensures forall s :: s in SentencesOfLines(lines) ==> HasWord(s)
  {
    hide HasWord, Strip, SplitFrom, NonEmpty;
    if lines != [] {
      LineSentencesHaveWords(lines[..|lines| - 1]);
      var line := Strip(lines[|lines| - 1]);
      PartsHaveWords(line, 0, 0);
      NonEmptyIn(SplitFrom(line, 0, 0));
    }
  }

  /** Every sentence has a word; so a text yields no sentence, and no chunk, exactly when it has no word. */
  lemma NoSentencesIff(text: string)
    ensures Sentences(text) == [] <==> Split(text) == []
  {
    hide Split, SplitLines;
    var sentences := Sentences(text);
    SentencesKeepWords(text);
    LineSentencesHaveWords(SplitLines(text));
    if sentences != [] {
      assert HasWord(sentences[0]);
    }
  }

  /** Looking only at the text since the last boundary gives the verdict of looking at the whole sentence so far. */
  lemma SegmentVerdictIsSentenceVerdict(line: string, start: nat, prevEnd: nat)
    requires start <= prevEnd <= |line| && (start == prevEnd || AfterSpace(line, prevEnd))
    requires NextBoundary(line, prevEnd).Some?
    ensures
      var e := NextBoundary(line, prevEnd).value.sentenceEnd;
      EndsWithAbbreviation(line[prevEnd..e]) <==> EndsWithAbbreviation(line[start..e])
  {
    hide NextBoundary, IsSpace;
    var e := NextBoundary(line, prevEnd).value.sentenceEnd;
    var earlier, segment := line[start..prevEnd], line[prevEnd..e];
    assert line[start..e] == earlier + segment;
    SplitConcat(earlier, segment);
  }

  /** A sentence whose last segment is examined always has a word to examine: the "nothing before the boundary"
      case of the abbreviation test never arises inside a line. */
  lemma SegmentHasAWord(line: string, prevEnd: nat)
    requires prevEnd <= |line| && NextBoundary(line, prevEnd).Some?
    ensures Split(line[prevEnd..NextBoundary(line, prevEnd).value.sentenceEnd]) != []
  {
    hide NextBoundary, IsSpace, Split;
    var e := NextBoundary(line, prevEnd).value.sentenceEnd;
    var segment := line[prevEnd..e];
    assert segment[|segment| - 1] == line[e - 1];
  }

  /** The splitter without the shortcut: it tests the whole sentence accumulated since `start`. */
  function SplitWhole(line: string, start: nat, prevEnd: nat): seq<string>
    requires start <= prevEnd <= |line|
    decreases |line| - prevEnd
  {
    match NextBoundary(line, prevEnd)
    case None => if Strip(line[start..]) == "" then [] else [Strip(line[start..])]
    case Some(b) =>
      if EndsWithAbbreviation(line[start..b.sentenceEnd]) then SplitWhole(line, start, b.end)
      else [Strip(line[start..b.sentenceEnd])] + SplitWhole(line, b.end, b.end)
  }

  /** The linear-time splitter finds the same sentences as the one without the shortcut. */
  lemma {:induction false} SplitFromIsSplitWhole(line: string, start: nat, prevEnd: nat)
    requires start <= prevEnd <= |line| && (start == prevEnd || AfterSpace(line, prevEnd))
    ensures SplitFrom(line, start, prevEnd) == SplitWhole(line, start, prevEnd)
    decreases |line| - prevEnd
  {
    hide EndsWithAbbreviation, Strip, IsSpace;
    var next := NextBoundary(line, prevEnd);
    if next.Some? {
      var b := next.value;
      SegmentVerdictIsSentenceVerdict(line, start, prevEnd);
      SplitFromIsSplitWhole(line, b.end, b.end);
      assert AfterSpace(line, b.end) by { LastIsSpace(line, b.sentenceEnd, b.end); }
      SplitFromIsSplitWhole(line, start, b.end);
    }
  }

  lemma LastIsSpace(line: string, i: nat, j: nat)
    requires i < j <= |line| && AllSpace(line[i..j])
    ensures IsSpace(line[j - 1])
  {
    hide IsSpace;
    assert line[i..j][j - 1 - i] == line[j - 1];
  }
}
