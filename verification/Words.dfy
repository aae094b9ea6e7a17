/** Python's whitespace, str.split(), str.strip() and str.splitlines(). */
module Words {
  predicate IsSpace(c: char) {
    var n := c as int;
    9 <= n <= 13 || 0x1c <= n <= 0x20 || n == 0x85 || n == 0xa0 || n == 0x1680 || 0x2000 <= n <= 0x200a
    || n == 0x2028 || n == 0x2029 || n == 0x202f || n == 0x205f || n == 0x3000
  }

  /** The characters at which str.splitlines() breaks; all of them are whitespace. */
  predicate IsBreak(c: char) {
    var n := c as int;
    10 <= n <= 13 || 0x1c <= n <= 0x1e || n == 0x85 || n == 0x2028 || n == 0x2029
  }

  /** The everyday ones: a space and a tab are whitespace within a line, a newline and a carriage return end one. */
  lemma SpacesAndBreaks(c: char)
    ensures IsBreak(c) ==> IsSpace(c)
    ensures IsSpace(' ') && IsSpace('\t') && IsBreak('\n') && IsBreak('\r') && !IsBreak(' ') && !IsBreak('\t')
    ensures 33 <= c as int <= 126 ==> !IsSpace(c)
  {
  }

  /** str.split(): the maximal runs of non-space characters, in order. */
  function Split(s: string): (words: seq<string>)
    ensures s != "" && !IsSpace(s[|s| - 1]) ==> words != []
  {
    if s == "" then []
    else
      var front, c := Split(s[..|s| - 1]), s[|s| - 1];
      if IsSpace(c) then front
      else if |s| > 1 && !IsSpace(s[|s| - 2]) then front[|front| - 1 := front[|front| - 1] + [c]]
      else front + [[c]]
  }

  predicate AllSpace(s: string) {
    forall i :: 0 <= i < |s| ==> IsSpace(s[i])
  }

  predicate Separated(a: string, b: string) {
    a == "" || b == "" || IsSpace(a[|a| - 1]) || IsSpace(b[0])
  }

  /** Splitting, one character at a time. */
  lemma SplitStep(s: string, c: char)
    ensures s == "" ==> Split(s) == [] && Split(s + [c]) == if IsSpace(c) then [] else [[c]]
    ensures s != "" && IsSpace(c) ==> Split(s + [c]) == Split(s)
    ensures s != "" && !IsSpace(c) && IsSpace(s[|s| - 1]) ==> Split(s + [c]) == Split(s) + [[c]]
    ensures s != "" && !IsSpace(c) && !IsSpace(s[|s| - 1]) ==>
      Split(s) != [] && Split(s + [c]) == Split(s)[|Split(s)| - 1 := Split(s)[|Split(s)| - 1] + [c]]
  {
    assert (s + [c])[..|s|] == s;
  }

  /** Splitting distributes over a concatenation that does not join two words. */
  lemma {:induction false} SplitConcat(a: string, b: string)
    requires Separated(a, b)
    ensures Split(a + b) == Split(a) + Split(b)
  {
    hide Split, IsSpace;
    SplitStep("", ' ');
    if b == "" {
      assert a + b == a;
    } else if a == "" {
      assert a + b == b;
    } else {
      var front, c := b[..|b| - 1], b[|b| - 1];
      SplitConcat(a, front);
      SplitStep(a + front, c);
      SplitStep(front, c);
      assert a + b == a + front + [c] && b == front + [c];
      if front != "" {
        assert (a + front)[|a + front| - 1] == front[|front| - 1];
      } else {
        assert a + front == a;
      }
    }
  }

  lemma {:induction false} SpaceHasNoWords(s: string)
    requires AllSpace(s)
    ensures Split(s) == []
  {
    if s != "" {
      SpaceHasNoWords(s[..|s| - 1]);
    }
  }

  /** Whitespace between two texts keeps their words apart and adds none. */
  lemma SplitAround(a: string, gap: string, b: string)
    requires gap != "" && AllSpace(gap)
    ensures Split(a + gap + b) == Split(a) + Split(b)
  {
    hide Split, IsSpace;
    assert IsSpace(gap[0]) && IsSpace(gap[|gap| - 1]);
    SplitConcat(a, gap);
    SpaceHasNoWords(gap);
    assert (a + gap)[|a + gap| - 1] == gap[|gap| - 1];
    SplitConcat(a + gap, b);
  }

  function LStrip(s: string): string {
    if s != "" && IsSpace(s[0]) then LStrip(s[1..]) else s
  }

  function RStrip(s: string): string {
    if s != "" && IsSpace(s[|s| - 1]) then RStrip(s[..|s| - 1]) else s
  }

  function Strip(s: string): string {
    RStrip(LStrip(s))
  }

  lemma {:induction false} LStripKeepsWords(s: string)
    ensures Split(LStrip(s)) == Split(s)
  {
    if s != "" && IsSpace(s[0]) {
      LStripKeepsWords(s[1..]);
      assert s == [] + s[..1] + s[1..];
      SplitAround([], s[..1], s[1..]);
    }
  }

  lemma {:induction false} RStripKeepsWords(s: string)
    ensures Split(RStrip(s)) == Split(s)
  {
    if s != "" && IsSpace(s[|s| - 1]) {
      RStripKeepsWords(s[..|s| - 1]);
    }
  }

  lemma StripKeepsWords(s: string)
    ensures Split(Strip(s)) == Split(s)
  {
    LStripKeepsWords(s);
    RStripKeepsWords(LStrip(s));
  }

  function FirstBreak(s: string): (i: nat)
    ensures i <= |s| && (i < |s| ==> IsBreak(s[i]))
  {
    if s == "" || IsBreak(s[0]) then 0 else 1 + FirstBreak(s[1..])
  }

  /** Where the line break at i ends: "\r\n" is one break. */
  function BreakEnd(s: string, i: nat): (e: nat)
    requires i < |s|
    ensures i < e <= |s|
  {
    if i + 1 < |s| && s[i] == '\r' && s[i + 1] == '\n' then i + 2 else i + 1
  }

  /** str.splitlines(). */
  function SplitLines(s: string): seq<string>
    decreases |s|
  {
    if s == "" then []
    else
      var i := FirstBreak(s);
      if i == |s| then [s] else [s[..i]] + SplitLines(s[BreakEnd(s, i)..])
  }

  /** The words of several texts, one text after the other. */
  function WordsOf(texts: seq<string>): seq<string> {
    if texts == [] then [] else Split(texts[0]) + WordsOf(texts[1..])
  }

  lemma {:induction false} WordsOfConcat(a: seq<string>, b: seq<string>)
    ensures WordsOf(a + b) == WordsOf(a) + WordsOf(b)
  {
    if a == [] {
      assert a + b == b;
    } else {
      assert (a + b)[1..] == a[1..] + b;
      WordsOfConcat(a[1..], b);
    }
  }

  lemma NoWords()
    ensures Split("") == []
  {
  }

  lemma BreakIsSpace(s: string, i: nat)
    requires i < |s| && IsBreak(s[i])
    ensures AllSpace(s[i..BreakEnd(s, i)])
  {
  }

  lemma {:induction false} LinesKeepWords(s: string)
    ensures WordsOf(SplitLines(s)) == Split(s)
    decreases |s|
  {
    hide Split, IsSpace, IsBreak, AllSpace, BreakEnd;
    if s == "" {
      NoWords();
    } else {
      var i := FirstBreak(s);
      if i == |s| {
        assert [s][1..] == [];
      } else {
        BreakIsSpace(s, i);
        var e := BreakEnd(s, i);
        LinesKeepWords(s[e..]);
        assert s == s[..i] + s[i..e] + s[e..];
        SplitAround(s[..i], s[i..e], s[e..]);
        assert ([s[..i]] + SplitLines(s[e..]))[1..] == SplitLines(s[e..]);
      }
    }
  }

  /** " ".join(texts). */
  function Join(texts: seq<string>): string {
    if texts == [] then ""
    else if |texts| == 1 then texts[0]
    else texts[0] + " " + Join(texts[1..])
  }

  lemma {:induction false} JoinKeepsWords(texts: seq<string>)
    ensures Split(Join(texts)) == WordsOf(texts)
  {
    if |texts| == 1 {
      assert WordsOf(texts[1..]) == [];
    } else if |texts| > 1 {
      JoinKeepsWords(texts[1..]);
      SplitAround(texts[0], " ", Join(texts[1..]));
    }
  }

  /** One space between any two runs of texts, and nothing else. */
  lemma {:induction false} JoinIsSpaced(a: seq<string>, b: seq<string>)
    requires a != [] && b != []
    ensures Join(a + b) == Join(a) + " " + Join(b)
    ensures |a| == 1 ==> Join(a) == a[0]
  {
    if |a| == 1 {
      assert (a + b)[1..] == b;
    } else {
      JoinIsSpaced(a[1..], b);
      assert (a + b)[1..] == a[1..] + b;
    }
  }

  // ---- what splitting, stripping and line breaking mean ----

  predicate NoSpace(s: string) {
    forall i :: 0 <= i < |s| ==> !IsSpace(s[i])
  }

  /** A run without whitespace is one word; with SplitAround this says what the words of any text are. */
  lemma {:induction false} OneWord(w: string)
    requires w != "" && NoSpace(w)
    ensures Split(w) == [w]
  {
    hide IsSpace;
    var front, c := w[..|w| - 1], w[|w| - 1];
    assert w == front + [c];
    SplitStep(front, c);
    if front != "" {
      OneWord(front);
    }
  }

  predicate Trimmed(s: string) {
    s == "" || (!IsSpace(s[0]) && !IsSpace(s[|s| - 1]))
  }

  lemma {:induction false} LStripped(s: string) returns (before: string)
    ensures s == before + LStrip(s) && AllSpace(before)
    ensures LStrip(s) == "" || !IsSpace(LStrip(s)[0])
  {
    before := "";
    if s != "" && IsSpace(s[0]) {
      var more := LStripped(s[1..]);
      before := [s[0]] + more;
    }
  }

  lemma {:induction false} RStripped(s: string) returns (after: string)
    ensures s == RStrip(s) + after && AllSpace(after)
    ensures RStrip(s) == "" || !IsSpace(RStrip(s)[|RStrip(s)| - 1])
    ensures RStrip(s) != "" ==> RStrip(s)[0] == s[0]
  {
    after := "";
    if s != "" && IsSpace(s[|s| - 1]) {
      var more := RStripped(s[..|s| - 1]);
      after := more + [s[|s| - 1]];
    }
  }

  /** str.strip() takes whitespace, and only whitespace, off both ends. */
  lemma StripTrims(s: string) returns (before: string, after: string)
    ensures s == before + Strip(s) + after && AllSpace(before) && AllSpace(after) && Trimmed(Strip(s))
  {
    hide IsSpace;
    before := LStripped(s);
    after := RStripped(LStrip(s));
  }

  predicate NoBreak(s: string) {
    forall i :: 0 <= i < |s| ==> !IsBreak(s[i])
  }

  lemma {:induction false} FirstBreakAt(a: string, rest: string)
    requires NoBreak(a) && rest != "" && IsBreak(rest[0])
    ensures FirstBreak(a + rest) == |a|
  {
    hide IsBreak;
    if a == "" {
      assert a + rest == rest;
    } else {
      FirstBreakAt(a[1..], rest);
      assert (a + rest)[1..] == a[1..] + rest;
    }
  }

  /** A line ends at each break, and a carriage return followed by a newline is one. */
  lemma LinesEndAtBreaks(a: string, c: char, b: string)
    requires NoBreak(a) && IsBreak(c)
    ensures SplitLines(a + [c] + b) == [a] + if c == '\r' && "\n" <= b then SplitLines(b[1..]) else SplitLines(b)
  {
    hide IsBreak;
    var s := a + [c] + b;
    FirstBreakAt(a, [c] + b);
    assert s == a + ([c] + b);
    assert s[..|a|] == a && s[|a|] == c && s[|a| + 1..] == b;
    if c == '\r' && "\n" <= b {
      assert s[|a| + 1] == '\n' && s[|a| + 2..] == b[1..];
    } else {
      assert BreakEnd(s, |a|) == |a| + 1 by { assert |b| > 0 ==> s[|a| + 1] == b[0]; }
    }
  }

  lemma {:induction false} NoBreakFound(s: string)
    requires NoBreak(s)
    ensures FirstBreak(s) == |s|
  {
    if s != "" {
      NoBreakFound(s[1..]);
    }
  }

  /** A text without a break is one line, and the empty text none. */
  lemma OneLine(s: string)
    requires NoBreak(s)
    ensures SplitLines(s) == if s == "" then [] else [s]
  {
    NoBreakFound(s);
  }
}
