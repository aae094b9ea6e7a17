/** The prompt of one chat turn (src/app/chat/context.py): escaped source blocks under a fixed system message. */
module PromptContext {
  import opened Models
  import opened Citations

  // ---- html.escape ----

  function EscapeChar(c: char, quote: bool): string {
    if c == '&' then "&amp;"
    else if c == '<' then "&lt;"
    else if c == '>' then "&gt;"
    else if quote && c == '"' then "&quot;"
    else if quote && c == '\'' then "&#x27;"
    else [c]
  }

  function Escape(s: string, quote: bool): string {
    if s == "" then "" else EscapeChar(s[0], quote) + Escape(s[1..], quote)
  }

  /** The entity at the head of s, if any. */
  function Entity(s: string): Option<(string, char)> {
    if "&amp;" <= s then Some(("&amp;", '&'))
    else if "&lt;" <= s then Some(("&lt;", '<'))
    else if "&gt;" <= s then Some(("&gt;", '>'))
    else if "&quot;" <= s then Some(("&quot;", '"'))
    else if "&#x27;" <= s then Some(("&#x27;", '\''))
    else None
  }

  function Unescape(s: string): string {
    if s == "" then ""
    else
      match Entity(s)
      case Some(e) => [e.1] + Unescape(s[|e.0|..])
      case None => [s[0]] + Unescape(s[1..])
  }

  lemma EscapedHead(c: char, quote: bool, rest: string)
    ensures Unescape(EscapeChar(c, quote) + rest) == [c] + Unescape(rest)
  {
    var e := EscapeChar(c, quote);
    var s := e + rest;
    assert s[..|e|] == e && s[|e|..] == rest;
    if c == '&' || c == '<' || c == '>' || (quote && (c == '"' || c == '\'')) {
      assert e <= s && s[1] == e[1];
      assert Entity(s) == Some((e, c));
    } else {
      assert s[0] == c;
      assert Entity(s).None?;
    }
  }

  /** Escaping loses nothing. */
  lemma {:induction false} UnescapeEscape(s: string, quote: bool)
    ensures Unescape(Escape(s, quote)) == s
  {
    hide Unescape, EscapeChar;
    if s == "" {
      assert Unescape("") == "" by { UnescapeNothing(); }
    } else {
      UnescapeEscape(s[1..], quote);
      EscapedHead(s[0], quote, Escape(s[1..], quote));
    }
  }

  lemma UnescapeNothing()
    ensures Unescape("") == ""
  {
  }

  predicate Inert(s: string, quote: bool) {
    '<' !in s && '>' !in s && (quote ==> '"' !in s && '\'' !in s)
  }

  lemma EscapedCharIsInert(c: char, quote: bool)
    ensures Inert(EscapeChar(c, quote), quote)
  {
  }

  /** Escaped text holds no angle bracket, and inside quotes no quotation mark. */
  lemma {:induction false} EscapeIsInert(s: string, quote: bool)
    ensures Inert(Escape(s, quote), quote)
  {
    hide EscapeChar;
    if s != "" {
      EscapeIsInert(s[1..], quote);
      EscapedCharIsInert(s[0], quote);
    }
  }

  // ---- rendering ----

  const OPEN := "<source id=\""
  const TITLE := "\" title=\""
  const TEXT := "\">"
  const CLOSE := "</source>"
  const GAP := "\n\n"
  const NOTHING_FOUND := "no sources were retrieved for this question"
  const NO_SOURCES := "(" + NOTHING_FOUND + ")"

  /** The line the system template ends in; the fixed instructions above it are not part of this model. */
  const SYSTEM_PREFIX := "Sources:\n"

  datatype Block = Block(id: string, title: string, text: string)

  function BlockOf(c: RetrievedChunk): Block {
    Block(c.chunk.id, c.chunk.title, c.chunk.text)
  }

  function BlocksOf(chunks: seq<RetrievedChunk>): seq<Block> {
    seq(|chunks|, i requires 0 <= i < |chunks| => BlockOf(chunks[i]))
  }

  function Render(b: Block): string {
    OPEN + Escape(b.id, true) + TITLE + Escape(b.title, true) + TEXT + Escape(b.text, false) + CLOSE
  }

  function RenderAll(blocks: seq<Block>): string {
    if blocks == [] then ""
    else if |blocks| == 1 then Render(blocks[0])
    else Render(blocks[0]) + GAP + RenderAll(blocks[1..])
  }

  function SourcesText(blocks: seq<Block>): string {
    if RenderAll(blocks) == "" then NO_SOURCES else RenderAll(blocks)
  }

  datatype Assembled = Assembled(messages: seq<Message>, sourceRefs: seq<SourceRef>)

  function AssembleContext(question: string, chunks: seq<RetrievedChunk>, history: seq<Message>): Assembled {
    Assembled(
      [Message(System, SYSTEM_PREFIX + SourcesText(BlocksOf(chunks)))] + history + [Message(User, question)],
      RefsOf(chunks))
  }

  // ---- reading it back ----

  /** Index of the first c in s, or |s|. */
  function Find(s: string, c: char): (i: nat)
    ensures i <= |s|
  {
    if s == "" || s[0] == c then 0 else 1 + Find(s[1..], c)
  }

  /** s up to the first c, and what follows it when that begins with `mark`. */
  function Field(s: string, c: char, mark: string): Option<(string, string)> {
    var i := Find(s, c);
    if mark <= s[i..] then Some((s[..i], s[i + |mark|..])) else None
  }

  function ParseBlock(s: string): Option<(Block, string)> {
    if !(OPEN <= s) then None
    else
      match Field(s[|OPEN|..], '"', TITLE)
      case None => None
      case Some(id) =>
        match Field(id.1, '"', TEXT)
        case None => None
        case Some(title) =>
          match Field(title.1, '<', CLOSE)
          case None => None
          case Some(text) => Some((Block(Unescape(id.0), Unescape(title.0), Unescape(text.0)), text.1))
  }

  function ParseAll(s: string): Option<seq<Block>>
    decreases |s|
  {
    match ParseBlock(s)
    case None => None
    case Some(head) =>
      if head.1 == "" then Some([head.0])
      else if !(GAP <= head.1) || |head.1| >= |s| then None
      else
        match ParseAll(head.1[|GAP|..])
        case None => None
        case Some(rest) => Some([head.0] + rest)
  }

  function ParseSources(s: string): Option<seq<Block>> {
    if s == NO_SOURCES then Some([]) else ParseAll(s)
  }

  function ParseSystem(message: string): Option<seq<Block>> {
    if SYSTEM_PREFIX <= message then ParseSources(message[|SYSTEM_PREFIX|..]) else None
  }

  lemma {:induction false} FindAt(a: string, c: char, rest: string)
    requires c !in a && rest != "" && rest[0] == c
    ensures Find(a + rest, c) == |a|
  {
    if a == "" {
      assert a + rest == rest;
    } else {
      FindAt(a[1..], c, rest);
      assert (a + rest)[1..] == a[1..] + rest;
    }
  }

  lemma FieldReadsBack(a: string, c: char, mark: string, rest: string)
    requires c !in a && mark != "" && mark[0] == c
    ensures Field(a + (mark + rest), c, mark) == Some((a, rest))
  {
    hide Find;
    FindAt(a, c, mark + rest);
    var s := a + (mark + rest);
    assert s[..|a|] == a && s[|a|..] == mark + rest && s[|a| + |mark|..] == rest;
  }

  lemma BlockReadsBack(b: Block, rest: string)
    ensures ParseBlock(Render(b) + rest) == Some((b, rest))
    ensures |Render(b)| > 0 && Render(b)[0] == '<'
  {
    hide Field, Escape, Unescape;
    var id, title, text := Escape(b.id, true), Escape(b.title, true), Escape(b.text, false);
    EscapeIsInert(b.id, true);
    EscapeIsInert(b.title, true);
    EscapeIsInert(b.text, false);
    UnescapeEscape(b.id, true);
    UnescapeEscape(b.title, true);
    UnescapeEscape(b.text, false);
    var afterText := rest;
    var afterTitle := text + (CLOSE + rest);
    var afterId := title + (TEXT + afterTitle);
    var afterOpen := id + (TITLE + afterId);
    assert Render(b) + rest == OPEN + afterOpen;
    assert (OPEN + afterOpen)[|OPEN|..] == afterOpen;
    FieldReadsBack(id, '"', TITLE, afterId);
    FieldReadsBack(title, '"', TEXT, afterTitle);
    FieldReadsBack(text, '<', CLOSE, rest);
  }

  lemma ParsesOneMore(b: Block, rest: string, blocks: seq<Block>)
    requires ParseAll(rest) == Some(blocks) && rest != ""
    ensures ParseAll(Render(b) + (GAP + rest)) == Some([b] + blocks)
  {
    hide ParseBlock, Render;
    BlockReadsBack(b, GAP + rest);
    assert (GAP + rest)[|GAP|..] == rest;
  }

  lemma ParsesOne(b: Block)
    ensures ParseAll(Render(b)) == Some([b])
  {
    hide ParseBlock, Render;
    BlockReadsBack(b, "");
    assert Render(b) + "" == Render(b);
  }

  lemma {:induction false} AllReadBack(blocks: seq<Block>)
    requires blocks != []
    ensures ParseAll(RenderAll(blocks)) == Some(blocks)
    ensures RenderAll(blocks) != "" && RenderAll(blocks)[0] == '<'
  {
    hide ParseAll, ParseBlock, Render;
    BlockReadsBack(blocks[0], "");
    if |blocks| == 1 {
      ParsesOne(blocks[0]);
      assert blocks == [blocks[0]];
    } else {
      var rest := RenderAll(blocks[1..]);
      AllReadBack(blocks[1..]);
      ParsesOneMore(blocks[0], rest, blocks[1..]);
      assert RenderAll(blocks) == Render(blocks[0]) + (GAP + rest);
      assert blocks == [blocks[0]] + blocks[1..];
    }
  }

  /** Whatever ids, titles and texts the chunks hold, the rendered sources read back as exactly those chunks in
      order; an empty list reads back as empty and nothing else does. */
  lemma SourcesReadBack(blocks: seq<Block>)
    ensures ParseSources(SourcesText(blocks)) == Some(blocks)
    ensures SourcesText(blocks) == NO_SOURCES <==> blocks == []
  {
    hide ParseAll, RenderAll;
    if blocks == [] {
      assert RenderAll([]) == "" by { RenderNothing(); }
    } else {
      AllReadBack(blocks);
      PlaceholderIsNoBlock();
    }
  }

  lemma PlaceholderIsNoBlock()
    ensures NO_SOURCES != "" && NO_SOURCES[0] == '('
  {
  }

  lemma RenderNothing()
    ensures RenderAll([]) == ""
  {
  }

  /** No two different source lists make the same text: no content can forge, close or reorder a block. */
  lemma SourcesAreUnforgeable(a: seq<Block>, b: seq<Block>)
    requires SourcesText(a) == SourcesText(b)
    ensures a == b
  {
    hide ParseSources, SourcesText;
    SourcesReadBack(a);
    SourcesReadBack(b);
  }

  /** The blocks a reader of the system message finds are the chunks: ids, titles and texts, in order. */
  predicate Shows(system: string, chunks: seq<RetrievedChunk>) {
    match ParseSystem(system)
    case None => false
    case Some(blocks) =>
      && |blocks| == |chunks|
      && forall k :: 0 <= k < |chunks| ==>
           && blocks[k].id == chunks[k].chunk.id
           && blocks[k].title == chunks[k].chunk.title
           && blocks[k].text == chunks[k].chunk.text
  }

  /** Citation k names chunk k. */
  predicate CitesEach(refs: seq<SourceRef>, chunks: seq<RetrievedChunk>) {
    && |refs| == |chunks|
    && forall k :: 0 <= k < |chunks| ==>
         && refs[k].chunkId == chunks[k].chunk.id
         && refs[k].docId == chunks[k].chunk.docId
         && refs[k].title == chunks[k].chunk.title
  }

  /** The system message shows the chunks and the citations list the same chunks: block k is citation k. */
  lemma PromptCitesWhatItShows(question: string, chunks: seq<RetrievedChunk>, history: seq<Message>)
    ensures
      var prompt := AssembleContext(question, chunks, history);
      && |prompt.messages| == |history| + 2
      && prompt.messages[0].role == System
      && prompt.messages[1..|prompt.messages| - 1] == history
      && prompt.messages[|prompt.messages| - 1] == Message(User, question)
      && Shows(prompt.messages[0].content, chunks)
      && CitesEach(prompt.sourceRefs, chunks)
  {
    hide ParseSources, SourcesText, SYSTEM_PREFIX;
    var sources := SourcesText(BlocksOf(chunks));
    SourcesReadBack(BlocksOf(chunks));
    assert (SYSTEM_PREFIX + sources)[|SYSTEM_PREFIX|..] == sources;
  }

  // ---- nothing is escaped without need ----

  predicate Plain(s: string, quote: bool) {
    '&' !in s && '<' !in s && '>' !in s && (quote ==> '"' !in s && '\'' !in s)
  }

  lemma {:induction false} EscapeGrows(s: string, quote: bool)
    ensures |Escape(s, quote)| >= |s|
    ensures !Plain(s, quote) ==> |Escape(s, quote)| > |s|
  {
    if s != "" {
      EscapeGrows(s[1..], quote);
    }
  }

  /** Escaping leaves a text alone exactly when it has none of the characters html.escape replaces; outside attributes
      quotation marks are not among them. */
  lemma {:induction false} EscapeIsMinimal(s: string, quote: bool)
    ensures Escape(s, quote) == s <==> Plain(s, quote)
  {
    EscapeGrows(s, quote);
    if s != "" && Plain(s, quote) {
      EscapeIsMinimal(s[1..], quote);
      assert s == [s[0]] + s[1..];
    }
  }

  /** A chunk with nothing to escape is shown word for word, its quotation marks included. */
  lemma PlainBlockIsVerbatim(c: RetrievedChunk)
    requires Plain(c.chunk.id, true) && Plain(c.chunk.title, true) && Plain(c.chunk.text, false)
    ensures SourcesText(BlocksOf([c]))
      == "<source id=\"" + c.chunk.id + "\" title=\"" + c.chunk.title + "\">" + c.chunk.text + "</source>"
  {
    hide Escape;
    EscapeIsMinimal(c.chunk.id, true);
    EscapeIsMinimal(c.chunk.title, true);
    EscapeIsMinimal(c.chunk.text, false);
    assert BlocksOf([c])[0] == Block(c.chunk.id, c.chunk.title, c.chunk.text);
  }

  lemma {:induction false} RenderedApart(a: seq<Block>, b: seq<Block>)
    requires a != [] && b != []
    ensures RenderAll(a + b) == RenderAll(a) + (GAP + RenderAll(b))
  {
    hide Render, GAP;
    if |a| == 1 {
      assert (a + b)[1..] == b;
      assert Render(a[0]) + GAP + RenderAll(b) == Render(a[0]) + (GAP + RenderAll(b));
    } else {
      RenderedApart(a[1..], b);
      assert (a + b)[1..] == a[1..] + b;
      var head, x, y := Render(a[0]) + GAP, RenderAll(a[1..]), GAP + RenderAll(b);
      assert head + (x + y) == head + x + y;
    }
  }

  /** A blank line stands between any two runs of blocks, and nothing else. */
  lemma BlocksAreSeparated(a: seq<Block>, b: seq<Block>)
    requires a != [] && b != []
    ensures SourcesText(a + b) == SourcesText(a) + "\n\n" + SourcesText(b)
  {
    hide RenderAll, ParseAll, NO_SOURCES;
    AllReadBack(a);
    AllReadBack(b);
    AllReadBack(a + b);
    RenderedApart(a, b);
    assert RenderAll(a) + (GAP + RenderAll(b)) == RenderAll(a) + "\n\n" + RenderAll(b);
  }
}
