/** The POST /chat pipeline (src/app/api/chat.py): history, cache, retrieval, reranking, gate, prompt, model, and the
    turns and cache entry it leaves behind. */
module Chat {
  import opened Models
  import opened ChunkStore
  import opened Citations
  import opened Words
  import opened ResponseCache
  import opened SessionStore
  import opened PromptContext
  import CacheCoherence
  import HybridRetriever
  import RankFusion
  import Reranker

  const HISTORY_LIMIT := 10
  const RERANK_TOP_N := 5

  datatype Reply =
    | Replied(answer: string, sources: seq<SourceRef>, cached: bool)
    | Escalated            // the fixed refusal, with no sources
    | Unavailable          // 503: the model failed or said nothing
    | ServerError          // the session store raised
    | RetrievalRaised      // a search, the query embedding or the chunk store raised

  /** The generation model: `asked` is every prompt so far, `answers` what came back, None for an error after its own
      retries. */
  class GenerationModel {
    ghost var asked: seq<seq<Message>>
    ghost var answers: seq<Option<string>>
    ghost var faults: nat

    constructor ()
      ensures asked == [] && answers == [] && faults == 0
    {
      asked, answers, faults := [], [], 0;
    }

    method Complete(messages: seq<Message>) returns (answer: Option<string>)
      modifies this
      ensures asked == old(asked) + [messages] && answers == old(answers) + [answer]
      ensures faults == old(faults) + if answer.Some? then 0 else 1
    {
      answer := *;
      asked, answers := asked + [messages], answers + [answer];
      faults := faults + if answer.Some? then 0 else 1;
    }
  }

  /** Every prompt is the system message, then question and answer in turn, then the question. */
  predicate PromptShape(prompt: seq<Message>, question: string) {
    && |prompt| >= 2 && |prompt| % 2 == 0
    && prompt[0].role == System
    && Paired(prompt[1..|prompt| - 1])
    && prompt[|prompt| - 1] == Message(User, question)
  }

  /** What one request was decided by: the chunks found, those to show the model, and the best score. */
  datatype Trace = Trace(found: seq<RetrievedChunk>, shown: seq<RetrievedChunk>, best: Option<nat>)

  const NOTHING_DONE := Trace([], [], None)

  /** `found` is the retrieval result for the question, given the hits of the two indexes. */
  ghost predicate Retrieved(t: Tables, question: string, bm25: seq<string>, vector: seq<string>,
                            found: seq<RetrievedChunk>) {
    && RankFusion.AgreementFirst(found)
    && if Strip(question) == "" then found == []
       else
         && RankFusion.Distinct(bm25) && RankFusion.Distinct(vector) && |bm25| <= 20 && |vector| <= 20
         && HybridRetriever.IsAnswer(t, bm25, vector, 12, found)
  }

  /** Refused for want of context: nothing was found, or the best score is below the floor. */
  predicate Ungrounded(trace: Trace, minScore: real) {
    trace.found == [] || (trace.best.Some? && trace.best.value as real < minScore)
  }

  /** The gate: something was found, and no score speaks against it. */
  predicate Passes(trace: Trace, minScore: real) {
    trace.found != [] && (trace.best.None? || trace.best.value as real >= minScore)
  }

  /** The prompts a request sends: one past the gate, none before it. */
  function Prompts(trace: Trace, minScore: real, question: string, history: seq<Message>): seq<seq<Message>> {
    if Passes(trace, minScore) then [AssembleContext(question, trace.shown, history).messages] else []
  }

  /** A prompt for the question: its sources are at most five stored rows, with their ids, titles and texts, then comes
      the history, then the question. */
  predicate ReadsStored(t: Tables, prompt: seq<Message>, question: string, history: seq<Message>) {
    && |prompt| == |history| + 2
    && prompt[0].role == System
    && ShowsRows(t, prompt[0].content)
    && prompt[1..|prompt| - 1] == history
    && prompt[|prompt| - 1] == Message(User, question)
  }

  predicate ShowsRows(t: Tables, system: string) {
    match ParseSystem(system)
    case None => false
    case Some(blocks) => |blocks| <= 5 && forall k :: 0 <= k < |blocks| ==>
      && blocks[k].id in t.chunks
      && blocks[k].title == t.chunks[blocks[k].id].title && blocks[k].text == t.chunks[blocks[k].id].text
  }

  /** A fresh reply is what the model just said, citing what it was shown. */
  predicate Grounded(trace: Trace, minScore: real, said: Option<string>, reply: Reply) {
    && Passes(trace, minScore)
    && reply.Replied? && said == Some(reply.answer) && Strip(reply.answer) != ""
    && CitesEach(reply.sources, trace.shown)
  }

  /** An answer there was to give: the live cached one, or what the model said past the gate. */
  ghost predicate Usable(trace: Trace, minScore: real, redis: Redis, fp: string, said: Option<string>, answer: string) {
    || (Live(redis, CacheKey(fp)) && redis.entries[CacheKey(fp)].response.answer == answer)
    || (Passes(trace, minScore) && said == Some(answer) && Strip(answer) != "")
  }

  /** What the model just sent back, if the request asked it. */
  function Said(answers: seq<Option<string>>, trace: Trace, minScore: real): Option<string> {
    if Passes(trace, minScore) && answers != [] then answers[|answers| - 1] else None
  }

  class Endpoint {
    const sessions: SessionStore.Store
    const retriever: HybridRetriever.Retriever
    const scorer: Reranker.ScoringModel
    const model: GenerationModel
    const cache: Cache
    const ttl: int
    const minScore: real

    constructor (sessions: SessionStore.Store, retriever: HybridRetriever.Retriever, scorer: Reranker.ScoringModel,
                 model: GenerationModel, cache: Cache, ttl: int, minScore: real)
      ensures this.sessions == sessions && this.retriever == retriever && this.cache == cache
      ensures this.scorer == scorer && this.model == model
      ensures this.ttl == ttl && this.minScore == minScore
    {
      this.sessions, this.retriever, this.cache := sessions, retriever, cache;
      this.scorer, this.model := scorer, model;
      this.ttl, this.minScore := ttl, minScore;
    }

    ghost function History(sessionId: string): seq<Message>
      reads sessions
    {
      Turns(sessions.db, SessionKey(sessionId))
    }

    /** _append_turns: the question, then the answer, in a transaction each. */
    method AppendTurns(sessionId: string, question: string, answer: string) returns (ok: bool)
      modifies sessions
      ensures CutShort(sessions.db, old(sessions.db), SessionKey(sessionId), question, answer)
      ensures !ValidId(sessionId) ==> !ok && sessions.db == old(sessions.db)
      ensures ok ==> sessions.db == Exchange(old(sessions.db), SessionKey(sessionId), question, answer)
      ensures sessions.faults >= old(sessions.faults)
      ensures !ok ==> !ValidId(sessionId) || sessions.faults > old(sessions.faults)
    {
      hide Appended;
      var result := sessions.AppendTurn(sessionId, Message(User, question));
      if !result.Ok? {
        return false;
      }
      result := sessions.AppendTurn(sessionId, Message(Assistant, answer));
      return result.Ok?;
    }

    /** The model's last answer was blank. */
    ghost predicate SaidNothing(trace: Trace)
      reads model
    {
      var said := Said(model.answers, trace, minScore);
      said.Some? && Strip(said.value) == ""
    }

    /** The answer has been cached, unless Redis failed. */
    twostate predicate Cached(new reply: Reply, fp: string)
      requires reply.Replied?
      reads cache.client
    {
      || cache.client.db == Execute(old(cache.client.db),
           SetPipe(fp, CachedResponse(reply.answer, reply.sources), CitedDocs(reply.sources), ttl))
      || (cache.client.faults > old(cache.client.faults) && cache.client.db == old(cache.client.db))
    }

    /** No index, embedder or model has been asked anything. */
    twostate predicate NobodyAsked()
      reads retriever.keywords, retriever.embedder, retriever.vectors, scorer, model
    {
      && retriever.NobodyAsked()
      && scorer.asked == old(scorer.asked) && scorer.replies == old(scorer.replies)
      && model.asked == old(model.asked) && model.answers == old(model.answers) && model.faults == old(model.faults)
    }

    /** The chunks found are those of the question, from hits the indexes returned to it. */
    twostate predicate RetrievedNow(t: Tables, question: string, new trace: Trace)
      reads retriever.keywords, retriever.embedder, retriever.vectors
    {
      && (if Strip(question) == "" then retriever.NobodyAsked() else retriever.EachAskedOnce(question, 20))
      && Retrieved(t, question, retriever.keywords.hits, retriever.vectors.hits, trace.found)
    }

    /** The chunks shown and the best score follow from the scoring model's replies, one for each chunk found. */
    twostate predicate RerankedNow(question: string, new trace: Trace, new replies: seq<Option<string>>)
      reads scorer
    {
      && Reranker.AskedAbout(scorer, question, trace.found, replies)
      && Reranker.Reranked(replies, trace.found, 5, trace.shown, trace.best)
    }

    /** The generation model has been asked once past the gate and not at all otherwise, with the assembled prompt. */
    twostate predicate PromptedNow(question: string, history: seq<Message>, new trace: Trace)
      reads model
    {
      && model.asked == old(model.asked) + Prompts(trace, minScore, question, history)
      && |model.answers| == |old(model.answers)| + (if Passes(trace, minScore) then 1 else 0)
      && old(model.answers) <= model.answers
    }

    /** Retrieve and rerank. */
    method FindSources(t: Tables, question: string)
      returns (ok: bool, trace: Trace, ghost replies: seq<Option<string>>)
      requires RowsOk(t)
      modifies retriever, retriever.keywords, retriever.embedder, retriever.vectors, scorer
      ensures retriever.Faults() == old(retriever.Faults()) + if ok then 0 else 1
      ensures !ok ==> trace == NOTHING_DONE
      ensures ok ==> RetrievedNow(t, question, trace)
      ensures RerankedNow(question, trace, replies)
      ensures CacheCoherence.Hydrated(t, trace.shown) && |trace.shown| <= 5
    {
      hide Strip, RowsOk, HybridRetriever.IsAnswer, RankFusion.AgreementFirst, RankFusion.Distinct, Reranker.Reranked;
      trace, replies := NOTHING_DONE, [];
      NothingReranked();
      assert scorer.asked + [] == scorer.asked && scorer.replies + [] == scorer.replies;
      var found;
      ok, found := retriever.Retrieve(t, question, 20, 12);
      if !ok {
        return;
      }
      trace := trace.(found := found);
      if found != [] {
        RetrievedAreStored(t, retriever.keywords.hits, retriever.vectors.hits, found);
        var shown, best;
        shown, best, replies := Reranker.RerankScored(scorer, question, found, RERANK_TOP_N);
        ShownAreStored(t, replies, found, shown, best);
        trace := trace.(shown := shown, best := best);
      }
    }

    /** The live half: retrieve, rerank, gate, assemble, generate. Nothing is stored here. */
    method Generate(t: Tables, question: string, history: seq<Message>)
      returns (reply: Reply, ghost trace: Trace, ghost replies: seq<Option<string>>)
      requires RowsOk(t)
      modifies retriever, retriever.keywords, retriever.embedder, retriever.vectors, scorer, model
      ensures !reply.ServerError? && (reply.Replied? ==> !reply.cached)
      ensures retriever.Faults() == old(retriever.Faults()) + if reply.RetrievalRaised? then 1 else 0
      ensures reply.RetrievalRaised? ==> trace == NOTHING_DONE
      ensures !reply.RetrievalRaised? ==> RetrievedNow(t, question, trace)
      ensures RerankedNow(question, trace, replies)
      ensures PromptedNow(question, history, trace)
      ensures Passes(trace, minScore) ==>
        model.asked != [] && ReadsStored(t, model.asked[|model.asked| - 1], question, history)
      ensures CacheCoherence.Hydrated(t, trace.shown) && |trace.shown| <= 5
      ensures reply.Escalated? ==> Ungrounded(trace, minScore)
      ensures reply.Unavailable? ==> Passes(trace, minScore) && (model.faults > old(model.faults) || SaidNothing(trace))
      ensures reply.Replied? ==> Grounded(trace, minScore, Said(model.answers, trace, minScore), reply)
    {
      hide Strip, RowsOk, AssembleContext, CitesEach, RetrievedNow, RerankedNow, ReadsStored, CacheCoherence.Hydrated;
      replies := [];
      var ok, decided;
      ok, decided, replies := FindSources(t, question);
      trace := decided;
      if !ok {
        return RetrievalRaised, trace, replies;
      }
      if decided.found == [] {
        return Escalated, trace, replies;
      }
      if decided.best.Some? && decided.best.value as real < minScore {
        return Escalated, trace, replies;
      }
      var assembled := AssembleContext(question, decided.shown, history);
      CitesShown(question, decided.shown, history);
      PromptReadsStored(t, question, decided.shown, history);
      var answer := model.Complete(assembled.messages);
      if answer.None? || Strip(answer.value) == "" {
        return Unavailable, trace, replies;
      }
      return Replied(answer.value, assembled.sourceRefs, false), trace, replies;
    }

    /** A cache miss, or a later turn: generate, and keep what was answered. */
    method Respond(t: Tables, sessionId: string, question: string, history: seq<Message>, fp: string)
      returns (reply: Reply, ghost trace: Trace, ghost replies: seq<Option<string>>)
      requires RowsOk(t) && ValidId(sessionId)
      modifies sessions, retriever, retriever.keywords, retriever.embedder, retriever.vectors, scorer, model
      modifies cache.client
      ensures reply.Replied? ==> !reply.cached
      ensures cache.client.faults >= old(cache.client.faults)
      ensures reply.ServerError? ==>
        && sessions.faults > old(sessions.faults) && cache.client.db == old(cache.client.db)
        && exists answer ::
             && Usable(trace, minScore, old(cache.client.db), fp, Said(model.answers, trace, minScore), answer)
             && CutShort(sessions.db, old(sessions.db), SessionKey(sessionId), question, answer)
      ensures reply.RetrievalRaised? ==> retriever.Faults() > old(retriever.Faults())
      ensures reply.RetrievalRaised? || reply.Escalated? || reply.Unavailable? ==>
        sessions.db == old(sessions.db) && cache.client.db == old(cache.client.db)
      ensures reply.Escalated? ==> Ungrounded(trace, minScore)
      ensures reply.Unavailable? ==> Passes(trace, minScore) && (model.faults > old(model.faults) || SaidNothing(trace))
      ensures reply.Replied? ==>
        && sessions.db == Exchange(old(sessions.db), SessionKey(sessionId), question, reply.answer)
        && Grounded(trace, minScore, Said(model.answers, trace, minScore), reply)
        && CacheCoherence.Hydrated(t, trace.shown)
        && (if history != [] then cache.client.db == old(cache.client.db) else Cached(reply, fp))
      ensures !reply.RetrievalRaised? ==> RetrievedNow(t, question, trace)
      ensures RerankedNow(question, trace, replies)
      ensures PromptedNow(question, history, trace)
      ensures Passes(trace, minScore) ==>
        model.asked != [] && ReadsStored(t, model.asked[|model.asked| - 1], question, history)
    {
      hide Strip, RowsOk, Exchange, Execute, SetPipe, CitedDocs, CacheCoherence.Hydrated, CacheKey, Live, Retrieved,
        Reranker.Reranked, Ungrounded, CutShort, ReadsStored, CitesEach, Prompts;
      reply, trace, replies := Generate(t, question, history);
      if !reply.Replied? {
        return;
      }
      var ok := AppendTurns(sessionId, question, reply.answer);
      if !ok {
        return ServerError, trace, replies;
      }
      if history == [] {
        cache.Set(fp, CachedResponse(reply.answer, reply.sources), CitedDocs(reply.sources), ttl);
      }
    }

    /** _run_chat. `fp` is the digest of the normalised question; `live` says whether the request got past the cache. */
    method RunChat(t: Tables, sessionId: string, question: string, fp: string)
      returns (reply: Reply, ghost trace: Trace, ghost replies: seq<Option<string>>, ghost live: bool)
      requires RowsOk(t)
      modifies sessions, retriever, retriever.keywords, retriever.embedder, retriever.vectors, scorer, model
      modifies cache.client
      // a failed request has its cause; a failing retrieval leaves session and cache as they were
      ensures reply.ServerError? ==>
        (!ValidId(sessionId) || sessions.faults > old(sessions.faults)) && cache.client.db == old(cache.client.db)
      // a failing session store may have kept nothing, the question alone or the exchange
      ensures reply.ServerError? ==>
        || sessions.db == old(sessions.db)
        || exists answer ::
             && Usable(trace, minScore, old(cache.client.db), fp, Said(model.answers, trace, minScore), answer)
             && CutShort(sessions.db, old(sessions.db), SessionKey(sessionId), question, answer)
      ensures reply.RetrievalRaised? ==> retriever.Faults() > old(retriever.Faults())
      // and so does a refusal or an unusable generation, each with its reason
      ensures reply.RetrievalRaised? || reply.Escalated? || reply.Unavailable? ==>
        live && sessions.db == old(sessions.db) && cache.client.db == old(cache.client.db)
      ensures reply.Escalated? ==> Ungrounded(trace, minScore)
      ensures reply.Unavailable? ==> Passes(trace, minScore) && (model.faults > old(model.faults) || SaidNothing(trace))
      // an answer adds its exchange to the session
      ensures reply.Replied? ==>
        sessions.db == Exchange(old(sessions.db), SessionKey(sessionId), question, reply.answer)
      // a cached one is the live entry, served on a first turn unless Redis fails, and writes nothing to the cache
      ensures reply.Replied? && reply.cached ==>
        && !live && old(History(sessionId)) == []
        && Live(old(cache.client.db), CacheKey(fp))
        && old(cache.client.db).entries[CacheKey(fp)].response == CachedResponse(reply.answer, reply.sources)
        && cache.client.db == old(cache.client.db)
      ensures old(History(sessionId)) == [] && Live(old(cache.client.db), CacheKey(fp)) ==>
        || (reply.Replied? && reply.cached) || reply.ServerError?
        || cache.client.faults > old(cache.client.faults)
      // a fresh one is what the model said past the gate, citing the stored chunks it was shown
      ensures reply.Replied? && !reply.cached ==>
        && live && Grounded(trace, minScore, Said(model.answers, trace, minScore), reply)
        && CacheCoherence.Hydrated(t, trace.shown)
      // it is cached on a first turn unless Redis fails, and never later
      ensures reply.Replied? && !reply.cached && old(History(sessionId)) != [] ==>
        cache.client.db == old(cache.client.db)
      ensures reply.Replied? && !reply.cached && old(History(sessionId)) == [] ==> Cached(reply, fp)
      // before the cache nobody is asked; past it everything follows from what the indexes and the models said, and the
      // model is asked once past the gate and not at all otherwise, with the last ten turns and stored sources
      ensures !live ==> NobodyAsked() && (reply.ServerError? || (reply.Replied? && reply.cached))
      ensures live && !reply.RetrievalRaised? ==> RetrievedNow(t, question, trace)
      ensures live ==> RerankedNow(question, trace, replies)
      ensures live ==> PromptedNow(question, Last(old(History(sessionId)), 10), trace)
      ensures live && Passes(trace, minScore) ==>
        && model.asked != []
        && ReadsStored(t, model.asked[|model.asked| - 1], question, Last(old(History(sessionId)), 10))
    {
      hide Strip, RowsOk, AssembleContext, Exchange, Turns, Execute, SetPipe, CitedDocs, CacheCoherence.Hydrated,
        CacheKey, Live, Retrieved, Reranker.Reranked, Ungrounded, CutShort, Passes, ReadsStored, CitesEach, Prompts;
      trace, replies, live := NOTHING_DONE, [], false;
      var result, history := sessions.GetHistory(sessionId, HISTORY_LIMIT);
      if !result.Ok? {
        return ServerError, trace, replies, live;
      }
      var first := history == [];
      FirstTurn(Turns(sessions.db, SessionKey(sessionId)));
      if first {
        var cached := cache.Get(fp);
        if cached.Some? {
          var ok := AppendTurns(sessionId, question, cached.value.answer);
          reply := if ok then Replied(cached.value.answer, cached.value.sources, true) else ServerError;
          return reply, trace, replies, live;
        }
      }
      reply, trace, replies := Respond(t, sessionId, question, history, fp);
      live := true;
    }
  }

  /** Sessions, cached answers and document tags share one Redis without sharing a key. */
  lemma KeyspacesAreDisjoint(id: string, fp: string, d: DocId)
    ensures SessionKey(id) != CacheKey(fp) && SessionKey(id) != DocTagKey(d) && CacheKey(fp) != DocTagKey(d)
  {
    assert SessionKey(id)[0] == 's' && CacheKey(fp)[0] == 'c' && DocTagKey(d)[0] == 'd';
  }

  lemma FirstTurn(turns: seq<Message>)
    ensures Last(turns, HISTORY_LIMIT) == [] <==> turns == []
  {
  }

  lemma NothingReranked()
    ensures Reranker.Reranked([], [], 5, [], None) && Reranker.AsksAbout("", []) == []
  {
    Reranker.NothingMerged();
    assert Reranker.ScoresOf([], []) && Reranker.IsMerge([], [], []) && Reranker.Slice<RetrievedChunk>([], 5) == []
      && Reranker.IsBest([], None);
  }

  lemma CitesShown(question: string, shown: seq<RetrievedChunk>, history: seq<Message>)
    ensures CitesEach(AssembleContext(question, shown, history).sourceRefs, shown)
  {
    hide AssembleContext, CitesEach, Shows;
    PromptCitesWhatItShows(question, shown, history);
  }

  lemma PromptReadsStored(t: Tables, question: string, shown: seq<RetrievedChunk>, history: seq<Message>)
    requires CacheCoherence.Hydrated(t, shown) && |shown| <= 5
    ensures ReadsStored(t, AssembleContext(question, shown, history).messages, question, history)
  {
    hide AssembleContext, ParseSystem;
    PromptCitesWhatItShows(question, shown, history);
  }

  lemma RetrievedAreStored(t: Tables, bm25: seq<string>, vector: seq<string>, candidates: seq<RetrievedChunk>)
    requires RankFusion.Distinct(bm25) && RankFusion.Distinct(vector)
    requires HybridRetriever.IsAnswer(t, bm25, vector, 12, candidates)
    ensures CacheCoherence.Hydrated(t, candidates)
  {
    hide HybridRetriever.LeftBehind, HybridRetriever.Ahead, RankFusion.PlaceScore;
  }

  lemma MergeIsStored(t: Tables, candidates: seq<RetrievedChunk>, scores: seq<Option<nat>>, merged: seq<RetrievedChunk>)
    requires CacheCoherence.Hydrated(t, candidates) && Reranker.IsMerge(candidates, scores, merged)
    ensures CacheCoherence.Hydrated(t, merged)
  {
    hide Reranker.Before;
    var p :| Reranker.Merged(candidates, scores, p, merged);
    forall i | 0 <= i < |merged|
      ensures merged[i].chunk.id in t.chunks && t.chunks[merged[i].chunk.id] == merged[i].chunk
    {
      assert merged[i] == Reranker.Rescored(candidates[p[i]], scores[p[i]]);
      assert candidates[p[i]].chunk.id in t.chunks;
    }
  }

  lemma ShownAreStored(t: Tables, replies: seq<Option<string>>, candidates: seq<RetrievedChunk>,
                       shown: seq<RetrievedChunk>, best: Option<nat>)
    requires CacheCoherence.Hydrated(t, candidates)
    requires Reranker.Reranked(replies, candidates, RERANK_TOP_N, shown, best)
    ensures CacheCoherence.Hydrated(t, shown) && |shown| <= 5
  {
    hide Reranker.IsMerge, Reranker.IsBest, Reranker.ScoresOf;
    var scores, merged :| Reranker.ScoresOf(replies, scores) && Reranker.IsMerge(candidates, scores, merged)
      && shown == Reranker.Slice(merged, RERANK_TOP_N) && Reranker.IsBest(scores, best);
    MergeIsStored(t, candidates, scores, merged);
  }

  /** Whenever the stored session is question and answer in turn, so is every prompt, under one system message. */
  lemma PromptsAlternate(history: seq<Message>, question: string, shown: seq<RetrievedChunk>)
    requires Paired(history)
    ensures PromptShape(AssembleContext(question, shown, Last(history, 10)).messages, question)
  {
    hide AssembleContext, ParseSystem;
    LastPaired(history, HISTORY_LIMIT);
    PromptCitesWhatItShows(question, shown, Last(history, 10));
  }

  /** So over every serial run of a session, pauses and expiries included, the model only ever sees such prompts. */
  lemma EveryPromptAlternates(db: Db, key: string, requests: seq<Request>, question: string, shown: seq<RetrievedChunk>)
    requires key !in db.lists
    ensures
      var history := Last(Turns(Serve(db, key, requests), key), 10);
      PromptShape(AssembleContext(question, shown, history).messages, question)
  {
    hide Serve, Turns, AssembleContext, PromptShape;
    SerialRequestsKeepPairs(db, key, requests);
    PromptsAlternate(Turns(Serve(db, key, requests), key), question, shown);
  }
}
