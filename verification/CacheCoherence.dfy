/** Ingestion and the response cache together (src/app/ingestion/pipeline.py, src/app/stores/cache.py,
    src/app/api/chat.py), in runs where no answer is produced while an ingest is under way. */
module CacheCoherence {
  import opened Models
  import opened ChunkIds
  import opened ChunkStore
  import opened IngestInvariant
  import opened IngestSteps
  import opened IngestSafety
  import opened Citations
  import opened ResponseCache
  import O = IngestOutlook
  import P = IngestProtocol

  /** `loose` is history: the versions a sweep has removed since the last eviction of their document's answers. */
  datatype Site = Site(world: P.World, redis: Redis, loose: set<(DocId, nat)>)

  const START := Site(P.INIT, EMPTY, {})

  datatype Step =
    | Ingest(step: P.Step, evicts: bool) // evicts: the invalidation, when this is one, reached Redis
    | Answer(fp: string, answer: string, chunks: seq<RetrievedChunk>, ttl: int)
    | Wait(seconds: nat)

  /** Every chunk an answer is made from was read from the chunk store. */
  predicate Hydrated(t: Tables, chunks: seq<RetrievedChunk>) {
    forall i :: 0 <= i < |chunks| ==> chunks[i].chunk.id in t.chunks && t.chunks[chunks[i].chunk.id] == chunks[i].chunk
  }

  predicate Enabled(s: Site, step: Step) {
    match step
    case Ingest(step, _) => P.Enabled(s.world, step)
    case Answer(_, _, chunks, _) => s.world.phase == P.Idle && Hydrated(s.world.stores.tables, chunks)
    case Wait(_) => true
  }

  predicate Finishes(w: P.World, step: P.Step) {
    w.phase == P.Invalidate && step == P.Ok
  }

  /** The step deletes the rows of a superseded version. */
  predicate Sweeps(w: P.World, step: P.Step, d: DocId, u: nat) {
    w.phase == P.SweepTables(u) && step == P.Ok && w.job.docId == d
  }

  function Apply(s: Site, step: Step): Site {
    match step
    case Ingest(step, evicts) =>
      var d := s.world.job.docId;
      var world := P.Apply(s.world, step);
      if Finishes(s.world, step) && evicts
        then Site(world, Invalidated(s.redis, d), set k | k in s.loose && k.0 != d)
      else if s.world.phase.SweepTables? && step == P.Ok
        then s.(world := world, loose := s.loose + {(d, s.world.phase.u)})
      else s.(world := world)
    case Answer(fp, answer, chunks, ttl) =>
      var refs := RefsOf(chunks);
      s.(redis := Execute(s.redis, SetPipe(fp, CachedResponse(answer, refs), CitedDocs(refs), ttl)))
    case Wait(seconds) => s.(redis := Later(s.redis, seconds))
  }

  function Exec(steps: seq<Step>): Site {
    if steps == [] then START else Apply(Exec(steps[..|steps| - 1]), steps[|steps| - 1])
  }

  predicate Run(steps: seq<Step>) {
    steps == [] || (Run(steps[..|steps| - 1]) && Enabled(Exec(steps[..|steps| - 1]), steps[|steps| - 1]))
  }

  // ---- invariant ----

  /** The answer under `key` is listed under every document it cites. */
  ghost predicate CitedIsListed(r: Redis, key: string, d: DocId) {
    key in r.entries && Cites(r.entries[key].response.sources, d) ==> key in TagSet(r, DocTagKey(d))
  }

  ghost predicate KeysOk(r: Redis) {
    TagsHoldKeys(r) && forall key :: key in r.entries ==> IsCacheKey(key)
  }

  /** The citation still names a stored chunk of its document, under the cited title. */
  predicate RefStored(t: Tables, ref: SourceRef) {
    ref.chunkId in t.chunks && RefOf(t.chunks[ref.chunkId]) == ref
  }

  /** The cited chunk is firmly stored as cited, or its version was superseded. */
  ghost predicate RefSettled(w: P.World, ref: SourceRef) {
    && Owner(ref.chunkId).0 == ref.docId
    && exists row :: O.Settled(w, ref.chunkId, row) && RefOf(row) == ref
  }

  ghost predicate RefOk(s: Site, ref: SourceRef) {
    && RefSettled(s.world, ref)
    && (Owner(ref.chunkId) in s.loose <==> ref.chunkId !in s.world.stores.tables.chunks)
  }

  ghost predicate CurrentOk(s: Site, key: string, i: nat) {
    key in s.redis.entries && i < |s.redis.entries[key].response.sources| ==>
      RefOk(s, s.redis.entries[key].response.sources[i])
  }

  /** A swept version is gone, and its number is not allocated again. */
  ghost predicate GoneForGood(w: P.World, k: (DocId, nat)) {
    k !in w.stores.tables.documents && k.0 in w.committed && k.1 < w.committed[k.0]
  }

  ghost predicate LooseOk(s: Site) {
    forall k :: k in s.loose ==> GoneForGood(s.world, k)
  }

  ghost predicate Coherent(s: Site) {
    && Inv(s.world)
    && LooseOk(s)
    && KeysOk(s.redis)
    && (forall key, d :: CitedIsListed(s.redis, key, d))
    && forall key, i: nat :: CurrentOk(s, key, i)
  }

  // ---- the cache side ----

  /** After an invalidation no answer cites the document, and every other answer is as it was and as listed. */
  lemma InvalidatedCitesNothing(r: Redis, d: DocId, key: string, x: DocId)
    requires KeysOk(r) && CitedIsListed(r, key, d) && CitedIsListed(r, key, x)
    ensures CitedIsListed(Invalidated(r, d), key, x)
    ensures key in Invalidated(r, d).entries ==>
      key in r.entries && Invalidated(r, d).entries[key] == r.entries[key] && !Cites(r.entries[key].response.sources, d)
  {
    hide DocTagKey, IsCacheKey, Cites;
    TagKeyIsNoCacheKey(d, "");
    TagKeyIsNoCacheKey(x, "");
    KeysNeverCollide("", "", d, x);
  }

  lemma InvalidatedTags(r: Redis, d: DocId)
    requires KeysOk(r)
    ensures KeysOk(Invalidated(r, d))
  {
    hide DocTagKey, IsCacheKey;
    forall t, key
      ensures key in TagSet(Invalidated(r, d), t) ==> key in TagSet(r, t)
    {
    }
  }

  lemma AnswerListed(r: Redis, fp: string, response: CachedResponse, ids: seq<DocId>, ttl: int, key: string, d: DocId)
    requires CitedIsListed(r, key, d) && ids == CitedDocs(response.sources)
    ensures CitedIsListed(Execute(r, SetPipe(fp, response, ids, ttl)), key, d)
  {
    hide CacheKey, DocTagKey, Execute, SetPipe, Cites;
    SetPipeEffect(r, fp, response, ids, ttl);
    CitedDocsAreTheCited(response.sources);
    if d in ids {
      assert Tagged(ids, DocTagKey(d));
    }
  }

  lemma AnswerTags(r: Redis, fp: string, response: CachedResponse, ids: seq<DocId>, ttl: int)
    requires KeysOk(r)
    ensures KeysOk(Execute(r, SetPipe(fp, response, ids, ttl)))
  {
    hide CacheKey, DocTagKey, Execute, SetPipe, IsCacheKey, Tagged;
    SetPipeEffect(r, fp, response, ids, ttl);
    TagKeyIsNoCacheKey("", fp);
  }

  // ---- the ingest side ----

  lemma StoredRows(w: P.World)
    requires Inv(w)
    ensures RowsOk(w.stores.tables)
  {
    hide HistoryOk, WriteOk, SweepOk, IndexOk, RowsOk;
  }

  lemma PhaseAfter(w: P.World, step: P.Step)
    requires P.Enabled(w, step)
    ensures Finishes(w, step) ==> P.Apply(w, step).phase == P.Idle && P.Apply(w, step).stores == w.stores
  {
    hide Upsert, Latest;
  }

  /** A settled row leaves the table only in the sweep of its version, and never comes back. */
  lemma SettledRowStays(w: P.World, step: P.Step, id: string, row: Chunk)
    requires Inv(w) && P.Enabled(w, step) && O.Settled(w, id, row)
    ensures id in P.Apply(w, step).stores.tables.chunks
      <==> id in w.stores.tables.chunks && !Sweeps(w, step, Owner(id).0, Owner(id).1)
  {
    hide ChunkId, Owner, Latest, Inv, P.Apply, P.Enabled;
    O.NotTheNextNumber(w, id, row);
    if Owner(id) != Touched(w, step) {
      StepFrame(w, step);
      assert SameAt(P.Apply(w, step).stores.tables.chunks, w.stores.tables.chunks, id);
    } else if w.phase.SweepTables? && step.Ok? {
      O.SweptRowIsGone(w, id);
    } else if w.phase.UndoTables? && step.Ok? {
      O.UndoneRowIsGone(w, id);
    } else {
      O.OnlyDeletesTouchTables(w, step);
    }
  }

  lemma RefStep(s: Site, step: Step, ref: SourceRef)
    requires Inv(s.world) && step.Ingest? && Enabled(s, step) && RefOk(s, ref)
    requires Finishes(s.world, step.step) && step.evicts ==> ref.docId != s.world.job.docId
    ensures RefOk(Apply(s, step), ref)
  {
    hide ChunkId, Owner, Inv, P.Apply, P.Enabled, Invalidated, O.Settled;
    var row :| O.Settled(s.world, ref.chunkId, row) && RefOf(row) == ref;
    O.SettledStep(s.world, step.step, ref.chunkId, row);
    SettledRowStays(s.world, step.step, ref.chunkId, row);
  }

  lemma StaysGone(w: P.World, step: P.Step, k: (DocId, nat))
    requires Inv(w) && P.Enabled(w, step)
    requires GoneForGood(w, k) || Sweeps(w, step, k.0, k.1)
    ensures GoneForGood(P.Apply(w, step), k)
  {
    hide ChunkId, Owner, Inv, P.Apply, P.Enabled, Latest;
    HistoryGrows(w, step);
    if Sweeps(w, step, k.0, k.1) {
      SweptIsGone(w);
    } else {
      CommittedIsStored(w, k.0);
      if k != Touched(w, step) {
        StepFrame(w, step);
      } else {
        NothingIsAdded(w, step);
      }
    }
  }

  lemma CommittedIsStored(w: P.World, d: DocId)
    requires Inv(w)
    ensures d in w.committed ==> w.committed[d] <= Latest(w.stores.tables, d)
  {
    hide Latest, StoresOk, WriteOk, SweepOk, PinOk;
  }

  lemma NothingIsAdded(w: P.World, step: P.Step)
    requires P.Enabled(w, step) && !step.Begin?
    ensures forall k :: k in P.Apply(w, step).stores.tables.documents ==> k in w.stores.tables.documents
  {
    if (w.phase.UndoTables? || w.phase.SweepTables?) && step.Ok? {
      hide Latest;
    } else {
      hide P.Apply, P.Enabled;
      O.OnlyDeletesTouchTables(w, step);
    }
  }

  lemma SweptIsGone(w: P.World)
    requires Inv(w) && w.phase.SweepTables?
    ensures GoneForGood(P.Apply(w, P.Ok), (w.job.docId, w.phase.u))
  {
    hide ChunkId, Owner, Latest, Upsert, HistoryOk, Whole, OthersKept, Tight, NoneOf, IndexOk, ActiveIsHighest, JobOk;
  }

  // ---- preservation ----

  lemma IngestKeepsCurrent(s: Site, step: Step, key: string, i: nat)
    requires Coherent(s) && step.Ingest? && Enabled(s, step)
    ensures CurrentOk(Apply(s, step), key, i)
  {
    hide Inv, P.Apply, P.Enabled, Invalidated, KeysOk, RefOk, Cites, LooseOk;
    var d := s.world.job.docId;
    assert CurrentOk(s, key, i) && CitedIsListed(s.redis, key, d);
    InvalidatedCitesNothing(s.redis, d, key, d);
    if key in Apply(s, step).redis.entries && i < |s.redis.entries[key].response.sources| {
      CitesAt(s.redis.entries[key].response.sources, i);
      RefStep(s, step, s.redis.entries[key].response.sources[i]);
    }
  }

  lemma CitesAt(refs: seq<SourceRef>, i: nat)
    requires i < |refs|
    ensures Cites(refs, refs[i].docId)
  {
  }

  /** A chunk just read from an idle store is a settled one. */
  lemma ReadIsSettled(s: Site, c: Chunk)
    requires Inv(s.world) && LooseOk(s) && s.world.phase == P.Idle
    requires c.id in s.world.stores.tables.chunks && s.world.stores.tables.chunks[c.id] == c
    ensures RefOk(s, RefOf(c))
  {
    hide ChunkId, Owner, Inv;
    StoredRows(s.world);
    assert RowOk(s.world.stores.tables, c.id);
    assert O.Settled(s.world, c.id, c);
  }

  lemma AnswerKeepsCurrent(s: Site, step: Step, key: string, i: nat)
    requires Coherent(s) && !step.Ingest? && Enabled(s, step)
    ensures CurrentOk(Apply(s, step), key, i)
  {
    hide Inv, CacheKey, Execute, SetPipe, KeysOk, CitedDocs, RefSettled, LooseOk;
    assert CurrentOk(s, key, i);
    if step.Answer? {
      var refs := RefsOf(step.chunks);
      SetPipeEffect(s.redis, step.fp, CachedResponse(step.answer, refs), CitedDocs(refs), step.ttl);
      if i < |refs| {
        ReadIsSettled(s, step.chunks[i].chunk);
      }
    }
  }

  lemma ListingKept(s: Site, step: Step, key: string, d: DocId)
    requires Coherent(s) && Enabled(s, step)
    ensures CitedIsListed(Apply(s, step).redis, key, d)
  {
    hide Inv, P.Apply, P.Enabled, Invalidated, Execute, SetPipe, KeysOk, Cites, CurrentOk, DocTagKey;
    assert CitedIsListed(s.redis, key, d) && CitedIsListed(s.redis, key, s.world.job.docId);
    match step
    case Ingest(_, _) => InvalidatedCitesNothing(s.redis, s.world.job.docId, key, d);
    case Answer(fp, answer, chunks, ttl) =>
      AnswerListed(s.redis, fp, CachedResponse(answer, RefsOf(chunks)), CitedDocs(RefsOf(chunks)), ttl, key, d);
    case Wait(_) =>
  }

  lemma TagsKept(s: Site, step: Step)
    requires Coherent(s) && Enabled(s, step)
    ensures KeysOk(Apply(s, step).redis)
  {
    hide Inv, P.Apply, P.Enabled, Invalidated, Execute, SetPipe, CurrentOk, CitedIsListed, IsCacheKey;
    match step
    case Ingest(_, _) => InvalidatedTags(s.redis, s.world.job.docId);
    case Answer(fp, answer, chunks, ttl) =>
      AnswerTags(s.redis, fp, CachedResponse(answer, RefsOf(chunks)), CitedDocs(RefsOf(chunks)), ttl);
    case Wait(seconds) =>
      forall t
        ensures TagSet(Later(s.redis, seconds), t) == TagSet(s.redis, t)
      {
      }
  }

  lemma WorldKept(s: Site, step: Step)
    requires Coherent(s) && Enabled(s, step)
    ensures Inv(Apply(s, step).world) && LooseOk(Apply(s, step))
  {
    hide Inv, P.Apply, P.Enabled, Invalidated, Execute, SetPipe, CurrentOk, CitedIsListed, KeysOk, GoneForGood;
    if step.Ingest? {
      StepKeeps(s.world, step.step);
      forall k | k in Apply(s, step).loose
        ensures GoneForGood(Apply(s, step).world, k)
      {
        StaysGone(s.world, step.step, k);
      }
    }
  }

  lemma SiteStepKeeps(s: Site, step: Step)
    requires Coherent(s) && Enabled(s, step)
    ensures Coherent(Apply(s, step))
  {
    hide Inv, Apply, Enabled, CurrentOk, CitedIsListed, KeysOk, LooseOk;
    WorldKept(s, step);
    TagsKept(s, step);
    forall key, d
      ensures CitedIsListed(Apply(s, step).redis, key, d)
    {
      ListingKept(s, step, key, d);
    }
    forall key, i: nat
      ensures CurrentOk(Apply(s, step), key, i)
    {
      if step.Ingest? {
        IngestKeepsCurrent(s, step, key, i);
      } else {
        AnswerKeepsCurrent(s, step, key, i);
      }
    }
  }

  lemma StartIsCoherent()
    ensures Coherent(START)
  {
    hide Inv, IsCacheKey;
    RunKeeps([]);
  }

  lemma {:induction false} EveryRunIsCoherent(steps: seq<Step>)
    requires Run(steps)
    ensures Coherent(Exec(steps))
  {
    hide Coherent, Apply, Enabled;
    if steps == [] {
      StartIsCoherent();
    } else {
      EveryRunIsCoherent(steps[..|steps| - 1]);
      SiteStepKeeps(Exec(steps[..|steps| - 1]), steps[|steps| - 1]);
    }
  }

  // ---- results ----

  /** A successful ingest whose invalidation reaches Redis leaves no cached answer that cites the document. */
  lemma NoStaleAnswerAfterIngest(steps: seq<Step>, key: string)
    requires Run(steps) && Finishes(Exec(steps).world, P.Ok)
    ensures
      var d := Exec(steps).world.job.docId;
      var s := Apply(Exec(steps), Ingest(P.Ok, true));
      && (forall u: nat :: (d, u) !in s.loose) && s.world.phase == P.Idle
      && (key in s.redis.entries ==> !Cites(s.redis.entries[key].response.sources, d))
  {
    hide Inv, Exec, P.Apply, P.Enabled, Invalidated, KeysOk, CurrentOk, Cites;
    EveryRunIsCoherent(steps);
    var s, d := Exec(steps), Exec(steps).world.job.docId;
    FinishEnabled(s.world);
    PhaseAfter(s.world, P.Ok);
    assert CitedIsListed(s.redis, key, d);
    InvalidatedCitesNothing(s.redis, d, key, d);
  }

  lemma FinishEnabled(w: P.World)
    requires Finishes(w, P.Ok)
    ensures P.Enabled(w, P.Ok)
  {
  }

  /** Step n of the run sweeps away version u of d. */
  predicate SweepsAt(steps: seq<Step>, n: nat, d: DocId, u: nat) {
    n < |steps| && steps[n].Ingest? && Sweeps(Exec(steps[..n]).world, steps[n].step, d, u)
  }

  /** Step n of the run evicts the answers that cite d. */
  predicate EvictsAt(steps: seq<Step>, n: nat, d: DocId) {
    && n < |steps| && steps[n].Ingest? && steps[n].evicts
    && Finishes(Exec(steps[..n]).world, steps[n].step) && Exec(steps[..n]).world.job.docId == d
  }

  /** It did at step n, and no eviction of d has followed. */
  ghost predicate SweptSince(steps: seq<Step>, n: nat, d: DocId, u: nat) {
    SweepsAt(steps, n, d, u) && forall m: nat :: n < m < |steps| ==> !EvictsAt(steps, m, d)
  }

  lemma PrefixAt(steps: seq<Step>, n: nat, d: DocId, u: nat)
    requires steps != [] && n < |steps| - 1
    ensures SweepsAt(steps[..|steps| - 1], n, d, u) <==> SweepsAt(steps, n, d, u)
    ensures EvictsAt(steps[..|steps| - 1], n, d) <==> EvictsAt(steps, n, d)
  {
    hide Exec, Sweeps, Finishes;
    assert steps[..|steps| - 1][..n] == steps[..n];
  }

  ghost predicate WasSwept(steps: seq<Step>, d: DocId, u: nat) {
    exists n: nat :: SweptSince(steps, n, d, u)
  }

  lemma StillSwept(steps: seq<Step>, n: nat, d: DocId, u: nat)
    requires steps != [] && n < |steps| - 1 && !EvictsAt(steps, |steps| - 1, d)
    ensures SweptSince(steps[..|steps| - 1], n, d, u) <==> SweptSince(steps, n, d, u)
  {
    hide Exec, SweepsAt, EvictsAt;
    var prior := steps[..|steps| - 1];
    PrefixAt(steps, n, d, u);
    forall m: nat | m < |prior|
      ensures EvictsAt(prior, m, d) <==> EvictsAt(steps, m, d)
    {
      PrefixAt(steps, m, d, u);
    }
    if SweptSince(prior, n, d, u) {
      forall m: nat | n < m < |steps|
        ensures !EvictsAt(steps, m, d)
      {
        if m < |prior| {
          assert !EvictsAt(prior, m, d);
        }
      }
    }
  }

  lemma SweptStep(steps: seq<Step>, d: DocId, u: nat)
    requires steps != []
    ensures WasSwept(steps, d, u) <==>
      SweepsAt(steps, |steps| - 1, d, u) || (WasSwept(steps[..|steps| - 1], d, u) && !EvictsAt(steps, |steps| - 1, d))
  {
    hide Exec, SweepsAt, EvictsAt;
    var last := |steps| - 1;
    if SweepsAt(steps, last, d, u) {
      assert SweptSince(steps, last, d, u);
    } else if !EvictsAt(steps, last, d) {
      if n: nat :| SweptSince(steps[..last], n, d, u) {
        WithinPrior(steps[..last], n, d, u);
        StillSwept(steps, n, d, u);
      }
      if n: nat :| SweptSince(steps, n, d, u) {
        WithinPrior(steps, n, d, u);
        assert n < last;
        StillSwept(steps, n, d, u);
      }
    } else {
      assert EvictsAt(steps, last, d);
      forall n: nat
        ensures !SweptSince(steps, n, d, u)
      {
        if SweptSince(steps, n, d, u) {
          WithinPrior(steps, n, d, u);
        }
      }
    }
  }

  lemma {:induction false} LooseIffSwept(steps: seq<Step>, d: DocId, u: nat)
    ensures (d, u) in Exec(steps).loose <==> WasSwept(steps, d, u)
  {
    if steps == [] {
      hide SweepsAt;
      forall n: nat
        ensures !SweptSince([], n, d, u)
      {
        NothingSweptYet(n, d, u);
      }
    } else {
      hide Exec, SweepsAt, EvictsAt, WasSwept;
      LooseIffSwept(steps[..|steps| - 1], d, u);
      LooseStep(steps, d, u);
      SweptStep(steps, d, u);
    }
  }

  lemma NothingSweptYet(n: nat, d: DocId, u: nat)
    ensures !SweptSince([], n, d, u)
  {
  }

  lemma WithinPrior(steps: seq<Step>, n: nat, d: DocId, u: nat)
    requires SweptSince(steps, n, d, u)
    ensures n < |steps|
  {
  }

  /** How one step changes what is loose. */
  lemma LooseStep(steps: seq<Step>, d: DocId, u: nat)
    requires steps != []
    ensures
      var prior := steps[..|steps| - 1];
      (d, u) in Exec(steps).loose <==>
        SweepsAt(steps, |steps| - 1, d, u) || ((d, u) in Exec(prior).loose && !EvictsAt(steps, |steps| - 1, d))
  {
    hide P.Apply, Invalidated, Execute, SetPipe;
  }

  /** In every state of every run a citation in a cached answer names a chunk that is still stored, of that document
      and under that title, exactly when its version has not been swept away since the answers that cite the document
      were last evicted. So a failed write never spoils the cache, and a failed sweep only for what it had deleted. */
  lemma CachedCitationIsStoredIff(steps: seq<Step>, key: string, i: nat)
    requires Run(steps) && key in Exec(steps).redis.entries
    requires i < |Exec(steps).redis.entries[key].response.sources|
    ensures
      var ref := Exec(steps).redis.entries[key].response.sources[i];
      var (d, u) := Owner(ref.chunkId);
      && d == ref.docId
      && (RefStored(Exec(steps).world.stores.tables, ref) <==> !WasSwept(steps, d, u))
  {
    hide Inv, Exec, KeysOk, CitedIsListed, Owner, WasSwept, LooseOk;
    EveryRunIsCoherent(steps);
    assert CurrentOk(Exec(steps), key, i);
    var ref := Exec(steps).redis.entries[key].response.sources[i];
    LooseIffSwept(steps, Owner(ref.chunkId).0, Owner(ref.chunkId).1);
  }

  /** From an eviction on, every cached citation of the document stays good until a sweep deletes one of its versions,
      however many of its ingests begin, fail, crash or are rolled back. */
  lemma CitationsHoldUntilASweep(steps: seq<Step>, n: nat, d: DocId, key: string, i: nat)
    requires Run(steps) && n < |steps| && EvictsAt(steps, n, d)
    requires forall m: nat, u: nat :: n < m < |steps| ==> !SweepsAt(steps, m, d, u)
    requires key in Exec(steps).redis.entries && i < |Exec(steps).redis.entries[key].response.sources|
    requires Exec(steps).redis.entries[key].response.sources[i].docId == d
    ensures RefStored(Exec(steps).world.stores.tables, Exec(steps).redis.entries[key].response.sources[i])
  {
    hide Exec, Owner, RefStored, Run, SweepsAt, EvictsAt;
    CachedCitationIsStoredIff(steps, key, i);
    var u := Owner(Exec(steps).redis.entries[key].response.sources[i].chunkId).1;
    SweepIsNoEviction(steps, n, d, u);
    forall m: nat
      ensures !SweptSince(steps, m, d, u)
    {
      if SweptSince(steps, m, d, u) {
        WithinPrior(steps, m, d, u);
      }
    }
  }

  lemma SweepIsNoEviction(steps: seq<Step>, n: nat, d: DocId, u: nat)
    requires EvictsAt(steps, n, d)
    ensures !SweepsAt(steps, n, d, u)
  {
    hide Exec;
  }
}
