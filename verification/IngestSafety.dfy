/** Promises that relate two moments of an ingest run: availability, rollback, and citation ids. */
module IngestSafety {
  import opened Models
  import opened ChunkIds
  import opened ChunkStore
  import opened SearchIndexes
  import opened IngestProtocol
  import opened IngestInvariant
  import opened IngestSteps
  import opened IngestGuarantees

  // ---- what one step can touch ----

  /** The version a step is about. */
  function Touched(w: World, step: Step): (DocId, nat) {
    if step.Begin? then (step.docId, Latest(w.stores.tables, step.docId) + 1) else (w.job.docId, Target(w))
  }

  ghost predicate TablesElsewhere(t: Tables, t': Tables, d: DocId, v: nat) {
    && (forall k: (DocId, nat) :: k != (d, v) ==> (k in t'.documents <==> k in t.documents))
    && (forall id :: Owner(id) != (d, v) ==> SameAt(t'.chunks, t.chunks, id))
  }

  /** Nothing but version v of d differs. */
  ghost predicate Elsewhere(s: Stores, s': Stores, d: DocId, v: nat) {
    && TablesElsewhere(s.tables, s'.tables, d, v)
    && SameOutside(s'.bm25, s.bm25, d, v)
    && SameOutside(s'.vectors, s.vectors, d, v)
  }

  lemma SameAsItself<T>(m: map<string, Entry<T>>, d: DocId, v: nat)
    ensures SameOutside(m, m, d, v)
  {
    hide Owner;
  }

  lemma Bm25Frame(w: World, ok: bool, touched: set<string>)
    requires Inv(w)
    ensures SameOutside(Effect(w, ok, touched).bm25, w.stores.bm25, w.job.docId, Target(w))
  {
    hide ChunkId, Owner, Latest, Upsert, Points, Texts, PutSome, RemoveSome, RemoveVersion, Delete, StoresOk,
      HistoryOk, SweepOk, WriteOk, SameOutside;
    StoresFacts(w.stores);
    SameAsItself(w.stores.bm25, w.job.docId, Target(w));
    Removed(w.stores.tables, w.stores.bm25, w.job.docId, Target(w), touched);
    if w.phase.PutBm25? {
      WriteFacts(w);
      PutFrame(w.stores, w.job, touched);
    }
  }

  lemma VectorFrame(w: World, ok: bool, touched: set<string>)
    requires Inv(w)
    ensures SameOutside(Effect(w, ok, touched).vectors, w.stores.vectors, w.job.docId, Target(w))
  {
    hide ChunkId, Owner, Latest, Upsert, Points, Texts, PutSome, RemoveSome, RemoveVersion, Delete, StoresOk,
      HistoryOk, SweepOk, WriteOk, SameOutside;
    StoresFacts(w.stores);
    SameAsItself(w.stores.vectors, w.job.docId, Target(w));
    Removed(w.stores.tables, w.stores.vectors, w.job.docId, Target(w), touched);
    if w.phase.PutVectors? {
      WriteFacts(w);
      PutFrame(w.stores, w.job, touched);
    }
  }

  lemma IndexStepFrame(w: World, step: Step)
    requires Inv(w) && (step.Ok? || step.Fail?) && Enabled(w, step)
    ensures SameOutside(Apply(w, step).stores.bm25, w.stores.bm25, w.job.docId, Target(w))
    ensures SameOutside(Apply(w, step).stores.vectors, w.stores.vectors, w.job.docId, Target(w))
  {
    hide Inv, Effect, SameOutside, Enabled;
    var touched := if step.Fail? then step.touched else {};
    Bm25Frame(w, step.Ok?, touched);
    VectorFrame(w, step.Ok?, touched);
  }

  lemma PutFrame(s: Stores, j: Job, touched: set<string>)
    requires IndexOk(s.tables, s.bm25) && IndexOk(s.tables, s.vectors) && (j.docId, j.version) in s.tables.documents
    ensures SameOutside(s.bm25 + Texts(j), s.bm25, j.docId, j.version)
    ensures SameOutside(s.vectors + Points(j), s.vectors, j.docId, j.version)
    ensures SameOutside(PutSome(s.vectors, Points(j), touched), s.vectors, j.docId, j.version)
  {
    hide ChunkId, Owner, Latest, Keyed, Rows;
    RowIds(j);
    PutKeeps(s.tables, s.bm25, Texts(j), j.docId, j.version);
    PutKeeps(s.tables, s.vectors, Points(j), j.docId, j.version);
    PartialPoints(s.tables, s.vectors, j, touched);
  }

  lemma UndoFrame(w: World)
    requires Inv(w) && w.phase.UndoTables?
    ensures TablesElsewhere(w.stores.tables, Apply(w, Ok).stores.tables, w.job.docId, w.job.version)
  {
    hide ChunkId, Owner, Latest, Keyed, Upsert, Delete, HistoryOk, SameOutside, IndexOk, RowsOf, StoresOk;
    var j := w.job;
    UndoRestores(w);
    StoresFacts(j.before);
    UpsertTables(j.before.tables, j.docId, j.title, j.drafts);
    UpsertChunks(j.before.tables, j.docId, j.title, j.drafts);
  }

  lemma SweepFrame(w: World)
    requires Inv(w) && w.phase.SweepTables?
    ensures TablesElsewhere(w.stores.tables, Apply(w, Ok).stores.tables, w.job.docId, w.phase.u)
  {
    hide ChunkId, Owner, Latest, Upsert, Delete, HistoryOk, Whole, OthersKept, Tight, NoneOf, IndexOk, TablesOk;
    SweptTables(w.stores.tables, w.job.docId, w.phase.u, w.job.version);
  }

  lemma TablesStepFrame(w: World, step: Step)
    requires Inv(w) && (step.Ok? || step.Fail?) && Enabled(w, step)
    ensures TablesElsewhere(w.stores.tables, Apply(w, step).stores.tables, w.job.docId, Target(w))
  {
    if w.phase.UndoTables? && step.Ok? {
      hide Inv, Apply, TablesElsewhere;
      UndoFrame(w);
    } else if w.phase.SweepTables? && step.Ok? {
      hide Inv, Apply, TablesElsewhere;
      SweepFrame(w);
    } else {
      hide Inv, Owner;
      assert Apply(w, step).stores.tables == w.stores.tables;
    }
  }

  /** One step leaves every other version of every document exactly as it was. */
  lemma StepFrame(w: World, step: Step)
    requires Inv(w) && Enabled(w, step)
    ensures Elsewhere(w.stores, Apply(w, step).stores, Touched(w, step).0, Touched(w, step).1)
  {
    hide ChunkId, Owner, Latest, Keyed, Upsert, Delete, Effect, HistoryOk, WriteOk, SweepOk, IndexOk;
    match step
    case Begin(d, title, drafts, _) =>
      StoresFacts(w.stores);
      UpsertTables(w.stores.tables, d, title, drafts);
      UpsertChunks(w.stores.tables, d, title, drafts);
    case Crash =>
    case _ =>
      IndexStepFrame(w, step);
      TablesStepFrame(w, step);
  }

  // ---- availability ----

  /** Every stored row of (d, v) is in both indexes, with its own text. */
  ghost predicate Complete(s: Stores, d: DocId, v: nat) {
    && (d, v) in s.tables.documents
    && forall id :: RowOf(s.tables, id, d, v) ==> Searchable(s, id)
  }

  ghost predicate Searchable(s: Stores, id: string) {
    id in s.tables.chunks && id in s.bm25 && s.bm25[id] == TextEntry(s.tables.chunks[id]) && id in s.vectors
  }

  /** (d, v) is the version an unfinished or failing write phase is working on. */
  predicate InFlight(w: World, d: DocId, v: nat) {
    Writing(w.phase) && w.job.docId == d && w.job.version == v
  }

  ghost predicate Available(w: World, d: DocId) {
    exists v: nat :: Complete(w.stores, d, v) && !InFlight(w, d, v)
  }

  lemma CompleteElsewhere(s: Stores, s': Stores, d: DocId, v: nat, x: DocId, y: nat)
    requires StoresOk(s) && StoresOk(s') && Elsewhere(s, s', x, y)
    requires Complete(s, d, v) && (d, v) != (x, y)
    ensures Complete(s', d, v)
  {
    hide ChunkId, Owner, Latest, ActiveIsHighest, IndexOk;
    forall id | RowOf(s'.tables, id, d, v)
      ensures Searchable(s', id)
    {
      assert RowOk(s'.tables, id);
      assert SameAt(s'.tables.chunks, s.tables.chunks, id) && SameAt(s'.bm25, s.bm25, id)
        && SameAt(s'.vectors, s.vectors, id);
      assert RowOf(s.tables, id, d, v);
    }
  }

  lemma WholeIsComplete(s: Stores, j: Job)
    requires StoresOk(s) && Whole(s, j) && InOrder(j.drafts)
    ensures Complete(s, j.docId, j.version)
  {
    hide ChunkId, Owner, Latest, ActiveIsHighest, IndexOk, Keyed, Rows;
    RowIds(j);
    forall id | RowOf(s.tables, id, j.docId, j.version)
      ensures Searchable(s, id)
    {
      assert RowOk(s.tables, id);
      assert SameAt(s.tables.chunks, Keyed(Rows(j)), id);
      assert SameAt(s.bm25, Texts(j), id) && SameAt(s.vectors, Points(j), id);
    }
  }

  predicate Sweeping(p: Phase) {
    p != Idle && !Writing(p)
  }

  lemma StaysAvailable(w: World, step: Step, d: DocId)
    requires Inv(w) && Enabled(w, step) && Available(w, d)
    ensures Available(Apply(w, step), d)
  {
    hide ChunkId, Owner, Latest, Upsert, Effect, Complete, StoresOk, HistoryOk, WriteOk, Whole, Elsewhere, OthersKept,
      Tight;
    var w' := Apply(w, step);
    StepKeeps(w, step);
    StepFrame(w, step);
    StepJob(w, step);
    var v: nat :| Complete(w.stores, d, v) && !InFlight(w, d, v);
    if Sweeping(w.phase) && d == w.job.docId && !step.Crash? {
      SweepingStaysComplete(w, step);
    } else {
      if step.Begin? {
        CompleteIsStored(w.stores, d, v);
      }
      if (d, v) != Touched(w, step) {
        CompleteElsewhere(w.stores, w'.stores, d, v, Touched(w, step).0, Touched(w, step).1);
      }
      assert Complete(w'.stores, d, v) && !InFlight(w', d, v);
    }
  }

  lemma CompleteIsStored(s: Stores, d: DocId, v: nat)
    requires Complete(s, d, v)
    ensures v <= Latest(s.tables, d)
  {
  }

  /** Whatever a sweep step does, the new version stays whole and searchable, each row with its own text and vector. */
  lemma SweepingStaysComplete(w: World, step: Step)
    requires Inv(w) && Enabled(w, step) && Sweeping(w.phase) && !step.Crash?
    ensures Complete(Apply(w, step).stores, w.job.docId, w.job.version) && Whole(Apply(w, step).stores, w.job)
    ensures !InFlight(Apply(w, step), w.job.docId, w.job.version)
  {
    hide ChunkId, Owner, Latest, Upsert, Complete, StoresOk, HistoryOk, WriteOk, Whole, Elsewhere, OthersKept, Tight,
      RemoveSome, RemoveVersion, Delete;
    var w', j := Apply(w, step), w.job;
    StepKeeps(w, step);
    StepFrame(w, step);
    WholeIsComplete(w.stores, j);
    if w.phase.SweepVectors? || w.phase.SweepBm25? || w.phase.SweepTables? {
      CompleteElsewhere(w.stores, w'.stores, j.docId, j.version, j.docId, Target(w));
      NewDocumentStays(w, step);
      WholeElsewhere(w.stores, w'.stores, j, Target(w));
    }
  }

  lemma NewDocumentStays(w: World, step: Step)
    requires Inv(w) && Enabled(w, step) && !step.Crash?
    requires w.phase.SweepVectors? || w.phase.SweepBm25? || w.phase.SweepTables?
    ensures SameAt(Apply(w, step).stores.tables.documents, w.stores.tables.documents, (w.job.docId, w.job.version))
  {
    hide ChunkId, Owner, Latest, Upsert, Delete, Whole, OthersKept, Tight, IndexOk, HistoryOk, TablesOk, JobOk,
      RemoveVersion, RemoveSome;
    if w.phase.SweepTables? && step.Ok? {
      SweptTables(w.stores.tables, w.job.docId, w.phase.u, w.job.version);
    }
  }

  lemma WholeElsewhere(s: Stores, s': Stores, j: Job, u: nat)
    requires Whole(s, j) && Elsewhere(s, s', j.docId, u) && u != j.version
    requires SameAt(s'.tables.documents, s.tables.documents, (j.docId, j.version))
    ensures Whole(s', j)
  {
    hide ChunkId, Owner, Latest, Keyed, Rows, Points, Texts;
    ExactlyFrame(s.tables.chunks, s'.tables.chunks, Keyed(Rows(j)), j.docId, u, j.version);
    ExactlyFrame(s.bm25, s'.bm25, Texts(j), j.docId, u, j.version);
    ExactlyFrame(s.vectors, s'.vectors, Points(j), j.docId, u, j.version);
  }

  /** Once d has a complete version that is not the one being written, every later state of the run has one too:
      through failing writes, rollbacks, half-done sweeps and crashes. */
  lemma {:induction false} AvailabilityIsNeverLost(steps: seq<Step>, n: nat, d: DocId)
    requires Run(steps) && n <= |steps|
    requires Available(Exec(steps[..n]), d)
    ensures Available(Exec(steps), d)
  {
    hide Inv, Available, Apply, Enabled;
    if n == |steps| {
      assert steps[..n] == steps;
    } else {
      var prior := steps[..|steps| - 1];
      assert prior[..n] == steps[..n];
      AvailabilityIsNeverLost(prior, n, d);
      RunKeeps(prior);
      StaysAvailable(Exec(prior), steps[|steps| - 1], d);
    }
  }

  // ---- rollback ----

  function RolledBack(w: World): World {
    Apply(Apply(Apply(w, Ok), Ok), Ok)
  }

  /** A failed write phase whose three undo steps succeed leaves the tables exactly as they were before the
      ingest, active flags included, and the indexes as they were minus any entry of the aborted version. */
  lemma RollbackRestores(w: World)
    requires Inv(w) && w.phase.UndoVectors?
    ensures
      var j, s := w.job, RolledBack(w).stores;
      && RolledBack(w).phase.Idle?
      && s.tables == j.before.tables
      && (j.docId, j.version) !in s.tables.documents
      && s.bm25 == RemoveVersion(j.before.bm25, j.docId, j.version)
      && s.vectors == RemoveVersion(j.before.vectors, j.docId, j.version)
  {
    hide ChunkId, Owner, Latest, Keyed, Upsert, Delete, SweepOk, HistoryOk, RemoveVersion, TablesOk, IndexOk,
      SameOutside;
    var j, s := w.job, w.stores;
    StepKeeps(w, Ok);
    StepKeeps(Apply(w, Ok), Ok);
    UndoRestores(Apply(Apply(w, Ok), Ok));
    StoresFacts(s);
    StoresFacts(j.before);
    SameRemoved(s.tables, j.before.tables, s.bm25, j.before.bm25, j.docId, j.version);
    SameRemoved(s.tables, j.before.tables, s.vectors, j.before.vectors, j.docId, j.version);
  }

  lemma SameRemoved<T>(t: Tables, t0: Tables, m: map<string, Entry<T>>, m0: map<string, Entry<T>>, d: DocId, v: nat)
    requires IndexOk(t, m) && IndexOk(t0, m0) && SameOutside(m, m0, d, v)
    ensures RemoveVersion(m, d, v) == RemoveVersion(m0, d, v)
  {
    hide ChunkId, Owner, Latest;
    var a, b := RemoveVersion(m, d, v), RemoveVersion(m0, d, v);
    forall id
      ensures id in a <==> id in b
      ensures id in a && id in b ==> a[id] == b[id]
    {
      assert EntryOk(t, m, id) && EntryOk(t0, m0, id);
      assert Owner(id) != (d, v) ==> SameAt(m, m0, id);
    }
    assert a == b;
  }

  lemma ElsewhereBack(s: Stores, s': Stores, d: DocId, v: nat)
    requires Elsewhere(s, s', d, v)
    ensures Elsewhere(s', s, d, v)
  {
    hide ChunkId, Owner;
    forall id | Owner(id) != (d, v)
      ensures SameAt(s.tables.chunks, s'.tables.chunks, id) && SameAt(s.bm25, s'.bm25, id)
        && SameAt(s.vectors, s'.vectors, id)
    {
      assert SameAt(s'.tables.chunks, s.tables.chunks, id) && SameAt(s'.bm25, s.bm25, id)
        && SameAt(s'.vectors, s.vectors, id);
    }
  }

  ghost predicate HasComplete(s: Stores, d: DocId) {
    exists v: nat :: Complete(s, d, v)
  }

  lemma UndoStepBack(w: World, v: nat)
    requires Inv(w) && (w.phase.UndoVectors? || w.phase.UndoBm25? || w.phase.UndoTables?)
    requires v != w.job.version && Complete(Apply(w, Ok).stores, w.job.docId, v)
    ensures Complete(w.stores, w.job.docId, v)
  {
    hide ChunkId, Owner, Latest, Keyed, Upsert, Delete, SweepOk, WriteOk, StoresOk, HistoryOk, Complete, Elsewhere,
      Effect;
    StepKeeps(w, Ok);
    StepFrame(w, Ok);
    ElsewhereBack(w.stores, Apply(w, Ok).stores, w.job.docId, w.job.version);
    CompleteElsewhere(Apply(w, Ok).stores, w.stores, w.job.docId, v, w.job.docId, w.job.version);
  }

  /** After a clean rollback the document is still fully searchable exactly when some version other than
      the aborted one was complete when the rollback began. */
  lemma RollbackKeepsCompleteIff(w: World)
    requires Inv(w) && w.phase.UndoVectors?
    ensures HasComplete(RolledBack(w).stores, w.job.docId) <==> Available(w, w.job.docId)
  {
    hide ChunkId, Owner, Latest, Keyed, Upsert, Delete, SweepOk, WriteOk, StoresOk, HistoryOk, Complete, Effect,
      RemoveVersion;
    var d := w.job.docId;
    var w1 := Apply(w, Ok);
    var w2 := Apply(w1, Ok);
    StepKeeps(w, Ok);
    StepKeeps(w1, Ok);
    if Available(w, d) {
      StaysAvailable(w, Ok, d);
      StaysAvailable(w1, Ok, d);
      StaysAvailable(w2, Ok, d);
    }
    if v: nat :| Complete(RolledBack(w).stores, d, v) {
      RollbackRestores(w);
      StoredIsComplete(RolledBack(w).stores, d, v);
      UndoStepBack(w2, v);
      UndoStepBack(w1, v);
      UndoStepBack(w, v);
      assert !InFlight(w, d, v);
    }
  }

  lemma StoredIsComplete(s: Stores, d: DocId, v: nat)
    requires Complete(s, d, v)
    ensures (d, v) in s.tables.documents
  {
  }

  /** The only way a step can take a document's last complete version away is by touching the version that is
      still being written (or rolled back). */
  lemma OnlyTheInFlightVersionIsLost(w: World, step: Step, d: DocId)
    requires Inv(w) && Enabled(w, step)
    requires HasComplete(w.stores, d) && !HasComplete(Apply(w, step).stores, d)
    ensures Writing(w.phase) && w.job.docId == d && Complete(w.stores, d, w.job.version)
    ensures forall v: nat :: Complete(w.stores, d, v) ==> v == w.job.version
  {
    hide Apply, Enabled, Inv, Complete;
    if Available(w, d) {
      StaysAvailable(w, step, d);
    }
    var v: nat :| Complete(w.stores, d, v);
    assert InFlight(w, d, v);
  }

  // ---- citation ids ----

  lemma HistoryGrows(w: World, step: Step)
    requires Inv(w) && Enabled(w, step)
    ensures forall id :: id in w.pins ==> id in Apply(w, step).pins && Apply(w, step).pins[id] == w.pins[id]
    ensures forall d :: d in w.committed ==>
      d in Apply(w, step).committed && w.committed[d] <= Apply(w, step).committed[d]
  {
    hide ChunkId, Owner, Latest, Keyed, Upsert, Rows, Effect, StoresOk, SweepOk, SameOutside, JobOk;
    RowIds(w.job);
    forall id | id in w.pins
      ensures id in Apply(w, step).pins && Apply(w, step).pins[id] == w.pins[id]
    {
      assert PinOk(w, id);
    }
  }

  lemma {:induction false} HistoryGrowsInRuns(steps: seq<Step>, n: nat)
    requires Run(steps) && n <= |steps|
    ensures Sub(Exec(steps[..n]).pins, Exec(steps).pins)
    ensures forall d :: d in Exec(steps[..n]).committed ==>
      d in Exec(steps).committed && Exec(steps[..n]).committed[d] <= Exec(steps).committed[d]
  {
    hide Inv, Apply, Enabled;
    if n == |steps| {
      assert steps[..n] == steps;
    } else {
      var prior := steps[..|steps| - 1];
      assert prior[..n] == steps[..n];
      HistoryGrowsInRuns(prior, n);
      RunKeeps(prior);
      HistoryGrows(Exec(prior), steps[|steps| - 1]);
    }
  }

  /** Whatever a version ever fully written stored under a chunk id, no store ever holds anything else under that id. */
  lemma CitationsAreNeverRebound(steps: seq<Step>, n: nat, id: string)
    requires Run(steps) && n <= |steps| && id in Exec(steps[..n]).pins
    ensures
      var p, s := Exec(steps[..n]).pins[id], Exec(steps).stores;
      && (id in s.tables.chunks ==> s.tables.chunks[id] == p.chunk)
      && (id in s.bm25 ==> s.bm25[id] == TextEntry(p.chunk))
      && (id in s.vectors ==> s.vectors[id] == PointEntry(p.chunk, p.vector))
  {
    hide ChunkId, Owner, Latest, Exec, Run, StoresOk, WriteOk, SweepOk;
    HistoryGrowsInRuns(steps, n);
    RunKeeps(steps);
    assert PinOk(Exec(steps), id);
  }

  /** The ids of a successful ingest are among those: position i is pinned to its row and its vector. */
  lemma SuccessPinsItsIds(w: World, i: nat)
    requires Inv(w) && w.phase.Invalidate? && i < |w.job.drafts|
    ensures
      var j := w.job;
      var id := ChunkId(j.docId, j.version, i);
      && i < |j.vectors|
      && id in w.pins
      && w.pins[id] == Pin(Chunk(id, j.docId, j.version, i, j.drafts[i].text, j.title), j.vectors[i])
  {
    hide ChunkId, Owner, Latest, Keyed, Rows, Exactly, OthersKept, StoresOk, HistoryOk;
    RowAt(w.job, i);
    assert ChunkId(w.job.docId, w.job.version, i) in Pins(w.job);
  }

  /** Every version allocated after a version was fully written is higher. */
  lemma LaterVersionsAreHigher(steps: seq<Step>, n: nat, d: DocId)
    requires Run(steps) && n < |steps| && d in Exec(steps[..n]).committed
    requires steps[|steps| - 1].Begin? && steps[|steps| - 1].docId == d
    ensures Exec(steps).job.version > Exec(steps[..n]).committed[d]
  {
    hide ChunkId, Owner, Latest, StoresOk, WriteOk, SweepOk, Effect;
    var prior := steps[..|steps| - 1];
    assert prior[..n] == steps[..n];
    HistoryGrowsInRuns(prior, n);
    RunKeeps(prior);
  }
}
