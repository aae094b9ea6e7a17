/** The ingest protocol (src/app/ingestion/pipeline.py) as a state machine over the three stores.

    One step is one store call: it succeeds, fails (a failed vector call may have touched any of its
    points; the SQLite calls are transactions), or the process dies. Every run is a sequence of steps. */
module IngestProtocol {
  import opened Models
  import opened ChunkIds
  import opened ChunkStore
  import opened SearchIndexes

  datatype Stores = Stores(tables: Tables, bm25: map<string, Entry<string>>, vectors: map<string, Entry<Point>>)

  /** The store call about to be made; SweepRead(u) is the loop head of the sweep at version u. */
  datatype Phase =
    | Idle
    | Fetch | ClearBm25 | ClearVectors | PutBm25 | PutVectors
    | UndoVectors | UndoBm25 | UndoTables
    | SweepRead(u: nat) | SweepVectors(u: nat) | SweepBm25(u: nat) | SweepTables(u: nat)
    | Invalidate

  datatype Job = Job(docId: DocId, title: string, drafts: seq<ChunkDraft>, vectors: seq<Vector>,
                     version: nat, before: Stores)

  datatype Pin = Pin(chunk: Chunk, vector: Vector)

  /** `committed` and `pins` are history: per document the last version whose write phase succeeded,
      and every chunk row (with its vector) any such version ever had. */
  datatype World = World(stores: Stores, phase: Phase, job: Job, committed: map<DocId, nat>, pins: map<string, Pin>)

  datatype Step =
    | Begin(docId: DocId, title: string, drafts: seq<ChunkDraft>, vectors: seq<Vector>)
    | Ok
    | Fail(touched: set<string>)
    | Crash

  const NO_STORES := Stores(EMPTY_TABLES, map[], map[])
  const INIT := World(NO_STORES, Idle, Job("", "", [], [], 0, NO_STORES), map[], map[])

  // ---- steps ----

  function Rows(j: Job): seq<Chunk> {
    RowsOf(j.docId, j.title, j.version, j.drafts)
  }

  function Texts(j: Job): map<string, Entry<string>> {
    TextEntries(Keyed(Rows(j)))
  }

  /** Each row with the vector of its own position. */
  function Points(j: Job): map<string, Entry<Point>> {
    var rows := Keyed(Rows(j));
    map id | id in rows && rows[id].ord < |j.vectors| :: PointEntry(rows[id], j.vectors[rows[id].ord])
  }

  function Pins(j: Job): map<string, Pin> {
    var rows := Keyed(Rows(j));
    map id | id in rows && rows[id].ord < |j.vectors| :: Pin(rows[id], j.vectors[rows[id].ord])
  }

  /** The drafts chunk_text produces: numbered from 0. */
  predicate InOrder(drafts: seq<ChunkDraft>) {
    forall i :: 0 <= i < |drafts| ==> drafts[i].ord == i
  }

  predicate Enabled(w: World, step: Step) {
    match step
    case Begin(d, title, drafts, _) =>
      w.phase == Idle && drafts != [] && InOrder(drafts) && Upsert(w.stores.tables, d, title, drafts).Some?
    case Ok => w.phase != Idle && (w.phase == PutVectors ==> |w.job.vectors| == |w.job.drafts|)
    case Fail(_) => w.phase != Idle && w.phase != SweepRead(0)
    case Crash => true
  }

  /** The version the current call is about. */
  function Target(w: World): nat {
    match w.phase
    case SweepVectors(u) => u
    case SweepBm25(u) => u
    case SweepTables(u) => u
    case _ => w.job.version
  }

  function Effect(w: World, ok: bool, touched: set<string>): Stores {
    var s := w.stores;
    var d, v := w.job.docId, Target(w);
    match w.phase
    case ClearBm25 => if ok then s.(bm25 := RemoveVersion(s.bm25, d, v)) else s
    case UndoBm25 => if ok then s.(bm25 := RemoveVersion(s.bm25, d, v)) else s
    case SweepBm25(_) => if ok then s.(bm25 := RemoveVersion(s.bm25, d, v)) else s
    case ClearVectors =>
      s.(vectors := if ok then RemoveVersion(s.vectors, d, v) else RemoveSome(s.vectors, d, v, touched))
    case UndoVectors =>
      s.(vectors := if ok then RemoveVersion(s.vectors, d, v) else RemoveSome(s.vectors, d, v, touched))
    case SweepVectors(_) =>
      s.(vectors := if ok then RemoveVersion(s.vectors, d, v) else RemoveSome(s.vectors, d, v, touched))
    case PutBm25 => if ok then s.(bm25 := s.bm25 + Texts(w.job)) else s
    case PutVectors =>
      if ok then s.(vectors := s.vectors + Points(w.job))
      else if |w.job.vectors| == |w.job.drafts| then s.(vectors := PutSome(s.vectors, Points(w.job), touched))
      else s
    case UndoTables => if ok then s.(tables := Delete(s.tables, d, v)) else s
    case SweepTables(_) => if ok then s.(tables := Delete(s.tables, d, v)) else s
    case _ => s
  }

  function NextPhase(w: World, ok: bool): Phase {
    match w.phase
    case Idle => Idle
    case Fetch => if ok then ClearBm25 else UndoVectors
    case ClearBm25 => if ok then ClearVectors else UndoVectors
    case ClearVectors => if ok then PutBm25 else UndoVectors
    case PutBm25 => if ok then PutVectors else UndoVectors
    case PutVectors => if ok then SweepRead(w.job.version - (if w.job.version > 0 then 1 else 0)) else UndoVectors
    case UndoVectors => UndoBm25
    case UndoBm25 => UndoTables
    case UndoTables => Idle
    case SweepRead(u) =>
      if u == 0 then Invalidate
      else if !ok then Idle
      else if VersionRows(w.stores.tables, w.job.docId, u) == {} then SweepRead(u - 1)
      else SweepVectors(u)
    case SweepVectors(u) => if ok then SweepBm25(u) else Idle
    case SweepBm25(u) => if ok then SweepTables(u) else Idle
    case SweepTables(u) => if ok && u > 0 then SweepRead(u - 1) else Idle
    case Invalidate => Idle
  }

  function Apply(w: World, step: Step): World {
    match step
    case Begin(d, title, drafts, vectors) =>
      var t := w.stores.tables;
      var stored := Upsert(t, d, title, drafts);
      if stored.None? then w
      else
        w.(stores := w.stores.(tables := stored.value), phase := Fetch,
           job := Job(d, title, drafts, vectors, Latest(t, d) + 1, w.stores))
    case Ok =>
      var w' := w.(stores := Effect(w, true, {}), phase := NextPhase(w, true));
      if w.phase == PutVectors
      then w'.(committed := w.committed[w.job.docId := w.job.version], pins := w.pins + Pins(w.job))
      else w'
    case Fail(touched) => w.(stores := Effect(w, false, touched), phase := NextPhase(w, false))
    case Crash => w.(phase := Idle)
  }

  function Exec(steps: seq<Step>): World {
    if steps == [] then INIT else Apply(Exec(steps[..|steps| - 1]), steps[|steps| - 1])
  }

  /** A run: every step was enabled when it was taken. Its prefixes are its intermediate states. */
  predicate Run(steps: seq<Step>) {
    steps == [] || (Run(steps[..|steps| - 1]) && Enabled(Exec(steps[..|steps| - 1]), steps[|steps| - 1]))
  }
}
