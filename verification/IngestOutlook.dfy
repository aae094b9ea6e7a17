/** What a state of an ingest run can still lead to, exactly: over all the ways the run may go on. */
module IngestOutlook {
  import opened Models
  import opened ChunkIds
  import opened ChunkStore
  import opened SearchIndexes
  import opened IngestProtocol
  import opened IngestInvariant
  import opened IngestSteps
  import opened IngestGuarantees
  import opened IngestSafety

  // ---- the way out of a write phase ----

  /** How many calls a failing write phase still makes. */
  function ToIdle(p: Phase): nat {
    match p
    case UndoTables => 1
    case UndoBm25 => 2
    case UndoVectors => 3
    case _ => 4
  }

  /** The next step of a write phase that is given up and rolled back cleanly. */
  function GiveUp(p: Phase): Step {
    if p.UndoVectors? || p.UndoBm25? || p.UndoTables? then Ok else Fail({})
  }

  lemma GivingUp(w: World)
    requires Inv(w) && Writing(w.phase)
    ensures
      var w' := Apply(w, GiveUp(w.phase));
      && Enabled(w, GiveUp(w.phase)) && w'.job == w.job
      && (if w.phase.UndoTables? then w'.phase.Idle? && w'.stores.tables == w.job.before.tables
          else Writing(w'.phase) && ToIdle(w'.phase) < ToIdle(w.phase))
  {
    hide ChunkId, Owner, Latest, Upsert, Effect, StoresOk, HistoryOk, SweepOk, WriteOk;
    if w.phase.UndoTables? {
      UndoRestores(w);
    }
  }

  /** Giving up brings no version of the document back but the one being written. */
  lemma GivingUpCompletesNothing(w: World, d: DocId, v: nat)
    requires Inv(w) && Writing(w.phase) && d == w.job.docId && v != w.job.version
    requires Complete(Apply(w, GiveUp(w.phase)).stores, d, v)
    ensures Complete(w.stores, d, v)
  {
    hide ChunkId, Owner, Latest, Upsert, Apply, Enabled, SweepOk, WriteOk, StoresOk, HistoryOk, Complete, Elsewhere;
    var step := GiveUp(w.phase);
    GivingUp(w);
    StepKeeps(w, step);
    StepFrame(w, step);
    ElsewhereBack(w.stores, Apply(w, step).stores, d, w.job.version);
    CompleteElsewhere(Apply(w, step).stores, w.stores, d, v, d, w.job.version);
  }

  /** Every write phase can still end in a clean rollback: the tables of before the ingest, and no version of the
      document complete that is not complete now. */
  lemma {:induction false} CanBeAborted(steps: seq<Step>) returns (more: seq<Step>)
    requires Run(steps) && Writing(Exec(steps).phase)
    ensures Run(steps + more) && Exec(steps + more).phase.Idle?
    ensures Exec(steps + more).stores.tables == Exec(steps).job.before.tables
    ensures forall v: nat ::
      v != Exec(steps).job.version && Complete(Exec(steps + more).stores, Exec(steps).job.docId, v) ==>
      Complete(Exec(steps).stores, Exec(steps).job.docId, v)
    decreases ToIdle(Exec(steps).phase)
  {
    hide Inv, Run, Exec, Apply, Enabled, Complete, Writing;
    var w := Exec(steps);
    RunKeeps(steps);
    GivingUp(w);
    var step := GiveUp(w.phase);
    Extend(steps, step, steps + [step]);
    forall v: nat | v != w.job.version && Complete(Exec(steps + [step]).stores, w.job.docId, v)
      ensures Complete(w.stores, w.job.docId, v)
    {
      GivingUpCompletesNothing(w, w.job.docId, v);
    }
    if w.phase.UndoTables? {
      more := [step];
    } else {
      var rest := CanBeAborted(steps + [step]);
      more := [step] + rest;
      assert steps + more == steps + [step] + rest;
    }
  }

  // ---- losing the last complete version ----

  ghost predicate CanLoseCompleteness(steps: seq<Step>, d: DocId) {
    exists more :: Run(steps + more) && !HasComplete(Exec(steps + more).stores, d)
  }

  lemma BeforeTheJob(w: World)
    requires Inv(w) && Writing(w.phase)
    ensures Latest(w.job.before.tables, w.job.docId) + 1 == w.job.version && RowsOk(w.job.before.tables)
    ensures w.job.drafts != [] && InOrder(w.job.drafts) && ActiveIsHighest(w.job.before.tables)
  {
    hide ChunkId, Owner, Latest, Upsert, HistoryOk, SweepOk;
  }

  /** A document that has a complete version can come to have none, in some continuation of the run, exactly when its
      only complete version is the one being written or rolled back. */
  lemma CompletenessCanBeLostIff(steps: seq<Step>, d: DocId)
    requires Run(steps) && HasComplete(Exec(steps).stores, d)
    ensures CanLoseCompleteness(steps, d) <==> !Available(Exec(steps), d)
  {
    hide Inv, Run, Exec, Complete, Writing;
    var w := Exec(steps);
    if Available(w, d) {
      forall more | Run(steps + more)
        ensures HasComplete(Exec(steps + more).stores, d)
      {
        assert (steps + more)[..|steps|] == steps;
        AvailabilityIsNeverLost(steps + more, |steps|, d);
      }
    } else {
      var x: nat :| Complete(w.stores, d, x);
      assert InFlight(w, d, x);
      var more := CanBeAborted(steps);
      RunKeeps(steps);
      BeforeTheJob(w);
      var s := Exec(steps + more).stores;
      forall v: nat | v != w.job.version
        ensures !Complete(w.stores, d, v)
      {
        assert !InFlight(w, d, v);
      }
      forall v: nat
        ensures !Complete(s, d, v)
      {
        if Complete(s, d, v) {
          CompleteIsStored(s, d, v);
        }
      }
    }
  }

  // ---- rebinding a chunk id ----

  /** The row now under `id` is there unchanged and not being written, or it went when its version was superseded. */
  ghost predicate Settled(w: World, id: string, row: Chunk) {
    var (d, v) := Owner(id);
    if id in w.stores.tables.chunks then w.stores.tables.chunks[id] == row && !InFlight(w, d, v)
    else d in w.committed && v < w.committed[d]
  }

  lemma NotTheNextNumber(w: World, id: string, row: Chunk)
    requires Inv(w) && Settled(w, id, row)
    ensures Owner(id).1 <= Latest(w.stores.tables, Owner(id).0)
  {
    hide ChunkId, Owner, Latest, SweepOk, WriteOk, IndexOk;
    if id in w.stores.tables.chunks {
      assert RowOk(w.stores.tables, id);
    }
  }

  lemma OnlyDeletesTouchTables(w: World, step: Step)
    requires Enabled(w, step) && !step.Begin?
    requires !(w.phase.UndoTables? && step.Ok?) && !(w.phase.SweepTables? && step.Ok?)
    ensures Apply(w, step).stores.tables == w.stores.tables
  {
    hide Owner;
  }

  lemma SweptRowIsGone(w: World, id: string)
    requires Inv(w) && w.phase.SweepTables? && Owner(id) == (w.job.docId, w.phase.u)
    ensures id !in Apply(w, Ok).stores.tables.chunks
    ensures w.job.docId in Apply(w, Ok).committed && w.phase.u < Apply(w, Ok).committed[w.job.docId]
  {
    hide ChunkId, Owner, Latest, Upsert, HistoryOk, Whole, OthersKept, Tight, NoneOf, IndexOk, ActiveIsHighest;
    assert RowOk(w.stores.tables, id);
  }

  lemma StaysOutOfFlight(w: World, step: Step, d: DocId, v: nat)
    requires Enabled(w, step) && !InFlight(w, d, v) && (d, v) != Touched(w, step)
    ensures !InFlight(Apply(w, step), d, v)
  {
    hide Effect, Upsert;
    StepJob(w, step);
  }

  lemma PhaseStaysOutOfFlight(w: World, step: Step, d: DocId, v: nat)
    requires Enabled(w, step) && !InFlight(w, d, v) && !step.Begin?
    ensures !InFlight(Apply(w, step), d, v)
  {
    hide Effect, Upsert;
  }

  lemma SettledStep(w: World, step: Step, id: string, row: Chunk)
    requires Inv(w) && Enabled(w, step) && Settled(w, id, row)
    ensures Settled(Apply(w, step), id, row)
  {
    hide ChunkId, Owner, Latest, Inv, Apply, Enabled;
    var w' := Apply(w, step);
    var (d, v) := Owner(id);
    HistoryGrows(w, step);
    NotTheNextNumber(w, id, row);
    if (d, v) != Touched(w, step) {
      StepFrame(w, step);
      assert SameAt(w'.stores.tables.chunks, w.stores.tables.chunks, id);
      if !InFlight(w, d, v) { StaysOutOfFlight(w, step, d, v); }
    } else if w.phase.SweepTables? && step.Ok? {
      SweptRowIsGone(w, id);
    } else if w.phase.UndoTables? && step.Ok? {
      UndoneRowIsGone(w, id);
    } else {
      OnlyDeletesTouchTables(w, step);
      if !InFlight(w, d, v) { PhaseStaysOutOfFlight(w, step, d, v); }
    }
  }

  lemma UndoneRowIsGone(w: World, id: string)
    requires Inv(w) && w.phase.UndoTables? && Owner(id) == (w.job.docId, w.job.version)
    ensures id !in Apply(w, Ok).stores.tables.chunks
  {
    hide ChunkId, Owner, Latest, Upsert, HistoryOk, SweepOk;
    UndoRestores(w);
    BeforeTheJob(w);
    assert RowOk(w.job.before.tables, id);
  }

  lemma {:induction false} SettledInRuns(steps: seq<Step>, more: seq<Step>, id: string, row: Chunk)
    requires Run(steps + more) && Settled(Exec(steps), id, row)
    ensures Settled(Exec(steps + more), id, row)
    decreases |more|
  {
    hide Inv, Apply, Enabled, Settled;
    if more == [] {
      assert steps + more == steps;
    } else {
      var prior := more[..|more| - 1];
      assert (steps + more)[..|steps + more| - 1] == steps + prior;
      SettledInRuns(steps, prior, id, row);
      RunKeeps(steps + prior);
      SettledStep(Exec(steps + prior), more[|more| - 1], id, row);
    }
  }

  /** Some continuation of the run stores another row under `id`. */
  ghost predicate CanBeRebound(steps: seq<Step>, id: string) {
    exists more ::
      && Run(steps + more)
      && id in Exec(steps + more).stores.tables.chunks && id in Exec(steps).stores.tables.chunks
      && Exec(steps + more).stores.tables.chunks[id] != Exec(steps).stores.tables.chunks[id]
  }

  /** The rows of the version being written are those of its drafts. */
  lemma RowInFlight(w: World, id: string)
    requires Inv(w) && Writing(w.phase)
    requires id in w.stores.tables.chunks && Owner(id) == (w.job.docId, w.job.version)
    ensures Numbered(id, w.job.docId, w.job.version, |w.job.drafts|)
  {
    hide ChunkId, Owner, Latest, Upsert, Keyed, Rows, HistoryOk, SweepOk, StoresOk, SameOutside, Numbered;
    WriteChunks(w);
    assert SameAt(w.stores.tables.chunks, Keyed(Rows(w.job)), id);
    KeyedNumbered(w.job, id);
  }

  /** After an aborted ingest the same number can be given to any text. */
  lemma ReusedNumber(t: Tables, d: DocId, title: string, drafts: seq<ChunkDraft>, i: nat)
    requires RowsOk(t) && InOrder(drafts) && i < |drafts|
    requires Upsert(t, d, title, drafts).Some?
    ensures
      var id := ChunkId(d, Latest(t, d) + 1, i);
      var chunks := Upsert(t, d, title, drafts).value.chunks;
      id in chunks && chunks[id].text == drafts[i].text
  {
    hide ChunkId, Owner, Latest, Keyed;
    var job := Job(d, title, drafts, [], Latest(t, d) + 1, NO_STORES);
    RowAt(job, i);
    UpsertChunks(t, d, title, drafts);
  }

  lemma ReboundInFlight(steps: seq<Step>, id: string)
    requires Run(steps) && id in Exec(steps).stores.tables.chunks
    requires InFlight(Exec(steps), Owner(id).0, Owner(id).1)
    ensures CanBeRebound(steps, id)
  {
    hide ChunkId, Owner, Latest, Inv, Run, Exec, Upsert, Complete;
    var w, j := Exec(steps), Exec(steps).job;
    RunKeeps(steps);
    BeforeTheJob(w);
    RowInFlight(w, id);
    var i :| 0 <= i < |j.drafts| && id == ChunkId(j.docId, j.version, i);
    var more := CanBeAborted(steps);
    var t := j.before.tables;
    var text := w.stores.tables.chunks[id].text + "x";
    var drafts := j.drafts[i := ChunkDraft(i, text, 0)];
    UpsertSucceedsIff(t, j.docId, j.title, drafts);
    var again := Begin(j.docId, j.title, drafts, []);
    Extend(steps + more, again, steps + more + [again]);
    ReusedNumber(t, j.docId, j.title, drafts, i);
    assert steps + (more + [again]) == steps + more + [again];
    assert Exec(steps + (more + [again])).stores.tables.chunks[id].text == text;
  }

  /** A stored chunk id can come to name another row exactly while its version is being written or rolled back: rows
      that a crash or a failed rollback left behind are as firm as those of a finished ingest. */
  lemma RowsCanBeReboundIff(steps: seq<Step>, id: string)
    requires Run(steps) && id in Exec(steps).stores.tables.chunks
    ensures CanBeRebound(steps, id) <==> InFlight(Exec(steps), Owner(id).0, Owner(id).1)
  {
    hide ChunkId, Owner, Run, Exec;
    if InFlight(Exec(steps), Owner(id).0, Owner(id).1) {
      ReboundInFlight(steps, id);
    } else {
      var row := Exec(steps).stores.tables.chunks[id];
      forall more | Run(steps + more)
        ensures id in Exec(steps + more).stores.tables.chunks ==> Exec(steps + more).stores.tables.chunks[id] == row
      {
        SettledInRuns(steps, more, id, row);
      }
    }
  }

  // ---- documents nobody ingests ----

  /** `later` goes on from `prior`, and every ingest it begins is one of d. */
  predicate Continues(prior: seq<Step>, later: seq<Step>, d: DocId) {
    prior <= later && forall i :: |prior| <= i < |later| && later[i].Begin? ==> later[i].docId == d
  }

  lemma DeleteOthers(t: Tables, d: DocId, u: nat)
    ensures forall k: (DocId, nat) :: k.0 != d ==> SameAt(Delete(t, d, u).documents, t.documents, k)
  {
    hide Latest;
  }

  lemma DocumentsElsewhere(w: World, step: Step, d: DocId)
    requires Inv(w) && Enabled(w, step)
    requires if step.Begin? then step.docId == d else w.phase == Idle || w.job.docId == d
    ensures forall k: (DocId, nat) :: k.0 != d ==>
      SameAt(Apply(w, step).stores.tables.documents, w.stores.tables.documents, k)
  {
    hide ChunkId, Owner, Latest, Upsert, Delete, HistoryOk, WriteOk, SweepOk, IndexOk;
    match step
    case Begin(_, title, drafts, _) =>
      StoresFacts(w.stores);
      UpsertOthers(w.stores.tables, d, title, drafts);
    case _ =>
      if (w.phase.UndoTables? || w.phase.SweepTables?) && step.Ok? {
        DeleteOthers(w.stores.tables, d, Target(w));
      } else {
        OnlyDeletesTouchTables(w, step);
      }
  }

  lemma IdleKeepsStores(w: World, step: Step)
    requires w.phase == Idle && Enabled(w, step) && !step.Begin?
    ensures Apply(w, step) == w
  {
  }

  lemma ElsewhereOthers(s: Stores, s': Stores, d: DocId, v: nat)
    requires Elsewhere(s, s', d, v)
    requires forall k: (DocId, nat) :: k.0 != d ==> SameAt(s'.tables.documents, s.tables.documents, k)
    ensures OthersKept(s', s, d)
  {
    hide Owner, SameAt;
    forall id | Owner(id).0 != d
      ensures SameAt(s'.tables.chunks, s.tables.chunks, id) && SameAt(s'.bm25, s.bm25, id)
        && SameAt(s'.vectors, s.vectors, id)
    {
      assert Owner(id) != (d, v);
    }
  }

  lemma OthersStep(w: World, step: Step, d: DocId)
    requires Inv(w) && Enabled(w, step)
    requires if step.Begin? then step.docId == d else w.phase == Idle || w.job.docId == d
    ensures OthersKept(Apply(w, step).stores, w.stores, d)
    ensures Apply(w, step).phase == Idle || Apply(w, step).job.docId == d
  {
    hide Inv, Apply, Enabled, Elsewhere, OthersKept, Latest;
    DocumentsElsewhere(w, step, d);
    StepJob(w, step);
    if w.phase == Idle && !step.Begin? {
      IdleKeepsStores(w, step);
      KeptAsItself(w.stores, d);
    } else {
      StepFrame(w, step);
      ElsewhereOthers(w.stores, Apply(w, step).stores, d, Touched(w, step).1);
    }
  }

  lemma OthersKeptTwice(s: Stores, s1: Stores, s2: Stores, d: DocId)
    requires OthersKept(s1, s, d) && OthersKept(s2, s1, d)
    ensures OthersKept(s2, s, d)
  {
    hide Owner;
    forall id | Owner(id).0 != d
      ensures SameAt(s2.tables.chunks, s.tables.chunks, id) && SameAt(s2.bm25, s.bm25, id)
        && SameAt(s2.vectors, s.vectors, id)
    {
      assert SameAt(s2.tables.chunks, s1.tables.chunks, id) && SameAt(s2.bm25, s1.bm25, id)
        && SameAt(s2.vectors, s1.vectors, id);
    }
    forall k: (DocId, nat) | k.0 != d
      ensures SameAt(s2.tables.documents, s.tables.documents, k)
    {
      assert SameAt(s2.tables.documents, s1.tables.documents, k);
    }
  }

  /** While only d is being ingested, however often and however it fails, everything that is not d stays as it is. */
  lemma {:induction false} OthersAreKept(steps: seq<Step>, later: seq<Step>, d: DocId)
    requires Run(later) && Continues(steps, later, d)
    requires Exec(steps).phase == Idle || Exec(steps).job.docId == d
    ensures OthersKept(Exec(later).stores, Exec(steps).stores, d)
    ensures Exec(later).phase == Idle || Exec(later).job.docId == d
    decreases |later|
  {
    hide Inv, Apply, Enabled, OthersKept;
    if |later| == |steps| {
      assert later == steps;
      KeptAsItself(Exec(steps).stores, d);
    } else {
      var prior := later[..|later| - 1];
      OthersAreKept(steps, prior, d);
      RunKeeps(prior);
      OthersStep(Exec(prior), later[|later| - 1], d);
      OthersKeptTwice(Exec(steps).stores, Exec(prior).stores, Exec(later).stores, d);
    }
  }

  lemma KeptAsItself(s: Stores, d: DocId)
    ensures OthersKept(s, s, d)
  {
    hide Owner;
  }

  // ---- the error that is not an IngestError ----

  /** `more` is one ingest of d that ends in the read at the head of its sweep, the one call outside every try. */
  ghost predicate EndsInSweepRead(steps: seq<Step>, more: seq<Step>, d: DocId) {
    && |more| > 1 && Run(steps + more)
    && more[0].Begin? && more[0].docId == d
    && (forall i :: 0 < i < |more| ==> !more[i].Begin?)
    && more[|more| - 1].Fail? && Exec(steps + more[..|more| - 1]).phase.SweepRead?
  }

  ghost predicate SweepReadCanRaise(steps: seq<Step>, d: DocId) {
    exists more :: EndsInSweepRead(steps, more, d)
  }

  lemma SweepReadNeedsAnOlderNumber(w: World)
    requires Inv(w) && w.phase.SweepRead? && Enabled(w, Fail({}))
    ensures Latest(w.job.before.tables, w.job.docId) >= 1
  {
    hide ChunkId, Owner, Latest, Upsert, StoresOk, HistoryOk, OthersKept, Whole, Tight;
  }

  lemma WriteOkStep(w: World)
    requires Inv(w)
      && (w.phase.Fetch? || w.phase.ClearBm25? || w.phase.ClearVectors? || w.phase.PutBm25? || w.phase.PutVectors?)
    requires |w.job.vectors| == |w.job.drafts|
    ensures Enabled(w, Ok) && Apply(w, Ok).job == w.job
    ensures w.phase.Fetch? ==> Apply(w, Ok).phase == ClearBm25
    ensures w.phase.ClearBm25? ==> Apply(w, Ok).phase == ClearVectors
    ensures w.phase.ClearVectors? ==> Apply(w, Ok).phase == PutBm25
    ensures w.phase.PutBm25? ==> Apply(w, Ok).phase == PutVectors
    ensures w.phase.PutVectors? ==> Apply(w, Ok).phase == SweepRead(Latest(w.job.before.tables, w.job.docId))
  {
    hide ChunkId, Owner, Latest, Upsert, Effect, StoresOk, HistoryOk, SweepOk;
  }

  /** A write phase none of whose calls fails gets to its sweep. */
  lemma {:induction false} ReachesSweep(steps: seq<Step>) returns (more: seq<Step>)
    requires Run(steps) && |Exec(steps).job.vectors| == |Exec(steps).job.drafts|
    requires var p := Exec(steps).phase; p.Fetch? || p.ClearBm25? || p.ClearVectors? || p.PutBm25? || p.PutVectors?
    ensures Run(steps + more) && forall i :: 0 <= i < |more| ==> more[i] == Ok
    ensures Exec(steps + more).job == Exec(steps).job
    ensures Exec(steps + more).phase == SweepRead(Latest(Exec(steps).job.before.tables, Exec(steps).job.docId))
    decreases
      match Exec(steps).phase
      case Fetch => 5 case ClearBm25 => 4 case ClearVectors => 3 case PutBm25 => 2 case _ => 1
  {
    hide Inv, Run, Exec, Apply, Enabled, Latest;
    RunKeeps(steps);
    WriteOkStep(Exec(steps));
    Extend(steps, Ok, steps + [Ok]);
    if Exec(steps).phase.PutVectors? {
      more := [Ok];
    } else {
      var rest := ReachesSweep(steps + [Ok]);
      more := [Ok] + rest;
      assert steps + more == steps + [Ok] + rest;
    }
  }

  lemma BeginStep(w: World, step: Step)
    requires Enabled(w, step) && step.Begin?
    ensures Apply(w, step).phase.Fetch? && Apply(w, step).job.docId == step.docId
      && Apply(w, step).job.before == w.stores
    ensures Apply(w, step).job.vectors == step.vectors && Apply(w, step).job.drafts == step.drafts
  {
    hide Upsert, Latest;
  }

  lemma BeginsThere(steps: seq<Step>, more: seq<Step>, d: DocId, n: nat)
    requires EndsInSweepRead(steps, more, d) && 0 < n < |more|
    requires Exec(steps + more[..n]).phase != Idle
    ensures Exec(steps + more[..n]).job.docId == d && Exec(steps + more[..n]).job.before == Exec(steps).stores
  {
    hide Run, Exec;
    var run := steps + more[..n];
    assert (steps + more)[..|run|] == run;
    RunPrefix(steps + more, |run|);
    JobBegan(run);
    var k: nat :| BeganAt(run, k);
    assert run[|steps|] == more[0];
    assert forall i :: |steps| < i < |run| ==> run[i] == more[i - |steps|];
    assert k == |steps|;
    assert run[..k] == steps;
  }

  lemma {:induction false} RunPrefix(steps: seq<Step>, n: nat)
    requires Run(steps) && n <= |steps|
    ensures Run(steps[..n])
  {
    hide Enabled, Exec;
    if n < |steps| {
      RunPrefix(steps[..|steps| - 1], n);
      assert steps[..|steps| - 1][..n] == steps[..n];
    } else {
      assert steps[..n] == steps;
    }
  }

  lemma NoSweepReadOnAFirstVersion(steps: seq<Step>, more: seq<Step>, d: DocId)
    requires EndsInSweepRead(steps, more, d)
    ensures Latest(Exec(steps).stores.tables, d) >= 1
  {
    hide Run, Exec, Latest, Inv;
    var n := |more| - 1;
    var run := steps + more[..n];
    assert (steps + more)[..|steps + more| - 1] == run;
    LastEnabled(steps + more);
    BeginsThere(steps, more, d, n);
    RunKeeps(run);
    FailIsFail(Exec(run), more[n]);
    SweepReadNeedsAnOlderNumber(Exec(run));
  }

  lemma LastEnabled(steps: seq<Step>)
    requires Run(steps) && steps != []
    ensures Run(steps[..|steps| - 1]) && Enabled(Exec(steps[..|steps| - 1]), steps[|steps| - 1])
  {
    hide Enabled, Exec;
  }

  lemma FailIsFail(w: World, step: Step)
    requires step.Fail? && Enabled(w, step)
    ensures Enabled(w, Fail({}))
  {
  }

  lemma SweepReadCanFail(w: World)
    requires w.phase.SweepRead? && w.phase.u > 0
    ensures Enabled(w, Fail({}))
  {
  }

  lemma SweepReadRaises(steps: seq<Step>, d: DocId)
    requires Run(steps) && Exec(steps).phase.Idle? && Latest(Exec(steps).stores.tables, d) >= 1
    ensures SweepReadCanRaise(steps, d)
  {
    hide Run, Exec, Latest, Inv, Apply, Upsert, Enabled;
    RunKeeps(steps);
    var begin := Begin(d, "", [ChunkDraft(0, "", 0)], [[]]);
    BeginEnabled(Exec(steps), begin);
    Extend(steps, begin, steps + [begin]);
    BeginStep(Exec(steps), begin);
    var oks := ReachesSweep(steps + [begin]);
    var run := steps + [begin] + oks;
    SweepReadCanFail(Exec(run));
    Extend(run, Fail({}), run + [Fail({})]);
    var more := [begin] + oks + [Fail({})];
    assert steps + more == run + [Fail({})];
    assert more[..|more| - 1] == [begin] + oks;
    assert steps + ([begin] + oks) == run;
    assert EndsInSweepRead(steps, more, d);
  }

  lemma BeginEnabled(w: World, step: Step)
    requires Inv(w) && w.phase.Idle? && step.Begin? && step.drafts == [ChunkDraft(0, "", 0)]
    ensures Enabled(w, step)
  {
    hide ChunkId, Owner, Latest, Upsert, HistoryOk, IndexOk;
    UpsertSucceedsIff(w.stores.tables, step.docId, step.title, step.drafts);
  }

  /** From an idle state an ingest of d can end in an error of the sweep's read, which is no IngestError, exactly when
      some version of d is already stored. */
  lemma SweepReadCanRaiseIff(steps: seq<Step>, d: DocId)
    requires Run(steps) && Exec(steps).phase.Idle?
    ensures SweepReadCanRaise(steps, d) <==> Latest(Exec(steps).stores.tables, d) >= 1
  {
    hide Run, Exec, Latest, EndsInSweepRead;
    if Latest(Exec(steps).stores.tables, d) >= 1 {
      SweepReadRaises(steps, d);
    }
    if more :| EndsInSweepRead(steps, more, d) {
      NoSweepReadOnAFirstVersion(steps, more, d);
    }
  }
}
