/** Concrete ingest runs showing where the guarantees of IngestSafety stop. */
module IngestWitnesses {
  import opened Models
  import opened ChunkIds
  import opened ChunkStore
  import opened SearchIndexes
  import opened IngestProtocol
  import opened IngestInvariant
  import opened IngestSteps
  import opened IngestGuarantees
  import opened IngestSafety
  import opened IngestOutlook

  function OneDraft(text: string): seq<ChunkDraft> {
    [ChunkDraft(0, text, 1)]
  }

  const START := Begin("a", "title", OneDraft("x"), [[]])

  function Row(text: string): Chunk {
    Chunk(ChunkId("a", 1, 0), "a", 1, 0, text, "title")
  }

  lemma FirstUpsert(t: Tables, text: string)
    requires t.documents == map[] && t.chunks == map[]
    ensures Upsert(t, "a", "title", OneDraft(text)).Some?
    ensures
      var t' := Upsert(t, "a", "title", OneDraft(text)).value;
      t'.chunks == map[ChunkId("a", 1, 0) := Row(text)] && t'.documents == map[("a", 1) := DocRow("title", true)]
  {
    hide ChunkId;
    LatestUnique(t, "a", 0);
    var rows := RowsOf("a", "title", 1, OneDraft(text));
    assert rows == [Row(text)];
    assert rows[..0] == [];
    assert Keyed(rows) == map[ChunkId("a", 1, 0) := Row(text)];
  }

  function Stored(text: string): Tables {
    Tables(map[("a", 1) := DocRow("title", true)], map[ChunkId("a", 1, 0) := Row(text)])
  }

  lemma Started() returns (w: World)
    ensures Run([START]) && w == Exec([START])
    ensures w.phase.Fetch? && w.job == Job("a", "title", OneDraft("x"), [[]], 1, NO_STORES)
    ensures w.stores == Stores(Stored("x"), map[], map[])
    ensures Keyed(Rows(w.job)) == map[ChunkId("a", 1, 0) := Row("x")]
  {
    hide ChunkId;
    FirstUpsert(EMPTY_TABLES, "x");
    LatestUnique(EMPTY_TABLES, "a", 0);
    Extend([], START, [START]);
    w := Exec([START]);
    assert Rows(w.job) == [Row("x")];
    assert Rows(w.job)[..0] == [];
  }

  const TO_VECTORS := [START, Ok, Ok, Ok, Ok]

  lemma ReachedVectors() returns (w: World)
    ensures Run(TO_VECTORS) && w == Exec(TO_VECTORS) && w.phase.PutVectors?
    ensures w.job == Job("a", "title", OneDraft("x"), [[]], 1, NO_STORES)
    ensures w.stores.tables == Stored("x") && w.stores.vectors == map[]
    ensures w.stores.bm25 == map[ChunkId("a", 1, 0) := TextEntry(Row("x"))]
    ensures Keyed(Rows(w.job)) == map[ChunkId("a", 1, 0) := Row("x")]
  {
    hide ChunkId, Keyed, Rows, Exec, Run;
    w := Started();
    Extend([START], Ok, [START, Ok]);
    Extend([START, Ok], Ok, [START, Ok, Ok]);
    Extend([START, Ok, Ok], Ok, [START, Ok, Ok, Ok]);
    Extend([START, Ok, Ok, Ok], Ok, TO_VECTORS);
    w := Exec(TO_VECTORS);
  }

  lemma WroteEverythingButFailed(w: World)
    requires w.phase.PutVectors? && w.job == Job("a", "title", OneDraft("x"), [[]], 1, NO_STORES)
    requires w.stores.tables == Stored("x") && w.stores.vectors == map[]
    requires w.stores.bm25 == map[ChunkId("a", 1, 0) := TextEntry(Row("x"))]
    requires Keyed(Rows(w.job)) == map[ChunkId("a", 1, 0) := Row("x")]
    ensures
      var w' := Apply(w, Fail({ChunkId("a", 1, 0)}));
      w'.phase.UndoVectors? && HasComplete(w'.stores, "a") && !HasComplete(Apply(w', Ok).stores, "a")
  {
    hide ChunkId, Keyed, Rows, Exec, Run;
    var id := ChunkId("a", 1, 0);
    var w' := Apply(w, Fail({id}));
    assert Points(w.job) == map[id := PointEntry(Row("x"), [])];
    assert w'.stores.vectors == map[id := PointEntry(Row("x"), [])];
    assert Complete(w'.stores, "a", 1);
    var s := Apply(w', Ok).stores;
    assert id !in s.vectors && RowOf(s.tables, id, "a", 1);
  }

  /** A vector call that reports failure after writing every point, on a first ingest: the version is complete for
      a moment, and the rollback takes it away. "Once complete, always complete" fails without the in-flight proviso. */
  lemma CompletenessCanBeLost()
    ensures
      var steps := TO_VECTORS + [Fail({ChunkId("a", 1, 0)})];
      && Run(steps) && HasComplete(Exec(steps).stores, "a")
      && Run(steps + [Ok]) && !HasComplete(Exec(steps + [Ok]).stores, "a")
  {
    hide ChunkId, Keyed, Rows, Exec, Run, Effect, HasComplete;
    var w := ReachedVectors();
    var steps := TO_VECTORS + [Fail({ChunkId("a", 1, 0)})];
    WroteEverythingButFailed(w);
    Extend(TO_VECTORS, Fail({ChunkId("a", 1, 0)}), steps);
    Extend(steps, Ok, steps + [Ok]);
  }

  /** The number of an aborted version is allocated again: an id read while its version is being written can come to
      name other text. */
  lemma AbortedIdsCanBeRebound()
    ensures
      var id := ChunkId("a", 1, 0);
      && Run([START]) && id in Exec([START]).stores.tables.chunks
      && CanBeRebound([START], id)
  {
    hide ChunkId, Owner, Keyed, Rows, Exec, Run, CanBeRebound;
    var w := Started();
    ChunkIdReadsBack("a", 1, 0);
    RowsCanBeReboundIff([START], ChunkId("a", 1, 0));
  }

  lemma FinishingStep(w: World)
    requires w.phase == SweepRead(0) || w.phase.Invalidate?
    ensures Enabled(w, Ok) && Apply(w, Ok).stores == w.stores
    ensures Apply(w, Ok).phase == if w.phase.SweepRead? then Invalidate else Idle
  {
  }

  /** After one successful ingest of a document, the next one can end in the raw error of the sweep's read. */
  lemma SweepReadCanEscape()
    ensures
      var first := TO_VECTORS + [Ok, Ok, Ok];
      Run(first) && Exec(first).phase.Idle? && SweepReadCanRaise(first, "a")
  {
    hide ChunkId, Keyed, Rows, Exec, Run, Inv, Apply, Enabled;
    var w := ReachedVectors();
    RunKeeps(TO_VECTORS);
    WriteOkStep(w);
    LatestUnique(EMPTY_TABLES, "a", 0);
    OnlyDeletesTouchTables(w, Ok);
    var swept := TO_VECTORS + [Ok];
    Extend(TO_VECTORS, Ok, swept);
    FinishingStep(Exec(swept));
    Extend(swept, Ok, TO_VECTORS + [Ok, Ok]);
    FinishingStep(Exec(TO_VECTORS + [Ok, Ok]));
    Extend(TO_VECTORS + [Ok, Ok], Ok, TO_VECTORS + [Ok, Ok, Ok]);
    SweepReadCanRaiseIff(TO_VECTORS + [Ok, Ok, Ok], "a");
    assert ("a", 1) in Stored("x").documents;
  }
}
