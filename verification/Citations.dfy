/** The citations of an answer: one per source block, and the documents they name. */
module Citations {
  import opened Models

  function RefOf(c: Chunk): SourceRef {
    SourceRef(c.id, c.docId, c.title)
  }

  function RefsOf(chunks: seq<RetrievedChunk>): (refs: seq<SourceRef>)
    ensures |refs| == |chunks| && forall i :: 0 <= i < |chunks| ==> refs[i] == RefOf(chunks[i].chunk)
  {
    seq(|chunks|, i requires 0 <= i < |chunks| => RefOf(chunks[i].chunk))
  }

  /** list(dict.fromkeys(...)): the cited documents, each once, in the order first cited. */
  function CitedDocs(refs: seq<SourceRef>): seq<DocId> {
    if refs == [] then []
    else
      var earlier, d := CitedDocs(refs[..|refs| - 1]), refs[|refs| - 1].docId;
      if d in earlier then earlier else earlier + [d]
  }

  /** Where d is first cited, or the number of citations. */
  function FirstCite(refs: seq<SourceRef>, d: DocId): (i: nat)
    ensures i <= |refs| && (i < |refs| ==> refs[i].docId == d)
    ensures forall k :: 0 <= k < i ==> refs[k].docId != d
  {
    if refs == [] || refs[0].docId == d then 0 else 1 + FirstCite(refs[1..], d)
  }

  predicate Cites(refs: seq<SourceRef>, d: DocId) {
    exists i :: 0 <= i < |refs| && refs[i].docId == d
  }

  lemma {:induction false} CitedDocsAreTheCited(refs: seq<SourceRef>)
    ensures forall d :: d in CitedDocs(refs) <==> Cites(refs, d)
    ensures forall i, j :: 0 <= i < j < |CitedDocs(refs)| ==> CitedDocs(refs)[i] != CitedDocs(refs)[j]
  {
    if refs != [] {
      var front := refs[..|refs| - 1];
      CitedDocsAreTheCited(front);
      forall d
        ensures Cites(refs, d) <==> Cites(front, d) || d == refs[|refs| - 1].docId
      {
        if Cites(front, d) {
          var i :| 0 <= i < |front| && front[i].docId == d;
          assert refs[i].docId == d;
        }
        if Cites(refs, d) {
          var i :| 0 <= i < |refs| && refs[i].docId == d;
          assert i < |front| ==> front[i].docId == d;
        }
      }
    }
  }

  lemma FirstCiteInFront(refs: seq<SourceRef>, d: DocId)
    requires refs != []
    ensures
      var front, i := refs[..|refs| - 1], FirstCite(refs[..|refs| - 1], d);
      FirstCite(refs, d) == if i < |front| then i else if refs[|refs| - 1].docId == d then |front| else |refs|
  {
    var i, j := FirstCite(refs[..|refs| - 1], d), FirstCite(refs, d);
    assert forall k :: 0 <= k < |refs| - 1 ==> refs[..|refs| - 1][k] == refs[k];
    assert i < |refs| - 1 ==> refs[i].docId == d;
    assert j < |refs| - 1 ==> refs[..|refs| - 1][j].docId == d;
  }

  /** The documents come in the order they are first cited. */
  lemma {:induction false} CitedInOrder(refs: seq<SourceRef>, i: nat, j: nat)
    requires i < j < |CitedDocs(refs)|
    ensures FirstCite(refs, CitedDocs(refs)[i]) < FirstCite(refs, CitedDocs(refs)[j])
  {
    if refs != [] {
      var front, docs := refs[..|refs| - 1], CitedDocs(refs);
      CitedDocsAreTheCited(front);
      FirstCiteInFront(refs, docs[i]);
      FirstCiteInFront(refs, docs[j]);
      assert CitedDocs(front) <= docs;
      assert docs[i] == CitedDocs(front)[i] && Cites(front, docs[i]);
      if j < |CitedDocs(front)| {
        CitedInOrder(front, i, j);
        assert Cites(front, docs[j]);
      } else {
        assert !Cites(front, docs[j]);
      }
    }
  }
}
