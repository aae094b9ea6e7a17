/** Chunk ids: "{doc_id}:{version}:{seq}" (src/app/stores/chunk_store.py, _chunk_id). */
module ChunkIds {
  import opened Models

  function Digit(n: nat): char
    requires n < 10
  {
    "0123456789"[n]
  }

  function Decimal(n: nat): string {
    if n < 10 then [Digit(n)] else Decimal(n / 10) + [Digit(n % 10)]
  }

  function ChunkId(docId: DocId, version: nat, ord: nat): string {
    docId + ":" + Decimal(version) + ":" + Decimal(ord)
  }

  function DigitValue(c: char): nat {
    if '0' <= c <= '9' then (c as int) - ('0' as int) else 0
  }

  function NumberOf(s: string): nat {
    if s == "" then 0 else 10 * NumberOf(s[..|s| - 1]) + DigitValue(s[|s| - 1])
  }

  /** Index of the last ':' of s, or |s| when there is none. */
  function LastColon(s: string): (i: nat)
    ensures i <= |s|
  {
    if s == "" then 0
    else if s[|s| - 1] == ':' then |s| - 1
    else
      var i := LastColon(s[..|s| - 1]);
      if i == |s| - 1 then |s| else i
  }

  /** Reads (document, version) back from a chunk id, splitting from the right. */
  function Owner(id: string): (DocId, nat) {
    var head := id[..LastColon(id)];
    var colon := LastColon(head);
    (head[..colon], if colon < |head| then NumberOf(head[colon + 1..]) else 0)
  }

  function OrdOf(id: string): nat {
    var colon := LastColon(id);
    if colon < |id| then NumberOf(id[colon + 1..]) else 0
  }

  lemma LastDigit(n: nat)
    ensures n % 10 < 10 && Digit(n % 10) != ':' && DigitValue(Digit(n % 10)) == n % 10
  {
  }

  lemma {:induction false} DecimalReadsBack(n: nat)
    ensures Decimal(n) != "" && ':' !in Decimal(n) && NumberOf(Decimal(n)) == n
  {
    hide Digit, DigitValue;
    LastDigit(n);
    if n < 10 {
      assert Decimal(n)[..0] == "";
    } else {
      DecimalReadsBack(n / 10);
      assert Decimal(n)[..|Decimal(n)| - 1] == Decimal(n / 10);
    }
  }

  lemma {:induction false} LastColonAt(head: string, tail: string)
    requires ':' !in tail
    ensures LastColon(head + ":" + tail) == |head|
  {
    var s := head + ":" + tail;
    if tail != "" {
      var shorter := tail[..|tail| - 1];
      assert s[..|s| - 1] == head + ":" + shorter;
      LastColonAt(head, shorter);
      assert s[|s| - 1] == tail[|tail| - 1];
    }
  }

  /** Printing is undone by reading, for every document id, colons included. */
  lemma {:induction false} ChunkIdReadsBack(docId: DocId, version: nat, ord: nat)
    ensures Owner(ChunkId(docId, version, ord)) == (docId, version)
    ensures OrdOf(ChunkId(docId, version, ord)) == ord
  {
    var id := ChunkId(docId, version, ord);
    var head := docId + ":" + Decimal(version);
    DecimalReadsBack(version);
    DecimalReadsBack(ord);
    LastColonAt(head, Decimal(ord));
    LastColonAt(docId, Decimal(version));
    assert id == head + ":" + Decimal(ord);
    assert id[..|head|] == head && id[|head| + 1..] == Decimal(ord);
    assert head[..|docId|] == docId && head[|docId| + 1..] == Decimal(version);
  }

  /** The printed form of one id. */
  lemma PrintedId()
    ensures ChunkId("faq", 12, 3) == "faq:12:3"
  {
    assert Decimal(12) == Decimal(1) + [Digit(2)];
    assert Decimal(1) == "1" && Decimal(3) == "3";
  }

  /** Two chunk ids agree only when document, version and position agree. */
  lemma ChunkIdInjective(d: DocId, v: nat, i: nat, d': DocId, v': nat, i': nat)
    requires ChunkId(d, v, i) == ChunkId(d', v', i')
    ensures d == d' && v == v' && i == i'
  {
    ChunkIdReadsBack(d, v, i);
    ChunkIdReadsBack(d', v', i');
  }
}
