/** What the two search indexes have in common: entries keyed by chunk id, dropped by (document, version). */
module SearchIndexes {
  import opened Models
  import opened ChunkIds

  datatype Entry<T> = Entry(docId: DocId, version: nat, payload: T)

  /** What the vector index keeps beside the key columns. */
  datatype Point = Point(vector: Vector, title: string)

  function TextEntry(c: Chunk): Entry<string> {
    Entry(c.docId, c.version, c.text)
  }

  function PointEntry(c: Chunk, vector: Vector): Entry<Point> {
    Entry(c.docId, c.version, Point(vector, c.title))
  }

  function TextEntries(rows: map<string, Chunk>): map<string, Entry<string>> {
    map id | id in rows :: TextEntry(rows[id])
  }

  predicate Of<T>(e: Entry<T>, d: DocId, version: nat) {
    e.docId == d && e.version == version
  }

  /** Dropping (d, version), cut short after the ids in `touched`. */
  function RemoveSome<T>(m: map<string, Entry<T>>, d: DocId, version: nat, touched: set<string>)
    : map<string, Entry<T>>
  {
    m - set id | id in m && Of(m[id], d, version) && id in touched
  }

  function RemoveVersion<T>(m: map<string, Entry<T>>, d: DocId, version: nat): map<string, Entry<T>> {
    m - set id | id in m && Of(m[id], d, version)
  }

  /** Writing `entries`, cut short after the ids in `touched`. */
  function PutSome<T>(m: map<string, Entry<T>>, entries: map<string, Entry<T>>, touched: set<string>)
    : map<string, Entry<T>>
  {
    m + (entries - (entries.Keys - touched))
  }
}
