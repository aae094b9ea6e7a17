/** The value types shared by every component (src/app/models.py). */
module Models {
  datatype Option<+T> = None | Some(value: T)

  type DocId = string

  /** An embedding, opaque to everything but the vector index. */
  type Vector = seq<real>

  datatype ChunkDraft = ChunkDraft(ord: nat, text: string, tokenEstimate: nat)

  /** A stored chunk; `id` is the printed "{docId}:{version}:{ord}". */
  datatype Chunk = Chunk(id: string, docId: DocId, version: nat, ord: nat, text: string, title: string)

  datatype DocumentVersion = DocumentVersion(docId: DocId, version: nat, chunkCount: nat)

  datatype Source = Bm25 | VectorIndex

  datatype RetrievedChunk = RetrievedChunk(chunk: Chunk, score: real, sources: set<Source>)

  datatype SourceRef = SourceRef(chunkId: string, docId: DocId, title: string)

  datatype Role = System | User | Assistant

  /** A session turn, and also a prompt message; sessions never hold a System turn. */
  datatype Message = Message(role: Role, content: string)
}
