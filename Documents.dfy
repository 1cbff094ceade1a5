/** The document value shared by ingestion and retrieval, and the boundaries
    of the text splitter and the vector store, which are consumed as black
    boxes. */
module Documents {
  import opened Wrappers
  import opened Js

  /** A document's key-value metadata (`Record<string, any>`). */
  type Metadata = map<string, Json>

  /** A LangChain `Document`: text plus metadata. */
  datatype Document = Document(pageContent: string, metadata: Metadata)

  /** `docs.map(d => d.pageContent)`. */
  function Contents(docs: seq<Document>): (r: seq<string>)
    ensures |r| == |docs|
    ensures forall i :: 0 <= i < |docs| ==> r[i] == docs[i].pageContent
  {
    seq(|docs|, i requires 0 <= i < |docs| => docs[i].pageContent)
  }

  /** The two settings given to the text splitter's constructor, as the
      values the caller supplied (possibly not numbers at all). */
  datatype SplitterConfig = SplitterConfig(chunkSize: Json, chunkOverlap: Json)

  /** The recursive character text splitter. Its algorithm is not part of
      this model: `accepts` says whether its constructor accepts a
      configuration (it throws otherwise), and `createDocuments` is the chunk
      list it produces, in order, for a list of texts, or `None` when that
      call rejects. */
  datatype Splitter = Splitter(
    accepts: SplitterConfig -> bool,
    createDocuments: (SplitterConfig, seq<string>) -> Option<seq<Document>>)

  /** The table every ingestion path writes to and retrieval reads from. */
  const DocumentsTable := "documents"

  /** The handle the vector store hands back after inserting documents. */
  datatype VectorStore = VectorStore(tableName: string)

  /** Embeds a list of documents and inserts them into the named table, in
      one call; `None` when that call throws. */
  type Store = (string, seq<Document>) -> Option<VectorStore>
}
