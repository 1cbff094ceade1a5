/** Contextual ingestion: every chunk of every document is prefixed with a
    short context the completion model writes about where the chunk sits in
    its document; a failed context call keeps the chunk as it was. The
    result is stored in one call and returned. */
module ContextualRetrieval {
  import opened Wrappers
  import opened Js
  import opened Documents

  // ---------------------------------------------------------------------
  // Adding context to one chunk

  const SystemInstruction := "Generate concise context for the chunk based on the document."

  /** The document between its tags. */
  function DocumentBlock(document: string): string {
    "<document>\n" + document + "\n</document>"
  }

  /** The chunk between its tags. */
  function ChunkBlock(chunk: string): string {
    "<chunk>\n" + chunk + "\n</chunk>"
  }

  const ChunkLead := "\nHere is the chunk we want to situate within the whole document\n"
  const Instruction := "\nPlease give a short succinct context to situate this chunk within the overall document for the purposes of improving search retrieval of the chunk. Answer only with the succinct context and nothing else."

  /** The user prompt of the context call: the whole document between
      `<document>` tags, then the chunk between `<chunk>` tags, then the
      instruction. */
  function ContextPrompt(document: string, chunk: string): (r: string)
    ensures OccursAt(r, 1, DocumentBlock(document))
    ensures |DocumentBlock(document)| + |ChunkBlock(chunk)| + |Instruction| < |r|
    ensures OccursAt(r, |r| - |Instruction| - |ChunkBlock(chunk)|, ChunkBlock(chunk))
    ensures r[|r| - |Instruction|..] == Instruction
  {
    TwoBlocksLayout("\n", DocumentBlock(document), ChunkLead, ChunkBlock(chunk), Instruction);
    "\n" + DocumentBlock(document) + ChunkLead + ChunkBlock(chunk) + Instruction
  }

  /** A chat completion response: the message content of each choice, a
      string or null. */
  datatype ChatCompletion = ChatCompletion(choices: seq<Option<string>>)

  /** The chat completion call for a system and a user message; `None` when it
      throws. */
  type ChatCompletions = (string, string) -> Option<ChatCompletion>

  /** The content of the first choice of the context call; `None` when the
      call throws or there is no first choice to read. */
  function GeneratedContext(document: string, chunk: Document, complete: ChatCompletions): Option<Option<string>> {
    match complete(SystemInstruction, ContextPrompt(document, chunk.pageContent))
    case None => None
    case Some(response) =>
      if |response.choices| == 0 then None else Some(response.choices[0])
  }

  /** `addContextToChunk`: on success the content is the context, a blank
      line and the chunk text, and the metadata gains `context`; on any
      failure the chunk itself. Either way the chunk text ends the content
      and every other metadata key is kept as it was. */
  function AddContextToChunk(document: string, chunk: Document, complete: ChatCompletions): (r: Document)
    ensures GeneratedContext(document, chunk, complete).None? ==> r == chunk
    ensures GeneratedContext(document, chunk, complete).Some? ==>
      var context := GeneratedContext(document, chunk, complete).value;
      && r.pageContent == Interpolate(context) + "\n\n" + chunk.pageContent
      && "context" in r.metadata && r.metadata["context"] == JsonOfNullable(context)
    ensures |chunk.pageContent| <= |r.pageContent|
    ensures r.pageContent[|r.pageContent| - |chunk.pageContent|..] == chunk.pageContent
    ensures forall key :: key != "context" ==>
      (key in r.metadata <==> key in chunk.metadata) &&
      (key in chunk.metadata ==> r.metadata[key] == chunk.metadata[key])
  {
    match GeneratedContext(document, chunk, complete)
    case None => chunk
    case Some(context) =>
      var content := Interpolate(context) + "\n\n" + chunk.pageContent;
      assert content[|content| - |chunk.pageContent|..] == chunk.pageContent;
      Document(content, chunk.metadata["context" := JsonOfNullable(context)])
  }

  /** A null context is not caught: it is written out as the text "null" and
      stored as a null `context`. */
  lemma NullContextIsInterpolated(document: string, chunk: Document, complete: ChatCompletions)
    requires GeneratedContext(document, chunk, complete) == Some(None)
    ensures AddContextToChunk(document, chunk, complete).pageContent == "null\n\n" + chunk.pageContent
    ensures AddContextToChunk(document, chunk, complete).metadata["context"] == JNull
  {
  }

  // ---------------------------------------------------------------------
  // Options

  const DefaultChunkSize := 1000
  const DefaultChunkOverlap := 200

  datatype IngestError = OptionsNotDestructurable | SplitterRejected | SplitFailed | StoreFailed

  /** The splitter configuration read from the options argument
      (`const { chunkSize = 1000, chunkOverlap = 200 } = options`, with
      `options` defaulting to `{}`): a missing key takes its default, a
      present one is used as given, and a null argument cannot be
      destructured. */
  function SplitterConfigOf(options: Option<Json>): (r: Result<SplitterConfig, IngestError>)
    ensures r.Failure? <==> options == Some(JNull)
    ensures r.Failure? ==> r.error == OptionsNotDestructurable
    ensures options.None? ==> r == Success(SplitterConfig(JNumber(DefaultChunkSize), JNumber(DefaultChunkOverlap)))
    ensures r.Success? && !(options.Some? && options.value.JObject? && "chunkSize" in options.value.fields) ==>
      r.value.chunkSize == JNumber(DefaultChunkSize)
    ensures r.Success? && !(options.Some? && options.value.JObject? && "chunkOverlap" in options.value.fields) ==>
      r.value.chunkOverlap == JNumber(DefaultChunkOverlap)
    ensures options.Some? && options.value.JObject? && "chunkSize" in options.value.fields ==>
      r.Success? && r.value.chunkSize == options.value.fields["chunkSize"]
    ensures options.Some? && options.value.JObject? && "chunkOverlap" in options.value.fields ==>
      r.Success? && r.value.chunkOverlap == options.value.fields["chunkOverlap"]
  {
    match options
    case None => Success(SplitterConfig(JNumber(DefaultChunkSize), JNumber(DefaultChunkOverlap)))
    case Some(JNull) => Failure(OptionsNotDestructurable)
    case Some(JObject(fields)) =>
      Success(SplitterConfig(
        if "chunkSize" in fields then fields["chunkSize"] else JNumber(DefaultChunkSize),
        if "chunkOverlap" in fields then fields["chunkOverlap"] else JNumber(DefaultChunkOverlap)))
    case Some(_) => Success(SplitterConfig(JNumber(DefaultChunkSize), JNumber(DefaultChunkOverlap)))
  }

  /** No option other than the two sizes is read: option objects that agree
      on `chunkSize` and `chunkOverlap` configure the same splitter, whatever
      else (a `metadata` entry, say) they hold. */
  lemma OnlySizeOptionsRead(a: map<string, Json>, b: map<string, Json>)
    requires ("chunkSize" in a <==> "chunkSize" in b) && ("chunkOverlap" in a <==> "chunkOverlap" in b)
    requires "chunkSize" in a ==> a["chunkSize"] == b["chunkSize"]
    requires "chunkOverlap" in a ==> a["chunkOverlap"] == b["chunkOverlap"]
    ensures SplitterConfigOf(Some(JObject(a))) == SplitterConfigOf(Some(JObject(b)))
  {
  }

  // ---------------------------------------------------------------------
  // Processing documents

  /** `Promise.all(chunks.map(chunk => addContextToChunk(doc, chunk)))`:
      one result per chunk, in chunk order. */
  function ContextualizeChunks(document: string, chunks: seq<Document>, complete: ChatCompletions): (r: seq<Document>)
    ensures |r| == |chunks|
    ensures forall i :: 0 <= i < |chunks| ==> r[i] == AddContextToChunk(document, chunks[i], complete)
  {
    seq(|chunks|, i requires 0 <= i < |chunks| => AddContextToChunk(document, chunks[i], complete))
  }

  /** The chunks the splitter makes of one document, split on its own, or
      `None` when that split rejects. */
  function ChunksOf(document: string, config: SplitterConfig, splitter: Splitter): Option<seq<Document>> {
    splitter.createDocuments(config, [document])
  }

  /** Every document's split succeeds. */
  predicate AllSplit(documents: seq<string>, config: SplitterConfig, splitter: Splitter) {
    forall j :: 0 <= j < |documents| ==> ChunksOf(documents[j], config, splitter).Some?
  }

  /** How many chunks the documents make together. */
  function ChunkCount(documents: seq<string>, config: SplitterConfig, splitter: Splitter): nat
    requires AllSplit(documents, config, splitter)
  {
    if |documents| == 0 then 0
    else
      var init := documents[..|documents| - 1];
      assert forall j :: 0 <= j < |init| ==> init[j] == documents[j];
      ChunkCount(init, config, splitter)
        + |ChunksOf(documents[|documents| - 1], config, splitter).value|
  }

  /** Where the chunks of document `j` start in the flattened list. */
  function ChunkStart(documents: seq<string>, config: SplitterConfig, splitter: Splitter, j: nat): nat
    requires j <= |documents| && AllSplit(documents, config, splitter)
  {
    assert forall k :: 0 <= k < j ==> documents[..j][k] == documents[k];
    ChunkCount(documents[..j], config, splitter)
  }

  /** The contextual chunks of all documents: each document's contextual
      chunks in chunk order, documents in input order; `None` when the split
      of any document rejects. */
  function ContextualDocs(documents: seq<string>, config: SplitterConfig, splitter: Splitter,
                          complete: ChatCompletions): (r: Option<seq<Document>>)
    ensures r.Some? <==> AllSplit(documents, config, splitter)
    ensures r.Some? ==> |r.value| == ChunkCount(documents, config, splitter)
  {
    if |documents| == 0 then Some([])
    else
      var init := documents[..|documents| - 1];
      var last := documents[|documents| - 1];
      assert forall j :: 0 <= j < |init| ==> init[j] == documents[j];
      match ContextualDocs(init, config, splitter, complete)
      case None => None
      case Some(front) =>
        match ChunksOf(last, config, splitter)
        case None => None
        case Some(chunks) => Some(front + ContextualizeChunks(last, chunks, complete))
  }

  /** Chunk `c` of document `j` lands at position `ChunkStart(j) + c` of the
      flattened list, contextualised against its own document. */
  lemma {:induction false} ContextualDocsAt(documents: seq<string>, config: SplitterConfig, splitter: Splitter,
                                            complete: ChatCompletions, j: nat, c: nat)
    requires AllSplit(documents, config, splitter)
    requires j < |documents| && c < |ChunksOf(documents[j], config, splitter).value|
    ensures ChunkStart(documents, config, splitter, j) + c < ChunkCount(documents, config, splitter)
    ensures ContextualDocs(documents, config, splitter, complete).value[ChunkStart(documents, config, splitter, j) + c]
         == AddContextToChunk(documents[j], ChunksOf(documents[j], config, splitter).value[c], complete)
  {
    var n := |documents|;
    var init := documents[..n - 1];
    var last := documents[n - 1];
    assert forall k :: 0 <= k < |init| ==> init[k] == documents[k];
    assert AllSplit(init, config, splitter);
    var chunks := ChunksOf(last, config, splitter).value;
    var prefix := ContextualDocs(init, config, splitter, complete).value;
    var tail := ContextualizeChunks(last, chunks, complete);
    assert ContextualDocs(documents, config, splitter, complete) == Some(prefix + tail);
    assert ChunkCount(documents, config, splitter) == ChunkCount(init, config, splitter) + |chunks|;
    if j == n - 1 {
      assert ChunkStart(documents, config, splitter, j) == |prefix|;
    } else {
      assert init[..j] == documents[..j];
      ContextualDocsAt(init, config, splitter, complete, j, c);
      assert ChunkStart(documents, config, splitter, j) == ChunkStart(init, config, splitter, j);
    }
  }

  /** What ingestion returns: the store handle and the documents stored. */
  datatype Ingested = Ingested(vectorStore: VectorStore, documents: seq<Document>)

  /** `processDocumentsWithContext`: read the options, build the splitter,
      split and contextualise document by document into one list, store that
      list in one call and return it with the store. A rejected split ends
      the call before anything is stored. */
  method ProcessDocumentsWithContext(documents: seq<string>, options: Option<Json>, splitter: Splitter,
                                     complete: ChatCompletions, store: Store)
    returns (r: Result<Ingested, IngestError>)
    ensures SplitterConfigOf(options).Failure? ==> r == Failure(OptionsNotDestructurable)
    ensures SplitterConfigOf(options).Success? && !splitter.accepts(SplitterConfigOf(options).value) ==>
      r == Failure(SplitterRejected)
    ensures SplitterConfigOf(options).Success? && splitter.accepts(SplitterConfigOf(options).value)
            && !AllSplit(documents, SplitterConfigOf(options).value, splitter) ==>
      r == Failure(SplitFailed)
    ensures SplitterConfigOf(options).Success? && splitter.accepts(SplitterConfigOf(options).value)
            && AllSplit(documents, SplitterConfigOf(options).value, splitter) ==>
      var all := ContextualDocs(documents, SplitterConfigOf(options).value, splitter, complete).value;
      r == match store(DocumentsTable, all)
           case None => Failure(StoreFailed)
           case Some(vectorStore) => Success(Ingested(vectorStore, all))
  {
    if SplitterConfigOf(options).Failure? {
      return Failure(OptionsNotDestructurable);
    }
    var config := SplitterConfigOf(options).value;
    if !splitter.accepts(config) {
      return Failure(SplitterRejected);
    }
    var allContextualDocs: seq<Document> := [];
    for i := 0 to |documents|
      invariant ContextualDocs(documents[..i], config, splitter, complete) == Some(allContextualDocs)
    {
      var doc := documents[i];
      assert documents[..i + 1][..i] == documents[..i];
      assert documents[..i + 1][i] == doc;
      match ChunksOf(doc, config, splitter)
      case None =>
        assert !AllSplit(documents, config, splitter) by {
          assert ChunksOf(documents[i], config, splitter).None?;
        }
        return Failure(SplitFailed);
      case Some(chunks) =>
        var contextualChunks := ContextualizeChunks(doc, chunks, complete);
        allContextualDocs := allContextualDocs + contextualChunks;
    }
    assert documents[..|documents|] == documents;
    match store(DocumentsTable, allContextualDocs)
    case None => r := Failure(StoreFailed);
    case Some(vectorStore) => r := Success(Ingested(vectorStore, allContextualDocs));
  }
}
