/** The simpler ingestion path: all raw documents are split in one call with
    a fixed configuration, every chunk is prefixed with a context written
    from the chunk text alone, and the list is stored and returned. There is
    no fallback: one failed context call rejects the whole call before
    anything is stored. */
module ProcessDocs {
  import opened Wrappers
  import opened Js
  import opened Documents

  /** The splitter configuration, whatever the input. */
  const FixedConfig := SplitterConfig(JNumber(1000), JNumber(200))

  /** The system message of the context chain (Finnish: "Give a short and
      concise context for this text snippet to improve its retrieval:"). */
  const ContextInstruction := "Anna lyhyt ja ytimekäs konteksti tälle tekstipätkälle parantaaksesi sen hakua:"

  /** The prompt-model-parser chain, for a system and a human message: the
      generated text, or `None` when the call rejects. */
  type ContextChain = (string, string) -> Option<string>

  datatype IngestError = SplitterRejected | SplitFailed | ContextFailed | StoreFailed

  /** The context the chain writes for one chunk, from its text alone. */
  function ContextFor(chunk: Document, chain: ContextChain): Option<string> {
    chain(ContextInstruction, chunk.pageContent)
  }

  /** `Promise.all(docs.map(…))`: every chunk prefixed with its context and a
      blank line, metadata passed through unchanged, in chunk order; `None`
      as soon as one context call rejects. */
  function WithContext(chunks: seq<Document>, chain: ContextChain): (r: Option<seq<Document>>)
    ensures r.Some? <==> forall i :: 0 <= i < |chunks| ==> ContextFor(chunks[i], chain).Some?
    ensures r.Some? ==> |r.value| == |chunks| && forall i :: 0 <= i < |chunks| ==>
      r.value[i] == Document(ContextFor(chunks[i], chain).value + "\n\n" + chunks[i].pageContent, chunks[i].metadata)
  {
    if |chunks| == 0 then Some([])
    else
      match ContextFor(chunks[0], chain)
      case None => None
      case Some(context) =>
        match WithContext(chunks[1..], chain)
        case None =>
          assert forall i :: 1 <= i < |chunks| ==> chunks[1..][i - 1] == chunks[i];
          None
        case Some(rest) =>
          assert forall i :: 1 <= i < |chunks| ==> chunks[1..][i - 1] == chunks[i];
          Some([Document(context + "\n\n" + chunks[0].pageContent, chunks[0].metadata)] + rest)
  }

  /** `processDocuments`. */
  function ProcessDocuments(rawDocs: seq<string>, splitter: Splitter, chain: ContextChain, store: Store)
    : (r: Result<seq<Document>, IngestError>)
    ensures r.Success? <==>
        && splitter.accepts(FixedConfig)
        && splitter.createDocuments(FixedConfig, rawDocs).Some?
        && var chunks := splitter.createDocuments(FixedConfig, rawDocs).value;
           && (forall i :: 0 <= i < |chunks| ==> ContextFor(chunks[i], chain).Some?)
           && store(DocumentsTable, WithContext(chunks, chain).value).Some?
    ensures splitter.accepts(FixedConfig) && splitter.createDocuments(FixedConfig, rawDocs).None? ==>
      r == Failure(SplitFailed)
    ensures r.Success? ==>
        var chunks := splitter.createDocuments(FixedConfig, rawDocs).value;
        && store(DocumentsTable, r.value).Some?
        && |r.value| == |chunks|
        && forall i :: 0 <= i < |chunks| ==>
             && r.value[i].pageContent == ContextFor(chunks[i], chain).value + "\n\n" + chunks[i].pageContent
             && r.value[i].metadata == chunks[i].metadata
  {
    if !splitter.accepts(FixedConfig) then Failure(SplitterRejected)
    else
      match splitter.createDocuments(FixedConfig, rawDocs)
      case None => Failure(SplitFailed)
      case Some(docs) =>
        match WithContext(docs, chain)
        case None => Failure(ContextFailed)
        case Some(contextualDocs) =>
          match store(DocumentsTable, contextualDocs)
          case None => Failure(StoreFailed)
          case Some(_) => Success(contextualDocs)
  }

  /** No fallback: when the context call for any chunk rejects, the whole
      call rejects, and what the store would do plays no part. */
  lemma ContextFailureRejectsBeforeStoring(rawDocs: seq<string>, splitter: Splitter, chain: ContextChain,
                                           store: Store, otherStore: Store, chunks: seq<Document>, i: nat)
    requires splitter.accepts(FixedConfig)
    requires splitter.createDocuments(FixedConfig, rawDocs) == Some(chunks)
    requires i < |chunks| && ContextFor(chunks[i], chain).None?
    ensures ProcessDocuments(rawDocs, splitter, chain, store) == Failure(ContextFailed)
    ensures ProcessDocuments(rawDocs, splitter, chain, otherStore) == Failure(ContextFailed)
  {
  }
}
