# Contextual retrieval: a Dafny model of the RAG core

This project models the deterministic core of a retrieval-augmented chat application. The core has two ingestion paths and one query path.

- **Contextual ingestion** (`processDocumentsWithContext`). Each document is split into chunks. Every chunk is sent to a completion model with the whole document and comes back prefixed with a short context. The `context` entry is added to the chunk's metadata. If the context call fails, the chunk is kept as it was. All contextual chunks are stored in one call and returned.
- **Simple ingestion** (`processDocuments`). All documents are split in one call with a fixed 1000/200 configuration. Each chunk gets a context written from its own text and keeps its metadata. There is no fallback, so one failed context call rejects the whole call.
- **RAG middleware** (`ragMiddleware.transformParams`). It sits in front of the chat model. A request passes through unchanged unless four things hold: it is a message prompt, its provider metadata carries `files.selection` as a list of strings, it ends with a user message, and that message is classified as a question. A question is answered hypothetically and the answer is embedded. The raw question text is used for a vector search (top 30). BM25 then re-ranks those same 30 hits (top 10). The two lists are deduplicated by content, with the first occurrence winning. Each passage is scored against the answer embedding, or gets 0 when it has no stored embedding. The passages are stably sorted by descending score and the top 20 are kept. One system message is then prepended to the conversation: a fixed Finnish preamble, a blank line, and the passages separated by blank lines. Any exception leaves the request unchanged.

Every external call is a parameter. This covers the completion and classification models, embeddings, the vector store, BM25, cosine similarity and the text splitter. Each takes the values the code passes it that depend on the input: the query text, the answer, the document lists, the chunk. The fixed system prompts, the classification enum and the model names are constants of the call and are not passed. Every call that can reject returns an `Option` that is `None` when it throws; this includes the splitter's `createDocuments`. The one exception is the splitter's constructor, `accepts`, which is a predicate. The middleware is modelled as the fail-open computation `Augment`. It returns either the rewritten request or the reason for passing it through (`Skip`). `TransformParams` returns the original request whenever that reason is present.

Modules: `Wrappers` (Option, Result), `Js` (JSON values, truthiness, template interpolation of `string | null`, `Array.prototype.join`), `Documents` (document, splitter and store boundaries), `RagMiddleware`, `ContextualRetrieval` and `ProcessDocs`. `ProcessDocumentsWithContext` is a method with a `for` loop that accumulates the contextual chunks, as the source does. It is proved against the specification function `ContextualDocs`. Everything else is pure functions and lemmas.

Behaviours of the code worth knowing:

- The retrieved passages go in as a new system message at the front of the conversation. The user message is left alone. The message is added even when retrieval finds nothing (`EmptyRetrievalStillPrepends`).
- The vector search is asked with the raw message text. The hypothetical answer's embedding is used only to score the passages (`SearchUsesRawQuery`). BM25 scores only the vector hits (`Bm25ScoresVectorHitsOnly`).
- Any call that throws after classification leaves the request unchanged (`RetrievalFailureLeavesRequestUnchanged`).
- In contextual ingestion, only a throwing context call falls back to the unmodified chunk. A missing first choice throws too. A `null` context is written into the content as the text `null` (`NullContextIsInterpolated`).
- The rewritten request's mode is a plain `{ type: 'regular' }`, so any tools or tool choice the original mode carried are dropped.
- `files.selection` is validated but never used to restrict retrieval.
- The `metadata` option that the PDF route passes is not a processing option and is ignored (`OnlySizeOptionsRead`).
- A rejected split ends either ingestion path before anything is stored.

## Model

| member | source | states |
|---|---|---|
| `RagMiddleware.TransformParams` | lib/ai/rag-middleware.ts:26-140 | The request comes back unchanged when the input format is not `messages`, when the selection metadata is malformed, when the prompt is empty or does not end with a user message, or when the classification is not `question` or fails. It comes back unchanged exactly when `Augment` reports a skip. Otherwise the prompt is one system message followed by the original messages, in order. The input format is `messages`, the mode is plain regular, and the provider metadata and all other settings are kept. |
| `RagMiddleware.RetrievalFailureLeavesRequestUnchanged` | lib/ai/rag-middleware.ts:68-139 | When the hypothetical answer, its embedding, the vector search, BM25 or a similarity call throws, the request comes back unchanged. |
| `RagMiddleware.RewriteShape` | lib/ai/rag-middleware.ts:31-133 | A rewrite happens only when every guard passed and the label was `question`. Its first message is the context message built from the ranked retrieval, carrying the request's provider metadata. |
| `RagMiddleware.QueryTextOfParts` | lib/ai/rag-middleware.ts:48-52 | For array content, the query lays out the text parts' texts in order. Text i sits at its offset, a newline follows every text but the last, and the query ends right after the last text. |
| `RagMiddleware.QueryTextMentionsTextParts` | lib/ai/rag-middleware.ts:48-52 | Every text part of array content occurs in the query. |
| `RagMiddleware.TextsOfAppend` | lib/ai/rag-middleware.ts:50-51 | Taking the text parts' texts distributes over concatenation. |
| `RagMiddleware.TextsOfSingle` | lib/ai/rag-middleware.ts:50-51 | A text part contributes its text, and any other part contributes nothing. With `TextsOfAppend`, this fixes the filter-and-map as "the text parts' texts, in order". |
| `RagMiddleware.SearchUsesRawQuery` | lib/ai/rag-middleware.ts:93 | The vector search is asked only with the raw message text, table `documents` and k = 30. Search providers that agree on that one call give the same result. |
| `RagMiddleware.Bm25ScoresVectorHitsOnly` | lib/ai/rag-middleware.ts:95-99 | BM25 is asked only about the vector hits, with k = 10 and the raw query. BM25 providers that agree on that call give the same result. |
| `RagMiddleware.FirstIndex` | lib/ai/rag-middleware.ts:106 | The returned index holds the content, and no earlier index does. |
| `RagMiddleware.FirstIndexUnique` | lib/ai/rag-middleware.ts:106 | Any index that holds the content with no earlier occurrence is the first index. |
| `RagMiddleware.FirstIndexAppend` | lib/ai/rag-middleware.ts:103-104 | Appending to a list does not move a first occurrence that is already there. A new element's first index is its position. |
| `RagMiddleware.DistinctInOrder` | lib/ai/rag-middleware.ts:103-105 | The contents collected through a `Set` are pairwise distinct, and they are exactly the contents of the input. |
| `RagMiddleware.DistinctInOrderIsFirstAppearanceOrder` | lib/ai/rag-middleware.ts:103-105 | The distinct contents come out in order of first appearance. |
| `RagMiddleware.FindByContent` | lib/ai/rag-middleware.ts:106 | `find` succeeds exactly when some document has the content, and then returns the first such document. |
| `RagMiddleware.ScoreEach` | lib/ai/rag-middleware.ts:105-114 | Scoring succeeds exactly when every score can be computed. It then yields one candidate per distinct content, with the first matching document's metadata and its score. |
| `RagMiddleware.FusedDeduplicates` | lib/ai/rag-middleware.ts:102-114 | Fused candidates have pairwise-distinct contents. Every vector or BM25 content is among them, so it appears exactly once. |
| `RagMiddleware.FusedFirstOccurrence` | lib/ai/rag-middleware.ts:102-114 | Each candidate carries the metadata of the first document with its content in `vector ++ bm25`. Candidates come in first-appearance order. |
| `RagMiddleware.FusedKeepsUnembedded` | lib/ai/rag-middleware.ts:110-112 | A candidate with no truthy `embedding` is kept, with score 0. |
| `RagMiddleware.InsertDescending` | lib/ai/rag-middleware.ts:116 | Inserting into a descending list keeps it descending and adds exactly the one element. |
| `RagMiddleware.InsertDescendingKeepsTies` | lib/ai/rag-middleware.ts:116 | The inserted element goes ahead of every element it ties with. |
| `RagMiddleware.SortBySimilarity` | lib/ai/rag-middleware.ts:116 | The sorted list is non-increasing in score and is a permutation of the input. It is stable: for every score, the candidates with that score keep their input order. |
| `RagMiddleware.WithScorePrefix` | lib/ai/rag-middleware.ts:117 | Cutting a list keeps, for each score, an initial run of the candidates with that score. |
| `RagMiddleware.PrefixHoldsTheBest` | lib/ai/rag-middleware.ts:117 | Nothing cut from a descending list scores higher than anything kept. |
| `RagMiddleware.PrefixOfPermutation` | lib/ai/rag-middleware.ts:116-117 | A prefix of a stable permutation draws only on the input and keeps, for each score, the earliest candidates. |
| `RagMiddleware.Rank` | lib/ai/rag-middleware.ts:116-117 | The ranked list has length min(20, n) and is non-increasing. It is a sub-multiset of the candidates, and all of them when there are at most 20. No omitted candidate outscores a kept one, and ties keep their earliest members. |
| `RagMiddleware.FewCandidatesAllRanked` | lib/ai/rag-middleware.ts:102-117 | When the two lists hold at most 20 documents between them, every retrieved content is in the ranked list. |
| `RagMiddleware.ContextTextMentions` | lib/ai/rag-middleware.ts:120-125 | The context text contains every passage it is built from. |
| `RagMiddleware.ContextListsTopResults` | lib/ai/rag-middleware.ts:117-133 | Past every guard, with a question and every call succeeding, the prompt becomes one system message (the preamble, a blank line, the ranked fusion of the vector and BM25 hits, joined by blank lines in ranked order) followed by the original messages. That message contains every top passage. |
| `RagMiddleware.FewPassagesAllReachPrompt` | lib/ai/rag-middleware.ts:93-133 | When every call succeeds and the vector and BM25 hits number at most 20 between them, every hit appears in the prepended system message. |
| `RagMiddleware.EmptyRetrievalStillPrepends` | lib/ai/rag-middleware.ts:117-133 | When both searches return nothing, the prompt is still the preamble and a blank line as a system message, followed by the original messages. |
| `Js.JoinLength` | lib/ai/rag-middleware.ts:124 | A joined list is as long as its elements plus one separator between each neighbouring pair. |
| `Js.JoinElementAt` | lib/ai/rag-middleware.ts:124 | Element i of a joined list sits at the sum of the earlier elements' and separators' lengths. |
| `Js.JoinSeparatorAfter` | lib/ai/rag-middleware.ts:124 | A separator follows every element but the last. Together with the two lemmas above, this fixes what `join` produces. |
| `Js.JoinContains` | lib/ai/rag-middleware.ts:52 | Every element of a joined list occurs in the joined string. |
| `ContextualRetrieval.ContextPrompt` | lib/ai/contextual-retrieval.ts:20-28 | The context prompt holds the whole document between `<document>` tags right after its first line break. The chunk text sits between `<chunk>` tags just before the closing instruction, and the prompt ends with that instruction. |
| `ContextualRetrieval.AddContextToChunk` | lib/ai/contextual-retrieval.ts:16-61 | When the call throws or has no first choice, the chunk comes back as it was. Otherwise the content is the context, a blank line and the chunk text, and `context` in the metadata holds the context. In every case the chunk text ends the content and every other metadata key is unchanged. |
| `ContextualRetrieval.NullContextIsInterpolated` | lib/ai/contextual-retrieval.ts:48-55 | A null context is not checked for. The content becomes `null`, a blank line and the chunk text, and the stored `context` is null. |
| `ContextualRetrieval.SplitterConfigOf` | lib/ai/contextual-retrieval.ts:64-68 | A missing option argument or a missing key takes the default 1000 or 200, and a present key is used as given. Only a null argument fails, because it cannot be destructured. |
| `ContextualRetrieval.OnlySizeOptionsRead` | lib/ai/contextual-retrieval.ts:10-13 | Option objects that agree on `chunkSize` and `chunkOverlap` configure the same splitter, whatever other keys they carry. |
| `ContextualRetrieval.ContextualDocs` | lib/ai/contextual-retrieval.ts:75-87 | The flattened list exists exactly when every document's split succeeds. It is then as long as the sum of the per-document chunk counts. |
| `ContextualRetrieval.ContextualDocsAt` | lib/ai/contextual-retrieval.ts:77-87 | Chunk c of document j sits at the position after all earlier documents' chunks plus c, contextualised against document j. Documents are in input order and chunks in chunk order. |
| `ContextualRetrieval.ProcessDocumentsWithContext` | lib/ai/contextual-retrieval.ts:64-107 | A null options argument or a rejected splitter configuration fails before anything is split. A rejected split of any document fails the call before anything is stored. Otherwise the returned documents are the flattened contextual chunks, the store was handed exactly that list for table `documents`, and the returned store handle is the one the store gave back. A store failure fails the call. |
| `ProcessDocs.WithContext` | lib/ai/process-docs.ts:34-45 | The step succeeds exactly when every chunk's context call succeeds. There is then one document per chunk, in order, with content equal to the context, a blank line and the chunk text, where the context came from the chunk text alone. The metadata is passed through unchanged, so no `context` key is added. |
| `ProcessDocs.ProcessDocuments` | lib/ai/process-docs.ts:9-61 | All raw documents are split in one call with the fixed 1000/200 configuration. The call succeeds exactly when the splitter accepts that configuration, the split succeeds, every context call succeeds and the store accepts the list. The returned list is the list handed to the store, with one prefixed document per chunk and metadata unchanged. |
| `ProcessDocs.ContextFailureRejectsBeforeStoring` | lib/ai/process-docs.ts:34-58 | After a successful split there is no fallback: one failed context call rejects the whole call, and the store plays no part in the outcome. |

## Left out

- HTTP routes, the upload page, PDF decoding and client wiring at module scope are I/O plumbing around this core and are not part of this model.
- The completion, classification and embedding models, the vector store, BM25 scoring, cosine similarity and the recursive text splitter are external libraries. Each is a parameter, and what each computes is not modelled. Chunk counts and how chunks reconstruct a document are therefore not claimed.
- Cosine similarity is floating point. Scores are integers supplied by the similarity parameter, and NaN scores are not modelled.
- The classification, answer and embedding calls receive only the query text or the answer. Their fixed system prompts and the `question`/`statement`/`other` enum are not arguments, so the model does not say what those calls do with them.
- Model names, temperatures, environment variables and console logging are not modelled. They have no effect on the values computed.
- `Promise.all` runs the per-chunk calls in parallel. The model runs them in order, which keeps only the result order that `Promise.all` guarantees.
- Metadata key order, and the `id` that a LangChain document may carry, are not modelled.
- Non-string elements in the document list are not modelled: documents are strings.
- The zod schema is modelled as a structural predicate (`SelectionValid`) on a JSON value. Numbers in JSON values are integers.
