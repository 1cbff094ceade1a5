/** The retrieval-augmented-generation middleware: before a chat request
    reaches the completion model, a trailing user question is answered
    hypothetically, passages are fetched by vector search and re-scored by
    BM25 over the same hits, the two lists are fused, ranked and cut to the
    top 20, and the passages are prepended to the conversation as one system
    message. Every provider call is an injected function; `None` is a call
    that throws, and any throw leaves the request as it was. */
module RagMiddleware {
  import opened Wrappers
  import opened Js
  import opened Documents

  // ---------------------------------------------------------------------
  // Call parameters of the language model

  datatype Role = System | User | Assistant | Tool

  /** A part of a structured message content. Only text parts carry text the
      middleware reads; every other kind (image, file, tool call, tool
      result) is `NonTextPart`. */
  datatype Part = TextPart(text: string) | NonTextPart(kind: string)

  datatype Content = TextContent(text: string) | PartsContent(parts: seq<Part>)

  datatype Message = Message(role: Role, content: Content, providerMetadata: Option<Json>)

  datatype InputFormat = Messages | PromptFormat

  /** The generation mode. A regular mode may carry tools and a tool choice. */
  datatype Mode =
    | Regular(tools: Option<seq<Json>>, toolChoice: Option<Json>)
    | ObjectJson(schema: Option<Json>)
    | ObjectTool(tool: Json)

  /** The call options the middleware receives and returns; `settings` holds
      every other option (temperature, token limits, headers, …), which the
      middleware copies through untouched. */
  datatype CallParams = CallParams(
    inputFormat: InputFormat,
    mode: Mode,
    prompt: seq<Message>,
    providerMetadata: Option<Json>,
    settings: map<string, Json>)

  // ---------------------------------------------------------------------
  // Providers

  datatype Label = Question | Statement | Other

  type Embedding = seq<int>

  /** The external calls the middleware makes, each as a function of exactly
      the arguments the middleware passes it:
      `classify`   the constrained question/statement/other classification;
      `answer`     the hypothetical answer to the question;
      `embed`      the embedding of a text;
      `search`     similarity search of a table for a query text, top `k`;
      `bm25`       BM25 over a document list for a query text, top `k`;
      `similarity` cosine similarity of the answer embedding and a stored
                   embedding (it throws, for one, on a length mismatch). */
  datatype Providers = Providers(
    classify: string -> Option<Label>,
    answer: string -> Option<string>,
    embed: string -> Option<Embedding>,
    search: (string, string, nat) -> Option<seq<Document>>,
    bm25: (seq<Document>, nat, string) -> Option<seq<Document>>,
    similarity: (Embedding, Json) -> Option<int>)

  const VectorK: nat := 30
  const Bm25K: nat := 10
  const TopK: nat := 20

  /** The fixed opening of the context message (Finnish: "Use the following
      context to answer the question. Answer in Finnish and based only on the
      given context:"). */
  const Preamble := "Käytä seuraavaa kontekstia vastataksesi kysymykseen. Vastaa suomeksi ja perustuen vain annettuun kontekstiin:"

  // ---------------------------------------------------------------------
  // Guards

  /** The shape check on the provider metadata: an object whose `files` is an
      object whose `selection` is an array of strings. Other keys are
      allowed. */
  predicate SelectionValid(metadata: Option<Json>) {
    && metadata.Some?
    && metadata.value.JObject?
    && "files" in metadata.value.fields
    && metadata.value.fields["files"].JObject?
    && "selection" in metadata.value.fields["files"].fields
    && metadata.value.fields["files"].fields["selection"].JArray?
    && var items := metadata.value.fields["files"].fields["selection"].items;
       forall i :: 0 <= i < |items| ==> items[i].JString?
  }

  /** The conversation ends with a user message. */
  predicate EndsWithUser(prompt: seq<Message>) {
    |prompt| > 0 && prompt[|prompt| - 1].role == User
  }

  // ---------------------------------------------------------------------
  // Query text

  /** The texts of the text parts, in order; other parts are dropped. */
  function TextsOf(parts: seq<Part>): seq<string> {
    if |parts| == 0 then []
    else (if parts[0].TextPart? then [parts[0].text] else []) + TextsOf(parts[1..])
  }

  /** Taking the texts distributes over concatenation; with the two one-part
      cases below, this pins TextsOf down as "keep the text parts' texts, in
      order". */
  lemma {:induction false} TextsOfAppend(a: seq<Part>, b: seq<Part>)
    ensures TextsOf(a + b) == TextsOf(a) + TextsOf(b)
  {
    if |a| == 0 {
      assert a + b == b;
    } else {
      assert (a + b)[0] == a[0];
      assert (a + b)[1..] == a[1..] + b;
      TextsOfAppend(a[1..], b);
    }
  }

  lemma TextsOfSingle(part: Part)
    ensures part.TextPart? ==> TextsOf([part]) == [part.text]
    ensures part.NonTextPart? ==> TextsOf([part]) == []
  {
  }

  /** The text the middleware queries with: a string content as is, the text
      parts joined by newlines otherwise. */
  function QueryText(content: Content): (r: string)
    ensures content.TextContent? ==> r == content.text
    ensures content.PartsContent? ==> r == Join(TextsOf(content.parts), "\n")
    ensures content.PartsContent? && TextsOf(content.parts) == [] ==> r == ""
  {
    match content
    case TextContent(s) => s
    case PartsContent(ps) => Join(TextsOf(ps), "\n")
  }

  /** The query of array content lays out the text parts' texts in order,
      one newline between neighbours and nothing else: text `i` sits at its
      offset, a newline follows it unless it is the last, and the query ends
      right after the last text. */
  lemma QueryTextOfParts(ps: seq<Part>, i: nat)
    requires i < |TextsOf(ps)|
    ensures OccursAt(QueryText(PartsContent(ps)), Offset(TextsOf(ps), "\n", i), TextsOf(ps)[i])
    ensures i + 1 < |TextsOf(ps)| ==>
              OccursAt(QueryText(PartsContent(ps)), Offset(TextsOf(ps), "\n", i) + |TextsOf(ps)[i]|, "\n")
    ensures |QueryText(PartsContent(ps))| + 1 == Offset(TextsOf(ps), "\n", |TextsOf(ps)|)
  {
    JoinAt(TextsOf(ps), "\n", i);
  }

  /** Every text part of array content is in the query. */
  lemma QueryTextMentionsTextParts(ps: seq<Part>, i: nat)
    requires i < |ps| && ps[i].TextPart?
    ensures Mentions(QueryText(PartsContent(ps)), ps[i].text)
  {
    var ts := TextsOf(ps);
    TextPartPosition(ps, i);
    var m := |TextsOf(ps[..i])|;
    JoinElementAt(ts, "\n", m);
    var k := Offset(ts, "\n", m);
    assert OccursAt(QueryText(PartsContent(ps)), k, ps[i].text);
  }

  /** A text part's text is the text after those of the parts before it. */
  lemma TextPartPosition(ps: seq<Part>, i: nat)
    requires i < |ps| && ps[i].TextPart?
    ensures |TextsOf(ps[..i])| < |TextsOf(ps)|
    ensures TextsOf(ps)[|TextsOf(ps[..i])|] == ps[i].text
  {
    assert ps == ps[..i] + ([ps[i]] + ps[i + 1..]);
    TextsOfAppend(ps[..i], [ps[i]] + ps[i + 1..]);
    TextsOfAppend([ps[i]], ps[i + 1..]);
    TextsOfSingle(ps[i]);
  }

  // ---------------------------------------------------------------------
  // Fusion: deduplicate by content, first occurrence wins

  /** The position of the first occurrence of `c` in `cs`. */
  function FirstIndex(cs: seq<string>, c: string): (k: nat)
    requires c in cs
    ensures k < |cs| && cs[k] == c
    ensures forall j :: 0 <= j < k ==> cs[j] != c
  {
    if cs[0] == c then 0
    else
      var k := FirstIndex(cs[1..], c);
      k + 1
  }

  lemma FirstIndexUnique(cs: seq<string>, c: string, k: nat)
    requires k < |cs| && cs[k] == c && c !in cs[..k]
    ensures FirstIndex(cs, c) == k
  {
  }

  /** Appending to a list does not move a first occurrence already in it. */
  lemma FirstIndexAppend(cs: seq<string>, x: string, c: string)
    requires c in cs + [x]
    ensures c in cs ==> FirstIndex(cs + [x], c) == FirstIndex(cs, c)
    ensures c !in cs ==> FirstIndex(cs + [x], c) == |cs|
  {
    var ext := cs + [x];
    if c in cs {
      var k := FirstIndex(cs, c);
      assert ext[..k] == cs[..k];
      FirstIndexUnique(ext, c, k);
    } else {
      assert ext[..|cs|] == cs;
      FirstIndexUnique(ext, c, |cs|);
    }
  }

  /** The distinct elements of `cs` in order of first appearance, as a
      `Set` built from `cs` iterates them. */
  function DistinctInOrder(cs: seq<string>): (r: seq<string>)
    ensures forall i, j :: 0 <= i < j < |r| ==> r[i] != r[j]
    ensures forall c :: c in r <==> c in cs
    ensures |r| <= |cs|
  {
    if |cs| == 0 then []
    else
      var front := DistinctInOrder(cs[..|cs| - 1]);
      var last := cs[|cs| - 1];
      assert cs == cs[..|cs| - 1] + [last];
      if last in front then front else front + [last]
  }

  /** The distinct elements come out in the order of their first
      occurrences. */
  lemma {:induction false} DistinctInOrderIsFirstAppearanceOrder(cs: seq<string>)
    ensures forall i, j :: 0 <= i < j < |DistinctInOrder(cs)| ==>
      FirstIndex(cs, DistinctInOrder(cs)[i]) < FirstIndex(cs, DistinctInOrder(cs)[j])
  {
    if |cs| > 0 {
      var n := |cs|;
      var init := cs[..n - 1];
      var last := cs[n - 1];
      assert cs == init + [last];
      var front := DistinctInOrder(init);
      DistinctInOrderIsFirstAppearanceOrder(init);
      var r := DistinctInOrder(cs);
      forall i | 0 <= i < |r|
        ensures r[i] in init ==> FirstIndex(cs, r[i]) == FirstIndex(init, r[i])
        ensures r[i] !in init ==> FirstIndex(cs, r[i]) == n - 1
      {
        FirstIndexAppend(init, last, r[i]);
      }
    }
  }

  /** `docs.find(d => d.pageContent === c)`. */
  function FindByContent(docs: seq<Document>, c: string): (r: Option<Document>)
    ensures r.Some? <==> c in Contents(docs)
    ensures r.Some? ==> r.value == docs[FirstIndex(Contents(docs), c)]
  {
    if |docs| == 0 then None
    else if docs[0].pageContent == c then
      assert Contents(docs)[0] == c;
      Some(docs[0])
    else
      assert Contents(docs) == [docs[0].pageContent] + Contents(docs[1..]);
      FindByContent(docs[1..], c)
  }

  /** A retrieved passage with its final score. */
  datatype Candidate = Candidate(content: string, metadata: Metadata, similarity: int)

  /** The stored embedding, when the metadata has a truthy `embedding`. */
  function StoredEmbedding(metadata: Metadata): Option<Json> {
    if "embedding" in metadata && Truthy(metadata["embedding"]) then Some(metadata["embedding"]) else None
  }

  /** A document's final score: the similarity of its stored embedding to the
      answer embedding, or 0 when it has none; `None` when that call throws. */
  function ScoreOf(d: Document, q: Embedding, similarity: (Embedding, Json) -> Option<int>): Option<int> {
    match StoredEmbedding(d.metadata)
    case Some(e) => similarity(q, e)
    case None => Some(0)
  }

  /** One candidate per content in `cs`, built from the first document with
      that content; `None` as soon as a score cannot be computed. */
  function ScoreEach(all: seq<Document>, cs: seq<string>, q: Embedding, similarity: (Embedding, Json) -> Option<int>)
    : (r: Option<seq<Candidate>>)
    requires forall c :: c in cs ==> c in Contents(all)
    ensures r.Some? <==>
      forall i :: 0 <= i < |cs| ==> ScoreOf(FindByContent(all, cs[i]).value, q, similarity).Some?
    ensures r.Some? ==> |r.value| == |cs| && forall i :: 0 <= i < |cs| ==>
      var d := FindByContent(all, cs[i]).value;
      r.value[i] == Candidate(cs[i], d.metadata, ScoreOf(d, q, similarity).value)
  {
    if |cs| == 0 then Some([])
    else
      var d := FindByContent(all, cs[0]).value;
      match ScoreOf(d, q, similarity)
      case None => None
      case Some(s) =>
        match ScoreEach(all, cs[1..], q, similarity)
        case None =>
          assert forall i :: 1 <= i < |cs| ==> cs[1..][i - 1] == cs[i];
          None
        case Some(rest) =>
          assert forall i :: 1 <= i < |cs| ==> cs[1..][i - 1] == cs[i];
          Some([Candidate(d.pageContent, d.metadata, s)] + rest)
  }

  /** The fused candidates of the vector and BM25 result lists. */
  function Fuse(vectorResults: seq<Document>, bm25Results: seq<Document>, q: Embedding,
                similarity: (Embedding, Json) -> Option<int>): Option<seq<Candidate>>
  {
    var all := vectorResults + bm25Results;
    ScoreEach(all, DistinctInOrder(Contents(all)), q, similarity)
  }

  /** Fusion deduplicates: the candidates' contents are pairwise distinct and
      every content retrieved by either list is among them, hence exactly
      once. */
  lemma FusedDeduplicates(vectorResults: seq<Document>, bm25Results: seq<Document>,
                          q: Embedding, similarity: (Embedding, Json) -> Option<int>)
    requires Fuse(vectorResults, bm25Results, q, similarity).Some?
    ensures var cands := Fuse(vectorResults, bm25Results, q, similarity).value;
            forall i, j :: 0 <= i < j < |cands| ==> cands[i].content != cands[j].content
    ensures var all := vectorResults + bm25Results;
            var cands := Fuse(vectorResults, bm25Results, q, similarity).value;
            forall k :: 0 <= k < |all| ==> exists i :: 0 <= i < |cands| && cands[i].content == all[k].pageContent
  {
    var all := vectorResults + bm25Results;
    var cs := DistinctInOrder(Contents(all));
    var cands := Fuse(vectorResults, bm25Results, q, similarity).value;
    FusedContents(vectorResults, bm25Results, q, similarity);
    forall k | 0 <= k < |all|
      ensures exists i :: 0 <= i < |cands| && cands[i].content == all[k].pageContent
    {
      DistinctCovers(Contents(all), k);
      var i :| 0 <= i < |cs| && cs[i] == all[k].pageContent;
      assert cands[i].content == all[k].pageContent;
    }
  }

  /** The fused candidates carry the distinct contents, in order. */
  lemma FusedContents(vectorResults: seq<Document>, bm25Results: seq<Document>,
                      q: Embedding, similarity: (Embedding, Json) -> Option<int>)
    requires Fuse(vectorResults, bm25Results, q, similarity).Some?
    ensures var cs := DistinctInOrder(Contents(vectorResults + bm25Results));
            var cands := Fuse(vectorResults, bm25Results, q, similarity).value;
            |cands| == |cs| && forall i :: 0 <= i < |cands| ==> cands[i].content == cs[i]
  {
  }

  /** Every element of a list has a position among its distinct elements. */
  lemma DistinctCovers(cs: seq<string>, k: nat)
    requires k < |cs|
    ensures exists i :: 0 <= i < |DistinctInOrder(cs)| && DistinctInOrder(cs)[i] == cs[k]
  {
    assert cs[k] in DistinctInOrder(cs);
  }

  /** First occurrence wins: each candidate carries the metadata of the first
      document with its content in `vector ++ bm25`, and the candidates come
      in order of first appearance. */
  lemma {:induction false} FusedFirstOccurrence(vectorResults: seq<Document>, bm25Results: seq<Document>,
                                                q: Embedding, similarity: (Embedding, Json) -> Option<int>)
    requires Fuse(vectorResults, bm25Results, q, similarity).Some?
    ensures var all := vectorResults + bm25Results;
            var cands := Fuse(vectorResults, bm25Results, q, similarity).value;
            forall i :: 0 <= i < |cands| ==>
              && cands[i].content in Contents(all)
              && cands[i].metadata == all[FirstIndex(Contents(all), cands[i].content)].metadata
    ensures var all := vectorResults + bm25Results;
            var cands := Fuse(vectorResults, bm25Results, q, similarity).value;
            forall i, j :: 0 <= i < j < |cands| ==>
              && cands[i].content in Contents(all) && cands[j].content in Contents(all)
              && FirstIndex(Contents(all), cands[i].content) < FirstIndex(Contents(all), cands[j].content)
  {
    var all := vectorResults + bm25Results;
    var cs := DistinctInOrder(Contents(all));
    DistinctInOrderIsFirstAppearanceOrder(Contents(all));
    var cands := Fuse(vectorResults, bm25Results, q, similarity).value;
    assert forall i :: 0 <= i < |cands| ==> cands[i].content == cs[i];
  }

  /** A candidate without a stored embedding is kept, with score 0. */
  lemma FusedKeepsUnembedded(vectorResults: seq<Document>, bm25Results: seq<Document>,
                             q: Embedding, similarity: (Embedding, Json) -> Option<int>)
    requires Fuse(vectorResults, bm25Results, q, similarity).Some?
    ensures var cands := Fuse(vectorResults, bm25Results, q, similarity).value;
            forall i :: 0 <= i < |cands| && StoredEmbedding(cands[i].metadata).None? ==>
              cands[i].similarity == 0
  {
  }

  // ---------------------------------------------------------------------
  // Ranking: stable sort by descending similarity, then the top 20

  predicate SortedDescending(cs: seq<Candidate>) {
    forall i, j :: 0 <= i < j < |cs| ==> cs[i].similarity >= cs[j].similarity
  }

  /** The candidates with similarity `s`, in order. */
  function WithScore(cs: seq<Candidate>, s: int): seq<Candidate> {
    if |cs| == 0 then []
    else (if cs[0].similarity == s then [cs[0]] else []) + WithScore(cs[1..], s)
  }

  /** Places `c` before the first candidate that does not score higher, so
      that `c` precedes the candidates it ties with. */
  function InsertDescending(c: Candidate, cs: seq<Candidate>): (r: seq<Candidate>)
    requires SortedDescending(cs)
    ensures |r| == |cs| + 1 && (r[0] == c || (|cs| > 0 && r[0] == cs[0]))
    ensures SortedDescending(r)
    ensures multiset(r) == multiset(cs) + multiset{c}
  {
    if |cs| == 0 || cs[0].similarity <= c.similarity then
      [c] + cs
    else
      assert cs == [cs[0]] + cs[1..];
      [cs[0]] + InsertDescending(c, cs[1..])
  }

  lemma WithScoreCons(x: Candidate, cs: seq<Candidate>, s: int)
    ensures WithScore([x] + cs, s) == (if x.similarity == s then [x] else []) + WithScore(cs, s)
  {
    assert ([x] + cs)[1..] == cs;
  }

  /** Inserting `c` puts it ahead of every candidate it ties with. */
  lemma {:induction false} InsertDescendingKeepsTies(c: Candidate, cs: seq<Candidate>, s: int)
    requires SortedDescending(cs)
    ensures WithScore(InsertDescending(c, cs), s) == (if c.similarity == s then [c] else []) + WithScore(cs, s)
  {
    if |cs| == 0 || cs[0].similarity <= c.similarity {
      WithScoreCons(c, cs, s);
    } else {
      var tail := cs[1..];
      assert SortedDescending(tail);
      var rest := InsertDescending(c, tail);
      assert InsertDescending(c, cs) == [cs[0]] + rest;
      InsertDescendingKeepsTies(c, tail, s);
      WithScoreCons(cs[0], rest, s);
      assert cs == [cs[0]] + tail;
      WithScoreCons(cs[0], tail, s);
    }
  }

  /** `cs.sort((a, b) => b.similarity - a.similarity)`: JavaScript's sort is
      stable, so equal scores keep their relative order. */
  function SortBySimilarity(cs: seq<Candidate>): (r: seq<Candidate>)
    ensures SortedDescending(r)
    ensures multiset(r) == multiset(cs)
    ensures forall s :: WithScore(r, s) == WithScore(cs, s)
  {
    if |cs| == 0 then []
    else
      var rest := SortBySimilarity(cs[1..]);
      assert cs == [cs[0]] + cs[1..];
      assert forall s :: WithScore(InsertDescending(cs[0], rest), s) == WithScore(cs, s) by {
        forall s ensures WithScore(InsertDescending(cs[0], rest), s) == WithScore(cs, s) {
          InsertDescendingKeepsTies(cs[0], rest, s);
          WithScoreCons(cs[0], cs[1..], s);
        }
      }
      InsertDescending(cs[0], rest)
  }

  lemma {:induction false} WithScorePrefix(cs: seq<Candidate>, m: nat, s: int)
    requires m <= |cs|
    ensures WithScore(cs[..m], s) <= WithScore(cs, s)
  {
    if m > 0 {
      assert cs[..m][1..] == cs[1..][..m - 1];
      WithScorePrefix(cs[1..], m - 1, s);
    }
  }

  function Min(a: nat, b: nat): nat { if a <= b then a else b }

  /** Cutting a descending list keeps the best: nothing left out scores
      higher than anything kept. */
  lemma PrefixHoldsTheBest(sorted: seq<Candidate>, m: nat)
    requires SortedDescending(sorted) && m <= |sorted|
    ensures forall c, t :: c in sorted && c !in sorted[..m] && t in sorted[..m] ==> c.similarity <= t.similarity
  {
    forall c, t | c in sorted && c !in sorted[..m] && t in sorted[..m]
      ensures c.similarity <= t.similarity
    {
      var k :| 0 <= k < |sorted| && sorted[k] == c;
      var i :| 0 <= i < m && sorted[..m][i] == t;
      if k < m {
        assert sorted[..m][k] == c;
      }
    }
  }

  /** A prefix of a permutation of `cands` draws only on `cands`, and keeps,
      for each score, the first candidates with that score. */
  lemma PrefixOfPermutation(cands: seq<Candidate>, sorted: seq<Candidate>, m: nat)
    requires multiset(sorted) == multiset(cands)
    requires forall s :: WithScore(sorted, s) == WithScore(cands, s)
    requires m <= |sorted|
    ensures multiset(sorted[..m]) <= multiset(cands)
    ensures forall c :: c in cands ==> c in sorted
    ensures forall s :: WithScore(sorted[..m], s) <= WithScore(cands, s)
  {
    assert sorted == sorted[..m] + sorted[m..];
    assert multiset(sorted) == multiset(sorted[..m]) + multiset(sorted[m..]);
    forall c | c in cands ensures c in sorted {
      assert c in multiset(cands);
    }
    forall s ensures WithScore(sorted[..m], s) <= WithScore(cands, s) {
      WithScorePrefix(sorted, m, s);
    }
  }

  /** `sorted.slice(0, 20)` of the sorted candidates. */
  function Rank(cands: seq<Candidate>): (r: seq<Candidate>)
    ensures |r| == Min(TopK, |cands|)
    ensures SortedDescending(r)
    ensures multiset(r) <= multiset(cands)
    ensures |cands| <= TopK ==> multiset(r) == multiset(cands)
    ensures forall c, t :: c in cands && c !in r && t in r ==> c.similarity <= t.similarity
    ensures forall s :: WithScore(r, s) <= WithScore(cands, s)
  {
    var sorted := SortBySimilarity(cands);
    var m := Min(TopK, |sorted|);
    assert |sorted| == |multiset(sorted)| == |cands|;
    PrefixHoldsTheBest(sorted, m);
    PrefixOfPermutation(cands, sorted, m);
    assert m == |sorted| ==> sorted[..m] == sorted;
    sorted[..m]
  }

  // ---------------------------------------------------------------------
  // Retrieval and the rewritten request

  /** The step whose call threw. */
  datatype Stage = Classification | HypotheticalAnswer | AnswerEmbedding | VectorSearch | Bm25Search | Scoring

  /** Why the middleware handed the request back unchanged. */
  datatype Skip =
    | NotMessagesFormat
    | InvalidSelectionMetadata
    | NoTrailingUserMessage
    | NotAQuestion(classification: Label)
    | ProviderFailed(stage: Stage)

  /** The query text of the trailing message. */
  function LastQuery(prompt: seq<Message>): string
    requires |prompt| > 0
  {
    QueryText(prompt[|prompt| - 1].content)
  }

  /** Hypothetical answer, its embedding, vector search with the raw query
      text, BM25 over the vector hits, fusion and ranking. */
  function Retrieve(query: string, p: Providers): Result<seq<Candidate>, Stage> {
    match p.answer(query)
    case None => Failure(HypotheticalAnswer)
    case Some(answer) =>
      match p.embed(answer)
      case None => Failure(AnswerEmbedding)
      case Some(q) =>
        match p.search(DocumentsTable, query, VectorK)
        case None => Failure(VectorSearch)
        case Some(vectorResults) =>
          match p.bm25(vectorResults, Bm25K, query)
          case None => Failure(Bm25Search)
          case Some(bm25Results) =>
            match Fuse(vectorResults, bm25Results, q, p.similarity)
            case None => Failure(Scoring)
            case Some(cands) => Success(Rank(cands))
  }

  function CandidateContents(cs: seq<Candidate>): (r: seq<string>)
    ensures |r| == |cs| && forall i :: 0 <= i < |cs| ==> r[i] == cs[i].content
  {
    seq(|cs|, i requires 0 <= i < |cs| => cs[i].content)
  }

  /** The text of the context message. */
  function ContextText(top: seq<Candidate>): string {
    Preamble + "\n\n" + Join(CandidateContents(top), "\n\n")
  }

  /** The system message prepended to the conversation. */
  function ContextMessage(top: seq<Candidate>, providerMetadata: Option<Json>): Message {
    Message(System, TextContent(ContextText(top)), providerMetadata)
  }

  /** The middleware as a fail-open computation: the rewritten request, or the
      reason it is passed through. */
  function Augment(params: CallParams, p: Providers): Result<CallParams, Skip> {
    if params.inputFormat != Messages then Failure(NotMessagesFormat)
    else if !SelectionValid(params.providerMetadata) then Failure(InvalidSelectionMetadata)
    else if !EndsWithUser(params.prompt) then Failure(NoTrailingUserMessage)
    else
      var query := LastQuery(params.prompt);
      match p.classify(query)
      case None => Failure(ProviderFailed(Classification))
      case Some(classification) =>
        if classification != Question then Failure(NotAQuestion(classification))
        else
          match Retrieve(query, p)
          case Failure(stage) => Failure(ProviderFailed(stage))
          case Success(top) =>
            Success(params.(inputFormat := Messages,
                            mode := Regular(None, None),
                            prompt := [ContextMessage(top, params.providerMetadata)] + params.prompt))
  }

  /** `ragMiddleware.transformParams`: the request passes through unchanged
      unless it is a message prompt with valid selection metadata ending in a
      user question and every call succeeds; then exactly one system message
      is prepended, the original messages follow in order, the mode becomes
      plain regular and every other option is kept. */
  function TransformParams(params: CallParams, p: Providers): (r: CallParams)
    ensures params.inputFormat != Messages ==> r == params
    ensures !SelectionValid(params.providerMetadata) ==> r == params
    ensures !EndsWithUser(params.prompt) ==> r == params
    ensures EndsWithUser(params.prompt) && p.classify(LastQuery(params.prompt)) != Some(Question) ==> r == params
    ensures r == params <==> Augment(params, p).Failure?
    ensures r != params ==>
      && r.inputFormat == Messages
      && r.mode == Regular(None, None)
      && |r.prompt| == |params.prompt| + 1
      && r.prompt[0].role == System
      && r.prompt[0].content.TextContent?
      && r.prompt[0].providerMetadata == params.providerMetadata
      && r.prompt[1..] == params.prompt
      && r.providerMetadata == params.providerMetadata
      && r.settings == params.settings
  {
    match Augment(params, p)
    case Success(rewritten) =>
      assert |rewritten.prompt| != |params.prompt|;
      rewritten
    case Failure(_) => params
  }

  /** Fail-open after classification: when the hypothetical answer, its
      embedding, the vector search, BM25 or any similarity call throws, the
      request comes back unchanged. */
  lemma RetrievalFailureLeavesRequestUnchanged(params: CallParams, p: Providers)
    requires |params.prompt| > 0
    ensures var query := LastQuery(params.prompt);
            p.answer(query).None? ==> TransformParams(params, p) == params
    ensures var query := LastQuery(params.prompt);
            p.answer(query).Some? && p.embed(p.answer(query).value).None? ==>
              TransformParams(params, p) == params
    ensures var query := LastQuery(params.prompt);
            p.search(DocumentsTable, query, VectorK).None? ==> TransformParams(params, p) == params
    ensures var query := LastQuery(params.prompt);
            var hits := p.search(DocumentsTable, query, VectorK);
            hits.Some? && p.bm25(hits.value, Bm25K, query).None? ==> TransformParams(params, p) == params
    ensures var query := LastQuery(params.prompt);
            var hits := p.search(DocumentsTable, query, VectorK);
            && p.answer(query).Some? && p.embed(p.answer(query).value).Some?
            && hits.Some? && p.bm25(hits.value, Bm25K, query).Some?
            && Fuse(hits.value, p.bm25(hits.value, Bm25K, query).value,
                    p.embed(p.answer(query).value).value, p.similarity).None?
            ==> TransformParams(params, p) == params
  {
  }

  /** A text mentions a passage when the passage occurs in it. */
  predicate Mentions(text: string, passage: string) {
    exists k :: 0 <= k <= |text| && OccursAt(text, k, passage)
  }

  /** The context text mentions every passage it is built from. */
  lemma ContextTextMentions(top: seq<Candidate>, i: nat)
    requires i < |top|
    ensures Mentions(ContextText(top), top[i].content)
  {
    var contents := CandidateContents(top);
    JoinElementAt(contents, "\n\n", i);
    var k := Offset(contents, "\n\n", i);
    var pre := Preamble + "\n\n";
    var joined := Join(contents, "\n\n");
    assert ContextText(top) == pre + joined;
    assert ContextText(top)[|pre| + k..|pre| + k + |top[i].content|] == joined[k..k + |top[i].content|];
    assert OccursAt(ContextText(top), |pre| + k, top[i].content);
  }

  /** A rewrite happens only past every guard, and its first message is the
      context message built from the ranked retrieval. */
  lemma RewriteShape(params: CallParams, p: Providers)
    requires Augment(params, p).Success?
    ensures params.inputFormat == Messages && SelectionValid(params.providerMetadata)
    ensures EndsWithUser(params.prompt)
    ensures p.classify(LastQuery(params.prompt)) == Some(Question)
    ensures Retrieve(LastQuery(params.prompt), p).Success?
    ensures TransformParams(params, p).prompt[0]
         == ContextMessage(Retrieve(LastQuery(params.prompt), p).value, params.providerMetadata)
  {
  }

  /** Past every guard, with a question and a retrieval that yields `top`,
      the request gains exactly one leading system message: the preamble, a
      blank line, and the top passages separated by blank lines, in ranked
      order; so it mentions every top passage. */
  lemma ContextListsTopResults(params: CallParams, p: Providers, hits: seq<Document>,
                                reranked: seq<Document>, cands: seq<Candidate>)
    requires params.inputFormat == Messages
    requires SelectionValid(params.providerMetadata) && EndsWithUser(params.prompt)
    requires var query := LastQuery(params.prompt);
             && p.classify(query) == Some(Question)
             && p.answer(query).Some? && p.embed(p.answer(query).value).Some?
             && p.search(DocumentsTable, query, VectorK) == Some(hits)
             && p.bm25(hits, Bm25K, query) == Some(reranked)
             && Fuse(hits, reranked, p.embed(p.answer(query).value).value, p.similarity) == Some(cands)
    ensures var top := Rank(cands);
            (TransformParams(params, p).prompt
             == [Message(System, TextContent(Preamble + "\n\n" + Join(CandidateContents(top), "\n\n")),
                         params.providerMetadata)] + params.prompt)
    ensures var top := Rank(cands);
            forall i :: 0 <= i < |top| ==>
              Mentions(TransformParams(params, p).prompt[0].content.text, top[i].content)
  {
    var top := Rank(cands);
    assert Retrieve(LastQuery(params.prompt), p) == Success(top);
    forall i | 0 <= i < |top| ensures Mentions(ContextText(top), top[i].content) {
      ContextTextMentions(top, i);
    }
  }

  /** Scoring fails only on a stored embedding the similarity call rejects. */
  lemma FuseSucceedsWhenScoringDoes(vectorResults: seq<Document>, bm25Results: seq<Document>,
                                    q: Embedding, similarity: (Embedding, Json) -> Option<int>)
    requires forall e :: similarity(q, e).Some?
    ensures Fuse(vectorResults, bm25Results, q, similarity).Some?
  {
  }

  /** When the two result lists hold at most 20 documents between them,
      ranking keeps a candidate for every one of them. */
  lemma FewCandidatesAllRanked(vectorResults: seq<Document>, bm25Results: seq<Document>,
                               q: Embedding, similarity: (Embedding, Json) -> Option<int>, d: Document)
    requires Fuse(vectorResults, bm25Results, q, similarity).Some?
    requires |vectorResults| + |bm25Results| <= TopK
    requires d in vectorResults + bm25Results
    ensures var top := Rank(Fuse(vectorResults, bm25Results, q, similarity).value);
            exists j :: 0 <= j < |top| && top[j].content == d.pageContent
  {
    var all := vectorResults + bm25Results;
    var cands := Fuse(vectorResults, bm25Results, q, similarity).value;
    var top := Rank(cands);
    FusedDeduplicates(vectorResults, bm25Results, q, similarity);
    var k :| 0 <= k < |all| && all[k] == d;
    var i :| 0 <= i < |cands| && cands[i].content == all[k].pageContent;
    assert |cands| == |DistinctInOrder(Contents(all))|;
    assert cands[i] in multiset(top);
    var j :| 0 <= j < |top| && top[j] == cands[i];
  }

  /** When every similarity call succeeds and the vector hits and the BM25
      hits number at most 20 between them, every one of them reaches the
      context message. */
  lemma FewPassagesAllReachPrompt(params: CallParams, p: Providers, hits: seq<Document>,
                                  reranked: seq<Document>, d: Document)
    requires params.inputFormat == Messages
    requires SelectionValid(params.providerMetadata) && EndsWithUser(params.prompt)
    requires var query := LastQuery(params.prompt);
             && p.classify(query) == Some(Question)
             && p.answer(query).Some? && p.embed(p.answer(query).value).Some?
             && p.search(DocumentsTable, query, VectorK) == Some(hits)
             && p.bm25(hits, Bm25K, query) == Some(reranked)
             && forall e :: p.similarity(p.embed(p.answer(query).value).value, e).Some?
    requires |hits| + |reranked| <= TopK
    requires d in hits + reranked
    ensures Mentions(TransformParams(params, p).prompt[0].content.text, d.pageContent)
  {
    var query := LastQuery(params.prompt);
    var q := p.embed(p.answer(query).value).value;
    FuseSucceedsWhenScoringDoes(hits, reranked, q, p.similarity);
    FewCandidatesAllRanked(hits, reranked, q, p.similarity, d);
    var cands := Fuse(hits, reranked, q, p.similarity).value;
    var top := Rank(cands);
    ContextListsTopResults(params, p, hits, reranked, cands);
    var j :| 0 <= j < |top| && top[j].content == d.pageContent;
  }

  /** Retrieval that finds nothing still prepends a context message: the
      preamble and a blank line. */
  lemma EmptyRetrievalStillPrepends(params: CallParams, p: Providers)
    requires params.inputFormat == Messages
    requires SelectionValid(params.providerMetadata) && EndsWithUser(params.prompt)
    requires var query := LastQuery(params.prompt);
             && p.classify(query) == Some(Question)
             && p.answer(query).Some? && p.embed(p.answer(query).value).Some?
             && p.search(DocumentsTable, query, VectorK) == Some([])
             && p.bm25([], Bm25K, query) == Some([])
    ensures TransformParams(params, p).prompt
         == [Message(System, TextContent(Preamble + "\n\n"), params.providerMetadata)] + params.prompt
  {
    var query := LastQuery(params.prompt);
    var q := p.embed(p.answer(query).value).value;
    assert Fuse([], [], q, p.similarity) == Some([]);
    assert Retrieve(query, p) == Success([]);
    assert ContextText([]) == Preamble + "\n\n";
  }

  /** The vector search is asked with the raw message text, not with the
      hypothetical answer: search providers that agree on that one call give
      the same result. */
  lemma SearchUsesRawQuery(params: CallParams, p: Providers, search: (string, string, nat) -> Option<seq<Document>>)
    requires |params.prompt| > 0
    requires search(DocumentsTable, LastQuery(params.prompt), VectorK)
          == p.search(DocumentsTable, LastQuery(params.prompt), VectorK)
    ensures TransformParams(params, p.(search := search)) == TransformParams(params, p)
  {
  }

  /** BM25 scores only the vector hits: BM25 providers that agree on that one
      call give the same result. */
  lemma Bm25ScoresVectorHitsOnly(params: CallParams, p: Providers, bm25: (seq<Document>, nat, string) -> Option<seq<Document>>)
    requires |params.prompt| > 0
    requires var query := LastQuery(params.prompt);
             var hits := p.search(DocumentsTable, query, VectorK);
             hits.Some? ==> bm25(hits.value, Bm25K, query) == p.bm25(hits.value, Bm25K, query)
    ensures TransformParams(params, p.(bm25 := bm25)) == TransformParams(params, p)
  {
  }
}
