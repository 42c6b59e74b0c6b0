/** Retrieval and reranking inside a run or a replay (internal/server/infer_rag.go, internal/retrieval/merge.go). */
module Rag {
  import opened Text
  import opened Types

  /** The configured knowledge bases, those with an adapter, and what adapters and reranker answer. */
  datatype RagEnv = RagEnv(
    table: CharTable, knowledgeBases: seq<string>, adapters: set<string>, rerankName: string,
    retrieve: (string, string) -> Result<seq<RetrievalChunk>, Fault>,
    rerank: (string, seq<RetrievalChunk>) -> Result<seq<RetrievalChunk>, Fault>)

  datatype RagOutcome =
    | NotConfigured(code: string)
    | RetrieveFailed(kb: string, error: Fault)
    | RerankFailed(kb: string, error: Fault)
    | Merged(kb: string, req: AIRequest)

  function TextField(m: Option<JsonMap>, key: string): string {
    if m.Some? && key in m.value && m.value[key].Str? then m.value[key].s else ""
  }

  function KbName(env: RagEnv, req: AIRequest): string {
    var named := TrimSpace(env.table, TextField(req.context, "knowledge_base"));
    if named != "" then named
    else if env.knowledgeBases != [] then env.knowledgeBases[0] else ""
  }

  function RagQuery(env: RagEnv, req: AIRequest): string {
    var q := TrimSpace(env.table, TextField(req.context, "query"));
    if q != "" then q else TrimSpace(env.table, TextField(req.input, "text"))
  }

  function JoinTexts(chunks: seq<RetrievalChunk>): string {
    if chunks == [] then ""
    else if |chunks| == 1 then chunks[0].text
    else chunks[0].text + "\n\n" + JoinTexts(chunks[1..])
  }

  function MergeRetrievalIntoInput(req: AIRequest, chunks: seq<RetrievalChunk>): AIRequest {
    var input := if req.input.Some? then req.input.value else map[];
    req.(input := Some(input["retrieved_context" := Str(JoinTexts(chunks))]["retrieved_chunks" := Chunks(chunks)]))
  }

  /** Retrieve, rerank, merge: where it stops and what it makes of the request. */
  function RagOf(env: RagEnv, req: AIRequest): RagOutcome {
    var kb := KbName(env, req);
    var q := RagQuery(env, req);
    if kb == "" || kb !in env.adapters then NotConfigured("rag_not_configured")
    else if q == "" then NotConfigured("invalid_request")
    else
      match env.retrieve(kb, q)
      case Err(e) => RetrieveFailed(kb, e)
      case Ok(chunks) =>
        match env.rerank(q, chunks)
        case Err(e) => RerankFailed(kb, e)
        case Ok(best) => Merged(kb, MergeRetrievalIntoInput(req, best))
  }

  /** The request the backend is sent: with the retrieved text if it asks for retrieval. */
  function Prepared(env: RagEnv, req: AIRequest): Result<AIRequest, RagOutcome> {
    if req.requestType != RAG then Ok(req)
    else
      match RagOf(env, req)
      case Merged(_, merged) => Ok(merged)
      case failed => Err(failed)
  }

  // ---- What that means, answer by answer ----

  /** The map holds a text under the key that is `v` once trimmed, and not blank. */
  predicate Says(table: CharTable, m: Option<JsonMap>, key: string, v: string) {
    && m.Some? && key in m.value && m.value[key].Str?
    && v == TrimSpace(table, m.value[key].s) != ""
  }

  /** The base a request uses: the one its context names, otherwise the first configured one. */
  ghost predicate UsesBase(env: RagEnv, req: AIRequest, kb: string) {
    || Says(env.table, req.context, "knowledge_base", kb)
    || ((forall v :: !Says(env.table, req.context, "knowledge_base", v)) &&
        env.knowledgeBases != [] && kb == env.knowledgeBases[0])
  }

  /** What a request asks for: the query of its context, otherwise the text of its input. */
  ghost predicate Asks(env: RagEnv, req: AIRequest, q: string) {
    || Says(env.table, req.context, "query", q)
    || ((forall v :: !Says(env.table, req.context, "query", v)) && Says(env.table, req.input, "text", q))
  }

  /** The request has a base with an adapter. */
  ghost predicate HasBase(env: RagEnv, req: AIRequest) {
    exists kb :: UsesBase(env, req, kb) && kb != "" && kb in env.adapters
  }

  /** `out` is what base `kb` and the reranker make of query `q`. */
  predicate AnswersOf(env: RagEnv, req: AIRequest, kb: string, q: string, out: RagOutcome) {
    var found := env.retrieve(kb, q);
    if found.Err? then out == RetrieveFailed(kb, found.error)
    else
      var best := env.rerank(q, found.value);
      if best.Err? then out == RerankFailed(kb, best.error)
      else out.Merged? && out.kb == kb && IsMerged(req, best.value, out.req)
  }

  /** The request with the chunks in its input, and otherwise as it was. */
  predicate IsMerged(req: AIRequest, chunks: seq<RetrievalChunk>, merged: AIRequest) {
    var was: JsonMap := if req.input.Some? then req.input.value else map[];
    && merged.(input := req.input) == req && merged.input.Some?
    && merged.input.value.Keys == was.Keys + {"retrieved_context", "retrieved_chunks"}
    && merged.input.value - {"retrieved_context", "retrieved_chunks"}
       == was - {"retrieved_context", "retrieved_chunks"}
    && merged.input.value["retrieved_chunks"] == Chunks(chunks)
    && merged.input.value["retrieved_context"].Str?
    && HoldsTexts(merged.input.value["retrieved_context"].s, chunks)
  }

  /** Where the text of chunk `i` begins: after those before it, each followed by a blank line. */
  function Offset(chunks: seq<RetrievalChunk>, i: nat): nat
    requires i <= |chunks|
  {
    if i == 0 then 0 else Offset(chunks, i - 1) + |chunks[i - 1].text| + 2
  }

  /** The texts of the chunks in order, a blank line between any two, and nothing else. */
  predicate HoldsTexts(s: string, chunks: seq<RetrievalChunk>) {
    && |s| == (if chunks == [] then 0 else Offset(chunks, |chunks|) - 2)
    && (forall i :: 0 <= i < |chunks| ==> OccursAt(s, chunks[i].text, Offset(chunks, i)))
    && (forall i :: 0 < i < |chunks| ==> OccursAt(s, "\n\n", Offset(chunks, i) - 2))
  }

  lemma {:induction false} OffsetShift(chunks: seq<RetrievalChunk>, i: nat)
    requires 0 < i <= |chunks|
    ensures Offset(chunks, i) == |chunks[0].text| + 2 + Offset(chunks[1..], i - 1)
  {
    if i > 1 { OffsetShift(chunks, i - 1); }
  }

  lemma OccursShifted(before: string, s: string, p: string, i: nat)
    requires OccursAt(s, p, i)
    ensures OccursAt(before + s, p, |before| + i)
  {
    assert (before + s)[|before| + i..|before| + i + |p|] == s[i..i + |p|];
  }

  lemma OccursBetween(before: string, p: string, after: string)
    ensures OccursAt(before + p + after, p, |before|)
  {}

  lemma {:induction false} TextOccurs(chunks: seq<RetrievalChunk>, i: nat)
    requires i < |chunks|
    ensures OccursAt(JoinTexts(chunks), chunks[i].text, Offset(chunks, i))
  {
    if i == 0 {
      OccursBetween("", chunks[0].text, JoinTexts(chunks)[|chunks[0].text|..]);
    } else {
      TextOccurs(chunks[1..], i - 1);
      OffsetShift(chunks, i);
      OccursShifted(chunks[0].text + "\n\n", JoinTexts(chunks[1..]), chunks[i].text, Offset(chunks[1..], i - 1));
    }
  }

  lemma {:induction false} BlankLineOccurs(chunks: seq<RetrievalChunk>, i: nat)
    requires 0 < i < |chunks|
    ensures OccursAt(JoinTexts(chunks), "\n\n", Offset(chunks, i) - 2)
  {
    if i == 1 {
      OccursBetween(chunks[0].text, "\n\n", JoinTexts(chunks[1..]));
      assert Offset(chunks, 1) == Offset(chunks, 0) + |chunks[0].text| + 2;
    } else {
      BlankLineOccurs(chunks[1..], i - 1);
      OffsetShift(chunks, i);
      OccursShifted(chunks[0].text + "\n\n", JoinTexts(chunks[1..]), "\n\n", Offset(chunks[1..], i - 1) - 2);
    }
  }

  lemma {:induction false} JoinedLength(chunks: seq<RetrievalChunk>)
    requires chunks != []
    ensures |JoinTexts(chunks)| == Offset(chunks, |chunks|) - 2
  {
    OffsetShift(chunks, |chunks|);
    if |chunks| > 1 { JoinedLength(chunks[1..]); }
  }

  lemma JoinedHoldsTexts(chunks: seq<RetrievalChunk>)
    ensures HoldsTexts(JoinTexts(chunks), chunks)
  {
    if chunks != [] { JoinedLength(chunks); }
    forall i | 0 <= i < |chunks| ensures OccursAt(JoinTexts(chunks), chunks[i].text, Offset(chunks, i)) {
      TextOccurs(chunks, i);
    }
    forall i | 0 < i < |chunks| ensures OccursAt(JoinTexts(chunks), "\n\n", Offset(chunks, i) - 2) {
      BlankLineOccurs(chunks, i);
    }
  }

  /** Merging leaves the request with the chunks and their texts in its input, and otherwise as it was. */
  lemma MergeMeaning(req: AIRequest, chunks: seq<RetrievalChunk>)
    ensures IsMerged(req, chunks, MergeRetrievalIntoInput(req, chunks))
  {
    JoinedHoldsTexts(chunks);
  }

  lemma BaseIsKbName(env: RagEnv, req: AIRequest)
    ensures forall kb :: UsesBase(env, req, kb) ==> kb == KbName(env, req)
    ensures KbName(env, req) != "" ==> UsesBase(env, req, KbName(env, req))
  {
    var named := TextField(req.context, "knowledge_base");
    assert TrimSpace(env.table, "") == "";
    assert Says(env.table, req.context, "knowledge_base", TrimSpace(env.table, named)) <==>
           TrimSpace(env.table, named) != "";
  }

  lemma AskedIsRagQuery(env: RagEnv, req: AIRequest)
    ensures forall q :: Asks(env, req, q) <==> q == RagQuery(env, req) != ""
  {
    var q, text := TextField(req.context, "query"), TextField(req.input, "text");
    assert TrimSpace(env.table, "") == "";
    assert Says(env.table, req.context, "query", TrimSpace(env.table, q)) <==> TrimSpace(env.table, q) != "";
    assert Says(env.table, req.input, "text", TrimSpace(env.table, text)) <==> TrimSpace(env.table, text) != "";
  }

  /** Retrieval for a request fails as not configured exactly without a base that has an adapter, and as invalid exactly
      if it has one but asks for nothing. Otherwise what the request asks for goes to its base, and the answers of base
      and reranker decide. */
  lemma RagMeaning(env: RagEnv, req: AIRequest)
    ensures var out := RagOf(env, req);
            && (out == NotConfigured("rag_not_configured") <==> !HasBase(env, req))
            && (out == NotConfigured("invalid_request") <==>
                HasBase(env, req) && forall q :: !Asks(env, req, q))
            && (out.NotConfigured? ==> out.code in {"rag_not_configured", "invalid_request"})
            && forall kb, q :: UsesBase(env, req, kb) && kb != "" && kb in env.adapters && Asks(env, req, q) ==>
                                 AnswersOf(env, req, kb, q, out)
  {
    BaseIsKbName(env, req);
    AskedIsRagQuery(env, req);
    var kb, q := KbName(env, req), RagQuery(env, req);
    assert Asks(env, req, q) <==> q != "";
    assert "rag_not_configured" != "invalid_request" by { assert "rag_not_configured"[0] != "invalid_request"[0]; }
    if HasBase(env, req) { assert kb != "" && kb in env.adapters; }
    var found := env.retrieve(kb, q);
    if found.Ok? && env.rerank(q, found.value).Ok? { MergeMeaning(req, env.rerank(q, found.value).value); }
  }

  /** A base the request names is the one that is used, whatever the configured ones are; and without a name it is the
      first of these. */
  lemma NamedBaseIsUsed(env: RagEnv, req: AIRequest, kb: string)
    requires UsesBase(env, req, kb) && !RagOf(env, req).NotConfigured?
    ensures RagOf(env, req).kb == kb
    ensures Says(env.table, req.context, "knowledge_base", kb) || kb == env.knowledgeBases[0]
  {
    BaseIsKbName(env, req);
  }

  /** What a request with a base and a query is prepared to. */
  lemma PreparedFromItsBase(env: RagEnv, req: AIRequest, kb: string, q: string)
    requires req.requestType == "rag" && UsesBase(env, req, kb) && kb != "" && kb in env.adapters && Asks(env, req, q)
    ensures KbName(env, req) == kb
    ensures var found, p := env.retrieve(kb, q), Prepared(env, req);
            && (p.Ok? <==> found.Ok? && env.rerank(q, found.value).Ok?)
            && (p.Ok? ==> IsMerged(req, env.rerank(q, found.value).value, p.value))
            && (p.Err? ==> !p.error.NotConfigured? && (p.error.RetrieveFailed? <==> found.Err?))
  {
    RagMeaning(env, req);
    BaseIsKbName(env, req);
    assert AnswersOf(env, req, kb, q, RagOf(env, req));
  }
}
