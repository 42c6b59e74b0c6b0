/** Requests, routing decisions and faults shared by every stage (internal/types). */
module Types {
  import opened Text

  datatype Option<+T> = None | Some(value: T)

  datatype Result<+T, +E> = Ok(value: T) | Err(error: E)

  const INFERENCE := "inference"
  const RAG := "rag"
  const AGENT := "agent"

  /** JSON values the control plane looks into; everything else is opaque. */
  datatype Json = Str(s: string) | Chunks(chunks: seq<RetrievalChunk>) | Other(id: int)

  type JsonMap = map<string, Json>

  datatype RetrievalChunk = RetrievalChunk(text: string, source: string, score: real)

  datatype RequestOptions = RequestOptions(stream: bool, maxTokens: int)

  /** `None` stands for a nil map. */
  datatype AIRequest = AIRequest(
    requestID: string, requestType: string, pipelineRef: string, context: Option<JsonMap>, tenantID: string,
    taskType: string, priority: string, input: Option<JsonMap>, options: RequestOptions)

  datatype RouteDecision = RouteDecision(backendName: string, reason: string, estimatedCost: real)

  datatype PolicyDecision = PolicyDecision(allowed: bool, reason: string, normalized: AIRequest)

  /** A Go error: the upstream kind and the context deadline it wraps, if any, and its text. */
  datatype Fault = Fault(upstreamKind: Option<string>, deadline: bool, msg: string)

  function DefaultPipeline(requestType: string): string {
    if requestType == RAG then "rag/basic:v1"
    else if requestType == AGENT then "agent/basic:v0"
    else "inference/basic:v1"
  }

  function NormalizeAIRequest(t: CharTable, req: AIRequest): AIRequest {
    var rt := ToLower(t, TrimSpace(t, req.requestType));
    var requestType := if rt == "" then INFERENCE else rt;
    req.(
    requestType := requestType,
    pipelineRef := if TrimSpace(t, req.pipelineRef) == "" then DefaultPipeline(requestType) else req.pipelineRef,
    context := if req.context.None? then Some(map[]) else req.context)
  }

  /** Encoding to JSON and back: lossless, except that an empty context is omitted and decodes to nil. */
  function JsonRoundTrip(req: AIRequest): AIRequest {
    req.(context := if req.context == Some(map[]) then None else req.context)
  }

  /** The request type is already what normalisation would make of it. */
  predicate NormalType(t: CharTable, requestType: string) {
    requestType != "" && Trimmed(t, requestType) && ToLower(t, requestType) == requestType
  }

  lemma NormalizedTypeIsNormal(t: CharTable, req: AIRequest)
    requires t.Valid()
    ensures NormalType(t, NormalizeAIRequest(t, req).requestType)
  {
    TrimSpaceFixpoints(t, req.requestType);
    LowerKeepsTrimmed(t, TrimSpace(t, req.requestType));
  }

  /** A string starting with a letter is not blank. */
  lemma LetterIsNotBlank(t: CharTable, s: string)
    requires t.Valid() && s != "" && 'a' <= s[0] <= 'z'
    ensures TrimSpace(t, s) != ""
  {
    assert TrimLeft(t, s) == s;
    TrimRightKeepsHead(t, s);
  }

  lemma {:induction false} TrimRightKeepsHead(t: CharTable, s: string)
    requires s != "" && !t.isSpace(s[0])
    ensures TrimRight(t, s) != ""
    decreases |s|
  {
    if t.isSpace(s[|s| - 1]) { TrimRightKeepsHead(t, s[..|s| - 1]); }
  }

  /** Normalising twice changes nothing, and neither does a trip through the ledger's JSON in between. */
  lemma NormalizeIdempotent(t: CharTable, req: AIRequest)
    requires t.Valid()
    ensures var n := NormalizeAIRequest(t, req);
            NormalizeAIRequest(t, n) == n && NormalizeAIRequest(t, JsonRoundTrip(n)) == n
  {
    var n := NormalizeAIRequest(t, req);
    NormalizedTypeIsNormal(t, req);
    TrimSpaceFixpoints(t, n.requestType);
    LetterIsNotBlank(t, DefaultPipeline(n.requestType));
  }

  /** What normalisation makes of a request: a blank type means inference and any other is trimmed and lowercased; a
      blank pipeline gets the one of that type; a missing context becomes empty; everything else stays. */
  lemma NormalizeMeaning(t: CharTable, req: AIRequest)
    ensures var n := NormalizeAIRequest(t, req);
            && n.requestType == (if TrimSpace(t, req.requestType) == "" then "inference"
                                 else ToLower(t, TrimSpace(t, req.requestType)))
            && (TrimSpace(t, req.pipelineRef) != "" ==> n.pipelineRef == req.pipelineRef)
            && (TrimSpace(t, req.pipelineRef) == "" ==>
                  && (n.requestType == "rag" ==> n.pipelineRef == "rag/basic:v1")
                  && (n.requestType == "agent" ==> n.pipelineRef == "agent/basic:v0")
                  && (n.requestType !in {"rag", "agent"} ==> n.pipelineRef == "inference/basic:v1"))
            && n.context == Some(if req.context.Some? then req.context.value else map[])
            && n.(requestType := req.requestType, pipelineRef := req.pipelineRef, context := req.context) == req
  {
    var low := ToLower(t, TrimSpace(t, req.requestType));
    assert TrimSpace(t, req.requestType) == "" <==> low == "";
  }

  /** The ledger's JSON loses nothing but the difference between an empty and a missing context. */
  lemma JsonLosesOnlyEmptiness(req: AIRequest)
    ensures JsonRoundTrip(req) != req ==> req.context == Some(map[]) && JsonRoundTrip(req) == req.(context := None)
    ensures req.context == Some(map[]) ==> JsonRoundTrip(req).context == None
  {}
}
