/** The in-memory request ledger and the step writer (internal/requests, internal/execution). */
module Ledger {
  import opened Types

  datatype PolicySnapshot = PolicySnapshot(
    policyReason: string, primaryBackend: string, primaryRouteReason: string, estimatedCost: real,
    overloadDegrade: bool, queueDepth: int)

  /** `aiRequest` is the stored JSON of the whole request, `input` and `context` those of its parts. */
  datatype RequestRow = RequestRow(
    requestID: string, traceID: string, requestType: string, tenantID: string, taskType: string, priority: string,
    pipelineRef: string, input: Option<JsonMap>, context: Option<JsonMap>, aiRequest: Option<AIRequest>,
    policySnapshot: Option<PolicySnapshot>, status: string, selectedBackend: string, routeReason: string)

  datatype RequestPatch = RequestPatch(
    status: Option<string>, selectedBackend: Option<string>, routeReason: Option<string>,
    policySnapshot: Option<PolicySnapshot>)

  datatype StepRow = StepRow(requestID: string, stepIndex: nat, stepType: string, backend: string, status: string)

  function Patched(r: RequestRow, p: RequestPatch): RequestRow {
    r.(status := if p.status.Some? then p.status.value else r.status,
    selectedBackend := if p.selectedBackend.Some? then p.selectedBackend.value else r.selectedBackend,
    routeReason := if p.routeReason.Some? then p.routeReason.value else r.routeReason,
    policySnapshot := if p.policySnapshot.Some? then p.policySnapshot else r.policySnapshot)
  }

  class MemoryStore {
    var requests: map<string, RequestRow>
    var steps: map<string, seq<StepRow>>
    ghost var statusLog: seq<(string, string)>  // every status a row was created with or patched to

    ghost predicate Valid() reads this {
      && requests.Keys == steps.Keys
      && forall id :: id in requests ==> requests[id].requestID == id
    }

    constructor ()
      ensures Valid() && requests == map[] && statusLog == []
    {
      requests, steps, statusLog := map[], map[], [];
    }

    /** Refuses an id that is already there. */
    method CreateRequest(row: RequestRow) returns (ok: bool)
      requires Valid()
      modifies this
      ensures Valid() && ok == (row.requestID !in old(requests))
      ensures ok ==> requests == old(requests)[row.requestID := row] && steps == old(steps)[row.requestID := []]
                     && statusLog == old(statusLog) + [(row.requestID, row.status)]
      ensures !ok ==> requests == old(requests) && steps == old(steps) && statusLog == old(statusLog)
    {
      if row.requestID in requests { return false; }
      requests := requests[row.requestID := row];
      steps := steps[row.requestID := []];
      statusLog := statusLog + [(row.requestID, row.status)];
      return true;
    }

    method UpdateRequest(id: string, patch: RequestPatch) returns (ok: bool)
      requires Valid()
      modifies this
      ensures Valid() && ok == (id in old(requests)) && steps == old(steps)
      ensures requests == if ok then old(requests)[id := Patched(old(requests)[id], patch)] else old(requests)
      ensures statusLog == old(statusLog) + if ok && patch.status.Some? then [(id, patch.status.value)] else []
    {
      if id !in requests { return false; }
      var r := requests[id];
      if patch.status.Some? {
        r := r.(status := patch.status.value);
        statusLog := statusLog + [(id, patch.status.value)];
      }
      if patch.selectedBackend.Some? { r := r.(selectedBackend := patch.selectedBackend.value); }
      if patch.routeReason.Some? { r := r.(routeReason := patch.routeReason.value); }
      if patch.policySnapshot.Some? { r := r.(policySnapshot := patch.policySnapshot); }
      requests := requests[id := r];
      return true;
    }

    method AppendStep(step: StepRow) returns (ok: bool)
      requires Valid()
      modifies `steps
      ensures Valid() && ok == (step.requestID in requests)
      ensures steps == if ok then old(steps)[step.requestID := old(steps)[step.requestID] + [step]] else old(steps)
    {
      if step.requestID !in requests { return false; }
      steps := steps[step.requestID := steps[step.requestID] + [step]];
      return true;
    }

    method GetRequest(id: string) returns (r: Option<RequestRow>)
      ensures r == if id in requests then Some(requests[id]) else None
    {
      if id !in requests { return None; }
      return Some(requests[id]);
    }
  }

  class StepWriter {
    const store: MemoryStore
    const requestID: string
    var next: nat

    constructor (store: MemoryStore, requestID: string)
      ensures this.store == store && this.requestID == requestID && next == 0
    {
      this.store, this.requestID, next := store, requestID, 0;
    }

    /** Persists one step that has run; `err` is what it returned. The index grows even if the append is refused. */
    method Run(stepType: string, backend: string, err: Option<Fault>)
      requires store.Valid()
      modifies this, store`steps
      ensures store.Valid() && next == old(next) + 1
      ensures requestID in store.requests ==>
                store.steps == old(store.steps)[requestID := old(store.steps)[requestID] +
                  [StepRow(requestID, old(next), stepType, backend, if err.Some? then "failed" else "success")]]
      ensures requestID !in store.requests ==> store.steps == old(store.steps)
    {
      var status := "success";
      if err.Some? { status := "failed"; }
      var _ := store.AppendStep(StepRow(requestID, next, stepType, backend, status));
      next := next + 1;
    }
  }
}
