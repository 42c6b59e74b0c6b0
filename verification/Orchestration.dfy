/** The orchestrator's run, step by step, over the ledger, the slot counter and the scaling signal. */
module Orchestration {
  import opened Types
  import opened Router
  import opened Ledger
  import opened Rag
  import opened Pipeline
  import Admission
  import TimeoutSpike

  /** The ledger and the scaling signal at some moment. */
  datatype View = View(requests: map<string, RequestRow>, steps: map<string, seq<StepRow>>, log: seq<(string, string)>,
                       window: TimeoutSpike.Window)

  class Orchestrator {
    const hooks: Hooks
    const store: MemoryStore
    const slots: Admission.InferSlots
    const spike: TimeoutSpike.SpikeSignal

    constructor (hooks: Hooks, store: MemoryStore, slots: Admission.InferSlots, spike: TimeoutSpike.SpikeSignal)
      ensures this.hooks == hooks && this.store == store && this.slots == slots && this.spike == spike
    {
      this.hooks, this.store, this.slots, this.spike := hooks, store, slots, spike;
    }

    ghost function Now(): View
      reads store, spike
    {
      View(store.requests, store.steps, store.statusLog, spike.State())
    }

    /** Since `v`, which logged the creation of `id`, only its row and its steps have been added: the row is `row`, the
        steps are the first `n` of those stop `s` records in the end. */
    ghost predicate At(id: string, sw: StepWriter, s: Stop, n: nat, v: View, row: RequestRow)
      reads store, sw, spike
    {
      && store.Valid() && row.requestID == id
      && sw.store == store && sw.requestID == id && sw.next == n
      && Fits(s) && n <= StepCount(s)
      && Now() == v.(requests := v.requests[id := row], steps := v.steps[id := FirstSteps(hooks, id, s, n)])
    }

    /** All steps of `s` are recorded, the row is `row` with the closing patch of `s`, closed once, and the scaling
        signal was told what `s` gives it to note. */
    ghost predicate Ended(id: string, s: Stop, v: View, row: RequestRow, now: int)
      reads store, spike
      requires Fits(s)
    {
      && store.Valid()
      && Now() == View(v.requests[id := Patched(row, ClosingPatch(s))], v.steps[id := StepsOf(hooks, id, s)],
                       v.log + [(id, FinalStatus(s))], SignalAfter(v.window, NotedError(hooks, s), now))
    }

    /** Records the next step of the trace of `s`. */
    method Step(id: string, sw: StepWriter, stepType: string, backend: string, err: Option<Fault>,
                ghost s: Stop, ghost n: nat, ghost v: View, ghost row: RequestRow)
      requires At(id, sw, s, n, v, row) && n < StepCount(s)
      requires stepType == ExecutionPlan(s.req.requestType)[n] && backend == StepBackend(hooks, s, stepType)
      requires err.Some? <==> n == StepCount(s) - 1 && LastStepFails(s)
      modifies sw, store`steps
      ensures At(id, sw, s, n + 1, v, row)
    {
      sw.Run(stepType, backend, err);
    }

    /** Notes the error, if there is one to note, and closes the row, once every step is recorded. */
    method Close(id: string, sw: StepWriter, patch: RequestPatch, noted: Option<Fault>, now: int,
                 ghost s: Stop, ghost v: View, ghost row: RequestRow)
      requires At(id, sw, s, StepCount(s), v, row) && patch == ClosingPatch(s) && noted == NotedError(hooks, s)
      modifies store, spike
      ensures Ended(id, s, v, row, now)
    {
      if noted.Some? { spike.NoteTimeoutForScaling(noted, now); }
      PatchRow(id, patch, v.requests, row);
    }

    /** Patches the row of `id`. */
    method PatchRow(id: string, patch: RequestPatch, ghost others: map<string, RequestRow>, ghost row: RequestRow)
      requires store.Valid() && row.requestID == id && store.requests == others[id := row]
      modifies store
      ensures store.Valid() && store.steps == old(store.steps) && Patched(row, patch).requestID == id
      ensures store.requests == others[id := Patched(row, patch)]
      ensures store.statusLog == old(store.statusLog) + if patch.status.Some? then [(id, patch.status.value)] else []
    {
      var _ := store.UpdateRequest(id, patch);
      assert others[id := row][id := Patched(row, patch)] == others[id := Patched(row, patch)];
    }

    /** What one run that ends in `s`, having found `inflight` requests holding a slot, does to the ledger and the
        scaling signal of `v`, whose log already holds the creation of the row. */
    ghost predicate Ran(traceID: string, id: string, req0: AIRequest, s: Stop, inflight: int, v: View, now: int)
      reads store, spike, slots
    {
      && Fits(s) && store.Valid()
      && Now() == View(v.requests[id := RowAfter(traceID, id, req0, s, DegradesAt(slots.mode, inflight), inflight + 1)],
                       v.steps[id := StepsOf(hooks, id, s)], v.log + [(id, FinalStatus(s))],
                       SignalAfter(v.window, NotedError(hooks, s), now))
    }

    /** The ledger and the scaling signal with the creation of row `id` logged. */
    ghost function Created(id: string): View
      reads store, spike
    {
      View(store.requests, store.steps, store.statusLog + [(id, "running")], spike.State())
    }

    /** One whole run, ending in `s`. The trace, the ledger row, the slot counter, the scaling signal and the answer are
        those of the stop; everything else in the ledger is untouched. */
    method Run(traceID: string, id: string, req0: AIRequest, now: int) returns (res: RunResult, ghost s: Stop)
      requires store.Valid() && id !in store.requests
      modifies store, slots, spike
      ensures s == StopOf(hooks, slots.mode, old(slots.inferInflight), req0)
      ensures slots.inferInflight == old(slots.inferInflight)
      ensures Ran(traceID, id, req0, s, slots.inferInflight, old(Created(id)), now)
      ensures res == Answer(hooks, s, DegradesAt(slots.mode, slots.inferInflight))
    {
      s := StopOf(hooks, slots.mode, slots.inferInflight, req0);
      ghost var v := Created(id);
      StopOfFits(hooks, slots.mode, slots.inferInflight, req0);
      var sw := Open(traceID, id, req0, s, v);
      res := RunCreated(traceID, id, sw, req0, now, s, v, slots.inferInflight);
    }

    lemma EndedMeansRan(traceID: string, id: string, req0: AIRequest, s: Stop, inflight: int, v: View, now: int)
      requires Fits(s)
      requires Ended(id, s, v, RoutedRow(NewRow(traceID, id, req0), s, DegradesAt(slots.mode, inflight), inflight + 1),
                     now)
      ensures Ran(traceID, id, req0, s, inflight, v, now)
    {
      RowAfterIsPatched(traceID, id, req0, s, DegradesAt(slots.mode, inflight), inflight + 1);
    }

    /** From the created row on. */
    method RunCreated(traceID: string, id: string, sw: StepWriter, req0: AIRequest, now: int, ghost s: Stop,
                      ghost v: View,
                      ghost inflight: int)
      returns (res: RunResult)
      requires At(id, sw, s, 0, v, NewRow(traceID, id, req0)) && s == StopOf(hooks, slots.mode, inflight, req0)
      requires inflight == slots.inferInflight
      modifies store, sw, slots, spike
      ensures Ran(traceID, id, req0, s, inflight, v, now)
      ensures slots.inferInflight == inflight
      ensures res == Answer(hooks, s, DegradesAt(slots.mode, inflight))
    {
      ghost var row := NewRow(traceID, id, req0);
      Step(id, sw, NORMALIZE, "", None, s, 0, v, row);
      res := RunPolicy(id, sw, req0, now, s, v, row, inflight);
      EndedMeansRan(traceID, id, req0, s, inflight, v, now);
    }

    /** Creates the row and the step writer. */
    method Open(traceID: string, id: string, req0: AIRequest, ghost s: Stop, ghost v: View) returns (sw: StepWriter)
      requires store.Valid() && id !in store.requests && Fits(s)
      requires v == Created(id)
      modifies store
      ensures fresh(sw) && At(id, sw, s, 0, v, NewRow(traceID, id, req0))
    {
      sw := new StepWriter(store, id);
      var _ := store.CreateRequest(NewRow(traceID, id, req0));
    }

    /** From policy on. */
    method RunPolicy(id: string, sw: StepWriter, req0: AIRequest, now: int, ghost s: Stop, ghost v: View,
                     ghost row: RequestRow,
                     ghost inflight: int)
      returns (res: RunResult)
      requires At(id, sw, s, 1, v, row) && s == StopOf(hooks, slots.mode, inflight, req0)
      requires inflight == slots.inferInflight
      modifies store, sw, slots, spike
      ensures Ended(id, s, v, RoutedRow(row, s, DegradesAt(slots.mode, inflight), inflight + 1), now)
      ensures slots.inferInflight == inflight
      ensures res == Answer(hooks, s, DegradesAt(slots.mode, inflight))
    {
      var evaluated := hooks.evaluate(req0);
      if evaluated.Err? {
        var f := evaluated.error;
        if BudgetExceeded(hooks.policyCtx, f) {
          Close(id, sw, FAILED, Some(f), now, s, v, row);
          return Timeout("");
        }
        Close(id, sw, FAILED, None, now, s, v, row);
        return Failure(500, "policy_error", f.msg, "policy_error", "");
      }
      var d := evaluated.value;
      Step(id, sw, POLICY_CHECK, "", if d.allowed then None else Some(Fault(None, false, d.reason)), s, 1, v, row);
      if !d.allowed {
        Close(id, sw, FAILED, None, now, s, v, row);
        return Failure(429, "policy_rejected", d.reason, "policy_rejected", "");
      }
      res := RunAllowed(id, sw, d, now, s, v, row, inflight);
    }

    /** From an allowing policy decision on. */
    method RunAllowed(id: string, sw: StepWriter, d: PolicyDecision, now: int, ghost s: Stop, ghost v: View,
                      ghost row: RequestRow,
                     ghost inflight: int)
      returns (res: RunResult)
      requires At(id, sw, s, 2, v, row) && s == StopAllowed(hooks, slots.mode, inflight, d)
      requires inflight == slots.inferInflight
      modifies store, sw, slots, spike
      ensures Ended(id, s, v, RoutedRow(row, s, DegradesAt(slots.mode, inflight), inflight + 1), now)
      ensures slots.inferInflight == inflight
      ensures res == Answer(hooks, s, DegradesAt(slots.mode, inflight))
    {
      if d.normalized.requestType == AGENT {
        Step(id, sw, AGENT_STUB, "", Some(Fault(None, false, "agent execution not implemented")), s, 2, v, row);
        Close(id, sw, FAILED, None, now, s, v, row);
        return Failure(501, "agent_not_implemented", "agent execution is not implemented in this release",
                       "agent_not_implemented", "");
      }
      res := RunLoaded(id, sw, d, now, s, v, row, inflight);
    }

    /** Through admission: takes a slot, runs and gives it back, or turns the request away. */
    method RunLoaded(id: string, sw: StepWriter, d: PolicyDecision, now: int, ghost s: Stop, ghost v: View,
                     ghost row: RequestRow,
                     ghost inflight: int)
      returns (res: RunResult)
      requires At(id, sw, s, 2, v, row) && d.normalized.requestType != AGENT && inflight == slots.inferInflight
      requires s == StopAllowed(hooks, slots.mode, inflight, d)
      modifies store, sw, slots, spike
      ensures Ended(id, s, v, RoutedRow(row, s, DegradesAt(slots.mode, inflight), inflight + 1), now)
      ensures slots.inferInflight == inflight
      ensures res == Answer(hooks, s, DegradesAt(slots.mode, inflight))
    {
      var degrade, reject, _ := slots.BeginInferLoad([]);
      res := RunCounted(id, sw, d, degrade, reject, now, s, v, row, inflight);
    }

    /** On from the verdict of the slot counter. */
    method RunCounted(id: string, sw: StepWriter, d: PolicyDecision, degrade: bool, reject: bool, now: int,
                      ghost s: Stop, ghost v: View, ghost row: RequestRow, ghost inflight: int)
      returns (res: RunResult)
      requires At(id, sw, s, 2, v, row) && d.normalized.requestType != AGENT
      requires reject <==> RejectsAt(slots.mode, inflight)
      requires !reject ==> degrade == DegradesAt(slots.mode, inflight)
      requires slots.inferInflight == if reject then inflight else inflight + 1
      requires s == if reject then Overloaded(d.normalized) else StopAdmitted(hooks, d, degrade)
      modifies store, sw, slots, spike
      ensures Ended(id, s, v, RoutedRow(row, s, DegradesAt(slots.mode, inflight), inflight + 1), now)
      ensures slots.inferInflight == inflight
      ensures res == Answer(hooks, s, DegradesAt(slots.mode, inflight))
    {
      if reject {
        res := TurnAway(id, sw, now, s, v, row, DegradesAt(slots.mode, inflight), inflight + 1);
      } else {
        res := RunHolding(id, sw, d, degrade, now, s, v, row);
      }
    }

    /** Runs on the slot taken and gives it back. */
    method RunHolding(id: string, sw: StepWriter, d: PolicyDecision, degrade: bool, now: int,
                      ghost s: Stop, ghost v: View, ghost row: RequestRow)
      returns (res: RunResult)
      requires At(id, sw, s, 2, v, row) && s == StopAdmitted(hooks, d, degrade) && d.normalized.requestType != AGENT
      modifies store, sw, slots, spike
      ensures Ended(id, s, v, RoutedRow(row, s, degrade, old(slots.inferInflight)), now)
      ensures res == Answer(hooks, s, degrade)
      ensures slots.inferInflight == old(slots.inferInflight) - 1
    {
      res := RunAdmitted(id, sw, d, degrade, now, s, v, row);
      Release(id, s, v, RoutedRow(row, s, degrade, slots.inferInflight), now);
    }

    /** No slot: the run ends here. */
    method TurnAway(id: string, sw: StepWriter, now: int, ghost s: Stop, ghost v: View, ghost row: RequestRow,
                    ghost degrade: bool, ghost depth: int)
      returns (res: RunResult)
      requires At(id, sw, s, 2, v, row) && s.Overloaded?
      modifies store, spike
      ensures Ended(id, s, v, RoutedRow(row, s, degrade, depth), now) && res == Answer(hooks, s, degrade)
    {
      Close(id, sw, FAILED, None, now, s, v, row);
      return Failure(503, "overload", "inference concurrency limit exceeded", "overload", "");
    }

    /** Gives the slot back, whatever became of the run. */
    method Release(id: string, ghost s: Stop, ghost v: View, ghost row: RequestRow, ghost now: int)
      requires Fits(s) && Ended(id, s, v, row, now)
      modifies slots
      ensures Ended(id, s, v, row, now) && slots.inferInflight == old(slots.inferInflight) - 1
    {
      slots.Release();
    }

    /** From admission on, holding a slot. */
    method RunAdmitted(id: string, sw: StepWriter, d: PolicyDecision, degrade: bool, now: int,
                       ghost s: Stop, ghost v: View, ghost row: RequestRow)
      returns (res: RunResult)
      requires At(id, sw, s, 2, v, row) && s == StopAdmitted(hooks, d, degrade) && d.normalized.requestType != AGENT
      modifies store, sw, spike
      ensures Ended(id, s, v, RoutedRow(row, s, degrade, slots.inferInflight), now) && res == Answer(hooks, s, degrade)
    {
      Step(id, sw, ADMISSION, "", None, s, 2, v, row);
      var routed := hooks.select(d.normalized, RuntimeState(hooks.health, degrade));
      if routed.Err? {
        var f := routed.error;
        if BudgetExceeded(hooks.routeCtx, f) {
          Close(id, sw, FAILED, Some(f), now, s, v, row);
          return Timeout("");
        }
        Close(id, sw, FAILED, None, now, s, v, row);
        return Failure(500, "route_error", f.msg, "route_error", "");
      }
      res := RunRouted(id, sw, d, routed.value, degrade, now, s, v, row);
    }

    /** From the routing decision on. */
    method RunRouted(id: string, sw: StepWriter, d: PolicyDecision, primary: RouteDecision, degrade: bool, now: int,
                     ghost s: Stop, ghost v: View, ghost row: RequestRow)
      returns (res: RunResult)
      requires At(id, sw, s, 3, v, row) && s == StopRouted(hooks, d, primary) && d.normalized.requestType != AGENT
      modifies store, sw, spike
      ensures Ended(id, s, v, RoutedRow(row, s, degrade, slots.inferInflight), now) && res == Answer(hooks, s, degrade)
    {
      Step(id, sw, ROUTE, primary.backendName, None, s, 3, v, row);
      ghost var routed := RoutedRow(row, s, degrade, slots.inferInflight);
      PatchRoute(id, sw, d, primary, degrade, s, v, row);
      res := RunPrepared(id, sw, d, primary, degrade, now, s, v, routed);
    }

    method PatchRoute(id: string, sw: StepWriter, d: PolicyDecision, primary: RouteDecision, degrade: bool,
                      ghost s: Stop, ghost v: View, ghost row: RequestRow)
      requires At(id, sw, s, 4, v, row) && s.PastRouting() && s.decision == d && s.primary == primary
      modifies store
      ensures At(id, sw, s, 4, v, RoutedRow(row, s, degrade, slots.inferInflight))
    {
      PatchRow(id, RequestPatch(None, Some(primary.backendName), Some(primary.reason),
                                Some(SnapshotOf(d, primary, degrade, slots.inferInflight))), v.requests, row);
    }

    /** Retrieval if the request asks for it, then the backend. */
    method RunPrepared(id: string, sw: StepWriter, d: PolicyDecision, primary: RouteDecision, degrade: bool, now: int,
                       ghost s: Stop, ghost v: View, ghost row: RequestRow)
      returns (res: RunResult)
      requires At(id, sw, s, 4, v, row) && s == StopRouted(hooks, d, primary) && d.normalized.requestType != AGENT
      modifies store, sw, spike
      ensures Ended(id, s, v, row, now) && res == Answer(hooks, s, degrade)
    {
      var req := d.normalized;
      if req.requestType == RAG {
        var out := RunRagPipeline(id, sw, req, s, v, row);
        if !out.Merged? {
          Close(id, sw, FAILED, None, now, s, v, row);
          return RagFailure(out);
        }
        req := out.req;
      }
      res := RunBackend(id, sw, d, req, primary, degrade, now, s, v, row);
    }

    /** The two inner steps of the retrieval plan. */
    method RunRagPipeline(id: string, sw: StepWriter, req: AIRequest, ghost s: Stop, ghost v: View,
                          ghost row: RequestRow)
      returns (out: RagOutcome)
      requires At(id, sw, s, 4, v, row) && req.requestType == RAG && s.PastRouting()
      requires if RagOf(hooks.rag, req).Merged? then s.Executed() && s.req == RagOf(hooks.rag, req).req
               else s.RagStopped? && s.req == req && s.rag == RagOf(hooks.rag, req)
      modifies sw, store`steps
      ensures out == RagOf(hooks.rag, req)
      ensures At(id, sw, s, if out.NotConfigured? then 4 else if out.RetrieveFailed? then 5 else 6, v, row)
    {
      var kb := KbName(hooks.rag, req);
      if kb == "" || kb !in hooks.rag.adapters { return NotConfigured("rag_not_configured"); }
      var q := RagQuery(hooks.rag, req);
      if q == "" { return NotConfigured("invalid_request"); }
      var found := hooks.rag.retrieve(kb, q);
      Step(id, sw, RETRIEVE, kb, if found.Err? then Some(found.error) else None, s, 4, v, row);
      if found.Err? { return RetrieveFailed(kb, found.error); }
      var best := hooks.rag.rerank(q, found.value);
      Step(id, sw, RERANK, hooks.rag.rerankName, if best.Err? then Some(best.error) else None, s, 5, v, row);
      if best.Err? { return RerankFailed(kb, best.error); }
      return Merged(kb, MergeRetrievalIntoInput(req, best.value));
    }

    /** The backend call and the end of the run. */
    method RunBackend(id: string, sw: StepWriter, d: PolicyDecision, req: AIRequest, primary: RouteDecision,
                      degrade: bool,
                      now: int, ghost s: Stop, ghost v: View, ghost row: RequestRow)
      returns (res: RunResult)
      requires s == StopExecuted(hooks, d, req, primary) && req.requestType != AGENT
      requires At(id, sw, s, |ExecutionPlan(req.requestType)| - 2, v, row)
      modifies store, sw, spike
      ensures Ended(id, s, v, row, now) && res == Answer(hooks, s, degrade)
    {
      var fallback := hooks.buildFallback(primary.backendName, hooks.health);
      var (exec, calls) := hooks.execute(req, primary, fallback);
      ghost var n := |ExecutionPlan(req.requestType)|;
      Step(id, sw, BACKEND_CALL, primary.backendName, exec.error, s, n - 2, v, row);
      if exec.error.Some? {
        Close(id, sw, FAILED, exec.error, now, s, v, row);
        if BudgetExceeded(hooks.execCtx, exec.error.value) { return Timeout(primary.backendName); }
        return Failure(502, "execution_failed", exec.error.value.msg, "execution_failed", primary.backendName);
      }
      Step(id, sw, FINALIZE, exec.backendName, None, s, n - 1, v, row);
      Close(id, sw, RequestPatch(Some("success"), Some(exec.backendName), Some(primary.reason), None),
            None, now, s, v, row);
      return Success(d, primary, exec, req, degrade);
    }
  }
}
