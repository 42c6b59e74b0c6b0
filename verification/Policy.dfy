/** Tenant policy and the per-tenant rate limiter (internal/policy). */
module Policy {
  import opened Text
  import opened Types
  import opened Config

  // ---- One limiter call ----

  datatype Limiter = Limiter(windowSecond: int, tenantCounts: map<string, int>)

  const NEW_LIMITER := Limiter(0, map[])

  function CountOf(l: Limiter, tenant: string): int {
    if tenant in l.tenantCounts then l.tenantCounts[tenant] else 0
  }

  /** The limiter after a call stamped `sec`, and whether the call is admitted. */
  function LimitStep(l: Limiter, tenant: string, limit: int, sec: int): (Limiter, bool) {
    if limit <= 0 then (l, true)
    else
      var w := if l.windowSecond != sec then Limiter(sec, map[]) else l;
      if CountOf(w, tenant) >= limit then (w, false)
      else (w.(tenantCounts := w.tenantCounts[tenant := CountOf(w, tenant) + 1]), true)
  }

  // ---- Runs of calls ----

  /** A call and the second its clock read gave, in the order the calls take the lock. */
  datatype Call = Call(tenant: string, sec: int)

  type Limits = string -> int

  function StateAfter(limits: Limits, calls: seq<Call>, n: nat): Limiter
    requires n <= |calls|
  {
    if n == 0 then NEW_LIMITER
    else
      var last := calls[n - 1];
      LimitStep(StateAfter(limits, calls, n - 1), last.tenant, limits(last.tenant), last.sec).0
  }

  predicate Admitted(limits: Limits, calls: seq<Call>, i: nat)
    requires i < |calls|
  {
    LimitStep(StateAfter(limits, calls, i), calls[i].tenant, limits(calls[i].tenant), calls[i].sec).1
  }

  /** How many of the calls from `from` up to `n` are the tenant's and carry that stamp. */
  function Count(calls: seq<Call>, from: nat, n: nat, tenant: string, sec: int): nat
    requires n <= |calls|
  {
    if n <= from then 0
    else Count(calls, from, n - 1, tenant, sec) + if calls[n - 1] == Call(tenant, sec) then 1 else 0
  }

  /** Where the block of limited calls stamped `sec` that ends at `n` begins. */
  function BlockStart(limits: Limits, calls: seq<Call>, n: nat, sec: int): (r: nat)
    requires n <= |calls|
    ensures r <= n
  {
    if n == 0 then 0
    else if limits(calls[n - 1].tenant) > 0 && calls[n - 1].sec != sec then n
    else BlockStart(limits, calls, n - 1, sec)
  }

  function Min(a: int, b: int): int {
    if a < b then a else b
  }

  /** The tenant's counter is the number of its calls in the current block, capped at its limit; and no
      limited call is left in the block of any other second. */
  lemma {:induction false} CounterMeaning(limits: Limits, calls: seq<Call>, n: nat, tenant: string, sec: int)
    requires n <= |calls| && limits(tenant) > 0
    ensures var l := StateAfter(limits, calls, n);
            var c := Count(calls, BlockStart(limits, calls, n, sec), n, tenant, sec);
            if l.windowSecond == sec then CountOf(l, tenant) == Min(limits(tenant), c) else c == 0
  {
    if n > 0 { CounterMeaning(limits, calls, n - 1, tenant, sec); }
  }

  /** Exact decision rule for every run, whatever the stamps: a limited call is admitted exactly when the
      tenant has made fewer calls than its limit in the current block of equally stamped calls. */
  lemma AdmittedIffBelowLimitInBlock(limits: Limits, calls: seq<Call>, i: nat)
    requires i < |calls|
    ensures var c := calls[i];
            Admitted(limits, calls, i) <==>
            || limits(c.tenant) <= 0
            || Count(calls, BlockStart(limits, calls, i, c.sec), i, c.tenant, c.sec) < limits(c.tenant)
  {
    if limits(calls[i].tenant) > 0 { CounterMeaning(limits, calls, i, calls[i].tenant, calls[i].sec); }
  }

  /** Limited calls take the lock in the order of their stamps. */
  ghost predicate Monotone(limits: Limits, calls: seq<Call>) {
    forall j, k :: 0 <= j < k < |calls| && limits(calls[j].tenant) > 0 && limits(calls[k].tenant) > 0 ==>
                     calls[j].sec <= calls[k].sec
  }

  lemma {:induction false} BlockHoldsTheWholeSecond(limits: Limits, calls: seq<Call>, n: nat, tenant: string, sec: int)
    requires n <= |calls| && limits(tenant) > 0 && Monotone(limits, calls)
    requires forall j :: 0 <= j < n && limits(calls[j].tenant) > 0 ==> calls[j].sec <= sec
    ensures Count(calls, BlockStart(limits, calls, n, sec), n, tenant, sec) == Count(calls, 0, n, tenant, sec)
  {
    if n > 0 {
      if limits(calls[n - 1].tenant) > 0 && calls[n - 1].sec != sec {
        NoneLater(calls, n, tenant, sec);
      } else {
        BlockHoldsTheWholeSecond(limits, calls, n - 1, tenant, sec);
      }
    }
  }

  lemma {:induction false} NoneLater(calls: seq<Call>, n: nat, tenant: string, sec: int)
    requires n <= |calls| && forall j :: 0 <= j < n && calls[j].tenant == tenant ==> calls[j].sec < sec
    ensures Count(calls, 0, n, tenant, sec) == 0
  {
    if n > 0 { NoneLater(calls, n - 1, tenant, sec); }
  }

  /** With stamps nondecreasing in lock order, a tenant's limited call is admitted exactly when fewer than
      `limit` of its calls came before it in the same second. */
  lemma AdmittedIffAmongFirstInSecond(limits: Limits, calls: seq<Call>, i: nat)
    requires i < |calls| && Monotone(limits, calls)
    ensures var c := calls[i];
            Admitted(limits, calls, i) <==>
            limits(c.tenant) <= 0 || Count(calls, 0, i, c.tenant, c.sec) < limits(c.tenant)
  {
    AdmittedIffBelowLimitInBlock(limits, calls, i);
    if limits(calls[i].tenant) > 0 {
      BlockHoldsTheWholeSecond(limits, calls, i, calls[i].tenant, calls[i].sec);
    }
  }

  /** The run with every other tenant's calls removed. */
  function Only(calls: seq<Call>, tenant: string): (r: seq<Call>)
    ensures forall k :: 0 <= k < |r| ==> r[k].tenant == tenant
  {
    if calls == [] then []
    else
      var last := calls[|calls| - 1];
      Only(calls[..|calls| - 1], tenant) + if last.tenant == tenant then [last] else []
  }

  lemma {:induction false} OnlyPrefix(calls: seq<Call>, tenant: string, i: nat)
    requires i <= |calls|
    ensures Only(calls[..i], tenant) <= Only(calls, tenant)
    ensures i < |calls| && calls[i].tenant == tenant ==>
              |Only(calls[..i], tenant)| < |Only(calls, tenant)| &&
              Only(calls, tenant)[|Only(calls[..i], tenant)|] == calls[i]
    decreases |calls|
  {
    if i == |calls| {
      assert calls[..i] == calls;
    } else {
      var front := calls[..|calls| - 1];
      assert front[..i] == calls[..i];
      OnlyPrefix(front, tenant, i);
      if i == |calls| - 1 { assert front == calls[..i]; }
    }
  }

  lemma OnlyStep(calls: seq<Call>, tenant: string, i: nat)
    requires 0 < i <= |calls|
    ensures |Only(calls[..i], tenant)|
         == |Only(calls[..i - 1], tenant)| + if calls[i - 1].tenant == tenant then 1 else 0
  {
    assert calls[..i][..i - 1] == calls[..i - 1];
  }

  lemma {:induction false} CountOnly(calls: seq<Call>, tenant: string, sec: int, i: nat)
    requires i <= |calls|
    ensures |Only(calls[..i], tenant)| <= |Only(calls, tenant)|
    ensures Count(calls, 0, i, tenant, sec) == Count(Only(calls, tenant), 0, |Only(calls[..i], tenant)|, tenant, sec)
    decreases i
  {
    OnlyPrefix(calls, tenant, i);
    if i > 0 {
      CountOnly(calls, tenant, sec, i - 1);
      OnlyPrefix(calls, tenant, i - 1);
      OnlyStep(calls, tenant, i);
    }
  }

  lemma {:induction false} OnlyIsMonotone(limits: Limits, calls: seq<Call>, tenant: string)
    requires Monotone(limits, calls)
    ensures Monotone(limits, Only(calls, tenant))
    ensures forall c :: c in Only(calls, tenant) ==> c in calls
    decreases |calls|
  {
    if calls != [] {
      var front := calls[..|calls| - 1];
      assert Monotone(limits, front);
      OnlyIsMonotone(limits, front, tenant);
      forall c | c in Only(front, tenant) && limits(tenant) > 0 && calls[|calls| - 1].tenant == tenant
        ensures c.sec <= calls[|calls| - 1].sec
      {
        assert c in front && c.tenant == tenant;
        var j :| 0 <= j < |front| && front[j] == c;
        assert calls[j] == c;
      }
    }
  }

  /** Isolation: removing all other tenants' calls from the run changes none of a tenant's decisions. */
  lemma DecisionsIgnoreOtherTenants(limits: Limits, calls: seq<Call>, i: nat)
    requires i < |calls| && Monotone(limits, calls)
    ensures var t := calls[i].tenant;
            var k := |Only(calls[..i], t)|;
            k < |Only(calls, t)| && (Admitted(limits, calls, i) <==> Admitted(limits, Only(calls, t), k))
  {
    var t := calls[i].tenant;
    OnlyPrefix(calls, t, i);
    CountOnly(calls, t, calls[i].sec, i);
    OnlyIsMonotone(limits, calls, t);
    AdmittedIffAmongFirstInSecond(limits, calls, i);
    AdmittedIffAmongFirstInSecond(limits, Only(calls, t), |Only(calls[..i], t)|);
  }

  /** The tenant's admitted calls among the first `n` with a stamp in `lo..hi`. */
  function AdmittedIn(limits: Limits, calls: seq<Call>, n: nat, tenant: string, lo: int, hi: int): nat
    requires n <= |calls|
  {
    if n == 0 then 0
    else
      AdmittedIn(limits, calls, n - 1, tenant, lo, hi) +
      if calls[n - 1].tenant == tenant && lo <= calls[n - 1].sec < hi && Admitted(limits, calls, n - 1) then 1 else 0
  }

  lemma {:induction false} AdmittedInOneSecond(limits: Limits, calls: seq<Call>, n: nat, tenant: string, sec: int)
    requires n <= |calls| && limits(tenant) > 0 && Monotone(limits, calls)
    ensures AdmittedIn(limits, calls, n, tenant, sec, sec + 1) == Min(limits(tenant), Count(calls, 0, n, tenant, sec))
  {
    if n > 0 {
      AdmittedInOneSecond(limits, calls, n - 1, tenant, sec);
      AdmittedIffAmongFirstInSecond(limits, calls, n - 1);
    }
  }

  lemma {:induction false} AdmittedInSplits(limits: Limits, calls: seq<Call>, n: nat, tenant: string, lo: int,
                                            mid: int, hi: int)
    requires n <= |calls| && lo <= mid <= hi
    ensures AdmittedIn(limits, calls, n, tenant, lo, hi)
         == AdmittedIn(limits, calls, n, tenant, lo, mid) + AdmittedIn(limits, calls, n, tenant, mid, hi)
  {
    if n > 0 { AdmittedInSplits(limits, calls, n - 1, tenant, lo, mid, hi); }
  }

  /** Over any span of `k` whole seconds a tenant is admitted at most `k` times its limit. */
  lemma {:induction false} SpanBound(limits: Limits, calls: seq<Call>, n: nat, tenant: string, lo: int, k: nat)
    requires n <= |calls| && limits(tenant) > 0 && Monotone(limits, calls)
    ensures AdmittedIn(limits, calls, n, tenant, lo, lo + k) <= k * limits(tenant)
    decreases k
  {
    if k == 0 {
      EmptySpan(limits, calls, n, tenant, lo);
    } else {
      SpanBound(limits, calls, n, tenant, lo, k - 1);
      AdmittedInSplits(limits, calls, n, tenant, lo, lo + k - 1, lo + k);
      AdmittedInOneSecond(limits, calls, n, tenant, lo + k - 1);
      OneMoreTime(k, limits(tenant));
    }
  }

  lemma OneMoreTime(k: nat, limit: int)
    requires k > 0
    ensures (k - 1) * limit + limit == k * limit
  {}

  lemma {:induction false} EmptySpan(limits: Limits, calls: seq<Call>, n: nat, tenant: string, lo: int)
    requires n <= |calls|
    ensures AdmittedIn(limits, calls, n, tenant, lo, lo) == 0
  {
    if n > 0 { EmptySpan(limits, calls, n - 1, tenant, lo); }
  }

  /** The clock is read before the lock is taken, so stamps can arrive out of order. Then the bound fails:
      with limit 1, calls stamped 10, 11, 10 are all admitted, two of them in second 10. */
  lemma OutOfOrderStampsExceedTheLimit()
    ensures var limits: Limits := t => 1;
            var calls := [Call("a", 10), Call("a", 11), Call("a", 10)];
            !Monotone(limits, calls) && AdmittedIn(limits, calls, 3, "a", 10, 11) == 2 > limits("a")
  {
    var limits: Limits := t => 1;
    var calls := [Call("a", 10), Call("a", 11), Call("a", 10)];
    assert StateAfter(limits, calls, 1) == Limiter(10, map["a" := 1]);
    assert StateAfter(limits, calls, 2) == Limiter(11, map["a" := 1]);
    assert AdmittedIn(limits, calls, 1, "a", 10, 11) == 1;
    assert AdmittedIn(limits, calls, 2, "a", 10, 11) == 1;
    assert calls[1].sec > calls[2].sec;
  }

  // ---- Whatever the order of the stamps ----

  /** The tenant's calls in the block of calls stamped `sec` that ends at `n`. */
  function InBlock(limits: Limits, calls: seq<Call>, n: nat, tenant: string, sec: int): nat
    requires n <= |calls|
  {
    Count(calls, BlockStart(limits, calls, n, sec), n, tenant, sec)
  }

  lemma {:induction false} BlockWithinSecond(limits: Limits, calls: seq<Call>, n: nat, tenant: string, sec: int)
    requires n <= |calls|
    ensures InBlock(limits, calls, n, tenant, sec) <= Count(calls, 0, n, tenant, sec)
  {
    if n > 0 { BlockWithinSecond(limits, calls, n - 1, tenant, sec); }
  }

  /** Exactly when counting the tenant's earlier calls in the second decides a call: unless they have used up the limit
      but those of the current block have not. */
  lemma PerSecondRuleIff(limits: Limits, calls: seq<Call>, i: nat)
    requires i < |calls| && limits(calls[i].tenant) > 0
    ensures var c, limit := calls[i], limits(calls[i].tenant);
            (Admitted(limits, calls, i) <==> Count(calls, 0, i, c.tenant, c.sec) < limit) <==>
            !(InBlock(limits, calls, i, c.tenant, c.sec) < limit <= Count(calls, 0, i, c.tenant, c.sec))
  {
    AdmittedIffBelowLimitInBlock(limits, calls, i);
    BlockWithinSecond(limits, calls, i, calls[i].tenant, calls[i].sec);
  }

  /** Over the blocks stamped `sec` among the first `n` calls: the tenant's calls in each, up to its limit. */
  function BlockSum(limits: Limits, calls: seq<Call>, n: nat, tenant: string, sec: int): nat
    requires n <= |calls| && limits(tenant) > 0
    decreases n
  {
    if n == 0 then 0
    else
      var b := BlockStart(limits, calls, n, sec);
      if b == n then BlockSum(limits, calls, n - 1, tenant, sec)
      else BlockSum(limits, calls, b, tenant, sec) + Min(limits(tenant), InBlock(limits, calls, n, tenant, sec))
  }

  /** For every run, the tenant's admissions in a second are the sum over the second's blocks. */
  lemma {:induction false} AdmittedIsTheBlockSum(limits: Limits, calls: seq<Call>, n: nat, tenant: string, sec: int)
    requires n <= |calls| && limits(tenant) > 0
    ensures AdmittedIn(limits, calls, n, tenant, sec, sec + 1) == BlockSum(limits, calls, n, tenant, sec)
  {
    if n > 0 {
      AdmittedIsTheBlockSum(limits, calls, n - 1, tenant, sec);
      AdmittedIffBelowLimitInBlock(limits, calls, n - 1);
      var b := BlockStart(limits, calls, n, sec);
      if b < n {
        assert b == BlockStart(limits, calls, n - 1, sec);
        assert b == n - 1 || BlockSum(limits, calls, n - 1, tenant, sec)
               == BlockSum(limits, calls, b, tenant, sec)
                  + Min(limits(tenant), InBlock(limits, calls, n - 1, tenant, sec));
      }
    }
  }

  /** The block sums of the `k` seconds from `lo` on. */
  function SpanSum(limits: Limits, calls: seq<Call>, n: nat, tenant: string, lo: int, k: nat): nat
    requires n <= |calls| && limits(tenant) > 0
  {
    if k == 0 then 0 else SpanSum(limits, calls, n, tenant, lo, k - 1) + BlockSum(limits, calls, n, tenant, lo + k - 1)
  }

  /** For every run, the admissions over `k` seconds are the block sums; so the bound holds exactly when these do not
      exceed it, and the bound per second is the case of one second. */
  lemma {:induction false} SpanBoundIff(limits: Limits, calls: seq<Call>, n: nat, tenant: string, lo: int, k: nat)
    requires n <= |calls| && limits(tenant) > 0
    ensures AdmittedIn(limits, calls, n, tenant, lo, lo + k) == SpanSum(limits, calls, n, tenant, lo, k)
    ensures AdmittedIn(limits, calls, n, tenant, lo, lo + k) <= k * limits(tenant) <==>
            SpanSum(limits, calls, n, tenant, lo, k) <= k * limits(tenant)
    decreases k
  {
    if k == 0 {
      EmptySpan(limits, calls, n, tenant, lo);
    } else {
      SpanBoundIff(limits, calls, n, tenant, lo, k - 1);
      AdmittedInSplits(limits, calls, n, tenant, lo, lo + k - 1, lo + k);
      AdmittedIsTheBlockSum(limits, calls, n, tenant, lo + k - 1);
    }
  }

  /** Without the other tenants' calls a tenant's blocks can only be longer. */
  lemma {:induction false} BlocksGrowAlone(limits: Limits, calls: seq<Call>, i: nat, tenant: string, sec: int)
    requires i <= |calls| && limits(tenant) > 0
    ensures |Only(calls[..i], tenant)| <= |Only(calls, tenant)|
    ensures InBlock(limits, calls, i, tenant, sec)
         <= InBlock(limits, Only(calls, tenant), |Only(calls[..i], tenant)|, tenant, sec)
  {
    OnlyPrefix(calls, tenant, i);
    if i > 0 {
      BlocksGrowAlone(limits, calls, i - 1, tenant, sec);
      OnlyPrefix(calls, tenant, i - 1);
      OnlyStep(calls, tenant, i);
    }
  }

  /** Exactly when isolation holds for a call: unless removing the other tenants' calls joins blocks to one that has
      used up the limit. */
  lemma IsolationIff(limits: Limits, calls: seq<Call>, i: nat)
    requires i < |calls| && limits(calls[i].tenant) > 0
    ensures var c, limit := calls[i], limits(calls[i].tenant);
            var alone, k := Only(calls, c.tenant), |Only(calls[..i], c.tenant)|;
            && k < |alone|
            && ((Admitted(limits, calls, i) <==> Admitted(limits, alone, k)) <==>
                !(InBlock(limits, calls, i, c.tenant, c.sec) < limit <= InBlock(limits, alone, k, c.tenant, c.sec)))
  {
    var t := calls[i].tenant;
    OnlyPrefix(calls, t, i);
    BlocksGrowAlone(limits, calls, i, t, calls[i].sec);
    AdmittedIffBelowLimitInBlock(limits, calls, i);
    AdmittedIffBelowLimitInBlock(limits, Only(calls, t), |Only(calls[..i], t)|);
  }

  /** It happens: with limit 1 and stamps 10, 11, 10 the last call is admitted because another tenant's call came in
      between; without that call it is refused. */
  lemma AnotherTenantUnlocksTheLimit()
    ensures var limits: Limits := t => 1;
            var calls := [Call("a", 10), Call("b", 11), Call("a", 10)];
            && Only(calls, "a") == [Call("a", 10), Call("a", 10)]
            && Admitted(limits, calls, 2) && !Admitted(limits, Only(calls, "a"), 1)
  {
    var limits: Limits := t => 1;
    var calls := [Call("a", 10), Call("b", 11), Call("a", 10)];
    assert calls[..2] == [Call("a", 10), Call("b", 11)] && calls[..2][..1] == [Call("a", 10)];
    assert calls[..2][..1][..0] == [];
    assert Only(calls[..2][..1], "a") == [Call("a", 10)];
    assert Only(calls[..2], "a") == [Call("a", 10)];
    var alone := Only(calls, "a");
    assert alone == [Call("a", 10), Call("a", 10)];
    assert StateAfter(limits, alone, 0) == NEW_LIMITER;
    assert StateAfter(limits, alone, 1) == Limiter(10, map["a" := 1]);
    assert StateAfter(limits, calls, 0) == NEW_LIMITER;
    assert StateAfter(limits, calls, 1) == Limiter(10, map["a" := 1]);
    assert StateAfter(limits, calls, 2) == Limiter(11, map["b" := 1]);
  }

  // ---- Policy evaluation ----

  function EstimateBudgetConsumption(req: AIRequest): real {
    1.0 + (if req.options.maxTokens <= 0 then 256 else req.options.maxTokens) as real / 256.0
  }

  /** Limits an agent request may break; only consulted for agent requests. */
  type AgentLimits = (AIRequest, TenantConfig) -> Option<string>

  function Filled(table: CharTable, tenant: TenantConfig, req: AIRequest): AIRequest {
    NormalizeAIRequest(table, req.(priority := if req.priority == "" then tenant.priority else req.priority))
  }

  predicate IsAgent(table: CharTable, req: AIRequest) {
    ToLower(table, TrimSpace(table, req.requestType)) == AGENT
  }

  const AGENT_DISABLED := "agent requests are disabled (set features.agent_enabled=true to allow policy checks)"

  /** Why a filled request is turned down before the rate limiter is asked. */
  function Objection(table: CharTable, c: Config, agent: AgentLimits, tenant: TenantConfig, n: AIRequest)
    : Option<string>
  {
    if IsAgent(table, n) && !c.agentEnabled then Some(AGENT_DISABLED)
    else if IsAgent(table, n) && agent(n, tenant).Some? then agent(n, tenant)
    else if tenant.budgetPerRequest > 0.0 && EstimateBudgetConsumption(n) > tenant.budgetPerRequest
    then Some("budget exceeded")
    else None
  }

  const EMPTY_REQUEST := AIRequest("", "", "", None, "", "", "", None, RequestOptions(false, 0))

  function Decide(table: CharTable, c: Config, agent: AgentLimits, l: Limiter, now: int, req: AIRequest)
    : (PolicyDecision, Limiter)
  {
    match TenantByID(c.tenants, req.tenantID)
    case None => (PolicyDecision(false, "unknown tenant", EMPTY_REQUEST), l)
    case Some(tenant) =>
      var n := Filled(table, tenant, req);
      match Objection(table, c, agent, tenant, n)
      case Some(why) => (PolicyDecision(false, why, n), l)
      case None =>
        var (l', ok) := LimitStep(l, tenant.id, tenant.rateLimitRPS, now);
        (PolicyDecision(ok, if ok then "allowed" else "rate limit exceeded", n), l')
  }

  /** Every tenant's limit, 0 for an unknown one. */
  function LimitsOf(c: Config): Limits {
    tenant => var known := TenantByID(c.tenants, tenant); if known.Some? then known.value.rateLimitRPS else 0
  }

  /** The call an evaluation makes of the limiter: one, if the tenant is known and nothing else speaks against the
      request, and none otherwise. */
  function LimiterCalls(table: CharTable, c: Config, agent: AgentLimits, now: int, req: AIRequest): (calls: seq<Call>)
    ensures |calls| <= 1
  {
    var known := TenantByID(c.tenants, req.tenantID);
    if known.Some? && Objection(table, c, agent, known.value, Filled(table, known.value, req)).None?
    then [Call(req.tenantID, now)] else []
  }

  /** An evaluation changes the limiter by that call only, and allows the request exactly if it makes the call and is
      admitted. */
  lemma DecideIsOneCall(table: CharTable, c: Config, agent: AgentLimits, l: Limiter, now: int, req: AIRequest)
    ensures var calls := LimiterCalls(table, c, agent, now, req);
            var (d, l') := Decide(table, c, agent, l, now, req);
            if calls == [] then !d.allowed && l' == l
            else (l', d.allowed) == LimitStep(l, calls[0].tenant, LimitsOf(c)(calls[0].tenant), calls[0].sec)
  {}

  class BasicEngine {
    const table: CharTable
    const cfg: Config
    const agent: AgentLimits
    var windowSecond: int
    var tenantCounts: map<string, int>

    ghost function State(): Limiter reads this { Limiter(windowSecond, tenantCounts) }

    constructor (table: CharTable, cfg: Config, agent: AgentLimits)
      ensures State() == NEW_LIMITER && this.table == table && this.cfg == cfg && this.agent == agent
    {
      this.table, this.cfg, this.agent := table, cfg, agent;
      windowSecond, tenantCounts := 0, map[];
    }

    method AllowByRateLimit(tenantID: string, limit: int, nowSec: int) returns (ok: bool)
      modifies this
      ensures (State(), ok) == LimitStep(old(State()), tenantID, limit, nowSec)
    {
      if limit <= 0 { return true; }
      if windowSecond != nowSec {
        windowSecond := nowSec;
        tenantCounts := map[];
      }
      var current := if tenantID in tenantCounts then tenantCounts[tenantID] else 0;
      if current >= limit { return false; }
      tenantCounts := tenantCounts[tenantID := current + 1];
      return true;
    }

    method Evaluate(req: AIRequest, nowSec: int) returns (d: PolicyDecision)
      modifies this
      ensures (d, State()) == Decide(table, cfg, agent, old(State()), nowSec, req)
    {
      var known := TenantByID(cfg.tenants, req.tenantID);
      if known.None? { return PolicyDecision(false, "unknown tenant", EMPTY_REQUEST); }
      var tenant := known.value;
      var normalized := req;
      if normalized.priority == "" {
        normalized := normalized.(priority := tenant.priority);
      }
      normalized := NormalizeAIRequest(table, normalized);
      if IsAgent(table, normalized) && !cfg.agentEnabled {
        return PolicyDecision(false, AGENT_DISABLED, normalized);
      }
      if IsAgent(table, normalized) {
        var broken := agent(normalized, tenant);
        if broken.Some? { return PolicyDecision(false, broken.value, normalized); }
      }
      var estimated := EstimateBudgetConsumption(normalized);
      if tenant.budgetPerRequest > 0.0 && estimated > tenant.budgetPerRequest {
        return PolicyDecision(false, "budget exceeded", normalized);
      }
      var ok := AllowByRateLimit(tenant.id, tenant.rateLimitRPS, nowSec);
      return PolicyDecision(ok, if ok then "allowed" else "rate limit exceeded", normalized);
    }
  }

  /** A request is allowed exactly when its tenant exists, agent use is enabled and within limits, its
      estimate fits the budget, and the limiter admits it; a request turned down earlier does not touch the
      limiter. */
  lemma AllowedIff(table: CharTable, c: Config, agent: AgentLimits, l: Limiter, now: int, req: AIRequest)
    requires table.Valid()
    ensures var (d, l') := Decide(table, c, agent, l, now, req);
            var known := TenantByID(c.tenants, req.tenantID);
            && (d.allowed <==>
                  && known.Some?
                  && (var tenant := known.value;
                      var n := NormalizeAIRequest(table, req);
                      && (n.requestType == AGENT ==> c.agentEnabled && agent(Filled(table, tenant, req), tenant).None?)
                      && (tenant.budgetPerRequest > 0.0 ==> EstimateBudgetConsumption(req) <= tenant.budgetPerRequest)
                      && LimitStep(l, tenant.id, tenant.rateLimitRPS, now).1))
            && (l' != l ==> known.Some? && l' == LimitStep(l, known.value.id, known.value.rateLimitRPS, now).0)
  {
    var known := TenantByID(c.tenants, req.tenantID);
    if known.Some? {
      var n := Filled(table, known.value, req);
      var priority := if req.priority == "" then known.value.priority else req.priority;
      NormalizedTypeIsNormal(table, req.(priority := priority));
      TrimSpaceFixpoints(table, n.requestType);
    }
  }

  /** Normalising does not look at the priority, and a trip through JSON before it leaves no mark. */
  lemma NormalizeOfPriority(table: CharTable, req: AIRequest, p: string)
    requires table.Valid()
    ensures NormalizeAIRequest(table, NormalizeAIRequest(table, JsonRoundTrip(req)).(priority := p))
         == NormalizeAIRequest(table, req.(priority := p))
  {
    NormalizeIdempotent(table, req.(priority := p));
    assert NormalizeAIRequest(table, JsonRoundTrip(req)).(priority := p)
        == NormalizeAIRequest(table, req.(priority := p));
  }

  /** Filling in a request gives the same if the request took a trip through the ledger's JSON and was normalised
      before, and nothing new if it was filled in before. */
  lemma FilledTwice(table: CharTable, tenant: TenantConfig, req: AIRequest)
    requires table.Valid()
    ensures Filled(table, tenant, NormalizeAIRequest(table, JsonRoundTrip(req))) == Filled(table, tenant, req)
    ensures var n := Filled(table, tenant, req);
            Filled(table, tenant, NormalizeAIRequest(table, JsonRoundTrip(n))) == n
  {
    var n := Filled(table, tenant, req);
    NormalizeOfPriority(table, req, if req.priority == "" then tenant.priority else req.priority);
    NormalizeOfPriority(table, n, if n.priority == "" then tenant.priority else n.priority);
    NormalizeIdempotent(table, req.(priority := n.priority));
  }

  /** So the decision on the request a row stands for is the decision on the request that was run. */
  lemma DecisionSurvivesTheLedger(table: CharTable, c: Config, agent: AgentLimits, l: Limiter, now: int, req: AIRequest)
    requires table.Valid()
    ensures Decide(table, c, agent, l, now, NormalizeAIRequest(table, JsonRoundTrip(req)))
         == Decide(table, c, agent, l, now, req)
  {
    var known := TenantByID(c.tenants, req.tenantID);
    if known.Some? { FilledTwice(table, known.value, req); }
  }

  /** A request keeps its own priority and gets its tenant's only if it has none; in all else filling is normalising. */
  lemma FilledMeaning(table: CharTable, tenant: TenantConfig, req: AIRequest)
    ensures var n := Filled(table, tenant, req);
            && n.(priority := req.priority) == NormalizeAIRequest(table, req)
            && (req.priority != "" ==> n.priority == req.priority)
            && (req.priority == "" ==> n.priority == tenant.priority)
  {}

  /** The budget in tokens: it pays for one unit and 256 tokens for each further one; no limit counts as 256 tokens. */
  lemma BudgetInTokens(req: AIRequest, budget: real)
    ensures EstimateBudgetConsumption(req) <= budget <==>
            (if req.options.maxTokens > 0 then req.options.maxTokens as real else 256.0) <= 256.0 * (budget - 1.0)
  {}

  /** What a decision says: the first thing that speaks against the request, in this order, and otherwise "allowed". */
  lemma DecisionReason(table: CharTable, c: Config, agent: AgentLimits, l: Limiter, now: int, req: AIRequest)
    requires table.Valid()
    ensures var d := Decide(table, c, agent, l, now, req).0;
            var known := TenantByID(c.tenants, req.tenantID);
            var isAgent := NormalizeAIRequest(table, req).requestType == "agent";
            var tokens := if req.options.maxTokens > 0 then req.options.maxTokens as real else 256.0;
            && (d.allowed ==> d.reason == "allowed")
            && if known.None? then d.reason == "unknown tenant"
               else
                 var tenant := known.value;
                 var broken := agent(Filled(table, tenant, req), tenant);
                 && d.normalized == Filled(table, tenant, req)
                 && if isAgent && !c.agentEnabled then d.reason == AGENT_DISABLED
                    else if isAgent && broken.Some? then d.reason == broken.value && !d.allowed
                    else if tenant.budgetPerRequest > 0.0 && tokens > 256.0 * (tenant.budgetPerRequest - 1.0)
                    then d.reason == "budget exceeded"
                    else d.reason == if d.allowed then "allowed" else "rate limit exceeded"
  {
    var known := TenantByID(c.tenants, req.tenantID);
    if known.Some? {
      var tenant := known.value;
      var n := Filled(table, tenant, req);
      FilledMeaning(table, tenant, req);
      NormalizedTypeIsNormal(table, req);
      TrimSpaceFixpoints(table, n.requestType);
      BudgetInTokens(n, tenant.budgetPerRequest);
    }
  }
}
