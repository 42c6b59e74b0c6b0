/** Route selection: rules, default, first healthy, then cost (internal/router, internal/cost). */
module Router {
  import opened Text
  import opened Types
  import opened Config

  type Health = map<string, bool>

  datatype RouteError = CtxDone(fault: Fault) | UnknownRuleBackend(rule: string) | DefaultNotFound | NoneHealthy

  /** A backend the snapshot does not mention counts as selectable. */
  predicate BackendHealthOK(health: Health, name: string) {
    name in health ==> health[name]
  }

  /** What the router looks at besides the request. */
  datatype RuntimeState = RuntimeState(backendHealth: Health, overloadDegrade: bool)

  predicate MatchesRule(rule: RouteRule, tenant: TenantConfig, req: AIRequest) {
    && (rule.when.taskType == "" || rule.when.taskType == req.taskType)
    && (rule.when.priority == "" || rule.when.priority == req.priority)
    && (rule.when.tenantClass == "" || rule.when.tenantClass == tenant.cls)
  }

  predicate SupportsTask(b: BackendConfig, taskType: string) {
    if taskType == "" then true
    else if taskType == "simple" then "chat" in b.capabilities || "summarization" in b.capabilities
    else if taskType == "complex" then "reasoning" in b.capabilities
    else taskType in b.capabilities
  }

  function Tokens(req: AIRequest): int {
    if req.options.maxTokens <= 0 then 256 else req.options.maxTokens
  }

  function Estimate(req: AIRequest, unit: real): real {
    unit + (Tokens(req) as real / 1000.0) * unit
  }

  /** An unknown tenant is the zero tenant. */
  function TenantOf(c: Config, req: AIRequest): TenantConfig {
    var t := TenantByID(c.tenants, req.tenantID);
    if t.Some? then t.value else TenantConfig("", "", "", 0.0, 0)
  }

  // ---- Base choice ----

  /** The first matching rule with a selectable backend, searching from rule `i`; `Ok(None)` when there is none. */
  function RuleChoice(c: Config, tenant: TenantConfig, req: AIRequest, health: Health, i: nat)
    : Result<Option<RouteDecision>, RouteError>
    requires i <= |c.rules|
    decreases |c.rules| - i
  {
    if i == |c.rules| then Ok(None)
    else
      var rule := c.rules[i];
      if !MatchesRule(rule, tenant, req) then RuleChoice(c, tenant, req, health, i + 1)
      else
        match BackendByName(c.backends, rule.useBackend)
        case None => Err(UnknownRuleBackend(rule.name))
        case Some(b) =>
          if !BackendHealthOK(health, b.name) then RuleChoice(c, tenant, req, health, i + 1)
          else Ok(Some(RouteDecision(b.name, rule.name, b.unit)))
  }

  function FirstHealthyBackend(bs: seq<BackendConfig>, health: Health): (r: Option<RouteDecision>)
    ensures r.None? <==> forall b :: b in bs ==> !BackendHealthOK(health, b.name)
    ensures r.Some? ==> exists i :: FirstSelectable(bs, health, i) &&
                                    r.value == RouteDecision(bs[i].name, "healthy-fallback-order", bs[i].unit)
  {
    if bs == [] then None
    else if BackendHealthOK(health, bs[0].name) then
      assert FirstSelectable(bs, health, 0);
      Some(RouteDecision(bs[0].name, "healthy-fallback-order", bs[0].unit))
    else
      var r := FirstHealthyBackend(bs[1..], health);
      assert r.Some? ==> exists i :: FirstSelectable(bs[1..], health, i) && FirstSelectable(bs, health, i + 1);
      r
  }

  /** Backend `i` is the earliest selectable one. */
  ghost predicate FirstSelectable(bs: seq<BackendConfig>, health: Health, i: int) {
    0 <= i < |bs| && BackendHealthOK(health, bs[i].name) &&
    forall j :: 0 <= j < i ==> !BackendHealthOK(health, bs[j].name)
  }

  function SelectByRules(c: Config, tenant: TenantConfig, req: AIRequest, health: Health)
    : Result<RouteDecision, RouteError>
  {
    match RuleChoice(c, tenant, req, health, 0)
    case Err(e) => Err(e)
    case Ok(Some(d)) => Ok(d)
    case Ok(None) =>
      match BackendByName(c.backends, c.defaultBackend)
      case None => Err(DefaultNotFound)
      case Some(b) =>
        if BackendHealthOK(health, b.name) then Ok(RouteDecision(b.name, "default-backend", b.unit))
        else
          match FirstHealthyBackend(c.backends, health)
          case Some(d) => Ok(d)
          case None => Err(NoneHealthy)
  }

  // ---- Cost optimisation ----

  predicate Eligible(tenant: TenantConfig, req: AIRequest, health: Health, b: BackendConfig) {
    && BackendHealthOK(health, b.name)
    && SupportsTask(b, req.taskType)
    && (tenant.budgetPerRequest > 0.0 ==> Estimate(req, b.unit) <= tenant.budgetPerRequest)
  }

  function CostDecision(req: AIRequest, base: RouteDecision, b: BackendConfig): RouteDecision {
    RouteDecision(b.name, "cost-optimized-from-" + base.reason, Estimate(req, b.unit))
  }

  /** Declarative meaning of the optimiser: keep the base unless an eligible backend's estimated total is
      below the base's *unit* cost; then take the least total, the earliest in config order among ties. */
  ghost predicate IsCostChoice(
    bs: seq<BackendConfig>, tenant: TenantConfig, req: AIRequest, health: Health, base: RouteDecision, r: RouteDecision)
  {
    if forall b :: b in bs && Eligible(tenant, req, health, b) ==> Estimate(req, b.unit) >= base.estimatedCost
    then r == base
    else exists i :: CheapestAt(bs, tenant, req, health, i) && r == CostDecision(req, base, bs[i])
  }

  /** Backend `i` is eligible, no eligible backend is cheaper and no earlier eligible one as cheap. */
  ghost predicate CheapestAt(bs: seq<BackendConfig>, tenant: TenantConfig, req: AIRequest, health: Health, i: int) {
    && 0 <= i < |bs| && Eligible(tenant, req, health, bs[i])
    && forall j :: 0 <= j < |bs| && Eligible(tenant, req, health, bs[j]) ==>
                     && Estimate(req, bs[i].unit) <= Estimate(req, bs[j].unit)
                     && (j < i ==> Estimate(req, bs[i].unit) < Estimate(req, bs[j].unit))
  }

  /** The optimiser as a left fold over the backends. */
  function CostFold(bs: seq<BackendConfig>, tenant: TenantConfig, req: AIRequest, health: Health, base: RouteDecision)
    : RouteDecision
  {
    if bs == [] then base
    else
      var best := CostFold(bs[..|bs| - 1], tenant, req, health, base);
      var b := bs[|bs| - 1];
      if Eligible(tenant, req, health, b) && Estimate(req, b.unit) < best.estimatedCost
      then CostDecision(req, base, b) else best
  }

  /** The fold satisfies the declarative meaning, and nothing else does. */
  lemma CostFoldIsTheCostChoice(
    bs: seq<BackendConfig>, tenant: TenantConfig, req: AIRequest, health: Health, base: RouteDecision, r: RouteDecision)
    ensures IsCostChoice(bs, tenant, req, health, base, r) <==> r == CostFold(bs, tenant, req, health, base)
  {
    var f := CostFold(bs, tenant, req, health, base);
    CostFoldSound(bs, tenant, req, health, base);
    if IsCostChoice(bs, tenant, req, health, base, r) {
      CostChoiceUnique(bs, tenant, req, health, base, r, f);
    }
  }

  lemma CostChoiceUnique(bs: seq<BackendConfig>, tenant: TenantConfig, req: AIRequest, health: Health,
                         base: RouteDecision, r: RouteDecision, r': RouteDecision)
    requires IsCostChoice(bs, tenant, req, health, base, r) && IsCostChoice(bs, tenant, req, health, base, r')
    ensures r == r'
  {
    if r != base || r' != base {
      forall i, j | CheapestAt(bs, tenant, req, health, i) && CheapestAt(bs, tenant, req, health, j) ensures i == j {}
    }
  }

  lemma {:induction false} CostFoldSound(
    bs: seq<BackendConfig>, tenant: TenantConfig, req: AIRequest, health: Health, base: RouteDecision)
    ensures IsCostChoice(bs, tenant, req, health, base, CostFold(bs, tenant, req, health, base))
    decreases |bs|
  {
    if bs == [] { return; }
    var front, b := bs[..|bs| - 1], bs[|bs| - 1];
    assert bs == front + [b];
    CostFoldSound(front, tenant, req, health, base);
    var best := CostFold(front, tenant, req, health, base);
    if Eligible(tenant, req, health, b) && Estimate(req, b.unit) < best.estimatedCost {
      LastIsCheapest(front, b, tenant, req, health, base);
    } else if forall x :: x in front && Eligible(tenant, req, health, x) ==>
                            Estimate(req, x.unit) >= base.estimatedCost {
    } else {
      var i :| CheapestAt(front, tenant, req, health, i) && best == CostDecision(req, base, front[i]);
      assert CheapestAt(bs, tenant, req, health, i);
    }
  }

  /** A backend cheaper than the choice so far is cheaper than every eligible backend so far. */
  lemma LastIsCheapest(front: seq<BackendConfig>, b: BackendConfig, tenant: TenantConfig, req: AIRequest,
                       health: Health,
                       base: RouteDecision)
    requires IsCostChoice(front, tenant, req, health, base, CostFold(front, tenant, req, health, base))
    requires Eligible(tenant, req, health, b)
    requires Estimate(req, b.unit) < CostFold(front, tenant, req, health, base).estimatedCost
    ensures CheapestAt(front + [b], tenant, req, health, |front|) && Estimate(req, b.unit) < base.estimatedCost
  {
    forall j | 0 <= j < |front| && Eligible(tenant, req, health, front[j])
      ensures Estimate(req, b.unit) < Estimate(req, front[j].unit)
    {
      assert front[j] in front;
    }
  }

  method OptimizeByCost(c: Config, tenant: TenantConfig, req: AIRequest, base: RouteDecision, state: RuntimeState)
    returns (best: RouteDecision)
    ensures best == Optimized(c, tenant, req, base, state)
    ensures state.overloadDegrade ==> best == base
    ensures !state.overloadDegrade ==> IsCostChoice(c.backends, tenant, req, state.backendHealth, base, best)
  {
    best := base;
    if state.overloadDegrade { return; }
    var bestCost := base.estimatedCost;
    for i := 0 to |c.backends|
      invariant best == CostFold(c.backends[..i], tenant, req, state.backendHealth, base)
      invariant bestCost == best.estimatedCost
    {
      var b := c.backends[i];
      assert c.backends[..i + 1][..i] == c.backends[..i];
      if !BackendHealthOK(state.backendHealth, b.name) { continue; }
      if !SupportsTask(b, req.taskType) { continue; }
      var total := Estimate(req, b.unit);
      if tenant.budgetPerRequest > 0.0 && total > tenant.budgetPerRequest { continue; }
      if total < bestCost {
        best := CostDecision(req, base, b);
        bestCost := total;
      }
    }
    assert c.backends[..|c.backends|] == c.backends;
    CostFoldSound(c.backends, tenant, req, state.backendHealth, base);
  }

  function Optimized(c: Config, tenant: TenantConfig, req: AIRequest, base: RouteDecision, state: RuntimeState)
    : RouteDecision
  {
    if state.overloadDegrade then base else CostFold(c.backends, tenant, req, state.backendHealth, base)
  }

  /** `ctxErr` is the error of the request context, if it is already done. */
  function SelectRoute(c: Config, ctxErr: Option<Fault>, req: AIRequest, state: RuntimeState)
    : Result<RouteDecision, RouteError>
  {
    if ctxErr.Some? then Err(CtxDone(ctxErr.value))
    else
      match SelectByRules(c, TenantOf(c, req), req, state.backendHealth)
      case Err(e) => Err(e)
      case Ok(base) => Ok(Optimized(c, TenantOf(c, req), req, base, state))
  }

  method SelectRouteImpl(c: Config, ctxErr: Option<Fault>, req: AIRequest, state: RuntimeState)
    returns (r: Result<RouteDecision, RouteError>)
    ensures r == SelectRoute(c, ctxErr, req, state)
  {
    if ctxErr.Some? { return Err(CtxDone(ctxErr.value)); }
    var tenant := TenantOf(c, req);
    var base := SelectByRules(c, tenant, req, state.backendHealth);
    if base.Err? { return base; }
    var best := OptimizeByCost(c, tenant, req, base.value, state);
    return Ok(best);
  }

  // ---- Properties ----

  /** Rule `i` matches and its backend is selectable. */
  ghost predicate RuleUsable(c: Config, tenant: TenantConfig, req: AIRequest, health: Health, i: int) {
    0 <= i < |c.rules| && MatchesRule(c.rules[i], tenant, req) && BackendHealthOK(health, c.rules[i].useBackend)
  }

  /** Rule `i` is the first usable one. */
  ghost predicate FirstUsableRule(c: Config, tenant: TenantConfig, req: AIRequest, health: Health, i: int) {
    RuleUsable(c, tenant, req, health, i) && forall j :: 0 <= j < i ==> !RuleUsable(c, tenant, req, health, j)
  }

  /** `d` names a configured backend that the snapshot does not mark unhealthy. */
  ghost predicate Selectable(c: Config, health: Health, d: RouteDecision) {
    BackendHealthOK(health, d.backendName) && BackendByName(c.backends, d.backendName).Some?
  }

  /** The base choice: first usable rule, else the default, else the first selectable backend. */
  ghost predicate IsBaseChoice(c: Config, tenant: TenantConfig, req: AIRequest, health: Health, d: RouteDecision) {
    if exists i :: RuleUsable(c, tenant, req, health, i)
    then exists i :: FirstUsableRule(c, tenant, req, health, i) && d.reason == c.rules[i].name &&
                     DecisionFor(c, c.rules[i].useBackend, d)
    else if BackendHealthOK(health, c.defaultBackend)
    then d.reason == "default-backend" && DecisionFor(c, c.defaultBackend, d)
    else exists i :: FirstSelectable(c.backends, health, i) &&
                     d == RouteDecision(c.backends[i].name, "healthy-fallback-order", c.backends[i].unit)
  }

  ghost predicate DecisionFor(c: Config, name: string, d: RouteDecision) {
    d.backendName == name && exists b :: b in c.backends && b.name == name && d.estimatedCost == b.unit
  }

  lemma {:induction false} RuleChoiceIsFirstUsable(
    c: Config, tenant: TenantConfig, req: AIRequest, health: Health, i: nat)
    requires i <= |c.rules| && forall r :: r in c.rules && MatchesRule(r, tenant, req) ==> Resolves(c, r.useBackend)
    requires forall j :: 0 <= j < i ==> !RuleUsable(c, tenant, req, health, j)
    ensures var r := RuleChoice(c, tenant, req, health, i);
            && r.Ok?
            && (r.value.None? ==> forall k :: !RuleUsable(c, tenant, req, health, k))
            && (r.value.Some? ==>
                  exists k :: FirstUsableRule(c, tenant, req, health, k) && r.value.value.reason == c.rules[k].name &&
                              DecisionFor(c, c.rules[k].useBackend, r.value.value))
    decreases |c.rules| - i
  {
    if i < |c.rules| {
      assert c.rules[i] in c.rules;
      if RuleUsable(c, tenant, req, health, i) {
        assert FirstUsableRule(c, tenant, req, health, i);
      } else {
        RuleChoiceIsFirstUsable(c, tenant, req, health, i + 1);
      }
    }
  }

  /** Exact lookup finds the name. */
  predicate Resolves(c: Config, name: string) {
    BackendByName(c.backends, name).Some?
  }

  ghost predicate AllUnhealthy(c: Config, health: Health) {
    forall b :: b in c.backends ==> !BackendHealthOK(health, b.name)
  }

  /** If the default and the rules the request matches resolve, then with a live context routing fails exactly when
      every backend is marked unhealthy; otherwise it returns a selectable configured backend, optimised from the
      documented base choice. */
  lemma RoutingIsTotalFor(c: Config, req: AIRequest, state: RuntimeState)
    requires Resolves(c, c.defaultBackend)
    requires forall r :: r in c.rules && MatchesRule(r, TenantOf(c, req), req) ==> Resolves(c, r.useBackend)
    ensures var r := SelectRoute(c, None, req, state);
            var h := state.backendHealth;
            && (r.Err? <==> AllUnhealthy(c, h))
            && (r.Ok? ==> Selectable(c, h, r.value) && exists base :: IsBaseChoice(c, TenantOf(c, req), req, h, base) &&
                                                         r.value == Optimized(c, TenantOf(c, req), req, base, state))
  {
    var h, tenant := state.backendHealth, TenantOf(c, req);
    RuleChoiceIsFirstUsable(c, tenant, req, h, 0);
    var base := SelectByRules(c, tenant, req, h);
    if base.Ok? {
      assert IsBaseChoice(c, tenant, req, h, base.value);
      RoutedBackendIsSelectable(c, None, req, state);
    }
  }

  /** That is the case in every configuration that validation accepts and whose names are stored trimmed. */
  lemma ValidatedRoutingIsTotal(
    t: CharTable, fieldsOk: BackendConfig -> bool, c: Config, req: AIRequest, state: RuntimeState)
    requires WellFormed(t, fieldsOk, c) && NamesTrimmed(t, c)
    ensures var r := SelectRoute(c, None, req, state);
            var h := state.backendHealth;
            && (r.Err? <==> AllUnhealthy(c, h))
            && (r.Ok? ==> Selectable(c, h, r.value) && exists base :: IsBaseChoice(c, TenantOf(c, req), req, h, base) &&
                                                         r.value == Optimized(c, TenantOf(c, req), req, base, state))
  {
    ValidatedReferencesResolve(t, fieldsOk, c);
    RoutingIsTotalFor(c, req, state);
  }

  /** Some request can match the rule: it asks for no tenant class, or for that of a configured tenant. */
  ghost predicate Matchable(c: Config, rule: RouteRule) {
    rule.when.tenantClass == "" || exists x :: x in c.tenants && x.cls == rule.when.tenantClass
  }

  /** For every request and snapshot, routing with a live context fails exactly when every backend is unhealthy. */
  ghost predicate TotalRouting(c: Config) {
    forall req, state :: SelectRoute(c, None, req, state).Err? <==> AllUnhealthy(c, state.backendHealth)
  }

  /** Exactly when an accepted configuration routes totally: when the default and the target of every rule that a
      request can match are stored under the name they are referred to by. */
  lemma RoutingIsTotalIff(t: CharTable, fieldsOk: BackendConfig -> bool, c: Config)
    requires WellFormed(t, fieldsOk, c)
    ensures TotalRouting(c) <==>
            Resolves(c, c.defaultBackend) && forall r :: r in c.rules && Matchable(c, r) ==> Resolves(c, r.useBackend)
  {
    if !Resolves(c, c.defaultBackend) {
      StrandedBackendFails(t, fieldsOk, c, c.defaultBackend, PlainRequest(""), |c.rules|);
    }
    forall k | 0 <= k < |c.rules| && Matchable(c, c.rules[k]) && !Resolves(c, c.rules[k].useBackend)
      ensures !TotalRouting(c)
    {
      var rule := c.rules[k];
      var req := MatchingRequest(t, fieldsOk, c, rule);
      assert RuleOk(t, TrimmedBackendNames(t, c.backends), rule);
      StrandedBackendFails(t, fieldsOk, c, rule.useBackend, req, k);
    }
    if Resolves(c, c.defaultBackend) && forall r :: r in c.rules && Matchable(c, r) ==> Resolves(c, r.useBackend) {
      forall req, state ensures SelectRoute(c, None, req, state).Err? <==> AllUnhealthy(c, state.backendHealth) {
        forall r | r in c.rules && MatchesRule(r, TenantOf(c, req), req) ensures Resolves(c, r.useBackend) {
          assert Matchable(c, r);
        }
        RoutingIsTotalFor(c, req, state);
      }
    }
  }

  function PlainRequest(tenantID: string): AIRequest {
    AIRequest("", "", "", None, tenantID, "", "", None, RequestOptions(false, 0))
  }

  lemma MatchingRequest(t: CharTable, fieldsOk: BackendConfig -> bool, c: Config, rule: RouteRule)
    returns (req: AIRequest)
    requires WellFormed(t, fieldsOk, c) && Matchable(c, rule)
    ensures MatchesRule(rule, TenantOf(c, req), req)
  {
    req := PlainRequest("").(taskType := rule.when.taskType, priority := rule.when.priority);
    if rule.when.tenantClass != "" {
      var x :| x in c.tenants && x.cls == rule.when.tenantClass;
      req := req.(tenantID := x.id);
      var y := TenantByID(c.tenants, x.id).value;
      var i :| 0 <= i < |c.tenants| && c.tenants[i] == x;
      var j :| 0 <= j < |c.tenants| && c.tenants[j] == y;
      assert TenantKeys(t, c.tenants)[i] == TenantKeys(t, c.tenants)[j];
    }
  }

  /** A backend stored untrimmed is stranded: when only it is healthy, a request that reaches the reference to it (rule
      `k`, or the default if `k` is past the rules) fails to route. */
  lemma StrandedBackendFails(t: CharTable, fieldsOk: BackendConfig -> bool, c: Config, name: string, req: AIRequest,
                             k: nat)
    requires WellFormed(t, fieldsOk, c) && name in TrimmedBackendNames(t, c.backends) && !Resolves(c, name)
    requires k <= |c.rules|
    requires if k == |c.rules| then name == c.defaultBackend
             else name == c.rules[k].useBackend && MatchesRule(c.rules[k], TenantOf(c, req), req)
    ensures !TotalRouting(c)
  {
    var b :| b in c.backends && TrimSpace(t, b.name) == name;
    TrimSpaceFixpoints(t, b.name);
    var names := set x | x in c.backends :: x.name;
    var h: Health := map n | n in names && n != b.name :: false;
    forall n | n in TrimmedBackendNames(t, c.backends) && Resolves(c, n) ensures !BackendHealthOK(h, n) {
      var x :| x in c.backends && TrimSpace(t, x.name) == n;
      TrimSpaceFixpoints(t, x.name);
    }
    NoRuleIsUsable(c, TenantOf(c, req), req, h, 0, k);
    assert BackendHealthOK(h, b.name);
    assert SelectRoute(c, None, req, RuntimeState(h, false)).Err?;
  }

  lemma {:induction false} NoRuleIsUsable(c: Config, tenant: TenantConfig, req: AIRequest, health: Health, i: nat,
                                          k: nat)
    requires i <= |c.rules| && i <= k
    requires forall r :: r in c.rules && Resolves(c, r.useBackend) ==> !BackendHealthOK(health, r.useBackend)
    ensures var r := RuleChoice(c, tenant, req, health, i);
            && (r.Ok? ==> r.value.None?)
            && (k < |c.rules| && MatchesRule(c.rules[k], tenant, req) && !Resolves(c, c.rules[k].useBackend) ==> r.Err?)
    decreases |c.rules| - i
  {
    if i < |c.rules| {
      assert c.rules[i] in c.rules;
      if i < k { NoRuleIsUsable(c, tenant, req, health, i + 1, k); }
      else { NoRuleIsUsable(c, tenant, req, health, i + 1, i + 1); }
    }
  }

  /** Whatever the configuration, a routing decision never names a backend marked unhealthy and always
      names a configured one. */
  lemma RoutedBackendIsSelectable(c: Config, ctxErr: Option<Fault>, req: AIRequest, state: RuntimeState)
    requires SelectRoute(c, ctxErr, req, state).Ok?
    ensures Selectable(c, state.backendHealth, SelectRoute(c, ctxErr, req, state).value)
  {
    var h, tenant := state.backendHealth, TenantOf(c, req);
    RuleChoiceSelectable(c, tenant, req, h, 0);
    var base := SelectByRules(c, tenant, req, h).value;
    CostFoldSound(c.backends, tenant, req, h, base);
  }

  lemma {:induction false} RuleChoiceSelectable(c: Config, tenant: TenantConfig, req: AIRequest, health: Health, i: nat)
    requires i <= |c.rules|
    ensures var r := RuleChoice(c, tenant, req, health, i);
            r.Ok? && r.value.Some? ==> Selectable(c, health, r.value.value)
    decreases |c.rules| - i
  {
    if i < |c.rules| { RuleChoiceSelectable(c, tenant, req, health, i + 1); }
  }

  /** Without the trimmed-name condition the totality fails: this configuration is accepted, every backend is
      healthy, and every request fails to route. */
  lemma UntrimmedNameBreaksRouting(t: CharTable, req: AIRequest) returns (c: Config)
    requires t.Valid() && t.isSpace(' ')
    ensures WellFormed(t, b => true, c) && !NamesTrimmed(t, c)
    ensures SelectRoute(c, None, req, RuntimeState(map[], false)) == Err(DefaultNotFound)
  {
    var b := BackendConfig(" a", "mock", 1.0, [], 0);
    c := Config([b], [], "a", [], false, false, [], 0, "", false, [], NO_TIMEOUTS);
    assert TrimLeft(t, " a") == "a" by { assert " a"[1..] == "a"; assert TrimLeft(t, "a") == "a"; }
    assert TrimSpace(t, " a") == "a";
    assert "a" in TrimmedBackendNames(t, c.backends) by { assert b in c.backends; }
    assert TrimSpace(t, "") == "" && ToLower(t, "") == "";
    assert !Trimmed(t, b.name) && b in c.backends;
  }

  /** Leaving the base is a strict saving in estimated total whenever the base costs its backend's
      non-negative unit; and the choice always fits the tenant's budget. */
  lemma OptimisedIsStrictSaving(bs: seq<BackendConfig>, tenant: TenantConfig, req: AIRequest, health: Health,
                                base: RouteDecision)
    requires base.estimatedCost >= 0.0
    ensures var r := CostFold(bs, tenant, req, health, base);
            r != base ==>
              && r.estimatedCost < base.estimatedCost
              && r.estimatedCost < Estimate(req, base.estimatedCost)
              && (tenant.budgetPerRequest > 0.0 ==> r.estimatedCost <= tenant.budgetPerRequest)
  {
    CostFoldSound(bs, tenant, req, health, base);
    EstimateAtLeastUnit(req, base.estimatedCost);
  }

  lemma EstimateAtLeastUnit(req: AIRequest, unit: real)
    requires unit >= 0.0
    ensures Estimate(req, unit) >= unit
    ensures unit > 0.0 ==> Estimate(req, unit) > unit
  {
    var rate := Tokens(req) as real / 1000.0;
    assert rate > 0.0;
    assert unit > 0.0 ==> rate * unit > 0.0;
  }

  /** The resulting cost depends only on which backends are configured, not on their order. */
  lemma CostIgnoresBackendOrder(bs: seq<BackendConfig>, bs': seq<BackendConfig>, tenant: TenantConfig, req: AIRequest,
                                health: Health, base: RouteDecision)
    requires multiset(bs) == multiset(bs')
    ensures CostFold(bs, tenant, req, health, base).estimatedCost
         == CostFold(bs', tenant, req, health, base).estimatedCost
  {
    CostFoldSound(bs, tenant, req, health, base);
    CostFoldSound(bs', tenant, req, health, base);
    forall b ensures b in bs <==> b in bs' {
      assert b in bs <==> b in multiset(bs);
      assert b in bs' <==> b in multiset(bs');
    }
    forall i | 0 <= i < |bs| ensures bs[i] in bs' { assert bs[i] in bs; }
    forall i | 0 <= i < |bs'| ensures bs'[i] in bs { assert bs'[i] in bs'; }
  }

  /** The decision is cheapest by estimated total: no eligible backend has a lower total than the chosen
      one, the base being charged the total of its unit cost. */
  ghost predicate CheapestByTotal(
    bs: seq<BackendConfig>, tenant: TenantConfig, req: AIRequest, health: Health, base: RouteDecision, r: RouteDecision)
  {
    var total := if r == base then Estimate(req, base.estimatedCost) else r.estimatedCost;
    forall b :: b in bs && Eligible(tenant, req, health, b) ==> total <= Estimate(req, b.unit)
  }

  /** Because totals are compared with the base's unit cost, the decision is not always the cheapest by
      total: it is exactly when no eligible total lies between the base's unit cost and the base's total, or
      some eligible total is below the unit cost. */
  lemma CheapestByTotalIff(bs: seq<BackendConfig>, tenant: TenantConfig, req: AIRequest, health: Health,
                           base: RouteDecision)
    requires base.estimatedCost >= 0.0
    ensures CheapestByTotal(bs, tenant, req, health, base, CostFold(bs, tenant, req, health, base)) <==>
            || (exists b :: b in bs && Eligible(tenant, req, health, b) && Estimate(req, b.unit) < base.estimatedCost)
            || !(exists b :: b in bs && Eligible(tenant, req, health, b) &&
                             base.estimatedCost <= Estimate(req, b.unit) < Estimate(req, base.estimatedCost))
  {
    CostFoldSound(bs, tenant, req, health, base);
    assert forall b: BackendConfig :: |CostDecision(req, base, b).reason| > |base.reason|;
  }

  /** A base of unit cost 1 is kept although an eligible backend's total (0.9 plus 256 thousandths of it)
      is below the base's own total. */
  lemma CheaperTotalCanBeIgnored(req: AIRequest)
    requires req.options.maxTokens == 256 && req.taskType == ""
    ensures var base := RouteDecision("a", "default-backend", 1.0);
            var bs := [BackendConfig("a", "mock", 1.0, [], 0), BackendConfig("b", "mock", 0.9, [], 0)];
            var tenant := TenantConfig("", "", "", 0.0, 0);
            && CostFold(bs, tenant, req, map[], base) == base
            && Eligible(tenant, req, map[], bs[1])
            && Estimate(req, bs[1].unit) < Estimate(req, base.estimatedCost)
  {
    var base := RouteDecision("a", "default-backend", 1.0);
    var bs := [BackendConfig("a", "mock", 1.0, [], 0), BackendConfig("b", "mock", 0.9, [], 0)];
    CostFoldSound(bs, TenantConfig("", "", "", 0.0, 0), req, map[], base);
  }

  // ---- What the choices mean, condition by condition ----

  lemma {:induction false} ChosenRuleIsFirstUsable(
    c: Config, tenant: TenantConfig, req: AIRequest, health: Health, i: nat)
    requires i <= |c.rules| && RuleChoice(c, tenant, req, health, i).Ok?
    requires forall j :: 0 <= j < i ==> !RuleUsable(c, tenant, req, health, j)
    ensures var r := RuleChoice(c, tenant, req, health, i).value;
            && (r.None? ==> forall k :: !RuleUsable(c, tenant, req, health, k))
            && (r.Some? ==>
                  exists k :: FirstUsableRule(c, tenant, req, health, k) && r.value.reason == c.rules[k].name &&
                              DecisionFor(c, c.rules[k].useBackend, r.value))
    decreases |c.rules| - i
  {
    if i < |c.rules| {
      if RuleUsable(c, tenant, req, health, i) {
        assert FirstUsableRule(c, tenant, req, health, i);
      } else {
        ChosenRuleIsFirstUsable(c, tenant, req, health, i + 1);
      }
    }
  }

  /** Whenever a base is chosen it is the documented one. */
  lemma SuccessIsBaseChoice(c: Config, tenant: TenantConfig, req: AIRequest, health: Health)
    requires SelectByRules(c, tenant, req, health).Ok?
    ensures IsBaseChoice(c, tenant, req, health, SelectByRules(c, tenant, req, health).value)
  {
    ChosenRuleIsFirstUsable(c, tenant, req, health, 0);
  }

  /** Degraded the base stands; otherwise the cost decides. */
  ghost predicate ChosenFrom(c: Config, tenant: TenantConfig, req: AIRequest, state: RuntimeState, base: RouteDecision,
                             d: RouteDecision)
  {
    if state.overloadDegrade then d == base else IsCostChoice(c.backends, tenant, req, state.backendHealth, base, d)
  }

  /** A degraded request is routed to the base choice and never cost-optimised; any other to the cost choice from it;
      and a context already done is all the router looks at. */
  lemma DegradedRoutingKeepsTheBase(c: Config, ctxErr: Option<Fault>, req: AIRequest, state: RuntimeState)
    ensures var r, tenant, h := SelectRoute(c, ctxErr, req, state), TenantOf(c, req), state.backendHealth;
            && (ctxErr.Some? ==> r == Err(CtxDone(ctxErr.value)))
            && (r.Ok? ==> ctxErr.None?)
            && (r.Ok? ==> exists base ::
                            IsBaseChoice(c, tenant, req, h, base) && ChosenFrom(c, tenant, req, state, base, r.value))
            && (r.Ok? && state.overloadDegrade ==> r == SelectByRules(c, tenant, req, h))
  {
    var r, tenant, h := SelectRoute(c, ctxErr, req, state), TenantOf(c, req), state.backendHealth;
    if r.Ok? {
      SuccessIsBaseChoice(c, tenant, req, h);
      var base := SelectByRules(c, tenant, req, h).value;
      CostFoldSound(c.backends, tenant, req, h, base);
      assert IsBaseChoice(c, tenant, req, h, base) && ChosenFrom(c, tenant, req, state, base, r.value);
    }
  }

  /** A condition is met if it asks for nothing or for that very value. */
  predicate Meets(condition: string, value: string) {
    condition in {"", value}
  }

  /** The rule's three conditions and its backend's health allow it. */
  ghost predicate RuleFits(rule: RouteRule, tenant: TenantConfig, req: AIRequest, health: Health) {
    && Meets(rule.when.taskType, req.taskType) && Meets(rule.when.priority, req.priority)
    && Meets(rule.when.tenantClass, tenant.cls)
    && (rule.useBackend in health ==> health[rule.useBackend])
  }

  /** A base chosen for a rule is that of the first rule that fits; and if a rule fits, it is chosen for a rule. */
  lemma BaseFollowsTheFirstFittingRule(c: Config, tenant: TenantConfig, req: AIRequest, health: Health)
    requires SelectByRules(c, tenant, req, health).Ok?
    ensures var d := SelectByRules(c, tenant, req, health).value;
            forall i :: 0 <= i < |c.rules| && RuleFits(c.rules[i], tenant, req, health) &&
                        (forall j :: 0 <= j < i ==> !RuleFits(c.rules[j], tenant, req, health)) ==>
                          d.backendName == c.rules[i].useBackend && d.reason == c.rules[i].name
    ensures var d := SelectByRules(c, tenant, req, health).value;
            (forall i :: 0 <= i < |c.rules| ==> !RuleFits(c.rules[i], tenant, req, health)) ==>
              if c.defaultBackend in health && !health[c.defaultBackend] then d.reason == "healthy-fallback-order"
              else d.backendName == c.defaultBackend && d.reason == "default-backend"
  {
    SuccessIsBaseChoice(c, tenant, req, health);
    forall i | 0 <= i < |c.rules|
      ensures RuleFits(c.rules[i], tenant, req, health) <==> RuleUsable(c, tenant, req, health, i) {}
  }

  lemma RuleNamesTell(t: CharTable, fieldsOk: BackendConfig -> bool, c: Config, i: nat, k: nat)
    requires WellFormed(t, fieldsOk, c) && i < |c.rules| && k < |c.rules| && c.rules[i].name == c.rules[k].name
    ensures i == k && TrimSpace(t, c.rules[k].name) != ""
  {
    assert RuleNames(c.rules)[i] == RuleNames(c.rules)[k];
    assert RuleOk(t, TrimmedBackendNames(t, c.backends), c.rules[k]);
  }

  /** In an accepted configuration the reason tells the rule: if any rule fits, the one of that name is the first that
      does, and its name is not blank. */
  lemma ReasonNamesTheRule(t: CharTable, fieldsOk: BackendConfig -> bool, c: Config, tenant: TenantConfig,
                           req: AIRequest, health: Health, k: nat)
    requires WellFormed(t, fieldsOk, c) && SelectByRules(c, tenant, req, health).Ok? && k < |c.rules|
    requires exists i :: RuleUsable(c, tenant, req, health, i)
    requires SelectByRules(c, tenant, req, health).value.reason == c.rules[k].name
    ensures FirstUsableRule(c, tenant, req, health, k) && TrimSpace(t, c.rules[k].name) != ""
  {
    var i := UsedRule(c, tenant, req, health);
    RuleNamesTell(t, fieldsOk, c, i, k);
  }

  lemma UsedRule(c: Config, tenant: TenantConfig, req: AIRequest, health: Health) returns (i: nat)
    requires SelectByRules(c, tenant, req, health).Ok? && exists j :: RuleUsable(c, tenant, req, health, j)
    ensures FirstUsableRule(c, tenant, req, health, i)
    ensures SelectByRules(c, tenant, req, health).value.reason == c.rules[i].name
  {
    SuccessIsBaseChoice(c, tenant, req, health);
    i :| FirstUsableRule(c, tenant, req, health, i) &&
    SelectByRules(c, tenant, req, health).value.reason == c.rules[i].name;
  }

  /** The capabilities any of which lets a backend serve a task type. */
  function Sufficient(taskType: string): set<string> {
    if taskType == "simple" then {"chat", "summarization"}
    else if taskType == "complex" then {"reasoning"}
    else {taskType}
  }

  /** The backend is not marked unhealthy, serves the task type and fits the budget. */
  ghost predicate MayServe(tenant: TenantConfig, req: AIRequest, health: Health, b: BackendConfig) {
    && (b.name in health ==> health[b.name])
    && (req.taskType != "" ==> exists x :: x in Sufficient(req.taskType) && x in b.capabilities)
    && (tenant.budgetPerRequest > 0.0 ==> Estimate(req, b.unit) <= tenant.budgetPerRequest)
  }

  /** The cost choice is the base or a backend that may serve the request, at its estimated total and under a reason
      that names the base's; and no backend that may serve is estimated below it. */
  lemma CostChoiceMayServe(bs: seq<BackendConfig>, tenant: TenantConfig, req: AIRequest, health: Health,
                           base: RouteDecision)
    ensures var r := CostFold(bs, tenant, req, health, base);
            && (r != base ==> exists b :: b in bs && MayServe(tenant, req, health, b) &&
                                r == RouteDecision(b.name, "cost-optimized-from-" + base.reason, Estimate(req, b.unit)))
            && (forall b :: b in bs && MayServe(tenant, req, health, b) ==> r.estimatedCost <= Estimate(req, b.unit))
  {
    CostFoldSound(bs, tenant, req, health, base);
    forall b: BackendConfig ensures MayServe(tenant, req, health, b) <==> Eligible(tenant, req, health, b) {
      ServesIff(b, req.taskType);
    }
  }

  lemma ServesIff(b: BackendConfig, taskType: string)
    ensures SupportsTask(b, taskType) <==>
            taskType == "" || exists x :: x in Sufficient(taskType) && x in b.capabilities
  {
    if SupportsTask(b, taskType) && taskType != "" {
      if taskType == "simple" {
        assert "chat" in Sufficient(taskType) && "summarization" in Sufficient(taskType);
      } else if taskType == "complex" {
        assert "reasoning" in Sufficient(taskType);
      } else {
        assert taskType in Sufficient(taskType);
      }
    }
  }

  /** An estimate is the unit cost and that much again per thousand tokens, 256 if the request sets no limit. */
  lemma EstimatePerThousandTokens(req: AIRequest, unit: real)
    ensures req.options.maxTokens > 0 ==> 1000.0 * Estimate(req, unit) == (1000 + req.options.maxTokens) as real * unit
    ensures req.options.maxTokens <= 0 ==> 1000.0 * Estimate(req, unit) == 1256.0 * unit
  {}

  /** A request of an unknown tenant has no class, no budget and no limit. */
  lemma UnknownTenantIsZero(c: Config, req: AIRequest)
    ensures (TenantOf(c, req).id == req.tenantID && TenantOf(c, req) in c.tenants)
            || ((forall x :: x in c.tenants ==> x.id != req.tenantID) && TenantOf(c, req).cls == "" &&
                TenantOf(c, req).budgetPerRequest == 0.0 && TenantOf(c, req).rateLimitRPS == 0)
  {}
}
