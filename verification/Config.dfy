/** The parsed configuration, its lookups and its validation (internal/config). */
module Config {
  import opened Text
  import opened Types

  datatype BackendConfig = BackendConfig(
    name: string, kind: string, unit: real, capabilities: seq<string>, maxConcurrency: int)

  datatype TenantConfig = TenantConfig(
    id: string, cls: string, priority: string, budgetPerRequest: real, rateLimitRPS: int)

  datatype RouteWhen = RouteWhen(tenantClass: string, taskType: string, priority: string)

  datatype RouteRule = RouteRule(name: string, when: RouteWhen, useBackend: string)

  datatype FallbackRule = FallbackRule(fromBackend: string, on: seq<string>, fallbackTo: string)

  datatype HttpTimeouts = HttpTimeouts(readMs: int, writeMs: int, idleMs: int)

  const NO_TIMEOUTS := HttpTimeouts(0, 0, 0)

  const MAX_HTTP_TIMEOUT_MS := 86_400_000

  datatype Config = Config(
    backends: seq<BackendConfig>, tenants: seq<TenantConfig>, defaultBackend: string, rules: seq<RouteRule>,
    fallbackEnabled: bool, streamFallbackEnabled: bool, fallbackRules: seq<FallbackRule>,
    queueLimit: int, overloadAction: string, agentEnabled: bool, knowledgeBases: seq<string>, http: HttpTimeouts)

  datatype ConfigError =
    | NegativeTimeout | TimeoutTooLong
    | NoBackends | EmptyBackendName | UnsupportedType | BadBackendFields | DuplicateBackend
    | EmptyTenantID | DuplicateTenant | UnknownDefault
    | EmptyRuleName | DuplicateRule | RuleUnknownBackend
    | BadOverloadAction | FallbackUnknownFrom | FallbackUnknownTo | FallbackNoTrigger | FallbackBadTrigger

  const TRIGGERS := {"timeout", "backend_unhealthy", "upstream_4xx", "upstream_5xx", "backend_error"}

  const BACKEND_KINDS := {
    "mock", "vllm", "openai", "openai_compatible", "azure_openai", "anthropic", "bedrock", "gemini", "gemini_vertex"}

  function BackendByName(bs: seq<BackendConfig>, name: string): (r: Option<BackendConfig>)
    ensures r.Some? ==> r.value in bs && r.value.name == name
    ensures r.None? <==> forall b :: b in bs ==> b.name != name
  {
    if bs == [] then None
    else if bs[0].name == name then Some(bs[0])
    else BackendByName(bs[1..], name)
  }

  function TenantByID(ts: seq<TenantConfig>, id: string): (r: Option<TenantConfig>)
    ensures r.Some? ==> r.value in ts && r.value.id == id
    ensures r.None? <==> forall t :: t in ts ==> t.id != id
  {
    if ts == [] then None
    else if ts[0].id == id then Some(ts[0])
    else TenantByID(ts[1..], id)
  }

  function TrimmedBackendNames(t: CharTable, bs: seq<BackendConfig>): set<string> {
    set b | b in bs :: TrimSpace(t, b.name)
  }

  /** No two entries have the same key. */
  ghost predicate Distinct(keys: seq<string>) {
    forall i, j :: 0 <= i < j < |keys| ==> keys[i] != keys[j]
  }

  function Members(keys: seq<string>): set<string> {
    set k | k in keys
  }

  /** One more key keeps the keys distinct exactly when it is new. */
  lemma DistinctPrefix(keys: seq<string>, i: nat, seen: set<string>)
    requires i < |keys| && Distinct(keys[..i]) && seen == Members(keys[..i])
    ensures keys[i] in seen ==> !Distinct(keys)
    ensures keys[i] !in seen ==> Distinct(keys[..i + 1])
    ensures seen + {keys[i]} == Members(keys[..i + 1])
  {
    var next := keys[..i + 1];
    assert next == keys[..i] + [keys[i]];
    forall j | 0 <= j < i ensures keys[j] in keys[..i] {
      assert keys[..i][j] == keys[j];
    }
    if keys[i] in seen {
      var j :| 0 <= j < i && keys[..i][j] == keys[i];
      assert keys[j] == keys[i];
    } else {
      forall j, k | 0 <= j < k < i + 1 ensures next[j] != next[k] {
        assert keys[j] in keys[..i];
        if k < i { assert keys[..i][j] != keys[..i][k]; }
      }
    }
  }

  function BackendKeys(t: CharTable, bs: seq<BackendConfig>): seq<string> {
    seq(|bs|, i requires 0 <= i < |bs| => TrimSpace(t, bs[i].name))
  }

  function TenantKeys(t: CharTable, ts: seq<TenantConfig>): seq<string> {
    seq(|ts|, i requires 0 <= i < |ts| => TrimSpace(t, ts[i].id))
  }

  function RuleNames(rules: seq<RouteRule>): seq<string> {
    seq(|rules|, i requires 0 <= i < |rules| => rules[i].name)
  }

  /** `fieldsOk` stands for the checks on the fields one backend type needs. */
  predicate BackendOk(t: CharTable, fieldsOk: BackendConfig -> bool, b: BackendConfig) {
    TrimSpace(t, b.name) != "" && b.kind in BACKEND_KINDS && fieldsOk(b)
  }

  predicate RuleOk(t: CharTable, names: set<string>, r: RouteRule) {
    TrimSpace(t, r.name) != "" && r.useBackend in names
  }

  predicate FallbackRuleOk(names: set<string>, r: FallbackRule) {
    && r.fromBackend in names && r.fallbackTo in names && r.on != []
    && forall x :: x in r.on ==> x in TRIGGERS
  }

  predicate ActionOk(t: CharTable, action: string) {
    ToLower(t, TrimSpace(t, action)) in {"", "reject", "degrade"}
  }

  predicate TimeoutOk(ms: int) {
    0 <= ms <= MAX_HTTP_TIMEOUT_MS
  }

  predicate TimeoutsOk(h: HttpTimeouts) {
    TimeoutOk(h.readMs) && TimeoutOk(h.writeMs) && TimeoutOk(h.idleMs)
  }

  /** What an accepted configuration looks like. */
  ghost predicate WellFormed(t: CharTable, fieldsOk: BackendConfig -> bool, c: Config) {
    var names := TrimmedBackendNames(t, c.backends);
    && TimeoutsOk(c.http)
    && c.backends != []
    && (forall b :: b in c.backends ==> BackendOk(t, fieldsOk, b))
    && Distinct(BackendKeys(t, c.backends))
    && (forall x :: x in c.tenants ==> TrimSpace(t, x.id) != "")
    && Distinct(TenantKeys(t, c.tenants))
    && c.defaultBackend in names
    && (forall r :: r in c.rules ==> RuleOk(t, names, r))
    && Distinct(RuleNames(c.rules))
    && ActionOk(t, c.overloadAction)
    && (forall r :: r in c.fallbackRules ==> FallbackRuleOk(names, r))
  }

  method ValidateBackends(t: CharTable, fieldsOk: BackendConfig -> bool, bs: seq<BackendConfig>)
    returns (err: Option<ConfigError>, names: set<string>)
    ensures err.None? <==> (forall b :: b in bs ==> BackendOk(t, fieldsOk, b)) && Distinct(BackendKeys(t, bs))
    ensures err.None? ==> names == TrimmedBackendNames(t, bs)
  {
    ghost var keys := BackendKeys(t, bs);
    names := {};
    var i := 0;
    while i < |bs|
      invariant 0 <= i <= |bs|
      invariant names == Members(keys[..i])
      invariant forall j :: 0 <= j < i ==> BackendOk(t, fieldsOk, bs[j])
      invariant Distinct(keys[..i])
    {
      var b := bs[i];
      var name := TrimSpace(t, b.name);
      if name == "" { assert !BackendOk(t, fieldsOk, b); return Some(EmptyBackendName), names; }
      if b.kind !in BACKEND_KINDS { assert !BackendOk(t, fieldsOk, b); return Some(UnsupportedType), names; }
      if !fieldsOk(b) { assert !BackendOk(t, fieldsOk, b); return Some(BadBackendFields), names; }
      DistinctPrefix(keys, i, names);
      if name in names { return Some(DuplicateBackend), names; }
      names := names + {name};
      i := i + 1;
    }
    assert keys[..i] == keys;
    forall k | k in keys ensures k in TrimmedBackendNames(t, bs) {
      var j :| 0 <= j < |keys| && keys[j] == k;
      assert bs[j] in bs;
    }
    forall b | b in bs ensures TrimSpace(t, b.name) in names {
      var j :| 0 <= j < |bs| && bs[j] == b;
      assert keys[j] == TrimSpace(t, b.name);
    }
    return None, names;
  }

  method ValidateTenants(t: CharTable, ts: seq<TenantConfig>) returns (err: Option<ConfigError>)
    ensures err.None? <==> (forall x :: x in ts ==> TrimSpace(t, x.id) != "") && Distinct(TenantKeys(t, ts))
  {
    ghost var keys := TenantKeys(t, ts);
    var ids := {};
    var i := 0;
    while i < |ts|
      invariant 0 <= i <= |ts|
      invariant ids == Members(keys[..i])
      invariant forall j :: 0 <= j < i ==> TrimSpace(t, ts[j].id) != ""
      invariant Distinct(keys[..i])
    {
      var id := TrimSpace(t, ts[i].id);
      if id == "" { assert ts[i] in ts; return Some(EmptyTenantID); }
      DistinctPrefix(keys, i, ids);
      if id in ids { return Some(DuplicateTenant); }
      ids := ids + {id};
      i := i + 1;
    }
    assert keys[..i] == keys;
    return None;
  }

  method ValidateRules(t: CharTable, names: set<string>, rules: seq<RouteRule>) returns (err: Option<ConfigError>)
    ensures err.None? <==> (forall r :: r in rules ==> RuleOk(t, names, r)) && Distinct(RuleNames(rules))
  {
    ghost var keys := RuleNames(rules);
    var seen := {};
    var i := 0;
    while i < |rules|
      invariant 0 <= i <= |rules|
      invariant seen == Members(keys[..i])
      invariant forall j :: 0 <= j < i ==> RuleOk(t, names, rules[j])
      invariant Distinct(keys[..i])
    {
      var rule := rules[i];
      if TrimSpace(t, rule.name) == "" { assert !RuleOk(t, names, rule); return Some(EmptyRuleName); }
      DistinctPrefix(keys, i, seen);
      if rule.name in seen { return Some(DuplicateRule); }
      seen := seen + {rule.name};
      if rule.useBackend !in names { assert !RuleOk(t, names, rule); return Some(RuleUnknownBackend); }
      i := i + 1;
    }
    assert keys[..i] == keys;
    return None;
  }

  method ValidateFallback(names: set<string>, rules: seq<FallbackRule>) returns (err: Option<ConfigError>)
    ensures err.None? <==> forall r :: r in rules ==> FallbackRuleOk(names, r)
  {
    for i := 0 to |rules|
      invariant forall k :: 0 <= k < i ==> FallbackRuleOk(names, rules[k])
    {
      var rule := rules[i];
      if rule.fromBackend !in names { assert !FallbackRuleOk(names, rule); return Some(FallbackUnknownFrom); }
      if rule.fallbackTo !in names { assert !FallbackRuleOk(names, rule); return Some(FallbackUnknownTo); }
      if rule.on == [] { assert !FallbackRuleOk(names, rule); return Some(FallbackNoTrigger); }
      for j := 0 to |rule.on|
        invariant forall k :: 0 <= k < j ==> rule.on[k] in TRIGGERS
      {
        if rule.on[j] !in TRIGGERS { assert !FallbackRuleOk(names, rule); return Some(FallbackBadTrigger); }
      }
    }
    return None;
  }

  method ValidateAction(t: CharTable, action: string) returns (err: Option<ConfigError>)
    ensures err.None? <==> ActionOk(t, action)
  {
    var act := ToLower(t, TrimSpace(t, action));
    if act == "" { act := "degrade"; }
    if act != "reject" && act != "degrade" { return Some(BadOverloadAction); }
    return None;
  }

  method ValidateTimeouts(h: HttpTimeouts) returns (err: Option<ConfigError>)
    ensures err.None? <==> TimeoutsOk(h)
    ensures err.None? ==> 0 <= h.readMs <= 86_400_000 && 0 <= h.writeMs <= 86_400_000 && 0 <= h.idleMs <= 86_400_000
    ensures err == Some(TimeoutTooLong) ==> h.readMs > 86_400_000 || h.writeMs > 86_400_000 || h.idleMs > 86_400_000
    ensures err == Some(NegativeTimeout) ==> h.readMs < 0 || h.writeMs < 0 || h.idleMs < 0
  {
    var all := [h.readMs, h.writeMs, h.idleMs];
    for i := 0 to |all|
      invariant forall k :: 0 <= k < i ==> TimeoutOk(all[k])
    {
      if all[i] < 0 { return Some(NegativeTimeout); }
      if all[i] > MAX_HTTP_TIMEOUT_MS { return Some(TimeoutTooLong); }
    }
    assert TimeoutOk(all[0]) && TimeoutOk(all[1]) && TimeoutOk(all[2]);
    return None;
  }

  /** Accepts exactly the well-formed configurations. */
  method Validate(t: CharTable, fieldsOk: BackendConfig -> bool, c: Config) returns (err: Option<ConfigError>)
    ensures err.None? <==> WellFormed(t, fieldsOk, c)
  {
    err := ValidateTimeouts(c.http);
    if err.Some? { return; }
    if c.backends == [] { return Some(NoBackends); }
    var names;
    err, names := ValidateBackends(t, fieldsOk, c.backends);
    if err.Some? { return; }
    err := ValidateTenants(t, c.tenants);
    if err.Some? { return; }
    if c.defaultBackend !in names { return Some(UnknownDefault); }
    err := ValidateRules(t, names, c.rules);
    if err.Some? { return; }
    err := ValidateAction(t, c.overloadAction);
    if err.Some? { return; }
    err := ValidateFallback(names, c.fallbackRules);
  }

  /** Every backend name is stored without surrounding white space. */
  predicate NamesTrimmed(t: CharTable, c: Config) {
    forall b :: b in c.backends ==> Trimmed(t, b.name)
  }

  /** Validation compares trimmed names but lookup compares exact ones: in an accepted configuration a
      reference that validation found resolves exactly when the backend it names is stored trimmed. */
  lemma ReferenceResolvesIffTrimmed(t: CharTable, fieldsOk: BackendConfig -> bool, c: Config, k: nat)
    requires WellFormed(t, fieldsOk, c) && k < |c.backends|
    ensures var name := TrimSpace(t, c.backends[k].name);
            BackendByName(c.backends, name) == (if Trimmed(t, c.backends[k].name) then Some(c.backends[k]) else None)
  {
    var name := TrimSpace(t, c.backends[k].name);
    TrimSpaceFixpoints(t, c.backends[k].name);
    TrimSpaceFixpoints(t, name);
    forall b | b in c.backends && b.name == name ensures b == c.backends[k] {
      var j :| 0 <= j < |c.backends| && c.backends[j] == b;
      assert BackendKeys(t, c.backends)[j] == BackendKeys(t, c.backends)[k];
    }
  }

  /** With trimmed names every reference of an accepted configuration is found by exact lookup. */
  lemma ValidatedReferencesResolve(t: CharTable, fieldsOk: BackendConfig -> bool, c: Config)
    requires WellFormed(t, fieldsOk, c) && NamesTrimmed(t, c)
    ensures BackendByName(c.backends, c.defaultBackend).Some?
    ensures forall r :: r in c.rules ==> BackendByName(c.backends, r.useBackend).Some?
    ensures forall r :: r in c.fallbackRules ==> BackendByName(c.backends, r.fallbackTo).Some?
  {
    forall name | name in TrimmedBackendNames(t, c.backends) ensures BackendByName(c.backends, name).Some? {
      var b :| b in c.backends && TrimSpace(t, b.name) == name;
      TrimSpaceFixpoints(t, b.name);
    }
  }

  /** Lookup finds the earliest entry of that name. */
  lemma {:induction false} LookupIsEarliest(bs: seq<BackendConfig>, name: string)
    requires BackendByName(bs, name).Some?
    ensures exists i :: 0 <= i < |bs| && bs[i] == BackendByName(bs, name).value && bs[i].name == name &&
                        forall j :: 0 <= j < i ==> bs[j].name != name
  {
    if bs[0].name == name {
      assert bs[0] == BackendByName(bs, name).value;
    } else {
      LookupIsEarliest(bs[1..], name);
      var i :| 0 <= i < |bs[1..]| && bs[1..][i] == BackendByName(bs, name).value && bs[1..][i].name == name &&
               forall j :: 0 <= j < i ==> bs[1..][j].name != name;
      assert bs[i + 1] == bs[1..][i];
      forall j | 0 <= j < i + 1 ensures bs[j].name != name { assert j == 0 || bs[j] == bs[1..][j - 1]; }
    }
  }

  /** In an accepted configuration every tenant is found under its id, and a request without one finds none. */
  lemma AcceptedTenantsAreFound(t: CharTable, fieldsOk: BackendConfig -> bool, c: Config)
    requires WellFormed(t, fieldsOk, c)
    ensures forall x :: x in c.tenants ==> TenantByID(c.tenants, x.id) == Some(x)
    ensures TenantByID(c.tenants, "").None?
  {
    var keys := TenantKeys(t, c.tenants);
    forall x | x in c.tenants ensures TenantByID(c.tenants, x.id) == Some(x) {
      var y := TenantByID(c.tenants, x.id).value;
      var i :| 0 <= i < |keys| && c.tenants[i] == x;
      var j :| 0 <= j < |keys| && c.tenants[j] == y;
      assert keys[i] == keys[j];
    }
    assert TrimSpace(t, "") == "";
  }
}
