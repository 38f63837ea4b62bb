/** Routes: validation, compilation against the backend registry at start-up, and
    rule selection (src/config.rs, src/routing/rules.rs, src/cli/commands/serve.rs). */
module Routes {
  import opened Wrappers
  import opened Matchers

  datatype RuleConfig = RuleConfig(
    name: string, matchers: Matchers, targets: seq<string>, firstTokenTimeoutMs: Option<nat>)

  datatype RouteConfig = RouteConfig(id: string, firstTokenTimeoutMs: Option<nat>, rules: seq<RuleConfig>)

  datatype Backend = Model(id: string) | Routed(route: CompiledRoute)

  datatype CompiledRule = CompiledRule(
    name: string, matchers: Matchers, targets: seq<Backend>, targetIds: seq<string>, firstTokenTimeoutMs: nat)

  datatype CompiledRoute = CompiledRoute(id: string, rules: seq<CompiledRule>)

  type BackendMap = map<string, Backend>

  const DEFAULT_TIMEOUT_MS: nat := 60_000

  // ---------- validation ----------

  datatype RouteError =
    | RouteEmptyId
    | DuplicateRouteId(id: string)
    | RouteIdCollision(id: string)
    | RouteNoRules(id: string)
    | RuleNoTargets(routeId: string, rule: string)
    | RouteTargetsRoute(routeId: string, target: string)
    | RouteTargetUnknown(routeId: string, target: string)
    | InvalidRegex(routeId: string, rule: string)
    | RouteNoCatchAll(id: string)

  /** The White_Space characters of Unicode. */
  predicate IsWhitespace(c: char) {
    '\t' <= c <= '\r' || c == ' ' || c == '\U{85}' || c == '\U{A0}' || c == '\U{1680}'
    || '\U{2000}' <= c <= '\U{200A}' || c == '\U{2028}' || c == '\U{2029}' || c == '\U{202F}'
    || c == '\U{205F}' || c == '\U{3000}'
  }

  predicate IsBlank(s: string) {
    forall i :: 0 <= i < |s| ==> IsWhitespace(s[i])
  }

  ghost predicate RegexFits(m: Matchers, regexOk: string -> bool) {
    m.contentRegex.Some? ==> regexOk(m.contentRegex.value)
  }

  ghost predicate TargetOk(target: string, routeIds: set<string>, modelIds: set<string>) {
    target !in routeIds && target in modelIds
  }

  ghost predicate RuleOk(rule: RuleConfig, routeIds: set<string>, modelIds: set<string>, regexOk: string -> bool) {
    && rule.targets != []
    && (forall t :: t in rule.targets ==> TargetOk(t, routeIds, modelIds))
    && RegexFits(rule.matchers, regexOk)
  }

  ghost predicate HasCatchAll(rules: seq<RuleConfig>) {
    exists k :: 0 <= k < |rules| && rules[k].matchers.IsEmpty()
  }

  ghost predicate RouteOk(route: RouteConfig, routeIds: set<string>, modelIds: set<string>, regexOk: string -> bool) {
    && !IsBlank(route.id) && route.id !in modelIds && route.rules != []
    && (forall k :: 0 <= k < |route.rules| ==> RuleOk(route.rules[k], routeIds, modelIds, regexOk))
    && HasCatchAll(route.rules)
  }

  ghost predicate RoutesOk(routes: seq<RouteConfig>, modelIds: set<string>, regexOk: string -> bool) {
    && (forall i, j :: 0 <= i < j < |routes| ==> routes[i].id != routes[j].id)
    && forall i :: 0 <= i < |routes| ==> RouteOk(routes[i], RouteIds(routes), modelIds, regexOk)
  }

  function RouteIds(routes: seq<RouteConfig>): set<string> {
    set i | 0 <= i < |routes| :: routes[i].id
  }

  /** The error is a true statement about the configuration it was reported for. */
  ghost predicate Blames(e: RouteError, routes: seq<RouteConfig>, modelIds: set<string>, regexOk: string -> bool) {
    match e
    case RouteEmptyId => exists r :: r in routes && IsBlank(r.id)
    case DuplicateRouteId(id) => exists i, j :: 0 <= i < j < |routes| && routes[i].id == id == routes[j].id
    case RouteIdCollision(id) => id in modelIds && exists r :: r in routes && r.id == id
    case RouteNoRules(id) => exists r :: r in routes && r.id == id && r.rules == []
    case RouteNoCatchAll(id) => exists r :: r in routes && r.id == id && !HasCatchAll(r.rules)
    case RuleNoTargets(routeId, name) =>
      exists r :: r in routes && r.id == routeId && RuleBlamed(e, r.rules, RouteIds(routes), modelIds, regexOk)
    case RouteTargetsRoute(routeId, t) =>
      exists r :: r in routes && r.id == routeId && RuleBlamed(e, r.rules, RouteIds(routes), modelIds, regexOk)
    case RouteTargetUnknown(routeId, t) =>
      exists r :: r in routes && r.id == routeId && RuleBlamed(e, r.rules, RouteIds(routes), modelIds, regexOk)
    case InvalidRegex(routeId, name) =>
      exists r :: r in routes && r.id == routeId && RuleBlamed(e, r.rules, RouteIds(routes), modelIds, regexOk)
  }

  ghost predicate RuleBlamed(e: RouteError, rules: seq<RuleConfig>, routeIds: set<string>, modelIds: set<string>,
                             regexOk: string -> bool)
  {
    match e
    case RuleNoTargets(_, name) => exists k :: 0 <= k < |rules| && rules[k].name == name && rules[k].targets == []
    case RouteTargetsRoute(_, t) => t in routeIds && exists k :: 0 <= k < |rules| && t in rules[k].targets
    case RouteTargetUnknown(_, t) =>
      t !in routeIds && t !in modelIds && exists k :: 0 <= k < |rules| && t in rules[k].targets
    case InvalidRegex(_, name) =>
      exists k :: 0 <= k < |rules| && rules[k].name == name && !RegexFits(rules[k].matchers, regexOk)
    case _ => false
  }

  method CheckTargets(routeId: string, targets: seq<string>, routeIds: set<string>, modelIds: set<string>)
    returns (r: Option<RouteError>)
    ensures r.None? <==> forall t :: t in targets ==> TargetOk(t, routeIds, modelIds)
    ensures r.Some? ==> && (r.value.RouteTargetsRoute? || r.value.RouteTargetUnknown?)
                        && r.value.routeId == routeId && r.value.target in targets
                        && (r.value.RouteTargetsRoute? <==> r.value.target in routeIds)
                        && (r.value.RouteTargetUnknown? ==> r.value.target !in modelIds)
  {
    for k := 0 to |targets|
      invariant forall j :: 0 <= j < k ==> TargetOk(targets[j], routeIds, modelIds)
    {
      var t := targets[k];
      assert t in targets && (TargetOk(t, routeIds, modelIds) <==> t !in routeIds && t in modelIds);
      if t in routeIds {
        return Some(RouteTargetsRoute(routeId, t));
      }
      if t !in modelIds {
        return Some(RouteTargetUnknown(routeId, t));
      }
    }
    return None;
  }

  method CheckRules(routeId: string, rules: seq<RuleConfig>, routeIds: set<string>, modelIds: set<string>,
                    regexOk: string -> bool)
    returns (r: Option<RouteError>)
    ensures r.None? <==> forall k :: 0 <= k < |rules| ==> RuleOk(rules[k], routeIds, modelIds, regexOk)
    ensures r.Some? ==> RuleBlamed(r.value, rules, routeIds, modelIds, regexOk) && r.value.routeId == routeId
  {
    for k := 0 to |rules|
      invariant forall j :: 0 <= j < k ==> RuleOk(rules[j], routeIds, modelIds, regexOk)
    {
      var rule := rules[k];
      if rule.targets == [] {
        return Some(RuleNoTargets(routeId, rule.name));
      }
      var bad := CheckTargets(routeId, rule.targets, routeIds, modelIds);
      if bad.Some? {
        return bad;
      }
      if rule.matchers.contentRegex.Some? && !regexOk(rule.matchers.contentRegex.value) {
        return Some(InvalidRegex(routeId, rule.name));
      }
    }
    return None;
  }

  method AnyCatchAll(rules: seq<RuleConfig>) returns (r: bool)
    ensures r <==> HasCatchAll(rules)
  {
    for k := 0 to |rules|
      invariant forall j :: 0 <= j < k ==> !rules[j].matchers.IsEmpty()
    {
      if rules[k].matchers.IsEmpty() {
        return true;
      }
    }
    return false;
  }

  method ValidateRoutes(routes: seq<RouteConfig>, modelIds: set<string>, regexOk: string -> bool)
    returns (r: Option<RouteError>)
    ensures r.None? <==> RoutesOk(routes, modelIds, regexOk)
    ensures r.Some? ==> Blames(r.value, routes, modelIds, regexOk)
  {
    var seen: set<string> := {};
    var routeIds := RouteIds(routes);
    for i := 0 to |routes|
      invariant seen == set k | 0 <= k < i :: routes[k].id
      invariant forall j, k :: 0 <= j < k < i ==> routes[j].id != routes[k].id
      invariant forall k :: 0 <= k < i ==> RouteOk(routes[k], routeIds, modelIds, regexOk)
    {
      var route := routes[i];
      if IsBlank(route.id) {
        return Some(RouteEmptyId);
      }
      if route.id in seen {
        return Some(DuplicateRouteId(route.id));
      }
      seen := seen + {route.id};
      if route.id in modelIds {
        return Some(RouteIdCollision(route.id));
      }
      if route.rules == [] {
        return Some(RouteNoRules(route.id));
      }
      var bad := CheckRules(route.id, route.rules, routeIds, modelIds, regexOk);
      if bad.Some? {
        return bad;
      }
      var catchAll := AnyCatchAll(route.rules);
      if !catchAll {
        return Some(RouteNoCatchAll(route.id));
      }
    }
    return None;
  }

  // ---------- compilation ----------

  datatype CompileError = RegexFailed(rule: string) | TargetUnresolved(id: string)

  /** All targets, in order, or the first id the registry does not know. */
  method ResolveTargets(targetIds: seq<string>, registry: BackendMap) returns (r: Result<seq<Backend>, string>)
    ensures r.Ok? <==> forall id :: id in targetIds ==> id in registry
    ensures r.Ok? ==> Resolves(targetIds, r.value, registry)
    ensures r.Err? ==> exists k :: 0 <= k < |targetIds| && targetIds[k] == r.error && r.error !in registry
                                   && forall j :: 0 <= j < k ==> targetIds[j] in registry
  {
    var out := [];
    for k := 0 to |targetIds|
      invariant Resolves(targetIds[..k], out, registry)
    {
      if targetIds[k] !in registry {
        return Err(targetIds[k]);
      }
      out := out + [registry[targetIds[k]]];
    }
    assert targetIds[..|targetIds|] == targetIds;
    return Ok(out);
  }

  ghost predicate Resolves(targetIds: seq<string>, targets: seq<Backend>, registry: BackendMap) {
    && |targets| == |targetIds|
    && forall k :: 0 <= k < |targetIds| ==> targetIds[k] in registry && targets[k] == registry[targetIds[k]]
  }

  ghost predicate RuleCompiles(rule: RuleConfig, registry: BackendMap, regexOk: string -> bool) {
    RegexFits(rule.matchers, regexOk) && forall id :: id in rule.targets ==> id in registry
  }

  ghost predicate RuleCompiled(rule: RuleConfig, c: CompiledRule, defaultMs: nat, registry: BackendMap) {
    && c.name == rule.name && c.matchers == rule.matchers && c.targetIds == rule.targets
    && Resolves(rule.targets, c.targets, registry)
    && c.firstTokenTimeoutMs == (if rule.firstTokenTimeoutMs.Some? then rule.firstTokenTimeoutMs.value else defaultMs)
  }

  ghost predicate RouteCompiled(route: RouteConfig, c: CompiledRoute, defaultMs: nat, registry: BackendMap) {
    && c.id == route.id && |c.rules| == |route.rules|
    && forall k :: 0 <= k < |route.rules| ==> RuleCompiled(route.rules[k], c.rules[k], defaultMs, registry)
  }

  method CompileRoute(route: RouteConfig, defaultMs: nat, registry: BackendMap, regexOk: string -> bool)
    returns (r: Result<CompiledRoute, CompileError>)
    ensures r.Ok? <==> forall k :: 0 <= k < |route.rules| ==> RuleCompiles(route.rules[k], registry, regexOk)
    ensures r.Ok? ==> RouteCompiled(route, r.value, defaultMs, registry)
  {
    var rules := [];
    for k := 0 to |route.rules|
      invariant |rules| == k
      invariant forall j :: 0 <= j < k ==>
                  RuleCompiles(route.rules[j], registry, regexOk)
                  && RuleCompiled(route.rules[j], rules[j], defaultMs, registry)
    {
      var rule := route.rules[k];
      if rule.matchers.contentRegex.Some? && !regexOk(rule.matchers.contentRegex.value) {
        return Err(RegexFailed(rule.name));
      }
      var targets := ResolveTargets(rule.targets, registry);
      if targets.Err? {
        return Err(TargetUnresolved(targets.error));
      }
      var timeout := if rule.firstTokenTimeoutMs.Some? then rule.firstTokenTimeoutMs.value else defaultMs;
      rules := rules + [CompiledRule(rule.name, rule.matchers, targets.value, rule.targets, timeout)];
    }
    return Ok(CompiledRoute(route.id, rules));
  }

  function RouteTimeout(route: RouteConfig): nat {
    if route.firstTokenTimeoutMs.Some? then route.firstTokenTimeoutMs.value else DEFAULT_TIMEOUT_MS
  }

  /** Every route is registered with targets taken from the models alone. */
  ghost predicate Started(routes: seq<RouteConfig>, models: BackendMap, registry: BackendMap) {
    && registry.Keys == models.Keys + RouteIds(routes)
    && (forall id :: id in models ==> registry[id] == models[id])
    && forall i :: 0 <= i < |routes| ==>
         registry[routes[i].id].Routed?
         && RouteCompiled(routes[i], registry[routes[i].id].route, RouteTimeout(routes[i]), models)
  }

  /** Start-up compiles the routes one by one into the same registry the models are
      in. A validated configuration always starts; routes never shadow a model and
      never end up targeting a route, although earlier routes are already there. */
  method StartRoutes(routes: seq<RouteConfig>, models: BackendMap, regexOk: string -> bool)
    returns (r: Result<BackendMap, CompileError>)
    ensures RoutesOk(routes, models.Keys, regexOk) ==> r.Ok? && Started(routes, models, r.value)
  {
    var registry := models;
    ghost var valid := RoutesOk(routes, models.Keys, regexOk);
    for i := 0 to |routes|
      invariant valid ==> Started(routes[..i], models, registry)
    {
      var route := routes[i];
      if valid {
        RuleTargetsStay(routes, i, models, registry, regexOk);
      }
      var compiled := CompileRoute(route, RouteTimeout(route), registry, regexOk);
      if compiled.Err? {
        return Err(compiled.error);
      }
      if valid {
        OneMoreStarted(routes, i, models, registry, compiled.value, regexOk);
      }
      registry := registry[route.id := Routed(compiled.value)];
    }
    assert routes[..|routes|] == routes;
    return Ok(registry);
  }

  lemma RuleTargetsStay(routes: seq<RouteConfig>, i: nat, models: BackendMap, registry: BackendMap,
                        regexOk: string -> bool)
    requires i < |routes| && RoutesOk(routes, models.Keys, regexOk) && Started(routes[..i], models, registry)
    ensures forall k :: 0 <= k < |routes[i].rules| ==> RuleCompiles(routes[i].rules[k], registry, regexOk)
  {
    assert RouteOk(routes[i], RouteIds(routes), models.Keys, regexOk);
    forall k | 0 <= k < |routes[i].rules|
      ensures RuleCompiles(routes[i].rules[k], registry, regexOk)
    {
      assert RuleOk(routes[i].rules[k], RouteIds(routes), models.Keys, regexOk);
    }
  }

  lemma OneMoreStarted(routes: seq<RouteConfig>, i: nat, models: BackendMap, registry: BackendMap, c: CompiledRoute,
                       regexOk: string -> bool)
    requires i < |routes| && RoutesOk(routes, models.Keys, regexOk) && Started(routes[..i], models, registry)
    requires RouteCompiled(routes[i], c, RouteTimeout(routes[i]), registry)
    ensures Started(routes[..i + 1], models, registry[routes[i].id := Routed(c)])
  {
    var after := registry[routes[i].id := Routed(c)];
    LastCompiled(routes, i, models, registry, c, regexOk);
    assert RouteIds(routes[..i + 1]) == RouteIds(routes[..i]) + {routes[i].id};
    assert after.Keys == registry.Keys + {routes[i].id};
    forall j | 0 <= j < i
      ensures after[routes[j].id].Routed?
      ensures RouteCompiled(routes[j], after[routes[j].id].route, RouteTimeout(routes[j]), models)
    {
      assert routes[..i][j] == routes[j];
      assert routes[j].id != routes[i].id;
    }
  }

  lemma LastCompiled(routes: seq<RouteConfig>, i: nat, models: BackendMap, registry: BackendMap, c: CompiledRoute,
                     regexOk: string -> bool)
    requires i < |routes| && RoutesOk(routes, models.Keys, regexOk)
    requires forall id :: id in models ==> id in registry && registry[id] == models[id]
    requires RouteCompiled(routes[i], c, RouteTimeout(routes[i]), registry)
    ensures RouteCompiled(routes[i], c, RouteTimeout(routes[i]), models)
    ensures routes[i].id !in models
  {
    assert RouteOk(routes[i], RouteIds(routes), models.Keys, regexOk);
    forall k | 0 <= k < |routes[i].rules|
      ensures RuleCompiled(routes[i].rules[k], c.rules[k], RouteTimeout(routes[i]), models)
    {
      assert RuleOk(routes[i].rules[k], RouteIds(routes), models.Keys, regexOk);
      assert RuleCompiled(routes[i].rules[k], c.rules[k], RouteTimeout(routes[i]), registry);
      ResolvesSmaller(routes[i].rules[k].targets, c.rules[k].targets, models, registry);
    }
  }

  lemma ResolvesSmaller(targetIds: seq<string>, targets: seq<Backend>, models: BackendMap, registry: BackendMap)
    requires Resolves(targetIds, targets, registry)
    requires forall t :: t in targetIds ==> t in models
    requires forall id :: id in models ==> id in registry && registry[id] == models[id]
    ensures Resolves(targetIds, targets, models)
  {
    forall k | 0 <= k < |targetIds|
      ensures targetIds[k] in models && targets[k] == models[targetIds[k]]
    {
      assert targetIds[k] in targetIds;
    }
  }

  // ---------- selection ----------

  function FirstMatch(rules: seq<CompiledRule>, ctx: MatchContext, isMatch: (string, string) -> bool): (r: Option<nat>)
    ensures r.Some? ==> r.value < |rules| && rules[r.value].matchers.Matches(ctx, isMatch)
                        && forall j :: 0 <= j < r.value ==> !rules[j].matchers.Matches(ctx, isMatch)
    ensures r.None? ==> forall j :: 0 <= j < |rules| ==> !rules[j].matchers.Matches(ctx, isMatch)
  {
    if rules == [] then None
    else
      var n := |rules| - 1;
      var r := FirstMatch(rules[..n], ctx, isMatch);
      if r.Some? then r
      else if rules[n].matchers.Matches(ctx, isMatch) then Some(n)
      else None
  }

  function SelectRule(route: CompiledRoute, ctx: MatchContext,
                      isMatch: (string, string) -> bool): Option<CompiledRule> {
    match FirstMatch(route.rules, ctx, isMatch)
    case Some(k) => Some(route.rules[k])
    case None => None
  }

  /** How long a started rule waits for a first token: as it says itself, else as its
      route says, else a minute. */
  lemma TimeoutsInherited(routes: seq<RouteConfig>, i: nat, k: nat, models: BackendMap, registry: BackendMap)
    requires Started(routes, models, registry) && i < |routes| && k < |routes[i].rules|
    ensures routes[i].id in registry && registry[routes[i].id].Routed?
    ensures |registry[routes[i].id].route.rules| == |routes[i].rules|
    ensures var waits := registry[routes[i].id].route.rules[k].firstTokenTimeoutMs;
            match (routes[i].rules[k].firstTokenTimeoutMs, routes[i].firstTokenTimeoutMs)
            case (Some(own), _) => waits == own
            case (None, Some(ofRoute)) => waits == ofRoute
            case (None, None) => waits == 60 * 1000
  {
    assert RuleCompiled(routes[i].rules[k], registry[routes[i].id].route.rules[k], RouteTimeout(routes[i]), models);
  }

  /** On a route that was validated and started, every request selects a rule: the
      first that matches, never one behind the first catch-all, with at least one
      target, all of them models, and an id for each. */
  lemma ValidatedRouteSelects(routes: seq<RouteConfig>, i: nat, models: BackendMap, registry: BackendMap,
                              regexOk: string -> bool, ctx: MatchContext, isMatch: (string, string) -> bool)
    requires i < |routes| && RoutesOk(routes, models.Keys, regexOk) && Started(routes, models, registry)
    requires forall id :: id in models ==> models[id] == Model(id)
    ensures var route := registry[routes[i].id].route;
            var k := FirstMatch(route.rules, ctx, isMatch);
            && k.Some? && SelectRule(route, ctx, isMatch) == Some(route.rules[k.value])
            && (forall j :: 0 <= j < k.value ==> !routes[i].rules[j].matchers.IsEmpty())
            && |route.rules[k.value].targets| == |route.rules[k.value].targetIds| > 0
            && forall t :: 0 <= t < |route.rules[k.value].targets| ==>
                 route.rules[k.value].targets[t] == Model(route.rules[k.value].targetIds[t])
  {
    assert RouteOk(routes[i], RouteIds(routes), models.Keys, regexOk);
    var route := registry[routes[i].id].route;
    var c :| 0 <= c < |routes[i].rules| && routes[i].rules[c].matchers.IsEmpty();
    assert RuleCompiled(routes[i].rules[c], route.rules[c], RouteTimeout(routes[i]), models);
    assert route.rules[c].matchers.Matches(ctx, isMatch);
    var k := FirstMatch(route.rules, ctx, isMatch).value;
    assert RuleOk(routes[i].rules[k], RouteIds(routes), models.Keys, regexOk);
    assert RuleCompiled(routes[i].rules[k], route.rules[k], RouteTimeout(routes[i]), models);
    forall j | 0 <= j < k
      ensures !routes[i].rules[j].matchers.IsEmpty()
    {
      assert RuleCompiled(routes[i].rules[j], route.rules[j], RouteTimeout(routes[i]), models);
    }
  }
}
