/** The compiler from MCPPolicy rules to a Cerbos resource policy, an evaluator for each side, and
    the proof that compilation keeps decisions. */
module PolicyCompiler {
  import opened Options
  import CelLiteral
  import CelCondition

  // ------------------------------------------------------------ source policies

  const ALLOW := "ALLOW"
  const DENY := "DENY"

  datatype Principals = Principals(roles: seq<string>, agentRefs: seq<string>)
  datatype Rule = Rule(
    effect: string, principals: Principals, actions: seq<string>,
    serverRef: Option<string>, tools: seq<string>)

  // ------------------------------------------------------------ Cerbos policies

  datatype CerbosRule = CerbosRule(
    actions: seq<string>, effect: string, roles: seq<string>,
    condition: Option<seq<string>>)
  datatype CerbosPolicy = CerbosPolicy(
    apiVersion: string, version: string, resource: string, rules: seq<CerbosRule>)

  datatype TranslationError = NoRules | UnknownEffect(rule: nat, effect: string)

  // ---------------------------------------------------------------- translation

  /** strings.ReplaceAll(a, "/", ":"). */
  function Normalise(action: string): string {
    seq(|action|, i requires 0 <= i < |action| => if action[i] == '/' then ':' else action[i])
  }

  function MapEffect(effect: string): Option<string> {
    if effect == ALLOW then Some("EFFECT_ALLOW")
    else if effect == DENY then Some("EFFECT_DENY")
    else None
  }

  function AgentRole(agent: string): string {
    "agent:" + agent
  }

  function MapPrincipals(p: Principals): seq<string> {
    if |p.roles| > 0 then p.roles
    else if |p.agentRefs| == 0 then ["*"]
    else seq(|p.agentRefs|, i requires 0 <= i < |p.agentRefs| => AgentRole(p.agentRefs[i]))
  }

  const TOOL_TEST := "request.resource.attr.tool == "

  function ToolExpr(isPrint: char -> bool, tool: string): string {
    TOOL_TEST + CelLiteral.Quote(isPrint, tool)
  }

  function ToolExprs(isPrint: char -> bool, tools: seq<string>): seq<string> {
    seq(|tools|, i requires 0 <= i < |tools| => ToolExpr(isPrint, tools[i]))
  }

  function NormaliseAll(actions: seq<string>): seq<string> {
    seq(|actions|, i requires 0 <= i < |actions| => Normalise(actions[i]))
  }

  function TranslateRule(isPrint: char -> bool, rule: Rule, effect: string): CerbosRule {
    CerbosRule(NormaliseAll(rule.actions), effect, MapPrincipals(rule.principals),
               if |rule.tools| > 0 then Some(ToolExprs(isPrint, rule.tools)) else None)
  }

  function ServerKind(server: Option<string>): string {
    if server.Some? then "mcp:server:" + server.value else "mcp:tool"
  }

  /** The server of the first rule that names one. */
  function FirstServer(rules: seq<Rule>): Option<string> {
    if rules == [] then None
    else if rules[0].serverRef.Some? then rules[0].serverRef
    else FirstServer(rules[1..])
  }

  function ResourceKind(rules: seq<Rule>): string {
    ServerKind(FirstServer(rules))
  }

  /** The translated rules, or the first rule that cannot be translated. */
  function TranslateRules(isPrint: char -> bool, rules: seq<Rule>): (r: Result<seq<CerbosRule>, TranslationError>)
    decreases |rules|
  {
    if rules == [] then Ok([])
    else
      var n := |rules| - 1;
      var first := TranslateRules(isPrint, rules[..n]);
      if first.Err? then first
      else
        var effect := MapEffect(rules[n].effect);
        if effect.None? then Err(UnknownEffect(n, rules[n].effect))
        else Ok(first.value + [TranslateRule(isPrint, rules[n], effect.value)])
  }

  function Translate(isPrint: char -> bool, rules: seq<Rule>): Result<CerbosPolicy, TranslationError> {
    if rules == [] then Err(NoRules)
    else
      var translated := TranslateRules(isPrint, rules);
      if translated.Err? then Err(translated.error)
      else Ok(CerbosPolicy("api.cerbos.dev/v1", "default", ResourceKind(rules), translated.value))
  }

  method MapPrincipalsLoop(p: Principals) returns (roles: seq<string>)
    ensures roles == MapPrincipals(p)
  {
    if |p.roles| > 0 {
      return p.roles;
    }
    roles := [];
    for i := 0 to |p.agentRefs|
      invariant |roles| == i
      invariant forall k :: 0 <= k < i ==> roles[k] == AgentRole(p.agentRefs[k])
    {
      roles := roles + ["agent:" + p.agentRefs[i]];
    }
    if |roles| == 0 {
      return ["*"];
    }
  }

  method BuildToolCondition(isPrint: char -> bool, tools: seq<string>) returns (condition: seq<string>)
    ensures condition == ToolExprs(isPrint, tools)
    ensures |condition| == |tools|
    ensures Sane(isPrint) ==>
      forall tool :: (exists e :: e in condition && ExprHolds(e, tool)) <==> tool in tools
  {
    var exprs := new string[|tools|](_ => "");
    for i := 0 to |tools|
      invariant forall k :: 0 <= k < i ==> exprs[k] == ToolExpr(isPrint, tools[k])
    {
      exprs[i] := "request.resource.attr.tool == " + CelLiteral.Quote(isPrint, tools[i]);
    }
    condition := exprs[..];
    assert condition == ToolExprs(isPrint, tools);
    if Sane(isPrint) {
      forall tool ensures (exists e :: e in condition && ExprHolds(e, tool)) <==> tool in tools {
        ConditionIsExact(isPrint, tools, tool);
      }
    }
  }

  method FindResourceKind(rules: seq<Rule>) returns (kind: string)
    ensures kind == ResourceKind(rules)
  {
    for i := 0 to |rules|
      invariant FirstServer(rules) == FirstServer(rules[i..])
    {
      if rules[i].serverRef.Some? {
        return "mcp:server:" + rules[i].serverRef.value;
      }
    }
    return "mcp:tool";
  }

  lemma {:induction false} FirstErrorStays(isPrint: char -> bool, rules: seq<Rule>, i: nat)
    requires i <= |rules| && TranslateRules(isPrint, rules[..i]).Err?
    ensures TranslateRules(isPrint, rules) == TranslateRules(isPrint, rules[..i])
    decreases |rules|
  {
    if i < |rules| {
      assert rules[..|rules| - 1][..i] == rules[..i];
      FirstErrorStays(isPrint, rules[..|rules| - 1], i);
    } else {
      assert rules[..i] == rules;
    }
  }

  /** What one compiled rule says, written out. */
  ghost predicate CompiledFrom(isPrint: char -> bool, rule: Rule, out: CerbosRule) {
    && out.effect == (if rule.effect == "ALLOW" then "EFFECT_ALLOW" else "EFFECT_DENY")
    && |out.actions| == |rule.actions|
    && (forall i :: 0 <= i < |rule.actions| ==> SlashesReplaced(rule.actions[i], out.actions[i]))
    && (rule.principals.roles != [] ==> out.roles == rule.principals.roles)
    && (rule.principals.roles == [] && rule.principals.agentRefs == [] ==> out.roles == ["*"])
    && (rule.principals.roles == [] && rule.principals.agentRefs != [] ==>
          && |out.roles| == |rule.principals.agentRefs|
          && forall i :: 0 <= i < |out.roles| ==> out.roles[i] == "agent:" + rule.principals.agentRefs[i])
    && (out.condition.None? <==> rule.tools == [])
    && (Sane(isPrint) && out.condition.Some? ==>
          forall tool :: (exists e :: e in out.condition.value && ExprHolds(e, tool)) <==> tool in rule.tools)
  }

  predicate SlashesReplaced(action: string, out: string) {
    |out| == |action| && forall k :: 0 <= k < |action| ==> out[k] == if action[k] == '/' then ':' else action[k]
  }

  lemma RuleSpelledOut(isPrint: char -> bool, rule: Rule, effect: string)
    requires MapEffect(rule.effect) == Some(effect)
    ensures CompiledFrom(isPrint, rule, TranslateRule(isPrint, rule, effect))
  {
    if Sane(isPrint) && rule.tools != [] {
      forall tool
        ensures (exists e :: e in ToolExprs(isPrint, rule.tools) && ExprHolds(e, tool)) <==> tool in rule.tools
      {
        ConditionIsExact(isPrint, rule.tools, tool);
      }
    }
  }

  /** Rule `i` is the first that names a server. */
  predicate FirstToName(rules: seq<Rule>, i: int) {
    0 <= i < |rules| && rules[i].serverRef.Some? && forall k :: 0 <= k < i ==> rules[k].serverRef.None?
  }

  lemma {:induction false} ResourceSpelledOut(rules: seq<Rule>)
    ensures (forall i :: 0 <= i < |rules| ==> rules[i].serverRef.None?) ==> ResourceKind(rules) == "mcp:tool"
    ensures forall i :: FirstToName(rules, i) ==>
      ResourceKind(rules) == "mcp:server:" + rules[i].serverRef.value
  {
    if rules != [] {
      ResourceSpelledOut(rules[1..]);
      forall i | 0 < i && FirstToName(rules, i)
        ensures ResourceKind(rules) == "mcp:server:" + rules[i].serverRef.value
      {
        assert rules[1..][i - 1] == rules[i];
        assert FirstToName(rules[1..], i - 1);
      }
    }
  }

  lemma PolicySpelledOut(isPrint: char -> bool, rules: seq<Rule>)
    ensures
      var r := Translate(isPrint, rules);
      && (r.Ok? <==> rules != [] && forall i :: 0 <= i < |rules| ==> rules[i].effect == "ALLOW" || rules[i].effect == "DENY")
      && (r.Ok? ==>
            && r.value.apiVersion == "api.cerbos.dev/v1" && r.value.version == "default"
            && |r.value.rules| == |rules|
            && forall i :: 0 <= i < |rules| ==> CompiledFrom(isPrint, rules[i], r.value.rules[i]))
  {
    TranslatedRules(isPrint, rules);
    if Translate(isPrint, rules).Ok? {
      var out := TranslateRules(isPrint, rules).value;
      forall i | 0 <= i < |rules| ensures CompiledFrom(isPrint, rules[i], out[i]) {
        RuleSpelledOut(isPrint, rules[i], MapEffect(rules[i].effect).value);
      }
    }
  }

  /** TranslatePolicy: fails exactly without rules or on an unknown effect; otherwise one compiled rule
      per rule, for the resource of the first server named. */
  method TranslatePolicy(isPrint: char -> bool, rules: seq<Rule>) returns (r: Result<CerbosPolicy, TranslationError>)
    ensures r == Translate(isPrint, rules)
    ensures r.Ok? <==>
      rules != [] && forall i :: 0 <= i < |rules| ==> rules[i].effect == "ALLOW" || rules[i].effect == "DENY"
    ensures r.Ok? ==>
      && r.value.apiVersion == "api.cerbos.dev/v1" && r.value.version == "default"
      && |r.value.rules| == |rules|
      && forall i :: 0 <= i < |rules| ==> CompiledFrom(isPrint, rules[i], r.value.rules[i])
    ensures r.Ok? && (forall i :: 0 <= i < |rules| ==> rules[i].serverRef.None?) ==> r.value.resource == "mcp:tool"
    ensures r.Ok? ==>
      forall i :: FirstToName(rules, i) ==>
        r.value.resource == "mcp:server:" + rules[i].serverRef.value
  {
    if |rules| == 0 {
      return Err(NoRules);
    }
    var cerbosRules: seq<CerbosRule> := [];
    for i := 0 to |rules|
      invariant TranslateRules(isPrint, rules[..i]) == Ok(cerbosRules)
    {
      var rule := rules[i];
      var effect := MapEffect(rule.effect);
      assert rules[..i + 1][..i] == rules[..i];
      if effect.None? {
        FirstErrorStays(isPrint, rules, i + 1);
        PolicySpelledOut(isPrint, rules);
        return Err(UnknownEffect(i, rule.effect));
      }
      var actions := new string[|rule.actions|](_ => "");
      for j := 0 to |rule.actions|
        invariant forall k :: 0 <= k < j ==> actions[k] == Normalise(rule.actions[k])
      {
        actions[j] := Normalise(rule.actions[j]);
      }
      assert actions[..] == NormaliseAll(rule.actions);
      var roles := MapPrincipalsLoop(rule.principals);
      var cr := CerbosRule(actions[..], effect.value, roles, None);
      if |rule.tools| > 0 {
        var condition := BuildToolCondition(isPrint, rule.tools);
        cr := cr.(condition := Some(condition));
      }
      cerbosRules := cerbosRules + [cr];
    }
    assert rules[..|rules|] == rules;
    var resource := FindResourceKind(rules);
    PolicySpelledOut(isPrint, rules);
    ResourceSpelledOut(rules);
    return Ok(CerbosPolicy("api.cerbos.dev/v1", "default", resource, cerbosRules));
  }

  // ----------------------------------------------------------------- evaluation

  /** Who asks: the roles of its token and, for a registered agent, its name. */
  datatype Request = Request(
    roles: set<string>, agent: Option<string>, action: string, server: Option<string>, tool: string)

  // Source: a rule without roles and agents is for everyone, without tools for every tool. A rule
  // is about the resource its serverRef names; without one, about the generic tool resource.

  predicate PrincipalMatches(p: Principals, req: Request) {
    if |p.roles| > 0 then "*" in p.roles || exists r :: r in p.roles && r in req.roles
    else if |p.agentRefs| > 0 then req.agent.Some? && req.agent.value in p.agentRefs
    else true
  }

  predicate ActionMatches(actions: seq<string>, action: string) {
    "*" in actions || action in actions
  }

  predicate ToolMatches(tools: seq<string>, tool: string) {
    |tools| == 0 || tool in tools
  }

  predicate RuleMatches(rule: Rule, req: Request) {
    && rule.serverRef == req.server
    && PrincipalMatches(rule.principals, req)
    && ActionMatches(rule.actions, req.action)
    && ToolMatches(rule.tools, req.tool)
  }

  predicate SomeRuleMatches(rules: seq<Rule>, effect: string, req: Request) {
    exists i :: 0 <= i < |rules| && rules[i].effect == effect && RuleMatches(rules[i], req)
  }

  /** Deny by default, DENY over ALLOW. */
  predicate Allows(rules: seq<Rule>, req: Request) {
    SomeRuleMatches(rules, ALLOW, req) && !SomeRuleMatches(rules, DENY, req)
  }

  // Target: Cerbos sees the token roles plus a role for the agent, and the normalised action.

  function CerbosRoles(req: Request): set<string> {
    req.roles + (if req.agent.Some? then {"agent:" + req.agent.value} else {})
  }

  function CerbosResource(req: Request): string {
    if req.server.Some? then "mcp:server:" + req.server.value else "mcp:tool"
  }

  /** A condition expression is true of a request for this tool. */
  predicate ExprHolds(expr: string, tool: string) {
    CelCondition.Evaluate(expr, map["request.resource.attr.tool" := tool]) == Some(true)
  }

  predicate CerbosRuleMatches(rule: CerbosRule, roles: set<string>, action: string, tool: string) {
    && ("*" in rule.roles || exists r :: r in rule.roles && r in roles)
    && ActionMatches(rule.actions, action)
    && (rule.condition.None? || exists e :: e in rule.condition.value && ExprHolds(e, tool))
  }

  predicate SomeCerbosRuleMatches(rules: seq<CerbosRule>, effect: string, roles: set<string>, action: string, tool: string) {
    exists i :: 0 <= i < |rules| && rules[i].effect == effect && CerbosRuleMatches(rules[i], roles, action, tool)
  }

  predicate CerbosAllows(policy: CerbosPolicy, kind: string, roles: set<string>, action: string, tool: string) {
    && kind == policy.resource
    && SomeCerbosRuleMatches(policy.rules, "EFFECT_ALLOW", roles, action, tool)
    && !SomeCerbosRuleMatches(policy.rules, "EFFECT_DENY", roles, action, tool)
  }

  predicate Decides(policy: CerbosPolicy, req: Request) {
    CerbosAllows(policy, CerbosResource(req), CerbosRoles(req), Normalise(req.action), req.tool)
  }

  // --------------------------------------------------- when translation succeeds

  lemma {:induction false} TranslatedRules(isPrint: char -> bool, rules: seq<Rule>)
    ensures TranslateRules(isPrint, rules).Ok? <==>
      forall i :: 0 <= i < |rules| ==> rules[i].effect == ALLOW || rules[i].effect == DENY
    ensures TranslateRules(isPrint, rules).Ok? ==>
      var out := TranslateRules(isPrint, rules).value;
      && |out| == |rules|
      && forall i :: 0 <= i < |rules| ==>
           && MapEffect(rules[i].effect).Some?
           && out[i] == TranslateRule(isPrint, rules[i], MapEffect(rules[i].effect).value)
    ensures TranslateRules(isPrint, rules).Err? ==>
      var e := TranslateRules(isPrint, rules).error;
      && e.UnknownEffect? && e.rule < |rules| && e.effect == rules[e.rule].effect
      && e.effect != ALLOW && e.effect != DENY
      && forall i :: 0 <= i < e.rule ==> rules[i].effect == ALLOW || rules[i].effect == DENY
    decreases |rules|
  {
    if rules != [] {
      TranslatedRules(isPrint, rules[..|rules| - 1]);
    }
  }

  /** Translation fails exactly when there are no rules or some effect is neither ALLOW nor DENY,
      and then names the first such rule. */
  lemma TranslationFailsExactly(isPrint: char -> bool, rules: seq<Rule>)
    ensures Translate(isPrint, rules).Err? <==>
      rules == [] || exists i :: 0 <= i < |rules| && rules[i].effect != ALLOW && rules[i].effect != DENY
    ensures Translate(isPrint, rules).Err? && rules != [] ==>
      var e := Translate(isPrint, rules).error;
      && e.UnknownEffect? && e.rule < |rules| && e.effect == rules[e.rule].effect
      && e.effect != ALLOW && e.effect != DENY
      && forall i :: 0 <= i < e.rule ==> rules[i].effect == ALLOW || rules[i].effect == DENY
  {
    TranslatedRules(isPrint, rules);
  }

  // -------------------------------------------------------- meaning is preserved

  /** Printable characters of any kind, as long as control characters are not among them. */
  ghost predicate Sane(isPrint: char -> bool) {
    forall c :: isPrint(c) ==> !CelLiteral.IsControl(c)
  }

  lemma ToolExprIsRead(isPrint: char -> bool, listed: string, tool: string)
    requires Sane(isPrint)
    ensures ExprHolds(ToolExpr(isPrint, listed), tool) <==> tool == listed
  {
    var path := "request.resource.attr.tool";
    var literal := CelLiteral.Quote(isPrint, listed);
    CelLiteral.QuoteReadsBack(isPrint, listed);
    assert ToolExpr(isPrint, listed) == path + " == " + literal;
    CelCondition.EqualityIsRead(path, literal, map[path := tool]);
  }

  /** The printed condition holds for exactly the listed tools. */
  lemma ConditionIsExact(isPrint: char -> bool, tools: seq<string>, tool: string)
    requires Sane(isPrint)
    ensures (exists e :: e in ToolExprs(isPrint, tools) && ExprHolds(e, tool)) <==> tool in tools
  {
    var exprs := ToolExprs(isPrint, tools);
    forall i | 0 <= i < |tools| ensures ExprHolds(exprs[i], tool) <==> tool == tools[i] {
      ToolExprIsRead(isPrint, tools[i], tool);
    }
    if tool in tools {
      var i :| 0 <= i < |tools| && tools[i] == tool;
      assert exprs[i] in exprs;
    }
  }

  predicate Free(s: string, c: char) {
    forall i :: 0 <= i < |s| ==> s[i] != c
  }

  predicate IsAgentRole(role: string) {
    "agent:" <= role
  }

  /** Without ':' in either, normalising keeps actions apart. */
  lemma NormaliseIsInjective(a: string, b: string)
    requires Free(a, ':') && Free(b, ':')
    ensures Normalise(a) == Normalise(b) <==> a == b
  {
    if Normalise(a) == Normalise(b) {
      assert |a| == |b|;
      forall i | 0 <= i < |a| ensures a[i] == b[i] {
        assert Normalise(a)[i] == Normalise(b)[i];
      }
    }
  }

  lemma NormaliseKeepsTheWildcard(a: string)
    ensures Normalise(a) == "*" <==> a == "*"
  {
    if Normalise(a) == "*" {
      assert |a| == 1 && Normalise(a)[0] == '*';
    }
  }

  /** A listed action is not the requested one but reads the same once normalised. */
  predicate ActionConfused(actions: seq<string>, action: string) {
    !ActionMatches(actions, action) &&
    exists i :: 0 <= i < |actions| && Normalise(actions[i]) == Normalise(action)
  }

  lemma ActionsCompiled(actions: seq<string>, action: string)
    ensures ActionMatches(NormaliseAll(actions), Normalise(action)) <==>
      ActionMatches(actions, action) || ActionConfused(actions, action)
  {
    var all := NormaliseAll(actions);
    forall i | 0 <= i < |actions|
      ensures all[i] in all && (all[i] == "*" <==> actions[i] == "*")
    {
      NormaliseKeepsTheWildcard(actions[i]);
    }
    if Normalise(action) in all {
      var i :| 0 <= i < |all| && all[i] == Normalise(action);
      assert Normalise(actions[i]) == Normalise(action);
    }
    if action in actions {
      var i :| 0 <= i < |actions| && actions[i] == action;
      assert all[i] == Normalise(action);
    }
  }

  lemma AgentRolesAreApart(a: string, b: string)
    ensures IsAgentRole(AgentRole(a))
    ensures AgentRole(a) == AgentRole(b) <==> a == b
  {
    assert AgentRole(a)[|"agent:"|..] == a && AgentRole(b)[|"agent:"|..] == b;
  }

  /** A role is spelled like the role the compiler gives an agent. */
  predicate PrincipalConfused(p: Principals, req: Request) {
    !PrincipalMatches(p, req) &&
    if |p.roles| > 0 then req.agent.Some? && AgentRole(req.agent.value) in p.roles
    else exists i :: 0 <= i < |p.agentRefs| && AgentRole(p.agentRefs[i]) in req.roles
  }

  lemma PrincipalsCompiled(p: Principals, req: Request)
    ensures
      var roles := MapPrincipals(p);
      ("*" in roles || exists r :: r in roles && r in CerbosRoles(req)) <==>
        PrincipalMatches(p, req) || PrincipalConfused(p, req)
  {
    var roles := MapPrincipals(p);
    if |p.roles| == 0 && |p.agentRefs| > 0 {
      forall i | 0 <= i < |p.agentRefs|
        ensures roles[i] in roles && roles[i] != "*"
        ensures roles[i] in CerbosRoles(req) <==>
          req.agent == Some(p.agentRefs[i]) || AgentRole(p.agentRefs[i]) in req.roles
      {
        assert roles[i][0] == 'a';
        if req.agent.Some? {
          AgentRolesAreApart(p.agentRefs[i], req.agent.value);
        }
      }
    } else if |p.roles| == 0 {
      assert roles[0] == "*";
    }
  }

  /** The compiled rule takes in the request although the source rule does not. */
  predicate Confused(rule: Rule, req: Request) {
    && (ActionConfused(rule.actions, req.action) || PrincipalConfused(rule.principals, req))
    && (ActionMatches(rule.actions, req.action) || ActionConfused(rule.actions, req.action))
    && (PrincipalMatches(rule.principals, req) || PrincipalConfused(rule.principals, req))
    && ToolMatches(rule.tools, req.tool)
  }

  /** A compiled rule matches what the source rule matches, and what it confuses. */
  lemma RuleCompiled(isPrint: char -> bool, rule: Rule, effect: string, req: Request)
    requires Sane(isPrint) && rule.serverRef == req.server
    ensures CerbosRuleMatches(TranslateRule(isPrint, rule, effect), CerbosRoles(req), Normalise(req.action), req.tool)
      <==> RuleMatches(rule, req) || Confused(rule, req)
  {
    ActionsCompiled(rule.actions, req.action);
    PrincipalsCompiled(rule.principals, req);
    ConditionIsExact(isPrint, rule.tools, req.tool);
  }

  /** Names that cannot be confused: no ':' in actions, no role that looks like an agent. */
  ghost predicate Clean(rule: Rule) {
    && (forall a :: a in rule.actions ==> Free(a, ':'))
    && (forall r :: r in rule.principals.roles ==> !IsAgentRole(r))
  }

  ghost predicate CleanRequest(req: Request) {
    Free(req.action, ':') && forall r :: r in req.roles ==> !IsAgentRole(r)
  }

  lemma CleanNamesAreNotConfused(rule: Rule, req: Request)
    requires Clean(rule) && CleanRequest(req)
    ensures !Confused(rule, req)
  {
    forall i | 0 <= i < |rule.actions|
      ensures Normalise(rule.actions[i]) == Normalise(req.action) ==> rule.actions[i] == req.action
    {
      assert rule.actions[i] in rule.actions;
      NormaliseIsInjective(rule.actions[i], req.action);
    }
    assert forall agent :: IsAgentRole(AgentRole(agent));
  }

  /** All rules speak about one resource. */
  ghost predicate Uniform(rules: seq<Rule>) {
    forall i, j :: 0 <= i < |rules| && 0 <= j < |rules| ==> rules[i].serverRef == rules[j].serverRef
  }

  lemma {:induction false} UniformServer(rules: seq<Rule>)
    requires rules != [] && Uniform(rules)
    ensures FirstServer(rules) == rules[0].serverRef
  {
    if rules[0].serverRef.None? && |rules| > 1 {
      assert rules[1..][0] == rules[1];
      UniformServer(rules[1..]);
    }
  }

  lemma KindsAreApart(a: Option<string>, b: Option<string>)
    ensures ServerKind(a) == ServerKind(b) <==> a == b
  {
    var prefix := "mcp:server:";
    if a.Some? {
      assert ServerKind(a)[|prefix|..] == a.value && ServerKind(a)[4] == 's';
    }
    if b.Some? {
      assert ServerKind(b)[|prefix|..] == b.value && ServerKind(b)[4] == 's';
    }
  }

  /** The rule does not match, yet it would if it were about the requested server or if the names it
      confuses were one. */
  predicate Strays(rule: Rule, req: Request) {
    !RuleMatches(rule, req) && (RuleMatches(rule.(serverRef := req.server), req) || Confused(rule, req))
  }

  predicate SomeRuleStrays(rules: seq<Rule>, effect: string, req: Request) {
    exists i :: 0 <= i < |rules| && rules[i].effect == effect && Strays(rules[i], req)
  }

  /** Compiled, the rules of one effect match what they match, and what they stray to. */
  lemma EffectCompiled(
      isPrint: char -> bool, rules: seq<Rule>, out: seq<CerbosRule>, effect: string, mapped: string, req: Request)
    requires Sane(isPrint) && |out| == |rules|
    requires forall i :: 0 <= i < |rules| ==> out[i] == TranslateRule(isPrint, rules[i], out[i].effect)
    requires forall i :: 0 <= i < |rules| ==> (out[i].effect == mapped <==> rules[i].effect == effect)
    ensures SomeCerbosRuleMatches(out, mapped, CerbosRoles(req), Normalise(req.action), req.tool)
      <==> SomeRuleMatches(rules, effect, req) || SomeRuleStrays(rules, effect, req)
  {
    forall i | 0 <= i < |rules|
      ensures CerbosRuleMatches(out[i], CerbosRoles(req), Normalise(req.action), req.tool)
        <==> RuleMatches(rules[i], req) || Strays(rules[i], req)
    {
      RuleCompiled(isPrint, rules[i].(serverRef := req.server), out[i].effect, req);
    }
    if i :| 0 <= i < |rules| && rules[i].effect == effect && (RuleMatches(rules[i], req) || Strays(rules[i], req)) {
      assert out[i].effect == mapped && CerbosRuleMatches(out[i], CerbosRoles(req), Normalise(req.action), req.tool);
    }
  }

  /** What any translatable policy means once compiled. Only requests for the first server named are
      ever allowed, and every rule counts for them: whatever its server, and with its names confused. */
  lemma CompiledMeaning(isPrint: char -> bool, rules: seq<Rule>, req: Request)
    requires Sane(isPrint) && Translate(isPrint, rules).Ok?
    ensures Decides(Translate(isPrint, rules).value, req) <==>
      && req.server == FirstServer(rules)
      && (SomeRuleMatches(rules, ALLOW, req) || SomeRuleStrays(rules, ALLOW, req))
      && !SomeRuleMatches(rules, DENY, req) && !SomeRuleStrays(rules, DENY, req)
  {
    TranslatedRules(isPrint, rules);
    KindsAreApart(req.server, FirstServer(rules));
    var out := TranslateRules(isPrint, rules).value;
    EffectCompiled(isPrint, rules, out, ALLOW, "EFFECT_ALLOW", req);
    EffectCompiled(isPrint, rules, out, DENY, "EFFECT_DENY", req);
  }

  /** When a policy keeps its meaning for a request, in terms of the source rules alone. */
  predicate KeepsMeaning(rules: seq<Rule>, req: Request) {
    if req.server != FirstServer(rules) then !Allows(rules, req)
    else
      || SomeRuleMatches(rules, DENY, req)
      || (if SomeRuleMatches(rules, ALLOW, req) then !SomeRuleStrays(rules, DENY, req)
          else SomeRuleStrays(rules, ALLOW, req) ==> SomeRuleStrays(rules, DENY, req))
  }

  /** Exactly when compilation preserves meaning, for every translatable policy, whatever servers,
      actions and roles its rules name, and every request. */
  lemma MeaningIsKeptExactly(isPrint: char -> bool, rules: seq<Rule>, req: Request)
    requires Sane(isPrint) && Translate(isPrint, rules).Ok?
    ensures (Decides(Translate(isPrint, rules).value, req) <==> Allows(rules, req)) <==> KeepsMeaning(rules, req)
  {
    CompiledMeaning(isPrint, rules, req);
  }

  /** Meaning is kept in particular by rules about one resource that confuse no names of the request. */
  lemma CompilationPreservesMeaning(isPrint: char -> bool, rules: seq<Rule>, req: Request)
    requires Sane(isPrint) && Uniform(rules)
    requires forall rule :: rule in rules ==> !Confused(rule, req)
    requires Translate(isPrint, rules).Ok?
    ensures Decides(Translate(isPrint, rules).value, req) <==> Allows(rules, req)
  {
    MeaningIsKeptExactly(isPrint, rules, req);
    UniformServer(rules);
    assert forall i :: 0 <= i < |rules| ==> rules[i] in rules && rules[i].serverRef == FirstServer(rules);
    assert KeepsMeaning(rules, req);
  }

  /** Names cannot be confused when actions are free of ':' and roles do not look like agents. */
  lemma CleanPoliciesKeepTheirMeaning(isPrint: char -> bool, rules: seq<Rule>, req: Request)
    requires Sane(isPrint) && Uniform(rules) && CleanRequest(req)
    requires forall rule :: rule in rules ==> Clean(rule)
    requires Translate(isPrint, rules).Ok?
    ensures Decides(Translate(isPrint, rules).value, req) <==> Allows(rules, req)
  {
    forall rule | rule in rules ensures !Confused(rule, req) {
      CleanNamesAreNotConfused(rule, req);
    }
    CompilationPreservesMeaning(isPrint, rules, req);
  }

  // --------------------------------------------------- policies about several servers

  /** The rules with every serverRef, given or not, replaced by the first one given. */
  function Scoped(rules: seq<Rule>): seq<Rule> {
    seq(|rules|, i requires 0 <= i < |rules| => rules[i].(serverRef := FirstServer(rules)))
  }

  /** Names apart, a policy about several servers means its rules all scoped to the first one. */
  lemma MixedPolicyMeaning(isPrint: char -> bool, rules: seq<Rule>, req: Request)
    requires Sane(isPrint)
    requires forall rule :: rule in rules ==> !Confused(rule, req)
    requires Translate(isPrint, rules).Ok?
    ensures Decides(Translate(isPrint, rules).value, req) <==> Allows(Scoped(rules), req)
  {
    CompiledMeaning(isPrint, rules, req);
    var scoped := Scoped(rules);
    forall i | 0 <= i < |rules|
      ensures req.server == FirstServer(rules) ==>
        (RuleMatches(scoped[i], req) <==> RuleMatches(rules[i], req) || Strays(rules[i], req))
      ensures RuleMatches(scoped[i], req) ==> req.server == FirstServer(rules)
      ensures scoped[i].effect == rules[i].effect
    {
      assert rules[i] in rules;
    }
    forall effect | req.server == FirstServer(rules)
      ensures SomeRuleMatches(scoped, effect, req) <==>
        SomeRuleMatches(rules, effect, req) || SomeRuleStrays(rules, effect, req)
    {
      if i :| 0 <= i < |rules| && rules[i].effect == effect && (RuleMatches(rules[i], req) || Strays(rules[i], req)) {
        assert scoped[i].effect == effect && RuleMatches(scoped[i], req);
      }
    }
  }

  // ----------------------------------- what the conditions of the theorem rule out

  /** With a ':' in an action the compiled rule matches an action the source rule does not name. */
  lemma ColonsMergeActions(isPrint: char -> bool)
    requires Sane(isPrint)
    ensures
      var rules := [Rule(ALLOW, Principals([], []), ["tools:call"], None, [])];
      var req := Request({}, None, "tools/call", None, "t");
      Translate(isPrint, rules).Ok? && Decides(Translate(isPrint, rules).value, req) && !Allows(rules, req)
  {
    var rules := [Rule(ALLOW, Principals([], []), ["tools:call"], None, [])];
    var req := Request({}, None, "tools/call", None, "t");
    TranslatedRules(isPrint, rules);
    UniformServer(rules);
    var out := TranslateRules(isPrint, rules).value;
    assert Normalise("tools/call") == "tools:call" == Normalise("tools:call");
    assert out[0].actions[0] == Normalise(req.action);
    assert out[0].roles[0] == "*";
    assert "tools:call"[5] != "tools/call"[5];
    assert CerbosRuleMatches(out[0], CerbosRoles(req), Normalise(req.action), req.tool);
    assert out[0].effect == "EFFECT_ALLOW";
  }

  /** A token role spelled like an agent's role gets what only that agent should get. */
  lemma AgentRolesMergeNames(isPrint: char -> bool)
    requires Sane(isPrint)
    ensures
      var rules := [Rule(ALLOW, Principals([], ["bob"]), ["tools/call"], None, [])];
      var req := Request({"agent:bob"}, None, "tools/call", None, "t");
      Translate(isPrint, rules).Ok? && Decides(Translate(isPrint, rules).value, req) && !Allows(rules, req)
  {
    var rules := [Rule(ALLOW, Principals([], ["bob"]), ["tools/call"], None, [])];
    var req := Request({"agent:bob"}, None, "tools/call", None, "t");
    TranslatedRules(isPrint, rules);
    assert rules[0].principals.agentRefs[0] == "bob" && AgentRole("bob") == "agent:bob";
    assert rules[0].actions[0] == req.action;
    assert Strays(rules[0], req) && rules[0].effect == ALLOW && ALLOW[0] != DENY[0];
    assert SomeRuleStrays(rules, ALLOW, req);
    assert FirstServer(rules) == FirstServer(rules[1..]);
    CompiledMeaning(isPrint, rules, req);
  }

  /** With rules for two servers, the first server's policy also carries the other's rules. */
  lemma MixedServersShareTheFirst(isPrint: char -> bool)
    ensures
      var rules := [Rule(ALLOW, Principals([], []), ["a"], Some("x"), []),
                    Rule(ALLOW, Principals([], []), ["b"], Some("y"), [])];
      var req := Request({}, None, "b", Some("x"), "t");
      Translate(isPrint, rules).Ok? && Decides(Translate(isPrint, rules).value, req) && !Allows(rules, req)
  {
    var rules := [Rule(ALLOW, Principals([], []), ["a"], Some("x"), []),
                  Rule(ALLOW, Principals([], []), ["b"], Some("y"), [])];
    var req := Request({}, None, "b", Some("x"), "t");
    TranslatedRules(isPrint, rules);
    var out := TranslateRules(isPrint, rules).value;
    assert NormaliseAll(["b"])[0] == Normalise("b");
    assert out[1].roles[0] == "*";
    assert out[1].effect == "EFFECT_ALLOW" && out[0].effect == "EFFECT_ALLOW";
    assert CerbosRuleMatches(out[1], CerbosRoles(req), Normalise(req.action), req.tool);
  }

  // ----------------------------------------------------------------- rule order

  lemma SameElements<T>(xs: seq<T>, ys: seq<T>)
    requires multiset(xs) == multiset(ys)
    ensures forall x :: x in xs <==> x in ys
  {
    forall x ensures x in xs <==> x in ys {
      assert x in xs <==> x in multiset(xs);
      assert x in ys <==> x in multiset(ys);
    }
  }

  /** Which rules there are decides, not where they stand. */
  lemma MembersDecide(
      xs: seq<CerbosRule>, ys: seq<CerbosRule>, effect: string, roles: set<string>, action: string, tool: string)
    requires forall c :: c in xs <==> c in ys
    ensures SomeCerbosRuleMatches(xs, effect, roles, action, tool) <==> SomeCerbosRuleMatches(ys, effect, roles, action, tool)
  {
    if i :| 0 <= i < |xs| && xs[i].effect == effect && CerbosRuleMatches(xs[i], roles, action, tool) {
      assert xs[i] in ys;
    }
    if i :| 0 <= i < |ys| && ys[i].effect == effect && CerbosRuleMatches(ys[i], roles, action, tool) {
      assert ys[i] in xs;
    }
  }

  /** The order of the rules of a Cerbos policy does not matter. */
  lemma OrderIsIrrelevant(
      policy: CerbosPolicy, rules: seq<CerbosRule>, kind: string, roles: set<string>, action: string, tool: string)
    requires multiset(policy.rules) == multiset(rules)
    ensures CerbosAllows(policy, kind, roles, action, tool) <==> CerbosAllows(policy.(rules := rules), kind, roles, action, tool)
  {
    SameElements(policy.rules, rules);
    MembersDecide(policy.rules, rules, "EFFECT_ALLOW", roles, action, tool);
    MembersDecide(policy.rules, rules, "EFFECT_DENY", roles, action, tool);
  }

  /** Rules of an MCPPolicy may be permuted before translation, too, as long as the first server named
      stays the same: always so when they are about one resource. */
  lemma PermutedPoliciesAgree(isPrint: char -> bool, rules: seq<Rule>, permuted: seq<Rule>, req: Request)
    requires multiset(rules) == multiset(permuted) && FirstServer(rules) == FirstServer(permuted)
    requires Translate(isPrint, rules).Ok?
    ensures Translate(isPrint, permuted).Ok?
    ensures Decides(Translate(isPrint, rules).value, req) <==> Decides(Translate(isPrint, permuted).value, req)
  {
    SameElements(rules, permuted);
    TranslatedRules(isPrint, rules);
    TranslatedRules(isPrint, permuted);
    assert rules[0] in permuted;
    forall i | 0 <= i < |permuted|
      ensures permuted[i] in rules
    {
      assert permuted[i] in permuted;
    }
    var a, b := TranslateRules(isPrint, rules).value, TranslateRules(isPrint, permuted).value;
    TranslationIsPointwise(isPrint, rules, permuted, a, b);
    TranslationIsPointwise(isPrint, permuted, rules, b, a);
    MembersDecide(a, b, "EFFECT_ALLOW", CerbosRoles(req), Normalise(req.action), req.tool);
    MembersDecide(a, b, "EFFECT_DENY", CerbosRoles(req), Normalise(req.action), req.tool);
  }

  lemma PermutingKeepsTheServer(rules: seq<Rule>, permuted: seq<Rule>)
    requires Uniform(rules) && multiset(rules) == multiset(permuted)
    ensures FirstServer(rules) == FirstServer(permuted)
  {
    SameElements(rules, permuted);
    if rules == [] {
      assert |multiset(permuted)| == 0;
    } else {
      assert rules[0] in permuted && permuted[0] in rules;
      forall i | 0 <= i < |permuted| ensures permuted[i] in rules {
        assert permuted[i] in permuted;
      }
      UniformServer(rules);
      UniformServer(permuted);
    }
  }

  lemma TranslationIsPointwise(
      isPrint: char -> bool, xs: seq<Rule>, ys: seq<Rule>, a: seq<CerbosRule>, b: seq<CerbosRule>)
    requires TranslateRules(isPrint, xs) == Ok(a) && TranslateRules(isPrint, ys) == Ok(b)
    requires forall x :: x in xs ==> x in ys
    ensures forall c :: c in a ==> c in b
  {
    TranslatedRules(isPrint, xs);
    TranslatedRules(isPrint, ys);
    forall i | 0 <= i < |a| ensures a[i] in b {
      assert xs[i] in ys;
      var j :| 0 <= j < |ys| && ys[j] == xs[i];
      assert b[j] == a[i];
    }
  }

  /** The index of the first rule that matches, or the number of rules. */
  function FirstMatch(rules: seq<Rule>, req: Request): (i: nat)
    ensures i <= |rules|
    ensures forall k :: 0 <= k < i ==> !RuleMatches(rules[k], req)
    ensures i < |rules| ==> RuleMatches(rules[i], req)
  {
    if rules == [] || RuleMatches(rules[0], req) then 0
    else
      var i := FirstMatch(rules[1..], req);
      assert forall k :: 0 < k < i + 1 ==> rules[k] == rules[1..][k - 1];
      i + 1
  }

  /** The documented reading: the first matching rule wins, otherwise the request is denied. */
  predicate FirstMatchAllows(rules: seq<Rule>, req: Request) {
    var i := FirstMatch(rules, req);
    i < |rules| && rules[i].effect == ALLOW
  }

  /** An ALLOW matches first and a DENY matches later. */
  predicate AllowThenDeny(rules: seq<Rule>, req: Request) {
    var i := FirstMatch(rules, req);
    i < |rules| && rules[i].effect == ALLOW &&
    exists j :: i < j < |rules| && rules[j].effect == DENY && RuleMatches(rules[j], req)
  }

  /** When the documented reading and Cerbos agree, in terms of the source rules alone. Documented
      permission needs the server the policy is for, and no DENY that matches later or strays. A
      documented refusal stands unless an ALLOW strays to the request and no DENY stops it. */
  predicate ReadAsDocumented(rules: seq<Rule>, req: Request) {
    if FirstMatchAllows(rules, req) then
      req.server == FirstServer(rules) && !AllowThenDeny(rules, req) && !SomeRuleStrays(rules, DENY, req)
    else
      || req.server != FirstServer(rules)
      || SomeRuleMatches(rules, DENY, req) || SomeRuleStrays(rules, DENY, req)
      || !SomeRuleStrays(rules, ALLOW, req)
  }

  /** Exactly when Cerbos decides as documented, for every translatable policy and every request. */
  lemma DocumentedReadingExactly(isPrint: char -> bool, rules: seq<Rule>, req: Request)
    requires Sane(isPrint) && Translate(isPrint, rules).Ok?
    ensures (Decides(Translate(isPrint, rules).value, req) <==> FirstMatchAllows(rules, req))
      <==> ReadAsDocumented(rules, req)
  {
    CompiledMeaning(isPrint, rules, req);
    TranslatedRules(isPrint, rules);
    var i := FirstMatch(rules, req);
    if i < |rules| {
      assert rules[i].effect == ALLOW ==> SomeRuleMatches(rules, ALLOW, req);
      assert rules[i].effect == DENY ==> SomeRuleMatches(rules, DENY, req);
      assert rules[i].effect == ALLOW || rules[i].effect == DENY;
    }
  }

  /** For rules about one resource that confuse no names of the request, the only exception is an
      ALLOW that matches first and a DENY that matches later. */
  lemma DocumentedReadingOfCleanPolicies(isPrint: char -> bool, rules: seq<Rule>, req: Request)
    requires Sane(isPrint) && Uniform(rules)
    requires forall rule :: rule in rules ==> !Confused(rule, req)
    requires Translate(isPrint, rules).Ok?
    ensures (Decides(Translate(isPrint, rules).value, req) <==> FirstMatchAllows(rules, req))
      <==> !AllowThenDeny(rules, req)
  {
    DocumentedReadingExactly(isPrint, rules, req);
    UniformServer(rules);
    assert forall i :: 0 <= i < |rules| ==> rules[i] in rules && rules[i].serverRef == FirstServer(rules);
  }

  /** The first compiled rule that matches, or the number of rules. */
  function FirstCompiledMatch(rules: seq<CerbosRule>, roles: set<string>, action: string, tool: string): (i: nat)
    ensures i <= |rules|
    ensures forall k :: 0 <= k < i ==> !CerbosRuleMatches(rules[k], roles, action, tool)
    ensures i < |rules| ==> CerbosRuleMatches(rules[i], roles, action, tool)
  {
    if rules == [] || CerbosRuleMatches(rules[0], roles, action, tool) then 0
    else
      var i := FirstCompiledMatch(rules[1..], roles, action, tool);
      assert forall k :: 0 < k < i + 1 ==> rules[k] == rules[1..][k - 1];
      i + 1
  }

  /** On the compiled rules themselves order matters to first-match in one case only, for every
      translated policy and every request to its resource. */
  lemma CompiledOrderExactly(
      isPrint: char -> bool, rules: seq<Rule>, roles: set<string>, action: string, tool: string)
    requires Translate(isPrint, rules).Ok?
    ensures
      var policy := Translate(isPrint, rules).value;
      var out := policy.rules;
      var i := FirstCompiledMatch(out, roles, action, tool);
      var allowed := i < |out| && out[i].effect == "EFFECT_ALLOW";
      (CerbosAllows(policy, policy.resource, roles, action, tool) <==> allowed) <==>
        !(allowed && exists j :: i < j < |out| && out[j].effect == "EFFECT_DENY"
                                 && CerbosRuleMatches(out[j], roles, action, tool))
  {
    TranslatedRules(isPrint, rules);
    var out := Translate(isPrint, rules).value.rules;
    var i := FirstCompiledMatch(out, roles, action, tool);
    if i < |out| {
      assert out[i].effect == "EFFECT_ALLOW" || out[i].effect == "EFFECT_DENY";
      assert SomeCerbosRuleMatches(out, out[i].effect, roles, action, tool);
    }
  }

  /** Such a policy: one role may do everything, everyone may not call tool "x". The documented
      reading lets that role call it, Cerbos does not. */
  lemma FirstMatchIsOverridden(isPrint: char -> bool)
    requires Sane(isPrint)
    ensures
      var rules := [Rule(ALLOW, Principals(["admin"], []), ["*"], None, []),
                    Rule(DENY, Principals([], []), ["tools/call"], None, ["x"])];
      var req := Request({"admin"}, None, "tools/call", None, "x");
      && Translate(isPrint, rules).Ok?
      && FirstMatchAllows(rules, req) && !Decides(Translate(isPrint, rules).value, req)
  {
    var rules := [Rule(ALLOW, Principals(["admin"], []), ["*"], None, []),
                  Rule(DENY, Principals([], []), ["tools/call"], None, ["x"])];
    var req := Request({"admin"}, None, "tools/call", None, "x");
    TranslatedRules(isPrint, rules);
    CompiledMeaning(isPrint, rules, req);
    assert "admin" in rules[0].principals.roles;
    assert RuleMatches(rules[0], req) && RuleMatches(rules[1], req);
    assert SomeRuleMatches(rules, DENY, req);
  }
}
