/** The policy a marketplace install creates from the default policy of a catalog entry. */
module DefaultPolicies {
  import opened Options
  import opened PolicyCompiler

  datatype DefaultPolicy = DefaultPolicy(allowedTools: seq<string>, deniedTools: seq<string>)

  /** A rule for everyone about one server; the listed names are its actions. */
  function ServerRule(effect: string, actions: seq<string>, serverName: string): Rule {
    Rule(effect, Principals([], []), actions, Some(serverName), [])
  }

  function PolicyRulesFor(serverName: string, dp: DefaultPolicy): seq<Rule> {
    var allowed := if |dp.allowedTools| > 0 then [ServerRule(ALLOW, dp.allowedTools, serverName)] else [];
    var denied := if |dp.deniedTools| > 0 then [ServerRule(DENY, dp.deniedTools, serverName)] else [];
    if allowed + denied == [] then [ServerRule(ALLOW, ["*"], serverName)] else allowed + denied
  }

  method BuildPolicyRules(serverName: string, dp: DefaultPolicy) returns (rules: seq<Rule>)
    ensures rules == PolicyRulesFor(serverName, dp)
  {
    rules := [];
    if |dp.allowedTools| > 0 {
      rules := rules + [ServerRule(ALLOW, dp.allowedTools, serverName)];
    }
    if |dp.deniedTools| > 0 {
      rules := rules + [ServerRule(DENY, dp.deniedTools, serverName)];
    }
    if |rules| == 0 {
      rules := rules + [ServerRule(ALLOW, ["*"], serverName)];
    }
  }

  /** Some name on the list, once normalised, is the wildcard or the action itself. */
  predicate Covers(tools: seq<string>, action: string) {
    exists i :: 0 <= i < |tools| && (Normalise(tools[i]) == "*" || Normalise(tools[i]) == action)
  }

  lemma CoversIsMembership(tools: seq<string>, action: string)
    ensures Covers(tools, action) <==> "*" in NormaliseAll(tools) || action in NormaliseAll(tools)
  {
    var all := NormaliseAll(tools);
    assert forall i :: 0 <= i < |tools| ==> all[i] == Normalise(tools[i]) && all[i] in all;
  }

  /** A translated ServerRule without tools decides by its actions alone. */
  lemma ServerRuleMatches(
      isPrint: char -> bool, rule: Rule, effect: string, roles: set<string>, action: string, tool: string)
    requires rule.principals == Principals([], []) && rule.tools == []
    ensures CerbosRuleMatches(TranslateRule(isPrint, rule, effect), roles, action, tool) <==> Covers(rule.actions, action)
  {
    CoversIsMembership(rule.actions, action);
    assert MapPrincipals(rule.principals)[0] == "*";
  }

  /** Exactly what a default policy permits. For every pair of lists the rules translate, to a
      policy of that server, and Cerbos allows an action, whoever asks and for whatever tool, if and
      only if no denied name covers it and an allowed name does, or both lists are empty. */
  lemma DefaultPolicyMeaning(
      isPrint: char -> bool, serverName: string, dp: DefaultPolicy, roles: set<string>, action: string, tool: string)
    ensures
      var r := Translate(isPrint, PolicyRulesFor(serverName, dp));
      && r.Ok?
      && r.value.resource == "mcp:server:" + serverName
      && (CerbosAllows(r.value, "mcp:server:" + serverName, roles, action, tool) <==>
            && !Covers(dp.deniedTools, action)
            && (Covers(dp.allowedTools, action) || (dp.allowedTools == [] && dp.deniedTools == [])))
  {
    var rules := PolicyRulesFor(serverName, dp);
    DefaultPolicyTranslates(isPrint, serverName, dp);
    var out := Translate(isPrint, rules).value.rules;
    MatchesByActions(isPrint, rules, out, roles, action, tool);
    assert Covers(["*"], action) by {
      assert Normalise(["*"][0]) == "*";
    }
    AllowedByRule(rules, out, dp, serverName, roles, action, tool);
  }

  lemma DefaultPolicyTranslates(isPrint: char -> bool, serverName: string, dp: DefaultPolicy)
    ensures
      var rules := PolicyRulesFor(serverName, dp);
      var r := Translate(isPrint, rules);
      && r.Ok?
      && r.value.resource == "mcp:server:" + serverName
      && Ok(r.value.rules) == TranslateRules(isPrint, rules)
  {
    var rules := PolicyRulesFor(serverName, dp);
    assert FirstServer(rules) == Some(serverName);
    TranslatedRules(isPrint, rules);
  }

  lemma MatchesByActions(
      isPrint: char -> bool, rules: seq<Rule>, out: seq<CerbosRule>, roles: set<string>, action: string, tool: string)
    requires TranslateRules(isPrint, rules) == Ok(out)
    requires forall i :: 0 <= i < |rules| ==> rules[i].principals == Principals([], []) && rules[i].tools == []
    ensures |out| == |rules|
    ensures forall i :: 0 <= i < |rules| ==>
      && (CerbosRuleMatches(out[i], roles, action, tool) <==> Covers(rules[i].actions, action))
      && (out[i].effect == "EFFECT_ALLOW" <==> rules[i].effect == ALLOW)
      && (out[i].effect == "EFFECT_DENY" <==> rules[i].effect == DENY)
  {
    TranslatedRules(isPrint, rules);
    forall i | 0 <= i < |rules|
      ensures CerbosRuleMatches(out[i], roles, action, tool) <==> Covers(rules[i].actions, action)
      ensures out[i].effect == "EFFECT_ALLOW" <==> rules[i].effect == ALLOW
      ensures out[i].effect == "EFFECT_DENY" <==> rules[i].effect == DENY
    {
      ServerRuleMatches(isPrint, rules[i], out[i].effect, roles, action, tool);
    }
  }

  lemma AllowedByRule(
      rules: seq<Rule>, out: seq<CerbosRule>, dp: DefaultPolicy, serverName: string,
      roles: set<string>, action: string, tool: string)
    requires rules == PolicyRulesFor(serverName, dp) && |out| == |rules| && Covers(["*"], action)
    requires forall i :: 0 <= i < |rules| ==>
      && (CerbosRuleMatches(out[i], roles, action, tool) <==> Covers(rules[i].actions, action))
      && (out[i].effect == "EFFECT_ALLOW" <==> rules[i].effect == ALLOW)
      && (out[i].effect == "EFFECT_DENY" <==> rules[i].effect == DENY)
    ensures SomeCerbosRuleMatches(out, "EFFECT_ALLOW", roles, action, tool) <==>
      Covers(dp.allowedTools, action) || (dp.allowedTools == [] && dp.deniedTools == [])
    ensures SomeCerbosRuleMatches(out, "EFFECT_DENY", roles, action, tool) <==> Covers(dp.deniedTools, action)
  {
    var n := |rules| - 1;
    assert |rules| <= 2;
    assert ALLOW[0] != DENY[0];
    if Covers(dp.allowedTools, action) || (dp.allowedTools == [] && dp.deniedTools == []) {
      assert out[0].effect == "EFFECT_ALLOW" && CerbosRuleMatches(out[0], roles, action, tool);
    }
    if Covers(dp.deniedTools, action) {
      assert out[n].effect == "EFFECT_DENY" && CerbosRuleMatches(out[n], roles, action, tool);
    }
  }

  lemma NormalisesToCall(t: string)
    ensures Normalise(t) == "tools:call" ==> t == "tools/call" || t == "tools:call"
  {
    if Normalise(t) == "tools:call" {
      assert |t| == 10;
      forall k | 0 <= k < 10 && k != 5 ensures t[k] == "tools:call"[k] {
        assert Normalise(t)[k] == "tools:call"[k];
      }
      assert Normalise(t)[5] == ':';
      assert t == if t[5] == '/' then "tools/call" else "tools:call";
    }
  }

  /** The listed names are compared with the action, not with the tool. Unless "*", "tools/call" or
      "tools:call" is listed, a default policy with allowed tools lets nobody call any tool. */
  lemma ToolNamesAreActions(
      isPrint: char -> bool, serverName: string, dp: DefaultPolicy, roles: set<string>, tool: string)
    requires dp.allowedTools != []
    requires forall t :: t in dp.allowedTools ==> t != "*" && t != "tools/call" && t != "tools:call"
    ensures
      var r := Translate(isPrint, PolicyRulesFor(serverName, dp));
      r.Ok? && !CerbosAllows(r.value, "mcp:server:" + serverName, roles, Normalise("tools/call"), tool)
  {
    var action := Normalise("tools/call");
    assert action == "tools:call";
    DefaultPolicyMeaning(isPrint, serverName, dp, roles, action, tool);
    forall i | 0 <= i < |dp.allowedTools|
      ensures Normalise(dp.allowedTools[i]) != "*" && Normalise(dp.allowedTools[i]) != action
    {
      assert dp.allowedTools[i] in dp.allowedTools;
      NormaliseKeepsTheWildcard(dp.allowedTools[i]);
      NormalisesToCall(dp.allowedTools[i]);
    }
  }
}
