/** Installing a catalog entry: a Secret, an MCPServer wired to it, and a default policy. */
module Deploy {
  import opened Options
  import opened McpTypes
  import opened ChildObjects
  import opened HeapSpecs
  import opened Catalog
  import opened DefaultPolicies
  import opened PodEnvironment
  import PolicyCompiler

  // ------------------------------------------------------------------- cluster

  datatype Key = Key(namespace: string, name: string)
  datatype StoredSecret = StoredSecret(labels: Labels, data: map<string, string>)
  datatype StoredServer = StoredServer(labels: Labels, spec: ServerSpec)
  datatype StoredPolicy = StoredPolicy(labels: Labels, rules: seq<PolicyCompiler.Rule>)
  datatype State = State(
    secrets: map<Key, StoredSecret>, servers: map<Key, StoredServer>, policies: map<Key, StoredPolicy>)

  /** A write an install intends. Secrets are created or updated, the other two only created. */
  datatype Write =
    | PutSecret(key: Key, labels: Labels, data: map<string, string>)
    | NewServer(key: Key, labels: Labels, spec: ServerSpec)
    | NewPolicy(key: Key, labels: Labels, rules: seq<PolicyCompiler.Rule>)

  predicate Acceptable(c: State, w: Write) {
    match w
    case PutSecret(_, _, _) => true
    case NewServer(key, _, _) => key !in c.servers
    case NewPolicy(key, _, _) => key !in c.policies
  }

  /** The effect of a write. String data is merged into what a Secret holds already. */
  function Apply(c: State, w: Write): State {
    if !Acceptable(c, w) then c
    else
      match w
      case PutSecret(key, labels, data) =>
        var held := if key in c.secrets then c.secrets[key].data else map[];
        c.(secrets := c.secrets[key := StoredSecret(labels, held + data)])
      case NewServer(key, labels, spec) =>
        c.(servers := c.servers[key := StoredServer(labels, spec)])
      case NewPolicy(key, labels, rules) =>
        c.(policies := c.policies[key := StoredPolicy(labels, rules)])
  }

  function ApplyAll(c: State, ws: seq<Write>): State
    decreases |ws|
  {
    if ws == [] then c else Apply(ApplyAll(c, ws[..|ws| - 1]), ws[|ws| - 1])
  }

  class Cluster {
    var state: State

    constructor (state: State)
      ensures this.state == state
    {
      this.state := state;
    }

    /** A write that is answered took effect; one that is not may have taken effect or not. */
    method Do(w: Write) returns (ok: bool)
      modifies this
      ensures ok ==> Acceptable(old(state), w) && state == Apply(old(state), w)
      ensures !ok ==> state == old(state) || state == Apply(old(state), w)
    {
      var answered: bool, landed: bool := *, *;
      ok := answered && Acceptable(state, w);
      if answered || landed {
        state := Apply(state, w);
      }
    }
  }

  // ---------------------------------------------------------------------- plan

  const ENTRY_LABEL := "mcp-gateway.io/entry-name"

  function InstallLabels(entryName: string, component: string): Labels {
    map["mcp-gateway.io/managed-by" := "marketplace", ENTRY_LABEL := entryName,
        "app.kubernetes.io/component" := component]
  }

  function SecretNameFor(serverName: string): string {
    serverName + "-secrets"
  }

  function SecretWrites(name: string, namespace: string, secrets: map<string, string>): seq<Write> {
    if |secrets| > 0
    then [PutSecret(Key(namespace, SecretNameFor(name)), InstallLabels(name, "mcp-server"), secrets)]
    else []
  }

  function ServerWrite(name: string, namespace: string, spec: ServerSpec): Write {
    NewServer(Key(namespace, name), InstallLabels(name, "mcp-server"), spec)
  }

  function PolicyWrites(name: string, namespace: string, dp: Option<DefaultPolicy>): seq<Write> {
    if dp.Some?
    then [NewPolicy(Key(namespace, name + "-policy"), InstallLabels(name, "mcp-policy"), PolicyRulesFor(name, dp.value))]
    else []
  }

  /** The writes of an install, in order, when the provided keys are visited in the order `keys`. */
  function Plan(name: string, namespace: string, spec: ServerSpec, dp: Option<DefaultPolicy>,
                secrets: map<string, string>, keys: seq<string>): seq<Write>
  {
    SecretWrites(name, namespace, secrets)
    + [ServerWrite(name, namespace, Wired(spec, SecretNameFor(name), keys))]
    + PolicyWrites(name, namespace, dp)
  }

  /** `keys` visits every provided key once. */
  ghost predicate Visits(keys: seq<string>, secrets: map<string, string>) {
    && (forall k :: k in keys <==> k in secrets)
    && (forall i, j :: 0 <= i < j < |keys| ==> keys[i] != keys[j])
  }

  datatype DeployError = EntryNotFound(entry: string) | SecretMissing(secret: string) | WriteFailed(write: nat)

  predicate Provided(required: seq<string>, secrets: map<string, string>) {
    forall i :: 0 <= i < |required| ==> required[i] in secrets
  }

  ghost predicate CatalogOk(store: CatalogStore)
    reads store
  {
    store.Valid() && forall k :: k in store.entries ==> WellShaped(store.entries[k].template.spec)
  }

  /** The API server took every write of `ws`, in order. */
  predicate Accepted(c: State, ws: seq<Write>)
    decreases |ws|
  {
    ws == [] ||
    var earlier := ws[..|ws| - 1];
    Accepted(c, earlier) && Acceptable(ApplyAll(c, earlier), ws[|ws| - 1])
  }

  /** A plan was carried out completely, or up to a write that failed and may still have landed. */
  ghost predicate InstallEnds(before: State, after: State, plan: seq<Write>, r: Result<string, DeployError>, name: string) {
    match r
    case Ok(n) => n == name && after == ApplyAll(before, plan) && Accepted(before, plan)
    case Err(e) =>
      e.WriteFailed? && e.write < |plan| &&
      (after == ApplyAll(before, plan[..e.write]) || after == ApplyAll(before, plan[..e.write + 1]))
  }

  lemma OneMoreWrite(c: State, ws: seq<Write>, w: Write)
    ensures ApplyAll(c, ws + [w]) == Apply(ApplyAll(c, ws), w)
    ensures Accepted(c, ws + [w]) <==> Accepted(c, ws) && Acceptable(ApplyAll(c, ws), w)
  {
    assert (ws + [w])[..|ws|] == ws;
  }

  lemma {:induction false} SomeOrder(secrets: map<string, string>) returns (keys: seq<string>)
    ensures Visits(keys, secrets)
    decreases |secrets|
  {
    if secrets == map[] {
      keys := [];
    } else {
      var k :| k in secrets;
      var rest := secrets - {k};
      assert |rest.Keys| < |secrets.Keys| by {
        assert rest.Keys == secrets.Keys - {k};
      }
      keys := SomeOrder(rest);
      keys := keys + [k];
    }
  }

  // ------------------------------------------------- an install, written out

  /** The maps agree but for one key. */
  ghost predicate SameBut<V>(a: map<Key, V>, b: map<Key, V>, key: Key) {
    forall k :: k != key ==> (k in a <==> k in b) && (k in a ==> a[k] == b[k])
  }

  /** Whether it succeeds or fails, an install touches at most the Secret, the server and the policy named
      after the entry in the namespace asked for: no Secret if no values are given, no policy if the
      entry has no default policy. */
  ghost predicate Touches(
      before: State, after: State, name: string, namespace: string, dp: Option<DefaultPolicy>, secrets: map<string, string>)
  {
    && SameBut(before.secrets, after.secrets, Key(namespace, name + "-secrets"))
    && SameBut(before.servers, after.servers, Key(namespace, name))
    && SameBut(before.policies, after.policies, Key(namespace, name + "-policy"))
    && (secrets == map[] ==> after.secrets == before.secrets)
    && (dp.None? ==> after.policies == before.policies)
  }

  predicate IsPart(w: Write, name: string, namespace: string, dp: Option<DefaultPolicy>, secrets: map<string, string>) {
    match w
    case PutSecret(key, _, _) => key == Key(namespace, name + "-secrets") && secrets != map[]
    case NewServer(key, _, _) => key == Key(namespace, name)
    case NewPolicy(key, _, _) => key == Key(namespace, name + "-policy") && dp.Some?
  }

  lemma {:induction false} PartsTouch(
      c: State, ws: seq<Write>, name: string, namespace: string, dp: Option<DefaultPolicy>, secrets: map<string, string>)
    requires forall w :: w in ws ==> IsPart(w, name, namespace, dp, secrets)
    ensures Touches(c, ApplyAll(c, ws), name, namespace, dp, secrets)
    decreases |ws|
  {
    if ws != [] {
      var n := |ws| - 1;
      assert ws[n] in ws;
      PartsTouch(c, ws[..n], name, namespace, dp, secrets);
    }
  }

  lemma InstallTouches(
      before: State, after: State, name: string, namespace: string, spec: ServerSpec, dp: Option<DefaultPolicy>,
      secrets: map<string, string>, keys: seq<string>, r: Result<string, DeployError>)
    requires InstallEnds(before, after, Plan(name, namespace, spec, dp, secrets, keys), r, name)
    ensures Touches(before, after, name, namespace, dp, secrets)
  {
    var plan := Plan(name, namespace, spec, dp, secrets, keys);
    var done := if r.Ok? then plan
                else if after == ApplyAll(before, plan[..r.error.write]) then plan[..r.error.write]
                else plan[..r.error.write + 1];
    PartsTouch(before, done, name, namespace, dp, secrets);
  }

  /** What a server was wired with: the template, then one reference per provided key, each once. */
  ghost predicate IsWired(spec: ServerSpec, template: ServerSpec, secretName: string, secrets: map<string, string>) {
    var n := |template.secrets|;
    && spec == template.(secrets := spec.secrets)
    && n <= |spec.secrets| && spec.secrets[..n] == template.secrets
    && (forall i :: n <= i < |spec.secrets| ==>
          var s := spec.secrets[i];
          s.envVar in secrets && s.secretName == secretName && s.secretKey == s.envVar)
    && (forall k :: k in secrets ==> exists i :: n <= i < |spec.secrets| && spec.secrets[i].envVar == k)
    && (forall i, j :: n <= i < j < |spec.secrets| ==> spec.secrets[i].envVar != spec.secrets[j].envVar)
  }

  /** What a successful install leaves behind. */
  ghost predicate IsInstalled(
      before: State, after: State, name: string, namespace: string, template: ServerSpec, dp: Option<DefaultPolicy>,
      secrets: map<string, string>)
  {
    var serverKey, secretKey, policyKey := Key(namespace, name), Key(namespace, name + "-secrets"), Key(namespace, name + "-policy");
    var labels := map["mcp-gateway.io/managed-by" := "marketplace", "mcp-gateway.io/entry-name" := name,
                      "app.kubernetes.io/component" := "mcp-server"];
    && serverKey !in before.servers && serverKey in after.servers
    && after.servers[serverKey].labels == labels
    && IsWired(after.servers[serverKey].spec, template, name + "-secrets", secrets)
    && (secrets != map[] ==>
          && secretKey in after.secrets
          && after.secrets[secretKey].labels == labels
          && after.secrets[secretKey].data ==
               (if secretKey in before.secrets then before.secrets[secretKey].data else map[]) + secrets)
    && (dp.Some? ==>
          && policyKey !in before.policies && policyKey in after.policies
          && after.policies[policyKey].labels == labels["app.kubernetes.io/component" := "mcp-policy"]
          && after.policies[policyKey].rules == PolicyRulesFor(name, dp.value))
  }

  lemma WiresAreWired(template: ServerSpec, secretName: string, keys: seq<string>, secrets: map<string, string>)
    requires Visits(keys, secrets)
    ensures IsWired(Wired(template, secretName, keys), template, secretName, secrets)
  {
    var spec, n := Wired(template, secretName, keys), |template.secrets|;
    forall i | 0 <= i < |keys| ensures keys[i] in keys && spec.secrets[n + i] == ServerSecret(keys[i], secretName, keys[i]) {
    }
    forall k | k in secrets ensures exists i :: n <= i < |spec.secrets| && spec.secrets[i].envVar == k {
      var i :| 0 <= i < |keys| && keys[i] == k;
      assert spec.secrets[n + i].envVar == k;
    }
    forall i | n <= i < |spec.secrets| ensures spec.secrets[i] == ServerSecret(keys[i - n], secretName, keys[i - n]) {
    }
  }

  // --------------------------------------------------------------- the service

  /** A spec as the client library sends it. */
  method Serialise(s: HeapSpec) returns (r: ServerSpec)
    requires WellShaped(s)
    ensures r == Value(s)
  {
    var env: seq<EnvVar> := [];
    for i := 0 to s.env.len
      invariant |env| == i && forall k :: 0 <= k < i ==> env[k] == EnvVarValue(s.env.Items()[k])
    {
      var e := s.env.arr[i];
      env := env + [EnvVar(e.name, if e.valueFrom == null then Literal(e.value) else e.valueFrom.v)];
    }
    assert env == EnvValue(s.env);
    var scaling := None;
    if s.scaling != null {
      var c := s.scaling.v;
      scaling := Some(ScalingSpec(
        if c.minReplicas == null then None else Some(c.minReplicas.v), c.maxReplicas,
        if c.scaleToZero == null then None else Some(c.scaleToZero.v)));
    }
    r := ServerSpec(
      Source(s.source.image, s.source.port,
             if s.source.healthCheck == null then None else Some(s.source.healthCheck.v)),
      s.transport, s.endpoint, scaling, s.secrets.Items(),
      if s.resources == null then None else Some(s.resources.v), env,
      if s.serviceAnnotations == null then map[] else s.serviceAnnotations.v,
      if s.podAnnotations == null then map[] else s.podAnnotations.v);
  }

  /** Append one reference per provided key, in any iteration order. The slice has no room, so the
      first append moves to a new array and nothing that existed before is written. */
  method WireSecrets(s: Slice<ServerSecret>, secretName: string, secrets: map<string, string>)
    returns (r: Slice<ServerSecret>, ghost keys: seq<string>)
    requires s.InBounds() && s.Full()
    ensures r.InBounds() && Visits(keys, secrets)
    ensures r.Items() == s.Items() + Wires(secretName, keys)
  {
    r := s;
    keys := [];
    ghost var items := s.Items();
    var rest := secrets.Keys;
    while rest != {}
      invariant rest <= secrets.Keys && r.InBounds()
      invariant forall k :: k in keys <==> k in secrets && k !in rest
      invariant forall i, j :: 0 <= i < j < |keys| ==> keys[i] != keys[j]
      invariant r.Items() == items + Wires(secretName, keys)
      invariant r == s || (r.arr != null && fresh(r.arr))
      decreases rest
    {
      var k :| k in rest;
      r := Append(r, ServerSecret(k, secretName, k));
      assert Wires(secretName, keys + [k]) == Wires(secretName, keys) + [ServerSecret(k, secretName, k)];
      keys := keys + [k];
      rest := rest - {k};
    }
  }

  /** Wire the keys into a copy and send it. */
  method WireCopy(copy: HeapSpec, secretName: string, secrets: map<string, string>)
    returns (r: ServerSpec, ghost keys: seq<string>)
    requires WellShaped(copy) && copy.secrets.Full()
    ensures Visits(keys, secrets) && r == Wired(old(Value(copy)), secretName, keys)
  {
    var wired := copy.secrets;
    keys := [];
    if |secrets| > 0 {
      wired, keys := WireSecrets(copy.secrets, secretName, secrets);
    }
    r := Serialise(copy.(secrets := wired));
  }

  /** The spec of the new MCPServer: a deep copy of the template with the keys wired in. */
  method PrepareSpec(spec: HeapSpec, secretName: string, secrets: map<string, string>)
    returns (r: ServerSpec, ghost keys: seq<string>)
    requires WellShaped(spec)
    ensures Visits(keys, secrets) && r == Wired(old(Value(spec)), secretName, keys)
  {
    var copy := DeepCopy(spec);
    r, keys := WireCopy(copy, secretName, secrets);
  }

  class DeployService {
    const cluster: Cluster
    const store: CatalogStore

    constructor (cluster: Cluster, store: CatalogStore)
      ensures this.cluster == cluster && this.store == store
    {
      this.cluster, this.store := cluster, store;
    }

    /** Steps 3 to 6: the writes, in order, until one fails. */
    method Install(name: string, namespace: string, t: Template, secrets: map<string, string>)
      returns (r: Result<string, DeployError>, ghost keys: seq<string>)
      requires WellShaped(t.spec)
      modifies cluster
      ensures Visits(keys, secrets)
      ensures InstallEnds(old(cluster.state), cluster.state,
                      Plan(name, namespace, old(Value(t.spec)), t.defaultPolicy, secrets, keys), r, name)
    {
      ghost var template, start := Value(t.spec), cluster.state;
      ghost var ws: seq<Write> := [];
      keys := SomeOrder(secrets);
      var done := 0;
      if |secrets| > 0 {
        var w := PutSecret(Key(namespace, name + "-secrets"), InstallLabels(name, "mcp-server"), secrets);
        var ok := cluster.Do(w);
        OneMoreWrite(start, ws, w);
        if !ok {
          FailedInstallEnds(start, cluster.state, Plan(name, namespace, template, t.defaultPolicy, secrets, keys), ws, w, name);
          return Err(WriteFailed(done)), keys;
        }
        ws := ws + [w];
        done := done + 1;
      }
      assert ws == SecretWrites(name, namespace, secrets);
      var spec;
      spec, keys := PrepareSpec(t.spec, name + "-secrets", secrets);
      r := CreateServerAndPolicy(name, namespace, template, t.defaultPolicy, secrets, spec, keys, start, ws, done);
    }

    /** Steps 4 to 6, after the writes `ws`. */
    method CreateServerAndPolicy(
        name: string, namespace: string, ghost template: ServerSpec, dp: Option<DefaultPolicy>,
        secrets: map<string, string>, spec: ServerSpec, ghost keys: seq<string>,
        ghost start: State, ghost ws: seq<Write>, done: nat)
      returns (r: Result<string, DeployError>)
      requires spec == Wired(template, SecretNameFor(name), keys)
      requires ws == SecretWrites(name, namespace, secrets) && done == |ws|
      requires cluster.state == ApplyAll(start, ws) && Accepted(start, ws)
      modifies cluster
      ensures InstallEnds(start, cluster.state, Plan(name, namespace, template, dp, secrets, keys), r, name)
    {
      ghost var plan := Plan(name, namespace, template, dp, secrets, keys);
      var w := NewServer(Key(namespace, name), InstallLabels(name, "mcp-server"), spec);
      var ok := cluster.Do(w);
      OneMoreWrite(start, ws, w);
      if !ok {
        FailedInstallEnds(start, cluster.state, plan, ws, w, name);
        return Err(WriteFailed(done));
      }
      r := CreatePolicy(name, namespace, dp, start, ws + [w], plan, done + 1);
    }

    /** Steps 5 and 6, after all writes of the plan but the policy. */
    method CreatePolicy(
        name: string, namespace: string, dp: Option<DefaultPolicy>,
        ghost start: State, ghost ws: seq<Write>, ghost plan: seq<Write>, done: nat)
      returns (r: Result<string, DeployError>)
      requires plan == ws + PolicyWrites(name, namespace, dp) && done == |ws|
      requires cluster.state == ApplyAll(start, ws) && Accepted(start, ws)
      modifies cluster
      ensures InstallEnds(start, cluster.state, plan, r, name)
    {
      if dp.Some? {
        var rules := BuildPolicyRules(name, dp.value);
        var p := NewPolicy(Key(namespace, name + "-policy"), InstallLabels(name, "mcp-policy"), rules);
        var ok := cluster.Do(p);
        OneMoreWrite(start, ws, p);
        if !ok {
          FailedInstallEnds(start, cluster.state, plan, ws, p, name);
          return Err(WriteFailed(done));
        }
        assert plan == ws + [p];
      } else {
        assert plan == ws;
      }
      return Ok(name);
    }

    /** Steps 1 and 2: the entry, if it exists and its required secrets are provided. */
    method Find(entryName: string, secrets: map<string, string>) returns (r: Result<Entry, DeployError>)
      requires CatalogOk(store)
      ensures entryName !in store.entries ==> r == Err(EntryNotFound(entryName))
      ensures entryName in store.entries && !Provided(store.entries[entryName].template.requiredSecrets, secrets) ==>
        && r.Err? && r.error.SecretMissing? && r.error.secret !in secrets
        && r.error.secret in store.entries[entryName].template.requiredSecrets
      ensures entryName in store.entries && Provided(store.entries[entryName].template.requiredSecrets, secrets) ==>
        r == Ok(store.entries[entryName]) && r.value.name == entryName
    {
      var found := store.Get(entryName);
      if found.None? {
        return Err(EntryNotFound(entryName));
      }
      var required := found.value.template.requiredSecrets;
      for i := 0 to |required|
        invariant forall k :: 0 <= k < i ==> required[k] in secrets
      {
        if required[i] !in secrets {
          return Err(SecretMissing(required[i]));
        }
      }
      return Ok(found.value);
    }

    /** An unknown entry or a missing secret changes nothing. Otherwise the writes happen in a fixed
        order up to the first that fails, and the name returned is the one asked for. Only the cluster
        is written. */
    method DeployFromCatalog(entryName: string, namespace: string, secrets: map<string, string>)
      returns (r: Result<string, DeployError>, ghost keys: seq<string>)
      requires CatalogOk(store)
      modifies cluster
      ensures entryName !in store.entries ==>
        r == Err(EntryNotFound(entryName)) && cluster.state == old(cluster.state)
      ensures entryName in store.entries && !Provided(store.entries[entryName].template.requiredSecrets, secrets) ==>
        && r.Err? && r.error.SecretMissing? && r.error.secret !in secrets
        && r.error.secret in store.entries[entryName].template.requiredSecrets
        && cluster.state == old(cluster.state)
      ensures entryName in store.entries && Provided(store.entries[entryName].template.requiredSecrets, secrets) ==>
        var t := store.entries[entryName].template;
        && Visits(keys, secrets)
        && InstallEnds(old(cluster.state), cluster.state,
                   Plan(entryName, namespace, old(Value(t.spec)), t.defaultPolicy, secrets, keys), r, entryName)
      ensures entryName in store.entries ==>
        Touches(old(cluster.state), cluster.state, entryName, namespace,
                store.entries[entryName].template.defaultPolicy, secrets)
      ensures r.Ok? ==>
        && entryName in store.entries && r.value == entryName
        && Provided(store.entries[entryName].template.requiredSecrets, secrets)
        && IsInstalled(old(cluster.state), cluster.state, entryName, namespace,
                       old(Value(store.entries[entryName].template.spec)),
                       store.entries[entryName].template.defaultPolicy, secrets)
    {
      keys := [];
      var entry := Find(entryName, secrets);
      if entry.Err? {
        return Err(entry.error), keys;
      }
      var t := entry.value.template;
      ghost var start, spec := cluster.state, Value(t.spec);
      assert start == old(cluster.state) && spec == old(Value(t.spec));
      r, keys := Install(entry.value.name, namespace, t, secrets);
      assert InstallEnds(start, cluster.state, Plan(entryName, namespace, spec, t.defaultPolicy, secrets, keys), r, entryName);
      InstallTouches(start, cluster.state, entryName, namespace, spec, t.defaultPolicy, secrets, keys, r);
      if r.Ok? {
        InstallWrittenOut(start, cluster.state, entryName, namespace, spec, t.defaultPolicy, secrets, keys);
      }
    }

    /** A client asking for one install after another: the catalog entries stay what they were. */
    method DeployMany(requests: seq<(string, string, map<string, string>)>)
      requires CatalogOk(store)
      modifies cluster
      ensures CatalogOk(store)
      ensures forall k :: k in store.entries ==>
        Value(store.entries[k].template.spec) == old(Value(store.entries[k].template.spec))
    {
      for i := 0 to |requests|
      {
        var _, _ := DeployFromCatalog(requests[i].0, requests[i].1, requests[i].2);
      }
    }
  }

  lemma FailedInstallEnds(
      start: State, now: State, plan: seq<Write>, ws: seq<Write>, w: Write, name: string)
    requires |ws| < |plan| && plan[..|ws|] == ws && plan[|ws|] == w
    requires now == ApplyAll(start, ws) || now == ApplyAll(start, ws + [w])
    ensures InstallEnds(start, now, plan, Err(WriteFailed(|ws|)), name)
  {
    assert plan[..|ws| + 1] == ws + [w];
  }

  // ------------------------------------------------------------ after an install

  /** After a successful install every provided value reaches the main container: its
      environment maps each provided key the template does not redefine to a reference that the
      created Secret resolves to that value, whatever the order the keys were visited in. */
  lemma SecretsReachTheContainer(
      before: State, after: State, name: string, namespace: string, spec: ServerSpec, dp: Option<DefaultPolicy>,
      secrets: map<string, string>, keys: seq<string>, key: string)
    requires InstallEnds(before, after, Plan(name, namespace, spec, dp, secrets, keys), Ok(name), name)
    requires Visits(keys, secrets) && key in secrets && !Defines(spec.env, key)
    ensures
      var secretName := SecretNameFor(name);
      && Key(namespace, name) in after.servers
      && LastOf(MainContainer(after.servers[Key(namespace, name)].spec).env, key) == Some(FromSecret(secretName, key))
      && Key(namespace, secretName) in after.secrets
      && key in after.secrets[Key(namespace, secretName)].data
      && after.secrets[Key(namespace, secretName)].data[key] == secrets[key]
  {
    AfterPlan(before, after, name, namespace, spec, dp, secrets, keys);
    WiredEnvironment(spec, SecretNameFor(name), keys, key);
  }

  /** The state the plan leads to. */
  lemma AfterPlan(
      before: State, after: State, name: string, namespace: string, spec: ServerSpec, dp: Option<DefaultPolicy>,
      secrets: map<string, string>, keys: seq<string>)
    requires InstallEnds(before, after, Plan(name, namespace, spec, dp, secrets, keys), Ok(name), name)
    ensures
      var serverKey, secretKey, policyKey := Key(namespace, name), Key(namespace, SecretNameFor(name)), Key(namespace, name + "-policy");
      && serverKey !in before.servers && serverKey in after.servers
      && after.servers[serverKey] == StoredServer(InstallLabels(name, "mcp-server"), Wired(spec, SecretNameFor(name), keys))
      && (|secrets| > 0 ==>
            && secretKey in after.secrets
            && after.secrets[secretKey] == StoredSecret(InstallLabels(name, "mcp-server"),
                 (if secretKey in before.secrets then before.secrets[secretKey].data else map[]) + secrets))
      && (dp.Some? ==>
            && policyKey !in before.policies && policyKey in after.policies
            && after.policies[policyKey] == StoredPolicy(InstallLabels(name, "mcp-policy"), PolicyRulesFor(name, dp.value)))
  {
    var plan := Plan(name, namespace, spec, dp, secrets, keys);
    var first := if |secrets| > 0
      then [PutSecret(Key(namespace, SecretNameFor(name)), InstallLabels(name, "mcp-server"), secrets)] else [];
    var server := NewServer(Key(namespace, name), InstallLabels(name, "mcp-server"), Wired(spec, SecretNameFor(name), keys));
    assert ApplyAll(before, []) == before;
    if |secrets| > 0 {
      OneMoreWrite(before, [], first[0]);
      assert [] + [first[0]] == first;
    }
    OneMoreWrite(before, first, server);
    if dp.Some? {
      var policy := NewPolicy(Key(namespace, name + "-policy"), InstallLabels(name, "mcp-policy"), PolicyRulesFor(name, dp.value));
      OneMoreWrite(before, first + [server], policy);
      assert plan == first + [server] + [policy];
    } else {
      assert plan == first + [server];
    }
  }

  lemma InstallWrittenOut(
      before: State, after: State, name: string, namespace: string, spec: ServerSpec, dp: Option<DefaultPolicy>,
      secrets: map<string, string>, keys: seq<string>)
    requires InstallEnds(before, after, Plan(name, namespace, spec, dp, secrets, keys), Ok(name), name)
    requires Visits(keys, secrets)
    ensures IsInstalled(before, after, name, namespace, spec, dp, secrets)
  {
    AfterPlan(before, after, name, namespace, spec, dp, secrets, keys);
    WiresAreWired(spec, SecretNameFor(name), keys, secrets);
  }

  /** The policy an install leaves behind decides exactly as the default policy of the entry says. */
  lemma InstalledPolicyMeaning(
      before: State, after: State, name: string, namespace: string, spec: ServerSpec, dp: DefaultPolicy,
      secrets: map<string, string>, keys: seq<string>,
      isPrint: char -> bool, roles: set<string>, action: string, tool: string)
    requires InstallEnds(before, after, Plan(name, namespace, spec, Some(dp), secrets, keys), Ok(name), name)
    ensures
      var policyKey := Key(namespace, name + "-policy");
      && policyKey in after.policies
      && var r := PolicyCompiler.Translate(isPrint, after.policies[policyKey].rules);
         && r.Ok?
         && (PolicyCompiler.CerbosAllows(r.value, "mcp:server:" + name, roles, action, tool) <==>
               && !Covers(dp.deniedTools, action)
               && (Covers(dp.allowedTools, action) || (dp.allowedTools == [] && dp.deniedTools == [])))
  {
    AfterPlan(before, after, name, namespace, spec, Some(dp), secrets, keys);
    DefaultPolicyMeaning(isPrint, name, dp, roles, action, tool);
  }
}
