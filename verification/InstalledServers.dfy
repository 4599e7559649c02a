/** From a marketplace install to the running server: what the Deployment of an installed MCPServer
    hands to its container once the controller reports it Running. */
module InstalledServers {
  import opened Options
  import opened McpTypes
  import opened ChildObjects
  import opened ServerLifecycle
  import opened LifecycleTheorems
  import opened PodEnvironment
  import opened DefaultPolicies
  import opened Deploy

  /** Defaulting leaves container environments alone. */
  ghost predicate KeepsEnvironments(cfg: Config) {
    forall d :: SameEnvironments(cfg.defaultDeployment(d), d)
  }

  predicate SameEnvironments(a: DeploymentSpec, b: DeploymentSpec) {
    && |a.containers| == |b.containers|
    && forall i :: 0 <= i < |a.containers| ==>
         a.containers[i].name == b.containers[i].name && a.containers[i].env == b.containers[i].env
  }

  /** The controller reports the installed server, unedited, as Running. */
  ghost predicate RunsAsInstalled(w: World, installed: StoredServer) {
    && w.server.Some? && w.server.value.spec == installed.spec
    && w.server.value.status.phase.Running?
    && w.server.value.status.observedGeneration == w.server.value.generation
  }

  /** The environment of the first container of the stored Deployment is that of the main container. */
  lemma DeploymentCarriesTheEnvironment(cfg: Config, init: World, actions: seq<Action>, installed: StoredServer)
    requires Idempotent(cfg) && Init(init) && KeepsEnvironments(cfg)
    requires RunsAsInstalled(Run(cfg, init, actions), installed)
    ensures
      var w := Run(cfg, init, actions);
      DeploymentChild !in w.lost ==>
        && w.deployment.Some? && |w.deployment.value.spec.containers| > 0
        && w.deployment.value.spec.containers[0].name == "mcp-server"
        && w.deployment.value.spec.containers[0].env == MainContainer(installed.spec).env
  {
    RunningMeansServed(cfg, init, actions);
    assert DeploymentFor(cfg.key, installed.spec).containers[0] == MainContainer(installed.spec);
  }

  /** End to end: after a successful install and any run of the controller that ends with the server
      Running as installed, the first container of its Deployment, unless others deleted that,
      resolves every provided key that the template does not define to the provided value. */
  lemma SecretsReachTheDeployment(
      before: State, after: State, name: string, namespace: string, spec: ServerSpec, dp: Option<DefaultPolicy>,
      secrets: map<string, string>, keys: seq<string>, key: string,
      cfg: Config, init: World, actions: seq<Action>)
    requires InstallEnds(before, after, Plan(name, namespace, spec, dp, secrets, keys), Ok(name), name)
    requires Visits(keys, secrets) && key in secrets && !Defines(spec.env, key)
    requires Idempotent(cfg) && Init(init) && KeepsEnvironments(cfg) && cfg.key == name
    requires Key(namespace, name) in after.servers
    requires RunsAsInstalled(Run(cfg, init, actions), after.servers[Key(namespace, name)])
    ensures
      var w := Run(cfg, init, actions);
      var secretKey := Key(namespace, SecretNameFor(name));
      DeploymentChild !in w.lost ==>
      && w.deployment.Some? && |w.deployment.value.spec.containers| > 0
      && var main := w.deployment.value.spec.containers[0];
         main.name == "mcp-server"
         && LastOf(main.env, key) == Some(FromSecret(secretKey.name, key))
         && secretKey in after.secrets
         && key in after.secrets[secretKey].data
         && after.secrets[secretKey].data[key] == secrets[key]
  {
    SecretsReachTheContainer(before, after, name, namespace, spec, dp, secrets, keys, key);
    DeploymentCarriesTheEnvironment(cfg, init, actions, after.servers[Key(namespace, name)]);
  }
}
