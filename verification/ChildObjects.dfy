/** The Deployment, Service and HTTPRoute the operator wants for one MCPServer:
    specification functions, and the builders that compute them step by step. */
module ChildObjects {
  import opened Options
  import opened McpTypes

  const LABEL_NAME := "app.kubernetes.io/name"
  const LABEL_INSTANCE := "app.kubernetes.io/instance"
  const LABEL_MANAGED_BY := "app.kubernetes.io/managed-by"

  function CommonLabels(name: string): Labels {
    map[LABEL_NAME := "mcpserver", LABEL_INSTANCE := name, LABEL_MANAGED_BY := "mcp-gateway"]
  }

  // ------------------------------------------------------------- Deployment

  function SecretEnv(secrets: seq<ServerSecret>): seq<EnvVar> {
    seq(|secrets|, i requires 0 <= i < |secrets| =>
      EnvVar(secrets[i].envVar, FromSecret(secrets[i].secretName, secrets[i].secretKey)))
  }

  function ContainerEnv(spec: ServerSpec): seq<EnvVar> {
    SecretEnv(spec.secrets) + spec.env
  }

  function ProbeFor(source: Source): Option<Probe> {
    match source.healthCheck
    case None => None
    case Some(check) => Some(Probe(check.path, source.port, check.periodSeconds))
  }

  function ResourcesFor(spec: ServerSpec): Resources {
    if spec.resources.Some? then spec.resources.value else Resources(map[], map[])
  }

  function MainContainer(spec: ServerSpec): Container {
    Container("mcp-server", spec.source.image, [ContainerPort("mcp", spec.source.port)],
              ContainerEnv(spec), ResourcesFor(spec), ProbeFor(spec.source), ProbeFor(spec.source))
  }

  function BridgeContainer(spec: ServerSpec): Container {
    Container("stdio-bridge", spec.source.image, [ContainerPort("bridge", spec.source.port)],
              ContainerEnv(spec), ResourcesFor(spec), None, None)
  }

  function ReplicasFor(spec: ServerSpec): int {
    if spec.scaling.Some? && spec.scaling.value.minReplicas.Some?
    then spec.scaling.value.minReplicas.value
    else 1
  }

  function DeploymentFor(name: string, spec: ServerSpec): DeploymentSpec {
    DeploymentSpec(
      ReplicasFor(spec), CommonLabels(name), CommonLabels(name), spec.podAnnotations,
      [MainContainer(spec)] +
      (if spec.transport == TRANSPORT_STDIO then [BridgeContainer(spec)] else []))
  }

  /** Copying a map key by key, in any iteration order, yields the same map. */
  method CopyAnnotations(m: Labels) returns (r: Labels)
    ensures r == m
  {
    r := map[];
    var rest := m.Keys;
    while rest != {}
      invariant rest <= m.Keys
      invariant r.Keys == m.Keys - rest
      invariant forall k :: k in r ==> r[k] == m[k]
      decreases rest
    {
      var k :| k in rest;
      r := r[k := m[k]];
      rest := rest - {k};
    }
  }

  // What the Deployment of a server has to say, written out field by field.

  /** The variables taken from the referenced Secrets, in order, then those of the spec. */
  predicate IsEnvironmentOf(env: seq<EnvVar>, spec: ServerSpec) {
    var n := |spec.secrets|;
    && |env| == n + |spec.env|
    && (forall i :: 0 <= i < n ==>
          && env[i].name == spec.secrets[i].envVar
          && env[i].source == FromSecret(spec.secrets[i].secretName, spec.secrets[i].secretKey))
    && (forall i :: 0 <= i < |spec.env| ==> env[n + i] == spec.env[i])
  }

  predicate IsProbeOf(probe: Option<Probe>, spec: ServerSpec) {
    match spec.source.healthCheck
    case None => probe.None?
    case Some(check) =>
      && probe.Some? && probe.value.path == check.path && probe.value.periodSeconds == check.periodSeconds
      && probe.value.port == spec.source.port
  }

  predicate MeetsSpec(d: DeploymentSpec, name: string, spec: ServerSpec) {
    && (spec.scaling.Some? && spec.scaling.value.minReplicas.Some? ==>
          d.replicas == spec.scaling.value.minReplicas.value)
    && (spec.scaling.None? || spec.scaling.value.minReplicas.None? ==> d.replicas == 1)
    && d.selector == d.podLabels == map["app.kubernetes.io/name" := "mcpserver",
         "app.kubernetes.io/instance" := name, "app.kubernetes.io/managed-by" := "mcp-gateway"]
    && d.podAnnotations == spec.podAnnotations
    && |d.containers| == (if spec.transport == "stdio" then 2 else 1)
    && (forall c :: c in d.containers ==> c.image == spec.source.image && IsEnvironmentOf(c.env, spec))
    && d.containers[0].name == "mcp-server"
    && d.containers[0].ports == [ContainerPort("mcp", spec.source.port)]
    && IsProbeOf(d.containers[0].liveness, spec) && IsProbeOf(d.containers[0].readiness, spec)
    && (spec.transport == "stdio" ==>
          && d.containers[1].name == "stdio-bridge"
          && d.containers[1].ports == [ContainerPort("bridge", spec.source.port)]
          && d.containers[1].liveness.None? && d.containers[1].readiness.None?)
  }

  lemma DeploymentMeetsSpec(name: string, spec: ServerSpec)
    ensures MeetsSpec(DeploymentFor(name, spec), name, spec)
    ensures forall c :: c in DeploymentFor(name, spec).containers ==>
      c.resources == if spec.resources.Some? then spec.resources.value else Resources(map[], map[])
  {
  }

  /** buildDeployment: replicas, labels, annotations, containers, probes, environment and resources are
      those the spec asks for. */
  method BuildDeployment(name: string, spec: ServerSpec) returns (labels: Labels, r: DeploymentSpec)
    ensures MeetsSpec(r, name, spec) && labels == r.podLabels
    ensures forall c :: c in r.containers ==>
      c.resources == if spec.resources.Some? then spec.resources.value else Resources(map[], map[])
    ensures labels == CommonLabels(name)
    ensures r == DeploymentFor(name, spec)
  {
    labels := CommonLabels(name);
    var replicas := 1;
    if spec.scaling.Some? && spec.scaling.value.minReplicas.Some? {
      replicas := spec.scaling.value.minReplicas.value;
    }
    var env: seq<EnvVar> := [];
    for i := 0 to |spec.secrets|
      invariant env == SecretEnv(spec.secrets)[..i]
    {
      var s := spec.secrets[i];
      env := env + [EnvVar(s.envVar, FromSecret(s.secretName, s.secretKey))];
    }
    env := env + spec.env;
    assert env == ContainerEnv(spec);
    var main := Container("mcp-server", spec.source.image, [ContainerPort("mcp", spec.source.port)],
                          env, Resources(map[], map[]), None, None);
    if spec.resources.Some? {
      main := main.(resources := spec.resources.value);
    }
    if spec.source.healthCheck.Some? {
      var check := spec.source.healthCheck.value;
      var probe := Probe(check.path, spec.source.port, check.periodSeconds);
      main := main.(liveness := Some(probe));
      main := main.(readiness := Some(probe));
    }
    var containers := [main];
    if spec.transport == TRANSPORT_STDIO {
      var bridge := Container("stdio-bridge", spec.source.image, [ContainerPort("bridge", spec.source.port)],
                              env, Resources(map[], map[]), None, None);
      if spec.resources.Some? {
        bridge := bridge.(resources := spec.resources.value);
      }
      containers := containers + [bridge];
    }
    var annotations := CopyAnnotations(spec.podAnnotations);
    r := DeploymentSpec(replicas, labels, labels, annotations, containers);
    assert r == DeploymentFor(name, spec);
    DeploymentMeetsSpec(name, spec);
  }

  // ---------------------------------------------------------------- Service

  function ServiceFor(name: string, spec: ServerSpec): ServiceSpec {
    ServiceSpec([ServicePort("mcp", spec.source.port, spec.source.port)], CommonLabels(name))
  }

  /** buildService: one port, the same on both sides, and the labels of the server's pods. */
  method BuildService(name: string, spec: ServerSpec)
    returns (labels: Labels, annotations: Labels, r: ServiceSpec)
    ensures |r.ports| == 1 && r.ports[0].name == "mcp"
    ensures r.ports[0].port == spec.source.port && r.ports[0].targetPort == spec.source.port
    ensures r.selector == labels == map["app.kubernetes.io/name" := "mcpserver",
      "app.kubernetes.io/instance" := name, "app.kubernetes.io/managed-by" := "mcp-gateway"]
    ensures labels == CommonLabels(name)
    ensures annotations == spec.serviceAnnotations
    ensures r == ServiceFor(name, spec)
  {
    labels := CommonLabels(name);
    annotations := CopyAnnotations(spec.serviceAnnotations);
    r := ServiceSpec([ServicePort("mcp", spec.source.port, spec.source.port)], labels);
  }

  // -------------------------------------------------------------- HTTPRoute

  function RouteLabels(name: string): Labels {
    map[LABEL_MANAGED_BY := "mcp-gateway", "mcp-gateway.io/server" := name]
  }

  function PathPrefixFor(name: string): string {
    "/" + name + "/mcp"
  }

  function RouteFor(name: string, spec: ServerSpec, gatewayName: string, gatewayNamespace: string): RouteSpec {
    var backends := [BackendRef(name, spec.source.port)];
    RouteSpec(
      [ParentRef(gatewayName, gatewayNamespace)],
      [RouteRule([RouteMatch(PathPrefixFor(name), "POST")], backends),
       RouteRule([RouteMatch(PathPrefixFor(name), "GET")], backends)])
  }
}
