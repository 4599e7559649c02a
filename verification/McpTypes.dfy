/** The custom resources of the gateway and the Kubernetes objects made from them,
    as the values the API server stores. A nil and an empty slice or map are one value here. */
module McpTypes {
  import opened Options

  type Labels = map<string, string>

  // ---------------------------------------------------------------- MCPServer

  datatype HealthCheck = HealthCheck(path: string, periodSeconds: int)
  datatype Source = Source(image: string, port: int, healthCheck: Option<HealthCheck>)
  datatype ScaleToZero = ScaleToZero(enabled: bool, idleTimeoutSeconds: int)
  datatype ScalingSpec = ScalingSpec(minReplicas: Option<int>, maxReplicas: int, scaleToZero: Option<ScaleToZero>)
  datatype ServerSecret = ServerSecret(envVar: string, secretName: string, secretKey: string)
  datatype Resources = Resources(limits: map<string, string>, requests: map<string, string>)

  /** Where the value of an environment variable comes from. */
  datatype EnvSource =
    | Literal(text: string)
    | FromSecret(secretName: string, secretKey: string)
    | FromElsewhere(reference: string)
  datatype EnvVar = EnvVar(name: string, source: EnvSource)

  datatype ServerSpec = ServerSpec(
    source: Source,
    transport: string,
    endpoint: string,
    scaling: Option<ScalingSpec>,
    secrets: seq<ServerSecret>,
    resources: Option<Resources>,
    env: seq<EnvVar>,
    serviceAnnotations: Labels,
    podAnnotations: Labels)

  const TRANSPORT_STDIO := "stdio"

  datatype Phase =
    | Unset | Pending | Deploying | Running | Updating | Scaling | Failed | Terminating

  datatype ConditionKind = ReadyCondition | DeployedCondition
  datatype Reason =
    | ValidationFailed | SecretNotFound
    | DeploymentFailed | ServiceFailed | DeploymentCreated
    | DeploymentReady | RolloutComplete | ReplicasNotReady
  datatype Condition = Condition(kind: ConditionKind, status: bool, reason: Reason, observedGeneration: nat)

  datatype Status = Status(
    phase: Phase,
    replicas: int,
    readyReplicas: int,
    conditions: seq<Condition>,
    deploymentName: string,
    serviceName: string,
    observedGeneration: nat)

  const EMPTY_STATUS := Status(Unset, 0, 0, [], "", "", 0)

  /** One stored MCPServer. `uid` tells a re-created object from the one it replaces. */
  datatype Server = Server(
    uid: nat,
    resourceVersion: nat,
    generation: nat,
    deleting: bool,
    finalizer: bool,
    spec: ServerSpec,
    status: Status)

  // ----------------------------------------------------------------- children

  datatype ContainerPort = ContainerPort(name: string, port: int)
  datatype Probe = Probe(path: string, port: int, periodSeconds: int)
  datatype Container = Container(
    name: string,
    image: string,
    ports: seq<ContainerPort>,
    env: seq<EnvVar>,
    resources: Resources,
    liveness: Option<Probe>,
    readiness: Option<Probe>)

  datatype DeploymentSpec = DeploymentSpec(
    replicas: int,
    selector: Labels,
    podLabels: Labels,
    podAnnotations: Labels,
    containers: seq<Container>)
  datatype DeploymentStatus = DeploymentStatus(replicas: int, readyReplicas: int, updatedReplicas: int)
  datatype Deployment = Deployment(
    resourceVersion: nat, labels: Labels, spec: DeploymentSpec, status: DeploymentStatus)

  datatype ServicePort = ServicePort(name: string, port: int, targetPort: int)
  datatype ServiceSpec = ServiceSpec(ports: seq<ServicePort>, selector: Labels)
  datatype Service = Service(
    resourceVersion: nat, labels: Labels, annotations: Labels, spec: ServiceSpec)

  datatype ParentRef = ParentRef(name: string, namespace: string)
  datatype BackendRef = BackendRef(name: string, port: int)
  datatype RouteMatch = RouteMatch(pathPrefix: string, httpMethod: string)
  datatype RouteRule = RouteRule(matches: seq<RouteMatch>, backends: seq<BackendRef>)
  datatype RouteSpec = RouteSpec(parents: seq<ParentRef>, rules: seq<RouteRule>)
  datatype Route = Route(resourceVersion: nat, labels: Labels, spec: RouteSpec)

  // -------------------------------------------------------------- conditions

  /** The condition of type `kind`, if there is one. */
  function FindCondition(conditions: seq<Condition>, kind: ConditionKind): Option<Condition> {
    if conditions == [] then None
    else if conditions[0].kind == kind then Some(conditions[0])
    else FindCondition(conditions[1..], kind)
  }

  ghost predicate UniqueKinds(conditions: seq<Condition>) {
    forall i, j :: 0 <= i < j < |conditions| ==> conditions[i].kind != conditions[j].kind
  }

  /** meta.SetStatusCondition: overwrite the condition of this type, or append it. */
  function SetCondition(conditions: seq<Condition>, c: Condition): (r: seq<Condition>)
    ensures forall kind :: FindCondition(r, kind) == if kind == c.kind then Some(c) else FindCondition(conditions, kind)
  {
    if conditions == [] then [c]
    else if conditions[0].kind == c.kind then [c] + conditions[1..]
    else
      var r := [conditions[0]] + SetCondition(conditions[1..], c);
      assert r[1..] == SetCondition(conditions[1..], c);
      r
  }

  lemma {:induction false} SetConditionMembers(conditions: seq<Condition>, c: Condition)
    ensures forall d :: d in SetCondition(conditions, c) ==> d == c || d in conditions
  {
    if conditions != [] {
      SetConditionMembers(conditions[1..], c);
    }
  }

  lemma {:induction false} SetConditionKeepsUnique(conditions: seq<Condition>, c: Condition)
    ensures UniqueKinds(conditions) ==> UniqueKinds(SetCondition(conditions, c))
  {
    if UniqueKinds(conditions) && conditions != [] && conditions[0].kind != c.kind {
      assert UniqueKinds(conditions[1..]);
      SetConditionKeepsUnique(conditions[1..], c);
      SetConditionMembers(conditions[1..], c);
      var tail := SetCondition(conditions[1..], c);
      var r := SetCondition(conditions, c);
      assert r == [conditions[0]] + tail;
      forall i, j | 0 <= i < j < |r| ensures r[i].kind != r[j].kind {
        assert r[j] == tail[j - 1] && tail[j - 1] in tail;
      }
    }
  }

  /** The condition of type `kind` is present and True. */
  predicate Holds(status: Status, kind: ConditionKind) {
    var c := FindCondition(status.conditions, kind);
    c.Some? && c.value.status
  }
}
