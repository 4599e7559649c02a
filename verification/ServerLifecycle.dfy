/** The MCPServer controller and its surroundings as a transition system.

    One operator step is one API call together with the computation that follows it up to the
    next call. Between two operator steps users and other controllers may act, the call may be
    rejected, its answer may be lost after it took effect, and the operator may crash. */
module ServerLifecycle {
  import opened Options
  import opened McpTypes
  import opened ChildObjects
  import opened Reconciling

  const REQUEUE_DEPLOYING: nat := 5
  const REQUEUE_RUNNING: nat := 30
  const REQUEUE_FAILED: nat := 60

  /** `key` is the name being reconciled. The three functions are what the API server makes of a
      child spec when it stores it: any defaulting whatsoever, required below to be idempotent. */
  datatype Config = Config(
    key: string,
    gatewayName: string,
    gatewayNamespace: string,
    defaultDeployment: DeploymentSpec -> DeploymentSpec,
    defaultService: ServiceSpec -> ServiceSpec,
    defaultRoute: RouteSpec -> RouteSpec)

  ghost predicate Idempotent(cfg: Config) {
    && (forall d :: cfg.defaultDeployment(cfg.defaultDeployment(d)) == cfg.defaultDeployment(d))
    && (forall s :: cfg.defaultService(cfg.defaultService(s)) == cfg.defaultService(s))
    && (forall r :: cfg.defaultRoute(cfg.defaultRoute(r)) == cfg.defaultRoute(r))
  }

  function DesiredRoute(cfg: Config, spec: ServerSpec): RouteSpec {
    RouteFor(cfg.key, spec, cfg.gatewayName, cfg.gatewayNamespace)
  }

  // ------------------------------------------------------------------- state

  datatype Child = DeploymentChild | ServiceChild | RouteChild

  /** The API call a reconcile is about to make. */
  datatype Pc =
    | PutFinalizer
    | CheckSecret(next: nat)
    | FetchDeployment | CreateDeployment | UpdateDeployment(oldDeployment: Deployment)
    | FetchService | CreateService | UpdateService(oldService: Service)
    | ObserveDeployment
    | FetchRoute | CreateRoute | UpdateRoute(oldRoute: Route)
    | PutStatus(outcome: Outcome)

  /** `mem` is the in-memory copy the handlers change; `read` is the status it was read with. */
  datatype Task = Idle | Busy(pc: Pc, read: Status, mem: Server)

  /** `lost` names the children others deleted and the operator has not created again since. */
  datatype World = World(
    revision: nat,
    nextUid: nat,
    server: Option<Server>,
    deployment: Option<Deployment>,
    service: Option<Service>,
    route: Option<Route>,
    secrets: set<string>,
    lost: set<Child>,
    task: Task,
    last: Outcome)

  ghost predicate Init(w: World) {
    && w.server.None? && w.deployment.None? && w.service.None? && w.route.None?
    && w.lost == {} && w.task.Idle?
  }

  /** A call is answered normally, or fails for a reason of its own; a failing write may still
      have landed at the server. */
  datatype Reply = Answered | Fault(landed: bool)

  predicate Lands(reply: Reply) {
    reply.Answered? || reply.landed
  }

  // ------------------------------------------------------------- environment

  datatype EnvAction =
    | UserCreate(spec: ServerSpec)
    | UserEdit(spec: ServerSpec)
    | UserTouch
    | UserDelete
    | ReportStatus(status: DeploymentStatus)
    | RemoveChild(child: Child)
    | SetSecrets(names: set<string>)

  datatype Action = Env(env: EnvAction) | Crash | Op(reply: Reply)

  function EnvStep(w: World, a: EnvAction): World {
    match a
    case UserCreate(spec) =>
      if w.server.Some? then w
      else w.(server := Some(Server(w.nextUid, w.revision + 1, 1, false, false, spec, EMPTY_STATUS)),
              nextUid := w.nextUid + 1, revision := w.revision + 1)
    case UserEdit(spec) =>
      if w.server.None? || w.server.value.spec == spec then w
      else Store(w, w.server.value.(spec := spec, generation := w.server.value.generation + 1))
    case UserTouch =>
      if w.server.None? then w else Store(w, w.server.value)
    case UserDelete =>
      if w.server.None? || w.server.value.deleting then w
      else if w.server.value.finalizer then
        Store(w, w.server.value.(deleting := true, generation := w.server.value.generation + 1))
      else w.(server := None)
    case ReportStatus(status) =>
      if w.deployment.None? || w.deployment.value.status == status then w
      else w.(deployment := Some(w.deployment.value.(status := status, resourceVersion := w.revision + 1)),
              revision := w.revision + 1)
    case RemoveChild(child) =>
      (match child
       case DeploymentChild => w.(deployment := None, lost := w.lost + {child})
       case ServiceChild => w.(service := None, lost := w.lost + {child})
       case RouteChild => w.(route := None, lost := w.lost + {child}))
    case SetSecrets(names) => w.(secrets := names)
  }

  /** Write the server object with a new resourceVersion. */
  function Store(w: World, s: Server): World {
    w.(server := Some(s.(resourceVersion := w.revision + 1)), revision := w.revision + 1)
  }

  function Step(cfg: Config, w: World, a: Action): World {
    match a
    case Env(env) => EnvStep(w, env)
    case Crash => w.(task := Idle)
    case Op(reply) => Exec(cfg, w, reply)
  }

  /** The state after a whole run. */
  function Run(cfg: Config, w: World, actions: seq<Action>): World
    decreases |actions|
  {
    if actions == [] then w
    else Step(cfg, Run(cfg, w, actions[..|actions| - 1]), actions[|actions| - 1])
  }

  lemma {:induction false} RunAppend(cfg: Config, w: World, xs: seq<Action>, ys: seq<Action>)
    ensures Run(cfg, w, xs + ys) == Run(cfg, Run(cfg, w, xs), ys)
    decreases |ys|
  {
    if ys == [] {
      assert xs + ys == xs;
    } else {
      var n := |xs + ys| - 1;
      assert (xs + ys)[..n] == xs + ys[..|ys| - 1];
      RunAppend(cfg, w, xs, ys[..|ys| - 1]);
    }
  }

  lemma RunOfOne(cfg: Config, w: World, a: Action)
    ensures Run(cfg, w, [a]) == Step(cfg, w, a)
  {
    assert [a][..0] == [];
    assert Run(cfg, w, []) == w;
  }

  // ---------------------------------------------------------- operator steps

  function Await(w: World, pc: Pc, read: Status, mem: Server): World {
    w.(task := Busy(pc, read, mem))
  }

  function End(w: World, last: Outcome): World {
    w.(task := Idle, last := last)
  }

  function PhaseOutcome(phase: Phase): (r: Outcome)
    ensures phase.Deploying? ==> r == After(5)
    ensures phase.Running? ==> r == After(30)
    ensures phase.Failed? ==> r == After(60)
    ensures phase.Pending? || phase.Updating? ==> r == Again
  {
    match phase
    case Deploying => After(REQUEUE_DEPLOYING)
    case Running => After(REQUEUE_RUNNING)
    case Failed => After(REQUEUE_FAILED)
    case _ => Again
  }

  function WithPhase(mem: Server, phase: Phase): Server {
    mem.(status := mem.status.(phase := phase, observedGeneration := mem.generation))
  }

  function WithCondition(mem: Server, kind: ConditionKind, status: bool, reason: Reason): (r: Server)
    ensures FindCondition(r.status.conditions, kind) == Some(Condition(kind, status, reason, mem.generation))
    ensures forall other :: other != kind ==>
      FindCondition(r.status.conditions, other) == FindCondition(mem.status.conditions, other)
  {
    mem.(status := mem.status.(conditions :=
      SetCondition(mem.status.conditions, Condition(kind, status, reason, mem.generation))))
  }

  function SetPhase(w: World, read: Status, mem: Server, phase: Phase): World {
    Await(w, PutStatus(PhaseOutcome(phase)), read, WithPhase(mem, phase))
  }

  function Exec(cfg: Config, w: World, reply: Reply): World {
    match w.task
    case Idle => ExecFetchServer(w, reply)
    case Busy(pc, read, mem) =>
      match pc
      case PutFinalizer => ExecPutFinalizer(w, reply, mem)
      case CheckSecret(i) => ExecCheckSecret(w, reply, read, mem, i)
      case FetchDeployment => ExecFetchDeployment(cfg, w, reply, read, mem)
      case CreateDeployment => ExecCreateDeployment(cfg, w, reply, read, mem)
      case UpdateDeployment(old_) => ExecUpdateDeployment(cfg, w, reply, read, mem, old_)
      case FetchService => ExecFetchService(cfg, w, reply, read, mem)
      case CreateService => ExecCreateService(cfg, w, reply, read, mem)
      case UpdateService(old_) => ExecUpdateService(cfg, w, reply, read, mem, old_)
      case ObserveDeployment => ExecObserveDeployment(cfg, w, reply, read, mem)
      case FetchRoute => ExecFetchRoute(cfg, w, reply, read, mem)
      case CreateRoute => ExecCreateRoute(cfg, w, reply, read, mem)
      case UpdateRoute(old_) => ExecUpdateRoute(cfg, w, reply, read, mem, old_)
      case PutStatus(outcome) => ExecPutStatus(w, reply, mem, outcome)
  }

  /** Reconcile up to its first call after reading the object. */
  function ExecFetchServer(w: World, reply: Reply): World {
    if reply.Fault? then End(w, Erred)
    else if w.server.None? then End(w, Done)
    else Dispatch(w, w.server.value)
  }

  function Dispatch(w: World, s: Server): World {
    if s.deleting then
      if s.finalizer then Await(w, PutFinalizer, s.status, s.(finalizer := false)) else End(w, Done)
    else if !s.finalizer then Await(w, PutFinalizer, s.status, s.(finalizer := true))
    else
      match s.status.phase
      case Unset => Validate(w, s)
      case Pending => Validate(w, s)
      case Deploying => Await(w, FetchDeployment, s.status, s)
      case Running =>
        if s.generation != s.status.observedGeneration then SetPhase(w, s.status, s, Updating)
        else Await(w, ObserveDeployment, s.status, s)
      case Updating => Await(w, FetchDeployment, s.status, s)
      case Failed =>
        if s.generation != s.status.observedGeneration then SetPhase(w, s.status, s, Pending)
        else End(w, After(REQUEUE_FAILED))
      case _ => SetPhase(w, s.status, s, Pending)
  }

  function Validate(w: World, s: Server): World {
    if s.spec.source.image == "" then
      SetPhase(w, s.status, WithCondition(s, ReadyCondition, false, ValidationFailed), Failed)
    else NextSecret(w, s.status, s, 0)
  }

  function NextSecret(w: World, read: Status, mem: Server, i: nat): World {
    if i < |mem.spec.secrets| then Await(w, CheckSecret(i), read, mem)
    else SetPhase(w, read, mem, Deploying)
  }

  function ExecCheckSecret(w: World, reply: Reply, read: Status, mem: Server, i: nat): World {
    if i >= |mem.spec.secrets| || reply.Fault? then End(w, Erred)
    else if mem.spec.secrets[i].secretName !in w.secrets then
      SetPhase(w, read, WithCondition(mem, ReadyCondition, false, SecretNotFound), Failed)
    else NextSecret(w, read, mem, i + 1)
  }

  /** The update of the object itself: it adds or removes the finalizer. An object marked for
      deletion disappears with its last finalizer. */
  function ExecPutFinalizer(w: World, reply: Reply, mem: Server): World {
    var fits := w.server.Some? && w.server.value.resourceVersion == mem.resourceVersion;
    var w' :=
      if !Lands(reply) || !fits then w
      else if mem.deleting && !mem.finalizer then w.(server := None)
      else Store(w, w.server.value.(spec := mem.spec, finalizer := mem.finalizer));
    End(w', if reply.Fault? || !fits then Erred else if mem.deleting then Done else Again)
  }

  /** A status update: rejected when the copy is stale, a no-op when nothing changes. */
  function ExecPutStatus(w: World, reply: Reply, mem: Server, outcome: Outcome): World {
    var fits := w.server.Some? && w.server.value.resourceVersion == mem.resourceVersion;
    var w' :=
      if !Lands(reply) || !fits || w.server.value.status == mem.status then w
      else Store(w, w.server.value.(status := mem.status));
    End(w', if reply.Fault? || !fits then Erred else outcome)
  }

  // Deployment

  /** A child could not be written: Deploying records it as a condition, Updating does not. */
  function RolloutFailed(w: World, read: Status, mem: Server, reason: Reason): World {
    if mem.status.phase.Deploying? then
      SetPhase(w, read, WithCondition(mem, DeployedCondition, false, reason), Failed)
    else SetPhase(w, read, mem, Failed)
  }

  function ExecFetchDeployment(cfg: Config, w: World, reply: Reply, read: Status, mem: Server): World {
    if reply.Fault? then RolloutFailed(w, read, mem, DeploymentFailed)
    else if w.deployment.None? then Await(w, CreateDeployment, read, mem)
    else if w.deployment.value.spec != DeploymentFor(cfg.key, mem.spec) then
      Await(w, UpdateDeployment(w.deployment.value), read, mem)
    else Await(w, FetchService, read, mem)
  }

  function ExecCreateDeployment(cfg: Config, w: World, reply: Reply, read: Status, mem: Server): World {
    var fits := w.deployment.None?;
    var w' :=
      if !Lands(reply) || !fits then w
      else w.(deployment := Some(Deployment(w.revision + 1, CommonLabels(cfg.key),
                                            cfg.defaultDeployment(DeploymentFor(cfg.key, mem.spec)),
                                            DeploymentStatus(0, 0, 0))),
              revision := w.revision + 1, lost := w.lost - {DeploymentChild});
    if reply.Fault? || !fits then RolloutFailed(w', read, mem, DeploymentFailed)
    else Await(w', FetchService, read, mem)
  }

  function ExecUpdateDeployment(cfg: Config, w: World, reply: Reply, read: Status, mem: Server, old_: Deployment): World {
    var fits := w.deployment.Some? && w.deployment.value.resourceVersion == old_.resourceVersion;
    var w' :=
      if !Lands(reply) || !fits then w
      else w.(deployment := Some(w.deployment.value.(
                resourceVersion := w.revision + 1,
                labels := CommonLabels(cfg.key),
                spec := cfg.defaultDeployment(DeploymentFor(cfg.key, mem.spec)))),
              revision := w.revision + 1);
    if reply.Fault? || !fits then RolloutFailed(w', read, mem, DeploymentFailed)
    else Await(w', FetchService, read, mem)
  }

  // Service

  function AfterService(w: World, read: Status, mem: Server): World {
    var mem' := if mem.status.phase.Deploying?
                then WithCondition(mem, DeployedCondition, true, DeploymentCreated) else mem;
    Await(w, ObserveDeployment, read, mem')
  }

  function ExecFetchService(cfg: Config, w: World, reply: Reply, read: Status, mem: Server): World {
    if reply.Fault? then RolloutFailed(w, read, mem, ServiceFailed)
    else if w.service.None? then Await(w, CreateService, read, mem)
    else if w.service.value.spec.ports != ServiceFor(cfg.key, mem.spec).ports
            || w.service.value.spec.selector != ServiceFor(cfg.key, mem.spec).selector then
      Await(w, UpdateService(w.service.value), read, mem)
    else AfterService(w, read, mem)
  }

  function ExecCreateService(cfg: Config, w: World, reply: Reply, read: Status, mem: Server): World {
    var fits := w.service.None?;
    var w' :=
      if !Lands(reply) || !fits then w
      else w.(service := Some(Service(w.revision + 1, CommonLabels(cfg.key), mem.spec.serviceAnnotations,
                                      cfg.defaultService(ServiceFor(cfg.key, mem.spec)))),
              revision := w.revision + 1, lost := w.lost - {ServiceChild});
    if reply.Fault? || !fits then RolloutFailed(w', read, mem, ServiceFailed)
    else AfterService(w', read, mem)
  }

  function ExecUpdateService(cfg: Config, w: World, reply: Reply, read: Status, mem: Server, old_: Service): World {
    var fits := w.service.Some? && w.service.value.resourceVersion == old_.resourceVersion;
    var w' :=
      if !Lands(reply) || !fits then w
      else w.(service := Some(w.service.value.(
                resourceVersion := w.revision + 1,
                annotations := mem.spec.serviceAnnotations,
                spec := cfg.defaultService(ServiceFor(cfg.key, mem.spec)))),
              revision := w.revision + 1);
    if reply.Fault? || !fits then RolloutFailed(w', read, mem, ServiceFailed)
    else AfterService(w', read, mem)
  }

  // Readiness

  function WithReplicas(mem: Server, d: DeploymentStatus): Server {
    mem.(status := mem.status.(replicas := d.replicas, readyReplicas := d.readyReplicas))
  }

  function ExecObserveDeployment(cfg: Config, w: World, reply: Reply, read: Status, mem: Server): World {
    if mem.status.phase.Running? then
      if reply.Fault? then End(w, Erred)
      else if w.deployment.None? then SetPhase(w, read, mem, Deploying)
      else Await(w, PutStatus(After(REQUEUE_RUNNING)), read, Monitor(mem, w.deployment.value.status))
    else if reply.Fault? || w.deployment.None? then End(w, After(REQUEUE_DEPLOYING))
    else
      var d := w.deployment.value.status;
      var mem' := Rollout(cfg, mem, d);
      if !RolledOut(mem, d) then Await(w, PutStatus(After(REQUEUE_DEPLOYING)), read, mem')
      else if cfg.gatewayName == "" then AfterRoute(w, read, mem')
      else Await(w, FetchRoute, read, mem')
  }

  function Monitor(mem: Server, d: DeploymentStatus): Server {
    var mem' := WithReplicas(mem, d);
    if d.readyReplicas < d.replicas
    then WithCondition(mem', ReadyCondition, false, ReplicasNotReady)
    else WithCondition(mem', ReadyCondition, true, DeploymentReady)
  }

  function Rollout(cfg: Config, mem: Server, d: DeploymentStatus): Server {
    var mem' := WithReplicas(mem, d);
    if mem.status.phase.Deploying?
    then mem'.(status := mem'.status.(deploymentName := cfg.key, serviceName := cfg.key))
    else mem'
  }

  predicate RolledOut(mem: Server, d: DeploymentStatus) {
    d.readyReplicas > 0 && d.readyReplicas == d.replicas &&
    (mem.status.phase.Deploying? || d.updatedReplicas == d.replicas)
  }

  // HTTPRoute

  function AfterRoute(w: World, read: Status, mem: Server): World {
    SetPhase(w, read,
      WithCondition(mem, ReadyCondition, true,
        if mem.status.phase.Deploying? then DeploymentReady else RolloutComplete),
      Running)
  }

  function ExecFetchRoute(cfg: Config, w: World, reply: Reply, read: Status, mem: Server): World {
    if reply.Fault? then SetPhase(w, read, mem, Failed)
    else if w.route.None? then Await(w, CreateRoute, read, mem)
    else if w.route.value.spec != DesiredRoute(cfg, mem.spec) then
      Await(w, UpdateRoute(w.route.value), read, mem)
    else AfterRoute(w, read, mem)
  }

  function ExecCreateRoute(cfg: Config, w: World, reply: Reply, read: Status, mem: Server): World {
    var fits := w.route.None?;
    var w' :=
      if !Lands(reply) || !fits then w
      else w.(route := Some(Route(w.revision + 1, RouteLabels(cfg.key), cfg.defaultRoute(DesiredRoute(cfg, mem.spec)))),
              revision := w.revision + 1, lost := w.lost - {RouteChild});
    if reply.Fault? || !fits then SetPhase(w', read, mem, Failed) else AfterRoute(w', read, mem)
  }

  function ExecUpdateRoute(cfg: Config, w: World, reply: Reply, read: Status, mem: Server, old_: Route): World {
    var fits := w.route.Some? && w.route.value.resourceVersion == old_.resourceVersion;
    var w' :=
      if !Lands(reply) || !fits then w
      else w.(route := Some(w.route.value.(
                resourceVersion := w.revision + 1,
                labels := RouteLabels(cfg.key),
                spec := cfg.defaultRoute(DesiredRoute(cfg, mem.spec)))),
              revision := w.revision + 1);
    if reply.Fault? || !fits then SetPhase(w', read, mem, Failed) else AfterRoute(w', read, mem)
  }
}
