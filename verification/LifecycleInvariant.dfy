/** The invariant of the MCPServer protocol and its preservation by every step. */
module LifecycleInvariant {
  import opened Options
  import opened Reconciling
  import opened McpTypes
  import opened ChildObjects
  import opened ServerLifecycle

  // ------------------------------------------------------- what it says of children

  /** The stored Deployment is the one wanted for `spec`, or others deleted it. */
  ghost predicate DeploymentServes(cfg: Config, w: World, spec: ServerSpec) {
    match w.deployment
    case None => DeploymentChild in w.lost
    case Some(d) => d.spec == cfg.defaultDeployment(DeploymentFor(cfg.key, spec))
  }

  ghost predicate ServiceServes(cfg: Config, w: World, spec: ServerSpec) {
    match w.service
    case None => ServiceChild in w.lost
    case Some(s) => s.spec == cfg.defaultService(ServiceFor(cfg.key, spec))
  }

  ghost predicate RouteServes(cfg: Config, w: World, spec: ServerSpec) {
    cfg.gatewayName == "" ||
    match w.route
    case None => RouteChild in w.lost
    case Some(r) => r.spec == cfg.defaultRoute(DesiredRoute(cfg, spec))
  }

  ghost predicate Serves(cfg: Config, w: World, spec: ServerSpec) {
    DeploymentServes(cfg, w, spec) && ServiceServes(cfg, w, spec) && RouteServes(cfg, w, spec)
  }

  /** Everything stored went through defaulting. */
  ghost predicate StoreOk(cfg: Config, w: World) {
    && (w.deployment.Some? ==>
          cfg.defaultDeployment(w.deployment.value.spec) == w.deployment.value.spec)
    && (w.service.Some? ==>
          cfg.defaultService(w.service.value.spec) == w.service.value.spec)
    && (w.route.Some? ==>
          cfg.defaultRoute(w.route.value.spec) == w.route.value.spec)
  }

  // --------------------------------------------------------- what it says of statuses

  ghost predicate Deployed(cfg: Config, st: Status) {
    && Holds(st, DeployedCondition)
    && st.deploymentName == cfg.key
    && st.serviceName == cfg.key
  }

  ghost predicate ReadyMatches(st: Status) {
    && FindCondition(st.conditions, ReadyCondition).Some?
    && (Holds(st, ReadyCondition) <==> st.readyReplicas >= st.replicas)
  }

  ghost predicate StatusOk(cfg: Config, st: Status) {
    && !st.phase.Scaling? && !st.phase.Terminating?
    && (st.phase.Running? ==> ReadyMatches(st))
    && (st.phase.Running? || st.phase.Updating? ==> Deployed(cfg, st))
  }

  /** The phase changes the handlers code. */
  predicate Edge(a: Phase, b: Phase) {
    match a
    case Unset => b in {Failed, Deploying}
    case Pending => b in {Failed, Deploying}
    case Deploying => b in {Running, Failed}
    case Running => b in {Updating, Deploying}
    case Updating => b in {Running, Failed}
    case Failed => b == Pending
    case _ => false
  }

  ghost predicate ServerOk(cfg: Config, w: World) {
    w.server.Some? ==>
      var s := w.server.value;
      && s.resourceVersion <= w.revision
      && s.uid < w.nextUid
      && StatusOk(cfg, s.status)
      && s.status.observedGeneration <= s.generation
      && (s.status.phase.Running? && s.status.observedGeneration == s.generation ==> Serves(cfg, w, s.spec))
  }

  // -------------------------------------------------- what it says of a running reconcile

  /** How the in-memory copy relates to the stored object: only the reconcile in progress writes
      statuses, so a stored status is the one that was read or belongs to a newer object. */
  ghost predicate CopyOk(w: World, read: Status, mem: Server) {
    && mem.uid < w.nextUid
    && mem.resourceVersion <= w.revision
    && read.observedGeneration <= mem.generation
    && (w.server.Some? ==>
          var s := w.server.value;
          && (s.uid == mem.uid ==>
                && s.status == read
                && mem.generation <= s.generation
                && (s.generation == mem.generation ==> s.spec == mem.spec))
          && (s.uid != mem.uid ==> s.status == EMPTY_STATUS && mem.resourceVersion < s.resourceVersion)
          && (s.resourceVersion == mem.resourceVersion ==>
                s.generation == mem.generation && s.spec == mem.spec && s.deleting == mem.deleting))
  }

  /** A rollout handler (Deploying or Updating) is at work and has not chosen a phase yet. */
  ghost predicate InRollout(cfg: Config, read: Status, mem: Server) {
    && mem.status.phase == read.phase
    && mem.status.observedGeneration == read.observedGeneration
    && (read.phase.Deploying? || (read.phase.Updating? && Deployed(cfg, mem.status)))
  }

  ghost predicate ReadyForRoute(cfg: Config, w: World, read: Status, mem: Server) {
    && InRollout(cfg, read, mem)
    && Deployed(cfg, mem.status)
    && mem.status.readyReplicas == mem.status.replicas
    && cfg.gatewayName != ""
    && DeploymentServes(cfg, w, mem.spec)
    && ServiceServes(cfg, w, mem.spec)
  }

  /** What each program point knows. */
  ghost predicate PcOk(cfg: Config, w: World, pc: Pc, read: Status, mem: Server) {
    match pc
    case PutFinalizer => mem.status == read && (mem.finalizer <==> !mem.deleting)
    case CheckSecret(i) => mem.status == read && (read.phase.Unset? || read.phase.Pending?) && i < |mem.spec.secrets|
    case FetchDeployment => InRollout(cfg, read, mem)
    case CreateDeployment => InRollout(cfg, read, mem)
    case UpdateDeployment(_) => InRollout(cfg, read, mem)
    case FetchService => InRollout(cfg, read, mem) && DeploymentServes(cfg, w, mem.spec)
    case CreateService => InRollout(cfg, read, mem) && DeploymentServes(cfg, w, mem.spec)
    case UpdateService(_) => InRollout(cfg, read, mem) && DeploymentServes(cfg, w, mem.spec)
    case ObserveDeployment =>
      if read.phase.Running? then mem.status == read && read.observedGeneration == mem.generation
      else
        && InRollout(cfg, read, mem)
        && Holds(mem.status, DeployedCondition)
        && DeploymentServes(cfg, w, mem.spec)
        && ServiceServes(cfg, w, mem.spec)
    case FetchRoute => ReadyForRoute(cfg, w, read, mem)
    case CreateRoute => ReadyForRoute(cfg, w, read, mem)
    case UpdateRoute(_) => ReadyForRoute(cfg, w, read, mem)
    case PutStatus(outcome) => PutOk(cfg, w, outcome, read, mem)
  }

  /** What a status about to be written satisfies. */
  ghost predicate PutOk(cfg: Config, w: World, outcome: Outcome, read: Status, mem: Server) {
    && StatusOk(cfg, mem.status)
    && outcome in {Again, After(REQUEUE_DEPLOYING), After(REQUEUE_RUNNING), After(REQUEUE_FAILED)}
    && (mem.status.phase == read.phase ==> mem.status.observedGeneration == read.observedGeneration)
    && (mem.status.phase != read.phase ==>
          && Edge(read.phase, mem.status.phase)
          && mem.status.observedGeneration == mem.generation
          && (mem.status.phase.Running? ==> Serves(cfg, w, mem.spec))
          && (read.phase.Failed? ==> read.observedGeneration != mem.generation))
  }

  ghost predicate TaskOk(cfg: Config, w: World) {
    match w.task
    case Idle => true
    case Busy(pc, read, mem) =>
      && StatusOk(cfg, read)
      && CopyOk(w, read, mem)
      && PcOk(cfg, w, pc, read, mem)
      && (!pc.PutFinalizer? ==> !mem.deleting && mem.finalizer)
  }

  ghost predicate Inv(cfg: Config, w: World) {
    StoreOk(cfg, w) && ServerOk(cfg, w) && TaskOk(cfg, w)
  }

  // ------------------------------------------------------------------ preservation

  lemma EnvKeepsStore(cfg: Config, w: World, a: EnvAction)
    requires StoreOk(cfg, w)
    ensures StoreOk(cfg, EnvStep(w, a))
  {
  }

  lemma EnvKeepsServer(cfg: Config, w: World, a: EnvAction)
    requires ServerOk(cfg, w)
    ensures ServerOk(cfg, EnvStep(w, a))
  {
  }

  lemma EnvKeepsCopy(w: World, a: EnvAction, read: Status, mem: Server)
    requires CopyOk(w, read, mem)
    requires w.server.Some? ==> w.server.value.uid < w.nextUid && w.server.value.resourceVersion <= w.revision
    ensures CopyOk(EnvStep(w, a), read, mem)
  {
  }

  /** Others only report on the Deployment or delete children, so what is served stays served. */
  lemma EnvKeepsServing(cfg: Config, w: World, a: EnvAction, spec: ServerSpec)
    ensures DeploymentServes(cfg, w, spec) ==> DeploymentServes(cfg, EnvStep(w, a), spec)
    ensures ServiceServes(cfg, w, spec) ==> ServiceServes(cfg, EnvStep(w, a), spec)
    ensures RouteServes(cfg, w, spec) ==> RouteServes(cfg, EnvStep(w, a), spec)
  {
  }

  lemma ServingKeepsPcOk(cfg: Config, w: World, w': World, pc: Pc, read: Status, mem: Server)
    requires PcOk(cfg, w, pc, read, mem)
    requires DeploymentServes(cfg, w, mem.spec) ==> DeploymentServes(cfg, w', mem.spec)
    requires ServiceServes(cfg, w, mem.spec) ==> ServiceServes(cfg, w', mem.spec)
    requires RouteServes(cfg, w, mem.spec) ==> RouteServes(cfg, w', mem.spec)
    ensures PcOk(cfg, w', pc, read, mem)
  {
  }

  lemma EnvKeepsTask(w: World, a: EnvAction)
    ensures EnvStep(w, a).task == w.task
  {
  }

  lemma EnvKeepsInv(cfg: Config, w: World, a: EnvAction)
    requires Inv(cfg, w)
    ensures Inv(cfg, EnvStep(w, a))
  {
    EnvKeepsStore(cfg, w, a);
    EnvKeepsServer(cfg, w, a);
    EnvKeepsTask(w, a);
    if w.task.Busy? {
      EnvKeepsCopy(w, a, w.task.read, w.task.mem);
      EnvKeepsServing(cfg, w, a, w.task.mem.spec);
      ServingKeepsPcOk(cfg, w, EnvStep(w, a), w.task.pc, w.task.read, w.task.mem);
    }
  }

  /** What a handler that has read a live object relies on. */
  ghost predicate Reading(cfg: Config, w: World, read: Status, mem: Server) {
    && StoreOk(cfg, w)
    && ServerOk(cfg, w)
    && StatusOk(cfg, read)
    && CopyOk(w, read, mem)
    && !mem.deleting
    && mem.finalizer
  }

  lemma AwaitKeepsInv(cfg: Config, w: World, pc: Pc, read: Status, mem: Server)
    requires Reading(cfg, w, read, mem)
    requires PcOk(cfg, w, pc, read, mem)
    ensures Inv(cfg, Await(w, pc, read, mem))
  {
  }

  lemma SetPhaseKeepsInv(cfg: Config, w: World, read: Status, mem: Server, phase: Phase)
    requires Reading(cfg, w, read, mem)
    requires Edge(read.phase, phase)
    requires phase.Running? ==> ReadyMatches(mem.status) && Serves(cfg, w, mem.spec)
    requires phase.Running? || phase.Updating? ==> Deployed(cfg, mem.status)
    requires read.phase.Failed? ==> read.observedGeneration != mem.generation
    ensures Inv(cfg, SetPhase(w, read, mem, phase))
  {
    AwaitKeepsInv(cfg, w, PutStatus(PhaseOutcome(phase)), read, WithPhase(mem, phase));
  }

  lemma ValidateKeepsInv(cfg: Config, w: World, s: Server)
    requires Reading(cfg, w, s.status, s)
    requires s.status.phase.Unset? || s.status.phase.Pending?
    ensures Inv(cfg, Validate(w, s))
  {
    if s.spec.source.image == "" {
      SetPhaseKeepsInv(cfg, w, s.status, WithCondition(s, ReadyCondition, false, ValidationFailed), Failed);
    } else {
      NextSecretKeepsInv(cfg, w, s.status, s, 0);
    }
  }

  lemma NextSecretKeepsInv(cfg: Config, w: World, read: Status, mem: Server, i: nat)
    requires Reading(cfg, w, read, mem)
    requires mem.status == read && (read.phase.Unset? || read.phase.Pending?)
    ensures Inv(cfg, NextSecret(w, read, mem, i))
  {
    if i < |mem.spec.secrets| {
      AwaitKeepsInv(cfg, w, CheckSecret(i), read, mem);
    } else {
      SetPhaseKeepsInv(cfg, w, read, mem, Deploying);
    }
  }

  lemma DispatchKeepsInv(cfg: Config, w: World)
    requires Inv(cfg, w) && w.server.Some?
    requires !w.server.value.deleting && w.server.value.finalizer
    ensures Inv(cfg, Dispatch(w, w.server.value))
  {
    var s := w.server.value;
    assert Reading(cfg, w, s.status, s);
    match s.status.phase
    case Unset => ValidateKeepsInv(cfg, w, s);
    case Pending => ValidateKeepsInv(cfg, w, s);
    case Deploying => AwaitKeepsInv(cfg, w, FetchDeployment, s.status, s);
    case Running =>
      if s.generation != s.status.observedGeneration {
        SetPhaseKeepsInv(cfg, w, s.status, s, Updating);
      } else {
        AwaitKeepsInv(cfg, w, ObserveDeployment, s.status, s);
      }
    case Updating => AwaitKeepsInv(cfg, w, FetchDeployment, s.status, s);
    case Failed =>
      if s.generation != s.status.observedGeneration {
        SetPhaseKeepsInv(cfg, w, s.status, s, Pending);
      }
    case Scaling =>
    case Terminating =>
  }

  lemma FetchServerKeepsInv(cfg: Config, w: World, reply: Reply)
    requires Inv(cfg, w) && w.task.Idle?
    ensures Inv(cfg, ExecFetchServer(w, reply))
  {
    if reply.Answered? && w.server.Some? {
      if !w.server.value.deleting && w.server.value.finalizer {
        DispatchKeepsInv(cfg, w);
      }
    }
  }

  lemma PutFinalizerKeepsInv(cfg: Config, w: World, reply: Reply)
    requires Inv(cfg, w) && w.task.Busy? && w.task.pc.PutFinalizer?
    ensures Inv(cfg, Exec(cfg, w, reply))
  {
  }

  lemma CheckSecretKeepsInv(cfg: Config, w: World, reply: Reply)
    requires Inv(cfg, w) && w.task.Busy? && w.task.pc.CheckSecret?
    ensures Inv(cfg, Exec(cfg, w, reply))
  {
    var Busy(CheckSecret(i), read, mem) := w.task;
    if reply.Answered? {
      if mem.spec.secrets[i].secretName !in w.secrets {
        SetPhaseKeepsInv(cfg, w, read, WithCondition(mem, ReadyCondition, false, SecretNotFound), Failed);
      } else {
        NextSecretKeepsInv(cfg, w, read, mem, i + 1);
      }
    }
  }

  /** A child write leaves the stored object alone. While a rollout is in progress that object is
      not Running, so nothing is claimed of its children. */
  lemma ChildWriteKeepsReading(cfg: Config, w: World, w': World, read: Status, mem: Server)
    requires Reading(cfg, w, read, mem) && (read.phase.Deploying? || read.phase.Updating?)
    requires w'.server == w.server && w'.nextUid == w.nextUid && w'.revision >= w.revision
    requires StoreOk(cfg, w')
    ensures Reading(cfg, w', read, mem)
  {
  }

  lemma RolloutFailedKeepsInv(cfg: Config, w: World, read: Status, mem: Server, reason: Reason)
    requires Reading(cfg, w, read, mem) && InRollout(cfg, read, mem)
    ensures Inv(cfg, RolloutFailed(w, read, mem, reason))
  {
    if mem.status.phase.Deploying? {
      SetPhaseKeepsInv(cfg, w, read, WithCondition(mem, DeployedCondition, false, reason), Failed);
    } else {
      SetPhaseKeepsInv(cfg, w, read, mem, Failed);
    }
  }

  lemma FetchDeploymentKeepsInv(cfg: Config, w: World, reply: Reply, read: Status, mem: Server)
    requires Reading(cfg, w, read, mem) && InRollout(cfg, read, mem)
    ensures Inv(cfg, ExecFetchDeployment(cfg, w, reply, read, mem))
  {
    if reply.Fault? {
      RolloutFailedKeepsInv(cfg, w, read, mem, DeploymentFailed);
    } else if w.deployment.None? {
      AwaitKeepsInv(cfg, w, CreateDeployment, read, mem);
    } else if w.deployment.value.spec != DeploymentFor(cfg.key, mem.spec) {
      AwaitKeepsInv(cfg, w, UpdateDeployment(w.deployment.value), read, mem);
    } else {
      AwaitKeepsInv(cfg, w, FetchService, read, mem);
    }
  }

  lemma WriteDeploymentKeepsInv(cfg: Config, w: World, w': World, good: bool, read: Status, mem: Server)
    requires Reading(cfg, w, read, mem) && InRollout(cfg, read, mem)
    requires w'.server == w.server && w'.nextUid == w.nextUid && w'.revision >= w.revision
    requires StoreOk(cfg, w')
    requires good ==> DeploymentServes(cfg, w', mem.spec)
    ensures Inv(cfg, if good then Await(w', FetchService, read, mem)
                     else RolloutFailed(w', read, mem, DeploymentFailed))
  {
    ChildWriteKeepsReading(cfg, w, w', read, mem);
    if good {
      AwaitKeepsInv(cfg, w', FetchService, read, mem);
    } else {
      RolloutFailedKeepsInv(cfg, w', read, mem, DeploymentFailed);
    }
  }

  lemma CreateDeploymentKeepsInv(cfg: Config, w: World, reply: Reply, read: Status, mem: Server)
    requires Idempotent(cfg)
    requires Reading(cfg, w, read, mem) && InRollout(cfg, read, mem)
    ensures Inv(cfg, ExecCreateDeployment(cfg, w, reply, read, mem))
  {
    var fits := w.deployment.None?;
    var w' :=
      if !Lands(reply) || !fits then w
      else w.(deployment := Some(Deployment(w.revision + 1, CommonLabels(cfg.key),
                                            cfg.defaultDeployment(DeploymentFor(cfg.key, mem.spec)),
                                            DeploymentStatus(0, 0, 0))),
              revision := w.revision + 1, lost := w.lost - {DeploymentChild});
    WriteDeploymentKeepsInv(cfg, w, w', reply.Answered? && fits, read, mem);
  }

  lemma UpdateDeploymentKeepsInv(cfg: Config, w: World, reply: Reply, read: Status, mem: Server, old_: Deployment)
    requires Idempotent(cfg)
    requires Reading(cfg, w, read, mem) && InRollout(cfg, read, mem)
    ensures Inv(cfg, ExecUpdateDeployment(cfg, w, reply, read, mem, old_))
  {
    var fits := w.deployment.Some? && w.deployment.value.resourceVersion == old_.resourceVersion;
    var w' :=
      if !Lands(reply) || !fits then w
      else w.(deployment := Some(w.deployment.value.(
                resourceVersion := w.revision + 1,
                labels := CommonLabels(cfg.key),
                spec := cfg.defaultDeployment(DeploymentFor(cfg.key, mem.spec)))),
              revision := w.revision + 1);
    WriteDeploymentKeepsInv(cfg, w, w', reply.Answered? && fits, read, mem);
  }

  lemma AfterServiceKeepsInv(cfg: Config, w: World, read: Status, mem: Server)
    requires Reading(cfg, w, read, mem) && InRollout(cfg, read, mem)
    requires DeploymentServes(cfg, w, mem.spec) && ServiceServes(cfg, w, mem.spec)
    ensures Inv(cfg, AfterService(w, read, mem))
  {
    var mem' := if mem.status.phase.Deploying?
                then WithCondition(mem, DeployedCondition, true, DeploymentCreated) else mem;
    AwaitKeepsInv(cfg, w, ObserveDeployment, read, mem');
  }

  lemma FetchServiceKeepsInv(cfg: Config, w: World, reply: Reply, read: Status, mem: Server)
    requires Reading(cfg, w, read, mem) && InRollout(cfg, read, mem) && DeploymentServes(cfg, w, mem.spec)
    ensures Inv(cfg, ExecFetchService(cfg, w, reply, read, mem))
  {
    if reply.Fault? {
      RolloutFailedKeepsInv(cfg, w, read, mem, ServiceFailed);
    } else if w.service.None? {
      AwaitKeepsInv(cfg, w, CreateService, read, mem);
    } else if w.service.value.spec != ServiceFor(cfg.key, mem.spec) {
      AwaitKeepsInv(cfg, w, UpdateService(w.service.value), read, mem);
    } else {
      AfterServiceKeepsInv(cfg, w, read, mem);
    }
  }

  lemma WriteServiceKeepsInv(cfg: Config, w: World, w': World, good: bool, read: Status, mem: Server)
    requires Reading(cfg, w, read, mem) && InRollout(cfg, read, mem)
    requires w'.server == w.server && w'.nextUid == w.nextUid && w'.revision >= w.revision
    requires StoreOk(cfg, w') && DeploymentServes(cfg, w', mem.spec)
    requires good ==> ServiceServes(cfg, w', mem.spec)
    ensures Inv(cfg, if good then AfterService(w', read, mem)
                     else RolloutFailed(w', read, mem, ServiceFailed))
  {
    ChildWriteKeepsReading(cfg, w, w', read, mem);
    if good {
      AfterServiceKeepsInv(cfg, w', read, mem);
    } else {
      RolloutFailedKeepsInv(cfg, w', read, mem, ServiceFailed);
    }
  }

  lemma CreateServiceKeepsInv(cfg: Config, w: World, reply: Reply, read: Status, mem: Server)
    requires Idempotent(cfg)
    requires Reading(cfg, w, read, mem) && InRollout(cfg, read, mem) && DeploymentServes(cfg, w, mem.spec)
    ensures Inv(cfg, ExecCreateService(cfg, w, reply, read, mem))
  {
    var fits := w.service.None?;
    var w' :=
      if !Lands(reply) || !fits then w
      else w.(service := Some(Service(w.revision + 1, CommonLabels(cfg.key), mem.spec.serviceAnnotations,
                                      cfg.defaultService(ServiceFor(cfg.key, mem.spec)))),
              revision := w.revision + 1, lost := w.lost - {ServiceChild});
    WriteServiceKeepsInv(cfg, w, w', reply.Answered? && fits, read, mem);
  }

  lemma UpdateServiceKeepsInv(cfg: Config, w: World, reply: Reply, read: Status, mem: Server, old_: Service)
    requires Idempotent(cfg)
    requires Reading(cfg, w, read, mem) && InRollout(cfg, read, mem) && DeploymentServes(cfg, w, mem.spec)
    ensures Inv(cfg, ExecUpdateService(cfg, w, reply, read, mem, old_))
  {
    var fits := w.service.Some? && w.service.value.resourceVersion == old_.resourceVersion;
    var w' :=
      if !Lands(reply) || !fits then w
      else w.(service := Some(w.service.value.(
                resourceVersion := w.revision + 1,
                annotations := mem.spec.serviceAnnotations,
                spec := cfg.defaultService(ServiceFor(cfg.key, mem.spec)))),
              revision := w.revision + 1);
    WriteServiceKeepsInv(cfg, w, w', reply.Answered? && fits, read, mem);
  }

  lemma MonitorKeepsInv(cfg: Config, w: World, reply: Reply, read: Status, mem: Server)
    requires Reading(cfg, w, read, mem)
    requires read.phase.Running? && mem.status == read && read.observedGeneration == mem.generation
    ensures Inv(cfg, ExecObserveDeployment(cfg, w, reply, read, mem))
  {
    if reply.Answered? {
      if w.deployment.None? {
        SetPhaseKeepsInv(cfg, w, read, mem, Deploying);
      } else {
        AwaitKeepsInv(cfg, w, PutStatus(After(REQUEUE_RUNNING)), read, Monitor(mem, w.deployment.value.status));
      }
    }
  }

  lemma AfterRouteKeepsInv(cfg: Config, w: World, read: Status, mem: Server)
    requires Reading(cfg, w, read, mem) && InRollout(cfg, read, mem) && Deployed(cfg, mem.status)
    requires mem.status.readyReplicas == mem.status.replicas
    requires Serves(cfg, w, mem.spec)
    ensures Inv(cfg, AfterRoute(w, read, mem))
  {
    var mem' := WithCondition(mem, ReadyCondition, true,
      if mem.status.phase.Deploying? then DeploymentReady else RolloutComplete);
    SetPhaseKeepsInv(cfg, w, read, mem', Running);
  }

  lemma ObserveRolloutKeepsInv(cfg: Config, w: World, reply: Reply, read: Status, mem: Server)
    requires Reading(cfg, w, read, mem) && InRollout(cfg, read, mem)
    requires Holds(mem.status, DeployedCondition)
    requires DeploymentServes(cfg, w, mem.spec) && ServiceServes(cfg, w, mem.spec)
    ensures Inv(cfg, ExecObserveDeployment(cfg, w, reply, read, mem))
  {
    if reply.Answered? && w.deployment.Some? {
      var d := w.deployment.value.status;
      var mem' := Rollout(cfg, mem, d);
      assert Reading(cfg, w, read, mem') && InRollout(cfg, read, mem') && Deployed(cfg, mem'.status);
      if !RolledOut(mem, d) {
        AwaitKeepsInv(cfg, w, PutStatus(After(REQUEUE_DEPLOYING)), read, mem');
      } else if cfg.gatewayName == "" {
        AfterRouteKeepsInv(cfg, w, read, mem');
      } else {
        AwaitKeepsInv(cfg, w, FetchRoute, read, mem');
      }
    }
  }

  lemma FetchRouteKeepsInv(cfg: Config, w: World, reply: Reply, read: Status, mem: Server)
    requires Reading(cfg, w, read, mem) && ReadyForRoute(cfg, w, read, mem)
    ensures Inv(cfg, ExecFetchRoute(cfg, w, reply, read, mem))
  {
    if reply.Fault? {
      SetPhaseKeepsInv(cfg, w, read, mem, Failed);
    } else if w.route.None? {
      AwaitKeepsInv(cfg, w, CreateRoute, read, mem);
    } else if w.route.value.spec != DesiredRoute(cfg, mem.spec) {
      AwaitKeepsInv(cfg, w, UpdateRoute(w.route.value), read, mem);
    } else {
      AfterRouteKeepsInv(cfg, w, read, mem);
    }
  }

  lemma WriteRouteKeepsInv(cfg: Config, w: World, w': World, good: bool, read: Status, mem: Server)
    requires Reading(cfg, w, read, mem) && ReadyForRoute(cfg, w, read, mem)
    requires w' == w.(route := w'.route, revision := w'.revision, lost := w'.lost)
    requires w'.revision >= w.revision && w.lost <= w'.lost + {RouteChild}
    requires StoreOk(cfg, w')
    requires good ==> RouteServes(cfg, w', mem.spec)
    ensures Inv(cfg, if good then AfterRoute(w', read, mem) else SetPhase(w', read, mem, Failed))
  {
    ChildWriteKeepsReading(cfg, w, w', read, mem);
    if good {
      AfterRouteKeepsInv(cfg, w', read, mem);
    } else {
      SetPhaseKeepsInv(cfg, w', read, mem, Failed);
    }
  }

  lemma CreateRouteKeepsInv(cfg: Config, w: World, reply: Reply, read: Status, mem: Server)
    requires Idempotent(cfg)
    requires Reading(cfg, w, read, mem) && ReadyForRoute(cfg, w, read, mem)
    ensures Inv(cfg, ExecCreateRoute(cfg, w, reply, read, mem))
  {
    var fits := w.route.None?;
    var w' :=
      if !Lands(reply) || !fits then w
      else w.(route := Some(Route(w.revision + 1, RouteLabels(cfg.key), cfg.defaultRoute(DesiredRoute(cfg, mem.spec)))),
              revision := w.revision + 1, lost := w.lost - {RouteChild});
    WriteRouteKeepsInv(cfg, w, w', reply.Answered? && fits, read, mem);
  }

  lemma RouteWriteKeepsStore(cfg: Config, w: World, w': World, desired: RouteSpec)
    requires Idempotent(cfg) && StoreOk(cfg, w)
    requires w' == w.(route := w'.route, revision := w'.revision)
    requires w'.route.Some? && w'.route.value.spec == cfg.defaultRoute(desired)
    ensures StoreOk(cfg, w')
  {
  }

  lemma UpdateRouteKeepsInv(cfg: Config, w: World, reply: Reply, read: Status, mem: Server, old_: Route)
    requires Idempotent(cfg)
    requires Reading(cfg, w, read, mem) && ReadyForRoute(cfg, w, read, mem)
    ensures Inv(cfg, ExecUpdateRoute(cfg, w, reply, read, mem, old_))
  {
    if Lands(reply) && w.route.Some? && w.route.value.resourceVersion == old_.resourceVersion {
      var w' := w.(route := Some(w.route.value.(
                     resourceVersion := w.revision + 1,
                     labels := RouteLabels(cfg.key),
                     spec := cfg.defaultRoute(DesiredRoute(cfg, mem.spec)))),
                   revision := w.revision + 1);
      RouteWriteKeepsStore(cfg, w, w', DesiredRoute(cfg, mem.spec));
      WriteRouteKeepsInv(cfg, w, w', reply.Answered?, read, mem);
      assert ExecUpdateRoute(cfg, w, reply, read, mem, old_)
          == if reply.Answered? then AfterRoute(w', read, mem) else SetPhase(w', read, mem, Failed);
    } else {
      WriteRouteKeepsInv(cfg, w, w, false, read, mem);
      assert ExecUpdateRoute(cfg, w, reply, read, mem, old_) == SetPhase(w, read, mem, Failed);
    }
  }

  lemma PutStatusKeepsInv(cfg: Config, w: World, reply: Reply)
    requires Inv(cfg, w) && w.task.Busy? && w.task.pc.PutStatus?
    ensures Inv(cfg, Exec(cfg, w, reply))
  {
  }

  lemma ExecKeepsInv(cfg: Config, w: World, reply: Reply)
    requires Idempotent(cfg) && Inv(cfg, w)
    ensures Inv(cfg, Exec(cfg, w, reply))
  {
    match w.task
    case Idle => FetchServerKeepsInv(cfg, w, reply);
    case Busy(pc, read, mem) =>
      match pc
      case PutFinalizer => PutFinalizerKeepsInv(cfg, w, reply);
      case CheckSecret(_) => CheckSecretKeepsInv(cfg, w, reply);
      case FetchDeployment => FetchDeploymentKeepsInv(cfg, w, reply, read, mem);
      case CreateDeployment => CreateDeploymentKeepsInv(cfg, w, reply, read, mem);
      case UpdateDeployment(old_) => UpdateDeploymentKeepsInv(cfg, w, reply, read, mem, old_);
      case FetchService => FetchServiceKeepsInv(cfg, w, reply, read, mem);
      case CreateService => CreateServiceKeepsInv(cfg, w, reply, read, mem);
      case UpdateService(old_) => UpdateServiceKeepsInv(cfg, w, reply, read, mem, old_);
      case ObserveDeployment =>
        if read.phase.Running? {
          MonitorKeepsInv(cfg, w, reply, read, mem);
        } else {
          ObserveRolloutKeepsInv(cfg, w, reply, read, mem);
        }
      case FetchRoute => FetchRouteKeepsInv(cfg, w, reply, read, mem);
      case CreateRoute => CreateRouteKeepsInv(cfg, w, reply, read, mem);
      case UpdateRoute(old_) => UpdateRouteKeepsInv(cfg, w, reply, read, mem, old_);
      case PutStatus(_) => PutStatusKeepsInv(cfg, w, reply);
  }

  lemma StepKeepsInv(cfg: Config, w: World, a: Action)
    requires Idempotent(cfg) && Inv(cfg, w)
    ensures Inv(cfg, Step(cfg, w, a))
  {
    match a
    case Env(env) => EnvKeepsInv(cfg, w, env);
    case Crash =>
    case Op(reply) => ExecKeepsInv(cfg, w, reply);
  }

  lemma {:induction false} RunKeepsInv(cfg: Config, w: World, actions: seq<Action>)
    requires Idempotent(cfg) && Inv(cfg, w)
    ensures Inv(cfg, Run(cfg, w, actions))
    decreases |actions|
  {
    if actions != [] {
      RunKeepsInv(cfg, w, actions[..|actions| - 1]);
      StepKeepsInv(cfg, Run(cfg, w, actions[..|actions| - 1]), actions[|actions| - 1]);
    }
  }
}
