/** What holds of every run of the MCPServer controller, whatever users, other controllers,
    failing calls and crashes do in between. */
module LifecycleTheorems {
  import opened Options
  import opened Reconciling
  import opened McpTypes
  import opened ChildObjects
  import opened ServerLifecycle
  import opened LifecycleInvariant

  lemma InitInv(cfg: Config, init: World)
    requires Init(init)
    ensures Inv(cfg, init)
  {
  }

  lemma InvOfRun(cfg: Config, init: World, actions: seq<Action>)
    requires Idempotent(cfg) && Init(init)
    ensures Inv(cfg, Run(cfg, init, actions))
  {
    InitInv(cfg, init);
    RunKeepsInv(cfg, init, actions);
  }

  // ------------------------------------------------------ Running means served

  /** A Running server whose last recorded generation is the current one has children that are
      exactly what the API server makes of the objects wanted for the current spec. A child is
      missing if and only if others deleted it and the operator has not created it again. */
  ghost predicate RunningIsServed(cfg: Config, w: World) {
    w.server.Some? && w.server.value.status.phase.Running?
    && w.server.value.status.observedGeneration == w.server.value.generation ==>
      var spec := w.server.value.spec;
      && (w.deployment.Some? ==> w.deployment.value.spec == cfg.defaultDeployment(DeploymentFor(cfg.key, spec)))
      && (w.service.Some? ==> w.service.value.spec == cfg.defaultService(ServiceFor(cfg.key, spec)))
      && (w.route.Some? && cfg.gatewayName != "" ==>
            w.route.value.spec == cfg.defaultRoute(DesiredRoute(cfg, spec)))
      && (w.deployment.None? <==> DeploymentChild in w.lost)
      && (w.service.None? <==> ServiceChild in w.lost)
      && (cfg.gatewayName != "" ==> (w.route.None? <==> RouteChild in w.lost))
  }

  /** What others deleted and the operator has not created again is not there. */
  ghost predicate LostOk(w: World) {
    && (DeploymentChild in w.lost ==> w.deployment.None?)
    && (ServiceChild in w.lost ==> w.service.None?)
    && (RouteChild in w.lost ==> w.route.None?)
  }

  predicate WritesChildren(pc: Pc) {
    pc.CreateDeployment? || pc.UpdateDeployment? || pc.CreateService? || pc.UpdateService?
    || pc.CreateRoute? || pc.UpdateRoute?
  }

  lemma OnlySixCallsWriteChildren(cfg: Config, w: World, reply: Reply)
    requires w.task.Idle? || !WritesChildren(w.task.pc)
    ensures
      var w' := Exec(cfg, w, reply);
      w'.deployment == w.deployment && w'.service == w.service && w'.route == w.route && w'.lost == w.lost
  {
    if w.task.Busy? && TouchesDeploymentOrService(w.task.pc) {
      RolloutReadsLeaveChildren(cfg, w, reply);
    } else if w.task.Busy? {
      OtherCallsLeaveChildren(cfg, w, reply);
    }
  }

  lemma RolloutReadsLeaveChildren(cfg: Config, w: World, reply: Reply)
    requires w.task.Busy? && (w.task.pc.FetchDeployment? || w.task.pc.FetchService?)
    ensures
      var w' := Exec(cfg, w, reply);
      w'.deployment == w.deployment && w'.service == w.service && w'.route == w.route && w'.lost == w.lost
  {
  }

  lemma OtherCallsLeaveChildren(cfg: Config, w: World, reply: Reply)
    requires w.task.Busy? && !WritesChildren(w.task.pc) && !TouchesDeploymentOrService(w.task.pc)
    ensures
      var w' := Exec(cfg, w, reply);
      w'.deployment == w.deployment && w'.service == w.service && w'.route == w.route && w'.lost == w.lost
  {
  }

  lemma CreatesKeepLost(cfg: Config, w: World, reply: Reply, pc: Pc)
    requires LostOk(w) && w.task.Busy? && w.task.pc == pc
    requires pc.CreateDeployment? || pc.CreateService? || pc.CreateRoute?
    ensures LostOk(Exec(cfg, w, reply))
  {
  }

  lemma UpdatesKeepLost(cfg: Config, w: World, reply: Reply, pc: Pc)
    requires LostOk(w) && w.task.Busy? && w.task.pc == pc
    requires pc.UpdateDeployment? || pc.UpdateService? || pc.UpdateRoute?
    ensures LostOk(Exec(cfg, w, reply))
  {
  }

  lemma StepKeepsLost(cfg: Config, w: World, a: Action)
    requires LostOk(w)
    ensures LostOk(Step(cfg, w, a))
  {
    if a.Op? {
      if w.task.Idle? || !WritesChildren(w.task.pc) {
        OnlySixCallsWriteChildren(cfg, w, a.reply);
      } else if w.task.pc.CreateDeployment? || w.task.pc.CreateService? || w.task.pc.CreateRoute? {
        CreatesKeepLost(cfg, w, a.reply, w.task.pc);
      } else {
        UpdatesKeepLost(cfg, w, a.reply, w.task.pc);
      }
    }
  }

  lemma {:induction false} LostOfRun(cfg: Config, init: World, actions: seq<Action>)
    requires Init(init)
    ensures LostOk(Run(cfg, init, actions))
    decreases |actions|
  {
    if actions != [] {
      LostOfRun(cfg, init, actions[..|actions| - 1]);
      StepKeepsLost(cfg, Run(cfg, init, actions[..|actions| - 1]), actions[|actions| - 1]);
    }
  }

  lemma RunningMeansServed(cfg: Config, init: World, actions: seq<Action>)
    requires Idempotent(cfg) && Init(init)
    ensures RunningIsServed(cfg, Run(cfg, init, actions))
  {
    InvOfRun(cfg, init, actions);
    LostOfRun(cfg, init, actions);
  }

  /** A child that is missing comes back only in a rollout: the call that creates it belongs to a
      reconcile that read the object in phase Deploying or Updating. */
  lemma ChildrenReturnOnlyInARollout(cfg: Config, init: World, actions: seq<Action>, a: Action)
    requires Idempotent(cfg) && Init(init)
    ensures
      var w := Run(cfg, init, actions);
      var w' := Step(cfg, w, a);
      (w.deployment.None? && w'.deployment.Some?) || (w.service.None? && w'.service.Some?)
      || (w.route.None? && w'.route.Some?) ==>
        && a.Op? && w.task.Busy?
        && (w.task.read.phase.Deploying? || w.task.read.phase.Updating?)
        && (w.server.Some? && w.server.value.uid == w.task.mem.uid ==> w.server.value.status == w.task.read)
  {
    InvOfRun(cfg, init, actions);
    var w := Run(cfg, init, actions);
    if a.Op? && (w.task.Idle? || !WritesChildren(w.task.pc)) {
      OnlySixCallsWriteChildren(cfg, w, a.reply);
    }
  }

  // --------------------------------------------------------- coupled status

  ghost predicate ConditionsUnique(w: World) {
    && (w.server.Some? ==> UniqueKinds(w.server.value.status.conditions))
    && (w.task.Busy? ==> UniqueKinds(w.task.mem.status.conditions))
  }

  lemma WithConditionKeepsUnique(mem: Server)
    requires UniqueKinds(mem.status.conditions)
    ensures forall kind, status, reason ::
      UniqueKinds(WithCondition(mem, kind, status, reason).status.conditions)
  {
    forall kind, status, reason
      ensures UniqueKinds(WithCondition(mem, kind, status, reason).status.conditions)
    {
      SetConditionKeepsUnique(mem.status.conditions, Condition(kind, status, reason, mem.generation));
    }
  }

  lemma StartKeepsConditionsUnique(w: World, reply: Reply)
    requires ConditionsUnique(w)
    ensures ConditionsUnique(ExecFetchServer(w, reply))
  {
    if w.server.Some? {
      WithConditionKeepsUnique(w.server.value);
    }
  }

  lemma DeploymentKeepsConditionsUnique(cfg: Config, w: World, reply: Reply, pc: Pc)
    requires w.task.Busy? && ConditionsUnique(w) && w.task.pc == pc
    requires pc.FetchDeployment? || pc.CreateDeployment? || pc.UpdateDeployment? || pc.CheckSecret?
    ensures ConditionsUnique(Exec(cfg, w, reply))
  {
    WithConditionKeepsUnique(w.task.mem);
  }

  lemma ServiceKeepsConditionsUnique(cfg: Config, w: World, reply: Reply, pc: Pc)
    requires w.task.Busy? && ConditionsUnique(w) && w.task.pc == pc
    requires pc.FetchService? || pc.CreateService? || pc.UpdateService?
    ensures ConditionsUnique(Exec(cfg, w, reply))
  {
    WithConditionKeepsUnique(w.task.mem);
  }

  lemma ObserveKeepsConditionsUnique(cfg: Config, w: World, reply: Reply)
    requires w.task.Busy? && ConditionsUnique(w) && w.task.pc.ObserveDeployment?
    ensures ConditionsUnique(Exec(cfg, w, reply))
  {
    if w.deployment.Some? {
      WithConditionKeepsUnique(WithReplicas(w.task.mem, w.deployment.value.status));
      WithConditionKeepsUnique(Rollout(cfg, w.task.mem, w.deployment.value.status));
    }
  }

  lemma RouteKeepsConditionsUnique(cfg: Config, w: World, reply: Reply, pc: Pc)
    requires w.task.Busy? && ConditionsUnique(w) && w.task.pc == pc
    requires pc.FetchRoute? || pc.CreateRoute? || pc.UpdateRoute?
    ensures ConditionsUnique(Exec(cfg, w, reply))
  {
    WithConditionKeepsUnique(w.task.mem);
  }

  lemma PutKeepsConditionsUnique(cfg: Config, w: World, reply: Reply, pc: Pc)
    requires w.task.Busy? && ConditionsUnique(w) && w.task.pc == pc
    requires pc.PutFinalizer? || pc.PutStatus?
    ensures ConditionsUnique(Exec(cfg, w, reply))
  {
  }

  lemma EnvKeepsConditionsUnique(w: World, a: EnvAction)
    requires ConditionsUnique(w)
    ensures ConditionsUnique(EnvStep(w, a))
  {
  }

  lemma StepKeepsConditionsUnique(cfg: Config, w: World, a: Action)
    requires ConditionsUnique(w)
    ensures ConditionsUnique(Step(cfg, w, a))
  {
    match a
    case Env(env) => EnvKeepsConditionsUnique(w, env);
    case Crash =>
    case Op(reply) =>
      match w.task
      case Idle => StartKeepsConditionsUnique(w, reply);
      case Busy(pc, _, _) =>
        match pc
        case PutFinalizer => PutKeepsConditionsUnique(cfg, w, reply, pc);
        case PutStatus(_) => PutKeepsConditionsUnique(cfg, w, reply, pc);
        case ObserveDeployment => ObserveKeepsConditionsUnique(cfg, w, reply);
        case FetchService => ServiceKeepsConditionsUnique(cfg, w, reply, pc);
        case CreateService => ServiceKeepsConditionsUnique(cfg, w, reply, pc);
        case UpdateService(_) => ServiceKeepsConditionsUnique(cfg, w, reply, pc);
        case FetchRoute => RouteKeepsConditionsUnique(cfg, w, reply, pc);
        case CreateRoute => RouteKeepsConditionsUnique(cfg, w, reply, pc);
        case UpdateRoute(_) => RouteKeepsConditionsUnique(cfg, w, reply, pc);
        case _ => DeploymentKeepsConditionsUnique(cfg, w, reply, pc);
  }

  lemma {:induction false} ConditionsUniqueOfRun(cfg: Config, init: World, actions: seq<Action>)
    requires Init(init)
    ensures ConditionsUnique(Run(cfg, init, actions))
    decreases |actions|
  {
    if actions != [] {
      ConditionsUniqueOfRun(cfg, init, actions[..|actions| - 1]);
      StepKeepsConditionsUnique(cfg, Run(cfg, init, actions[..|actions| - 1]), actions[|actions| - 1]);
    }
  }

  /** Phase, conditions, counters and names in a stored status agree with one another. */
  lemma StatusIsCoupled(cfg: Config, init: World, actions: seq<Action>)
    requires Idempotent(cfg) && Init(init)
    ensures
      var w := Run(cfg, init, actions);
      w.server.Some? ==>
        var st := w.server.value.status;
        && (st.phase.Running? ==>
              && FindCondition(st.conditions, ReadyCondition).Some?
              && (FindCondition(st.conditions, ReadyCondition).value.status <==> st.readyReplicas >= st.replicas))
        && (st.phase.Running? || st.phase.Updating? ==>
              && FindCondition(st.conditions, DeployedCondition).Some?
              && FindCondition(st.conditions, DeployedCondition).value.status
              && st.deploymentName == cfg.key && st.serviceName == cfg.key)
        && UniqueKinds(st.conditions)
  {
    InvOfRun(cfg, init, actions);
    ConditionsUniqueOfRun(cfg, init, actions);
  }

  // ---------------------------------------------------------- phase history

  ghost predicate SameObject(w: World, w': World) {
    w.server.Some? && w'.server.Some? && w.server.value.uid == w'.server.value.uid
  }

  /** What one step may do to the generation and status of an object. */
  ghost predicate HistoryStep(s: Server, s': Server, a: Action) {
    && s.generation <= s'.generation
    && (s.deleting ==> s'.deleting)
    && s.status.observedGeneration <= s'.status.observedGeneration <= s'.generation
    && (s'.generation > s.generation ==> a.Env? && (a.env.UserEdit? || (a.env.UserDelete? && s'.deleting)))
    && (s'.status.phase != s.status.phase ==>
          && Edge(s.status.phase, s'.status.phase)
          && s'.status.observedGeneration == s'.generation == s.generation
          && (s.status.phase.Failed? ==> !s.deleting && s.status.observedGeneration != s.generation))
  }

  lemma OpHistory(cfg: Config, w: World, reply: Reply)
    requires Inv(cfg, w) && SameObject(w, Exec(cfg, w, reply))
    ensures HistoryStep(w.server.value, Exec(cfg, w, reply).server.value, Op(reply))
  {
    if w.task.Busy? {
      var Busy(pc, read, mem) := w.task;
      if !pc.PutStatus? && !pc.PutFinalizer? {
        OnlyTwoCallsWriteTheServer(cfg, w, reply);
      }
    }
  }

  lemma OnlyTwoCallsWriteTheServer(cfg: Config, w: World, reply: Reply)
    requires w.task.Idle? || (!w.task.pc.PutStatus? && !w.task.pc.PutFinalizer?)
    ensures Exec(cfg, w, reply).server == w.server
  {
    if w.task.Busy? && TouchesDeploymentOrService(w.task.pc) {
      RolloutCallsLeaveTheServer(cfg, w, reply);
    } else if w.task.Busy? {
      OtherCallsLeaveTheServer(cfg, w, reply);
    }
  }

  predicate TouchesDeploymentOrService(pc: Pc) {
    pc.FetchDeployment? || pc.CreateDeployment? || pc.UpdateDeployment?
    || pc.FetchService? || pc.CreateService? || pc.UpdateService?
  }

  lemma RolloutCallsLeaveTheServer(cfg: Config, w: World, reply: Reply)
    requires w.task.Busy? && TouchesDeploymentOrService(w.task.pc)
    ensures Exec(cfg, w, reply).server == w.server
  {
  }

  lemma OtherCallsLeaveTheServer(cfg: Config, w: World, reply: Reply)
    requires w.task.Busy? && !TouchesDeploymentOrService(w.task.pc)
    requires !w.task.pc.PutStatus? && !w.task.pc.PutFinalizer?
    ensures Exec(cfg, w, reply).server == w.server
  {
  }

  lemma StepHistory(cfg: Config, w: World, a: Action)
    requires Idempotent(cfg) && Inv(cfg, w)
    ensures SameObject(w, Step(cfg, w, a)) ==>
      HistoryStep(w.server.value, Step(cfg, w, a).server.value, a)
    ensures Step(cfg, w, a).server.Some? && !SameObject(w, Step(cfg, w, a)) ==>
      Step(cfg, w, a).server.value.status == EMPTY_STATUS
  {
    if a.Op? {
      if w.task.Idle? || (!w.task.pc.PutStatus? && !w.task.pc.PutFinalizer?) {
        OnlyTwoCallsWriteTheServer(cfg, w, a.reply);
      }
      if SameObject(w, Step(cfg, w, a)) {
        OpHistory(cfg, w, a.reply);
      }
    }
  }

  lemma RunTakesStep(cfg: Config, init: World, actions: seq<Action>, i: nat)
    requires i < |actions|
    ensures Run(cfg, init, actions[..i + 1]) == Step(cfg, Run(cfg, init, actions[..i]), actions[i])
  {
    assert actions[..i + 1][..i] == actions[..i];
  }

  /** Every run follows only the coded phase changes, starting from an empty status, never reaches
      Scaling or Terminating, and records generations monotonically. */
  lemma PhaseHistory(cfg: Config, init: World, actions: seq<Action>, i: nat)
    requires Idempotent(cfg) && Init(init) && i < |actions|
    ensures
      var w, w' := Run(cfg, init, actions[..i]), Run(cfg, init, actions[..i + 1]);
      w'.server.Some? ==>
        var st' := w'.server.value.status;
        && !st'.phase.Scaling? && !st'.phase.Terminating?
        && st'.observedGeneration <= w'.server.value.generation
        && (!SameObject(w, w') ==> st' == EMPTY_STATUS)
        && (SameObject(w, w') ==>
              var st := w.server.value.status;
              && (st'.phase == st.phase || Edge(st.phase, st'.phase))
              && st.observedGeneration <= st'.observedGeneration)
  {
    InvOfRun(cfg, init, actions[..i]);
    InvOfRun(cfg, init, actions[..i + 1]);
    RunTakesStep(cfg, init, actions, i);
    StepHistory(cfg, Run(cfg, init, actions[..i]), actions[i]);
  }

  /** From step `i + 1` to step `j` one object stays in phase Failed. */
  ghost predicate StaysFailed(cfg: Config, init: World, actions: seq<Action>, i: nat, j: nat)
    requires j <= |actions|
  {
    forall k :: i < k <= j ==>
      var w := Run(cfg, init, actions[..k]);
      w.server.Some? && w.server.value.status.phase.Failed?
      && SameObject(w, Run(cfg, init, actions[..j]))
  }

  predicate IsSpecEdit(a: Action) {
    a.Env? && a.env.UserEdit?
  }

  /** While an object stays Failed its recorded generation never falls, and until it is being deleted
      its generation grows only by edits of its spec. */
  lemma {:induction false} GrowthNeedsEdit(cfg: Config, init: World, actions: seq<Action>, i: nat, j: nat)
    requires Idempotent(cfg) && Init(init) && i < j <= |actions|
    requires StaysFailed(cfg, init, actions, i, j)
    ensures
      var s, s' := Run(cfg, init, actions[..i + 1]).server.value, Run(cfg, init, actions[..j]).server.value;
      && s.status.observedGeneration <= s'.status.observedGeneration
      && (s.generation < s'.generation ==>
            s'.deleting || exists k :: i < k < j && IsSpecEdit(actions[k]))
    decreases j
  {
    if i + 1 < j {
      var m := j - 1;
      var wm, wj := Run(cfg, init, actions[..m]), Run(cfg, init, actions[..j]);
      assert SameObject(wm, wj);
      assert StaysFailed(cfg, init, actions, i, m) by {
        forall k | i < k <= m
          ensures
            var w := Run(cfg, init, actions[..k]);
            w.server.Some? && w.server.value.status.phase.Failed? && SameObject(w, wm)
        {
        }
      }
      GrowthNeedsEdit(cfg, init, actions, i, m);
      InvOfRun(cfg, init, actions[..m]);
      RunTakesStep(cfg, init, actions, m);
      StepHistory(cfg, wm, actions[m]);
      if wj.server.value.generation > wm.server.value.generation && !wj.server.value.deleting {
        assert IsSpecEdit(actions[m]);
      }
    }
  }

  /** An object leaves Failed only to Pending, and only after its spec was edited since Failed was
      recorded. */
  lemma FailedIsLeftOnlyAfterAnEdit(
      cfg: Config, init: World, actions: seq<Action>, i: nat, j: nat)
    requires Idempotent(cfg) && Init(init) && i < j < |actions|
    requires StaysFailed(cfg, init, actions, i, j)
    requires
      var before, entered := Run(cfg, init, actions[..i]), Run(cfg, init, actions[..i + 1]);
      SameObject(before, entered) && !before.server.value.status.phase.Failed?
    requires
      var last, left := Run(cfg, init, actions[..j]), Run(cfg, init, actions[..j + 1]);
      SameObject(last, left) && !left.server.value.status.phase.Failed?
    ensures Run(cfg, init, actions[..j + 1]).server.value.status.phase.Pending?
    ensures exists k :: i < k < j && IsSpecEdit(actions[k])
  {
    InvOfRun(cfg, init, actions[..i]);
    RunTakesStep(cfg, init, actions, i);
    StepHistory(cfg, Run(cfg, init, actions[..i]), actions[i]);
    InvOfRun(cfg, init, actions[..j]);
    RunTakesStep(cfg, init, actions, j);
    StepHistory(cfg, Run(cfg, init, actions[..j]), actions[j]);
    GrowthNeedsEdit(cfg, init, actions, i, j);
  }

  // ------------------------------------------------------ labels and selectors

  /** Defaulting leaves selectors and pod labels alone. */
  ghost predicate KeepsLabels(cfg: Config) {
    && (forall d :: cfg.defaultDeployment(d).selector == d.selector && cfg.defaultDeployment(d).podLabels == d.podLabels)
    && (forall s :: cfg.defaultService(s).selector == s.selector)
  }

  ghost predicate LabelsOk(cfg: Config, w: World) {
    && (w.deployment.Some? ==>
          && w.deployment.value.labels == CommonLabels(cfg.key)
          && w.deployment.value.spec.selector == CommonLabels(cfg.key)
          && w.deployment.value.spec.podLabels == CommonLabels(cfg.key))
    && (w.service.Some? ==>
          && w.service.value.labels == CommonLabels(cfg.key)
          && w.service.value.spec.selector == CommonLabels(cfg.key))
    && (w.route.Some? ==> w.route.value.labels == RouteLabels(cfg.key))
  }

  lemma CreateDeploymentKeepsLabels(cfg: Config, w: World, reply: Reply)
    requires KeepsLabels(cfg) && LabelsOk(cfg, w) && w.task.Busy? && w.task.pc.CreateDeployment?
    ensures LabelsOk(cfg, Exec(cfg, w, reply))
  {
  }

  lemma UpdateDeploymentKeepsLabels(cfg: Config, w: World, reply: Reply)
    requires KeepsLabels(cfg) && LabelsOk(cfg, w) && w.task.Busy? && w.task.pc.UpdateDeployment?
    ensures LabelsOk(cfg, Exec(cfg, w, reply))
  {
  }

  lemma CreateServiceKeepsLabels(cfg: Config, w: World, reply: Reply)
    requires KeepsLabels(cfg) && LabelsOk(cfg, w) && w.task.Busy? && w.task.pc.CreateService?
    ensures LabelsOk(cfg, Exec(cfg, w, reply))
  {
  }

  lemma UpdateServiceKeepsLabels(cfg: Config, w: World, reply: Reply)
    requires KeepsLabels(cfg) && LabelsOk(cfg, w) && w.task.Busy? && w.task.pc.UpdateService?
    ensures LabelsOk(cfg, Exec(cfg, w, reply))
  {
  }

  lemma CreateRouteKeepsLabels(cfg: Config, w: World, reply: Reply)
    requires KeepsLabels(cfg) && LabelsOk(cfg, w) && w.task.Busy? && w.task.pc.CreateRoute?
    ensures LabelsOk(cfg, Exec(cfg, w, reply))
  {
  }

  lemma UpdateRouteKeepsLabels(cfg: Config, w: World, reply: Reply)
    requires KeepsLabels(cfg) && LabelsOk(cfg, w) && w.task.Busy? && w.task.pc.UpdateRoute?
    ensures LabelsOk(cfg, Exec(cfg, w, reply))
  {
  }

  lemma StepKeepsLabels(cfg: Config, w: World, a: Action)
    requires KeepsLabels(cfg) && LabelsOk(cfg, w)
    ensures LabelsOk(cfg, Step(cfg, w, a))
  {
    match a
    case Env(env) => EnvKeepsLabels(cfg, w, env);
    case Crash =>
    case Op(reply) =>
      if w.task.Idle? || !WritesChildren(w.task.pc) {
        OnlySixCallsWriteChildren(cfg, w, reply);
      } else {
        match w.task.pc
        case CreateDeployment => CreateDeploymentKeepsLabels(cfg, w, reply);
        case UpdateDeployment(_) => UpdateDeploymentKeepsLabels(cfg, w, reply);
        case CreateService => CreateServiceKeepsLabels(cfg, w, reply);
        case UpdateService(_) => UpdateServiceKeepsLabels(cfg, w, reply);
        case CreateRoute => CreateRouteKeepsLabels(cfg, w, reply);
        case UpdateRoute(_) => UpdateRouteKeepsLabels(cfg, w, reply);
      }
  }

  lemma EnvKeepsLabels(cfg: Config, w: World, a: EnvAction)
    requires LabelsOk(cfg, w)
    ensures LabelsOk(cfg, EnvStep(w, a))
  {
  }

  lemma {:induction false} LabelsOfRun(cfg: Config, init: World, actions: seq<Action>)
    requires KeepsLabels(cfg) && Init(init)
    ensures LabelsOk(cfg, Run(cfg, init, actions))
    decreases |actions|
  {
    if actions != [] {
      LabelsOfRun(cfg, init, actions[..|actions| - 1]);
      StepKeepsLabels(cfg, Run(cfg, init, actions[..|actions| - 1]), actions[|actions| - 1]);
    }
  }

  /** At any two moments of a run the Deployment has the same selector, even if the spec was edited
      or the Deployment was deleted and created again; it is also the label set of the pods and the
      selector of the Service. Labels of all children are the computed ones although they are
      rewritten only when a spec differs. */
  lemma SelectorsNeverChange(cfg: Config, init: World, actions: seq<Action>, i: nat, j: nat)
    requires KeepsLabels(cfg) && Init(init) && i <= |actions| && j <= |actions|
    ensures
      var w, w' := Run(cfg, init, actions[..i]), Run(cfg, init, actions[..j]);
      && (w.deployment.Some? && w'.deployment.Some? ==>
            && w.deployment.value.spec.selector == w'.deployment.value.spec.selector
            && w.deployment.value.spec.selector == w.deployment.value.spec.podLabels
            && w.deployment.value.labels == w'.deployment.value.labels)
      && (w.deployment.Some? && w'.service.Some? ==>
            && w.deployment.value.spec.podLabels == w'.service.value.spec.selector
            && w'.service.value.labels == CommonLabels(cfg.key))
      && (w'.route.Some? ==> w'.route.value.labels == RouteLabels(cfg.key))
  {
    LabelsOfRun(cfg, init, actions[..i]);
    LabelsOfRun(cfg, init, actions[..j]);
  }

  // ------------------------------------------------------------- no lost work

  /** A reconcile ends for good only when the object it read was absent or marked for deletion:
      every Reconcile of a live object requeues or returns an error. */
  lemma LiveObjectsAreRequeued(cfg: Config, init: World, actions: seq<Action>, reply: Reply)
    requires Idempotent(cfg) && Init(init)
    ensures
      var w := Run(cfg, init, actions);
      var w' := Exec(cfg, w, reply);
      w'.task.Idle? && w'.last.Done? ==>
        if w.task.Idle? then w.server.None? || w.server.value.deleting else w.task.mem.deleting
  {
    InvOfRun(cfg, init, actions);
    ReconcileOutcome(cfg, Run(cfg, init, actions), reply);
  }

  lemma ReconcileOutcome(cfg: Config, w: World, reply: Reply)
    requires Inv(cfg, w)
    ensures
      var w' := Exec(cfg, w, reply);
      w'.task.Idle? && w'.last.Done? ==>
        if w.task.Idle? then w.server.None? || w.server.value.deleting else w.task.mem.deleting
  {
    match w.task
    case Idle => StartOutcome(w, reply);
    case Busy(pc, read, mem) =>
      if !pc.PutFinalizer? && !pc.PutStatus? {
        MiddleCallsAreNeverDone(cfg, w, reply);
      }
  }

  lemma StartOutcome(w: World, reply: Reply)
    ensures
      var w' := ExecFetchServer(w, reply);
      w'.task.Idle? && w'.last.Done? ==> w.server.None? || w.server.value.deleting
  {
  }

  lemma MiddleCallsAreNeverDone(cfg: Config, w: World, reply: Reply)
    requires w.task.Busy? && !w.task.pc.PutFinalizer? && !w.task.pc.PutStatus?
    ensures Exec(cfg, w, reply).task.Idle? ==> !Exec(cfg, w, reply).last.Done?
  {
  }
}
