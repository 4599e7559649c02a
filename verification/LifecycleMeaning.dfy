/** What the stored objects say in any state of any run, written out field by field and traced to what
    users asked for and what the cluster reported. */
module LifecycleMeaning {
  import opened Options
  import opened Reconciling
  import opened McpTypes
  import opened ChildObjects
  import opened ServerLifecycle
  import opened LifecycleInvariant
  import opened LifecycleTheorems

  // --------------------------------------------------- the Deployment's fields

  /** Defaulting may add resource requests, and leaves everything else the operator sets alone. */
  ghost predicate KeepsTemplate(cfg: Config) {
    forall d :: DefaultedFrom(cfg.defaultDeployment(d), d)
  }

  predicate DefaultedFrom(a: DeploymentSpec, b: DeploymentSpec) {
    && a.replicas == b.replicas && a.selector == b.selector
    && a.podLabels == b.podLabels && a.podAnnotations == b.podAnnotations
    && |a.containers| == |b.containers|
    && forall i :: 0 <= i < |a.containers| ==>
         var c, d := a.containers[i], b.containers[i];
         && c == d.(resources := c.resources)
         && c.resources.limits == d.resources.limits && Includes(c.resources.requests, d.resources.requests)
  }

  predicate Includes(a: map<string, string>, b: map<string, string>) {
    forall k :: k in b ==> k in a && a[k] == b[k]
  }

  /** The stored Deployment of a server that is Running at its current generation runs the current
      spec: replicas, image, environment, ports, probes, resources, annotations and the stdio bridge. */
  lemma RunningDeploymentMeetsSpec(cfg: Config, init: World, actions: seq<Action>)
    requires Idempotent(cfg) && Init(init) && KeepsTemplate(cfg)
    requires
      var w := Run(cfg, init, actions);
      && w.server.Some? && w.server.value.status.phase.Running?
      && w.server.value.status.observedGeneration == w.server.value.generation
      && w.deployment.Some?
    ensures
      var w := Run(cfg, init, actions);
      var spec, d := w.server.value.spec, w.deployment.value.spec;
      && MeetsSpec(d, cfg.key, spec)
      && forall c :: c in d.containers ==>
           && c.resources.limits == (if spec.resources.Some? then spec.resources.value.limits else map[])
           && (spec.resources.Some? ==> Includes(c.resources.requests, spec.resources.value.requests))
  {
    RunningMeansServed(cfg, init, actions);
    var w := Run(cfg, init, actions);
    DeploymentMeetsSpec(cfg.key, w.server.value.spec);
    DefaultingMeetsSpec(w.deployment.value.spec, DeploymentFor(cfg.key, w.server.value.spec), cfg.key, w.server.value.spec);
  }

  lemma DefaultingMeetsSpec(a: DeploymentSpec, b: DeploymentSpec, name: string, spec: ServerSpec)
    requires DefaultedFrom(a, b) && MeetsSpec(b, name, spec)
    requires forall c :: c in b.containers ==>
      c.resources == if spec.resources.Some? then spec.resources.value else Resources(map[], map[])
    ensures MeetsSpec(a, name, spec)
    ensures forall c :: c in a.containers ==>
      && c.resources.limits == (if spec.resources.Some? then spec.resources.value.limits else map[])
      && (spec.resources.Some? ==> Includes(c.resources.requests, spec.resources.value.requests))
  {
    forall i | 0 <= i < |a.containers| ensures b.containers[i] in b.containers {
    }
  }

  /** Labels of all children, in every state. */
  lemma LabelsWrittenOut(cfg: Config, init: World, actions: seq<Action>)
    requires KeepsLabels(cfg) && Init(init)
    ensures
      var w := Run(cfg, init, actions);
      var labels := map["app.kubernetes.io/name" := "mcpserver",
        "app.kubernetes.io/instance" := cfg.key, "app.kubernetes.io/managed-by" := "mcp-gateway"];
      && (w.deployment.Some? ==>
            && w.deployment.value.labels == labels
            && w.deployment.value.spec.selector == labels && w.deployment.value.spec.podLabels == labels)
      && (w.service.Some? ==> w.service.value.labels == labels && w.service.value.spec.selector == labels)
      && (w.route.Some? ==>
            w.route.value.labels == map["app.kubernetes.io/managed-by" := "mcp-gateway", "mcp-gateway.io/server" := cfg.key])
  {
    LabelsOfRun(cfg, init, actions);
  }

  // ------------------------------------------------------ the reported counters

  predicate Counts(st: Status, d: DeploymentStatus) {
    st.replicas == d.replicas && st.readyReplicas == d.readyReplicas
  }

  /** After `k` steps the Deployment reported these numbers. */
  ghost predicate ReportedAt(cfg: Config, init: World, actions: seq<Action>, k: nat, st: Status) {
    k <= |actions| &&
    var d := Run(cfg, init, actions[..k]).deployment;
    d.Some? && Counts(st, d.value.status)
  }

  ghost predicate Reported(cfg: Config, init: World, actions: seq<Action>, st: Status) {
    exists k: nat :: ReportedAt(cfg, init, actions, k, st)
  }

  predicate CallsAboutRoute(pc: Pc) {
    pc.FetchRoute? || pc.CreateRoute? || pc.UpdateRoute?
  }

  /** The reconcile in progress may record, or go on being, Running. */
  predicate NearRunning(task: Task) {
    task.Busy? && (task.mem.status.phase.Running? || CallsAboutRoute(task.pc))
  }

  ghost predicate CountersOk(cfg: Config, init: World, actions: seq<Action>) {
    var w := Run(cfg, init, actions);
    && (w.server.Some? && w.server.value.status.phase.Running? ==>
          Reported(cfg, init, actions, w.server.value.status))
    && (NearRunning(w.task) ==> Reported(cfg, init, actions, w.task.mem.status))
  }

  predicate SameCounts(a: Status, b: Status) {
    a.replicas == b.replicas && a.readyReplicas == b.readyReplicas
  }

  /** A copy near Running has counters of the Deployment, of the copy before, or of the object. */
  ghost predicate CountersFrom(w: World, w': World) {
    NearRunning(w'.task) ==>
      || (w.deployment.Some? && Counts(w'.task.mem.status, w.deployment.value.status))
      || (NearRunning(w.task) && SameCounts(w'.task.mem.status, w.task.mem.status))
      || (w.task.Idle? && w.server.Some? && w.server.value.status.phase.Running?
          && SameCounts(w'.task.mem.status, w.server.value.status))
  }

  lemma StartCounters(cfg: Config, w: World, reply: Reply)
    requires w.task.Idle?
    ensures CountersFrom(w, Exec(cfg, w, reply))
  {
  }

  lemma ObservedCounters(cfg: Config, w: World, reply: Reply)
    requires w.task.Busy? && w.task.pc.ObserveDeployment?
    ensures CountersFrom(w, Exec(cfg, w, reply))
  {
  }

  lemma RouteCounters(cfg: Config, w: World, reply: Reply)
    requires w.task.Busy? && CallsAboutRoute(w.task.pc)
    ensures CountersFrom(w, Exec(cfg, w, reply))
  {
  }

  lemma DeploymentCounters(cfg: Config, w: World, reply: Reply)
    requires w.task.Busy? && (w.task.pc.FetchDeployment? || w.task.pc.CreateDeployment? || w.task.pc.UpdateDeployment?)
    ensures CountersFrom(w, Exec(cfg, w, reply))
  {
  }

  lemma ServiceCounters(cfg: Config, w: World, reply: Reply)
    requires w.task.Busy? && (w.task.pc.FetchService? || w.task.pc.CreateService? || w.task.pc.UpdateService?)
    ensures CountersFrom(w, Exec(cfg, w, reply))
  {
  }

  lemma OtherCounters(cfg: Config, w: World, reply: Reply)
    requires w.task.Busy? && (w.task.pc.PutFinalizer? || w.task.pc.CheckSecret? || w.task.pc.PutStatus?)
    ensures CountersFrom(w, Exec(cfg, w, reply))
  {
  }

  lemma ExecCounters(cfg: Config, w: World, reply: Reply)
    ensures CountersFrom(w, Exec(cfg, w, reply))
  {
    match w.task
    case Idle => StartCounters(cfg, w, reply);
    case Busy(pc, _, _) =>
      if CallsAboutRoute(pc) {
        RouteCounters(cfg, w, reply);
      } else if pc.FetchDeployment? || pc.CreateDeployment? || pc.UpdateDeployment? {
        DeploymentCounters(cfg, w, reply);
      } else if TouchesDeploymentOrService(pc) {
        ServiceCounters(cfg, w, reply);
      } else if pc.ObserveDeployment? {
        ObservedCounters(cfg, w, reply);
      } else {
        OtherCounters(cfg, w, reply);
      }
  }

  /** A stored Running status was stored before, or is that of the copy. */
  lemma RunningIsStored(cfg: Config, w: World, a: Action)
    ensures
      var w' := Step(cfg, w, a);
      w'.server.Some? && w'.server.value.status.phase.Running? ==>
        || (w.server.Some? && w.server.value.status == w'.server.value.status)
        || (w.task.Busy? && w.task.mem.status == w'.server.value.status)
  {
    if a.Op? && (w.task.Idle? || (!w.task.pc.PutStatus? && !w.task.pc.PutFinalizer?)) {
      OnlyTwoCallsWriteTheServer(cfg, w, a.reply);
    }
  }

  lemma ReportedStays(cfg: Config, init: World, actions: seq<Action>, n: nat, st: Status, st': Status)
    requires n <= |actions| && Reported(cfg, init, actions[..n], st) && SameCounts(st', st)
    ensures Reported(cfg, init, actions, st')
  {
    var k: nat :| ReportedAt(cfg, init, actions[..n], k, st);
    assert actions[..n][..k] == actions[..k];
    assert ReportedAt(cfg, init, actions, k, st');
  }

  lemma {:induction false} CountersOfRun(cfg: Config, init: World, actions: seq<Action>)
    requires Init(init)
    ensures CountersOk(cfg, init, actions)
    decreases |actions|
  {
    if actions != [] {
      var n := |actions| - 1;
      var w, a := Run(cfg, init, actions[..n]), actions[n];
      var w' := Step(cfg, w, a);
      CountersOfRun(cfg, init, actions[..n]);
      RunningIsStored(cfg, w, a);
      if w'.server.Some? && w'.server.value.status.phase.Running? {
        ReportedStays(cfg, init, actions, n, w'.server.value.status, w'.server.value.status);
      }
      if NearRunning(w'.task) {
        if a.Op? {
          ExecCounters(cfg, w, a.reply);
        }
        CopyIsReported(cfg, init, actions);
      }
    }
  }

  lemma CopyIsReported(cfg: Config, init: World, actions: seq<Action>)
    requires actions != [] && CountersOk(cfg, init, actions[..|actions| - 1])
    requires NearRunning(Run(cfg, init, actions).task)
    requires
      var w := Run(cfg, init, actions[..|actions| - 1]);
      actions[|actions| - 1].Op? ==> CountersFrom(w, Run(cfg, init, actions))
    ensures Reported(cfg, init, actions, Run(cfg, init, actions).task.mem.status)
  {
    var n := |actions| - 1;
    var w, st := Run(cfg, init, actions[..n]), Run(cfg, init, actions).task.mem.status;
    if actions[n].Op? && w.deployment.Some? && Counts(st, w.deployment.value.status) {
      assert ReportedAt(cfg, init, actions, n, st);
    } else if NearRunning(w.task) && SameCounts(st, w.task.mem.status) {
      ReportedStays(cfg, init, actions, n, w.task.mem.status, st);
    } else {
      ReportedStays(cfg, init, actions, n, w.server.value.status, st);
    }
  }

  /** What a Running server reports, its Deployment reported at one and the same moment of the run, and
      Ready is True exactly if it was ready at that moment. */
  lemma RunningCountersWereReported(cfg: Config, init: World, actions: seq<Action>) returns (k: nat)
    requires Idempotent(cfg) && Init(init)
    requires
      var w := Run(cfg, init, actions);
      w.server.Some? && w.server.value.status.phase.Running?
    ensures k <= |actions| && Run(cfg, init, actions[..k]).deployment.Some?
    ensures
      var st := Run(cfg, init, actions).server.value.status;
      var d := Run(cfg, init, actions[..k]).deployment.value.status;
      && st.replicas == d.replicas && st.readyReplicas == d.readyReplicas
      && FindCondition(st.conditions, ReadyCondition).Some?
      && (FindCondition(st.conditions, ReadyCondition).value.status <==> d.readyReplicas >= d.replicas)
  {
    var st := Run(cfg, init, actions).server.value.status;
    CountersOfRun(cfg, init, actions);
    StatusIsCoupled(cfg, init, actions);
    k :| ReportedAt(cfg, init, actions, k, st);
  }

  // ---------------------------------------------------------- whose spec it was

  /** After `k` steps the stored object was this one, with this spec. */
  ghost predicate StoredAt(cfg: Config, init: World, actions: seq<Action>, k: nat, uid: nat, spec: ServerSpec) {
    k <= |actions| &&
    var s := Run(cfg, init, actions[..k]).server;
    s.Some? && s.value.uid == uid && s.value.spec == spec
  }

  ghost predicate Stored(cfg: Config, init: World, actions: seq<Action>, uid: nat, spec: ServerSpec) {
    exists k: nat :: StoredAt(cfg, init, actions, k, uid, spec)
  }

  lemma StoredStays(cfg: Config, init: World, actions: seq<Action>, n: nat, uid: nat, spec: ServerSpec)
    requires n <= |actions| && Stored(cfg, init, actions[..n], uid, spec)
    ensures Stored(cfg, init, actions, uid, spec)
  {
    var k: nat :| StoredAt(cfg, init, actions[..n], k, uid, spec);
    assert actions[..n][..k] == actions[..k];
    assert StoredAt(cfg, init, actions, k, uid, spec);
  }

  lemma CallsKeepTheSpec(cfg: Config, w: World, reply: Reply)
    requires w.task.Busy?
    ensures
      var w' := Exec(cfg, w, reply);
      w'.task.Busy? ==> w'.task.mem.uid == w.task.mem.uid && w'.task.mem.spec == w.task.mem.spec
  {
    if TouchesDeploymentOrService(w.task.pc) {
      RolloutCallsKeepTheSpec(cfg, w, reply);
    } else {
      OtherCallsKeepTheSpec(cfg, w, reply);
    }
  }

  lemma OtherCallsKeepTheSpec(cfg: Config, w: World, reply: Reply)
    requires w.task.Busy? && !TouchesDeploymentOrService(w.task.pc)
    ensures
      var w' := Exec(cfg, w, reply);
      w'.task.Busy? ==> w'.task.mem.uid == w.task.mem.uid && w'.task.mem.spec == w.task.mem.spec
  {
  }

  lemma RolloutCallsKeepTheSpec(cfg: Config, w: World, reply: Reply)
    requires w.task.Busy? && TouchesDeploymentOrService(w.task.pc)
    ensures
      var w' := Exec(cfg, w, reply);
      w'.task.Busy? ==> w'.task.mem.uid == w.task.mem.uid && w'.task.mem.spec == w.task.mem.spec
  {
  }

  lemma StartReadsTheSpec(cfg: Config, w: World, reply: Reply)
    requires w.task.Idle?
    ensures
      var w' := Exec(cfg, w, reply);
      w'.task.Busy? ==>
        w.server.Some? && w'.task.mem.uid == w.server.value.uid && w'.task.mem.spec == w.server.value.spec
  {
  }

  /** A reconcile in progress works on a spec the object had at some moment. */
  lemma {:induction false} CopyWasStored(cfg: Config, init: World, actions: seq<Action>)
    requires Init(init)
    ensures
      var task := Run(cfg, init, actions).task;
      task.Busy? ==> Stored(cfg, init, actions, task.mem.uid, task.mem.spec)
    decreases |actions|
  {
    if actions != [] {
      var n := |actions| - 1;
      var w, a := Run(cfg, init, actions[..n]), actions[n];
      CopyWasStored(cfg, init, actions[..n]);
      var task := Step(cfg, w, a).task;
      if task.Busy? {
        if a.Op? && w.task.Idle? {
          StartReadsTheSpec(cfg, w, a.reply);
          assert StoredAt(cfg, init, actions, n, task.mem.uid, task.mem.spec);
        } else {
          if a.Op? {
            CallsKeepTheSpec(cfg, w, a.reply);
          }
          StoredStays(cfg, init, actions, n, task.mem.uid, task.mem.spec);
        }
      }
    }
  }

  /** The Service a write stores is made from the spec of the copy. */
  ghost predicate ServiceFrom(cfg: Config, service: Service, spec: ServerSpec) {
    && service.annotations == spec.serviceAnnotations
    && service.spec == cfg.defaultService(ServiceSpec(
         [ServicePort("mcp", spec.source.port, spec.source.port)],
         map["app.kubernetes.io/name" := "mcpserver",
             "app.kubernetes.io/instance" := cfg.key, "app.kubernetes.io/managed-by" := "mcp-gateway"]))
  }

  lemma ServiceWritesStoreTheCopy(cfg: Config, w: World, reply: Reply)
    requires w.task.Busy? && (w.task.pc.CreateService? || w.task.pc.UpdateService?)
    ensures
      var w' := Exec(cfg, w, reply);
      w'.service == w.service || (w'.service.Some? && ServiceFrom(cfg, w'.service.value, w.task.mem.spec))
  {
  }

  lemma OtherCallsLeaveTheService(cfg: Config, w: World, reply: Reply)
    requires w.task.Idle? || !(w.task.pc.CreateService? || w.task.pc.UpdateService?)
    ensures Exec(cfg, w, reply).service == w.service
  {
    if w.task.Idle? || !WritesChildren(w.task.pc) {
      OnlySixCallsWriteChildren(cfg, w, reply);
    }
  }

  /** A Service the operator creates or rewrites carries the annotations, and the port, of one spec the
      object had. */
  lemma ServicesCarryAnnotations(cfg: Config, init: World, actions: seq<Action>, a: Action) returns (k: nat)
    requires Init(init) && a.Op?
    requires
      var service := Step(cfg, Run(cfg, init, actions), a).service;
      service.Some? && service != Run(cfg, init, actions).service
    ensures k <= |actions| && Run(cfg, init, actions[..k]).server.Some?
    ensures ServiceFrom(cfg, Step(cfg, Run(cfg, init, actions), a).service.value,
                        Run(cfg, init, actions[..k]).server.value.spec)
  {
    var w := Run(cfg, init, actions);
    if w.task.Busy? && (w.task.pc.CreateService? || w.task.pc.UpdateService?) {
      ServiceWritesStoreTheCopy(cfg, w, a.reply);
    } else {
      OtherCallsLeaveTheService(cfg, w, a.reply);
    }
    CopyWasStored(cfg, init, actions);
    k :| StoredAt(cfg, init, actions, k, w.task.mem.uid, w.task.mem.spec);
  }
}
