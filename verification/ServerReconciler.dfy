/** The MCPServer reconciler in the order its code runs. Every API call may be preceded by other
    parties' actions and may fail; whatever happens, what the code does is a run of the transition
    system of `ServerLifecycle`, so everything proved of runs holds of it. */
module ServerReconciler {
  import opened Options
  import opened Reconciling
  import opened McpTypes
  import opened ChildObjects
  import opened ServerLifecycle
  import opened LifecycleInvariant
  import opened LifecycleTheorems

  class MCPServerReconciler {
    const cfg: Config
    var world: World               // what the API server holds
    var server: Server             // the copy the reconcile in progress works on
    ghost const origin: World      // the state the run started from
    ghost var log: seq<Action>     // everything that has happened since

    ghost predicate Valid()
      reads this
    {
      world == Run(cfg, origin, log)
    }

    /** The run started from a cluster without the object. */
    ghost predicate FromStart() {
      Idempotent(cfg) && Init(origin)
    }

    constructor (cfg: Config, world: World, server: Server)
      ensures Valid() && this.cfg == cfg && this.world == world && origin == world && log == []
    {
      this.cfg, this.world, this.server := cfg, world, server;
      this.origin, this.log := world, [];
    }

    // --------------------------------------------------------- the API server

    /** Others act: users, the Deployment controller, whoever deletes children. */
    method Interfere()
      requires Valid()
      modifies `world, `log
      ensures Valid() && old(log) <= log
      ensures world.task == old(world.task)
    {
      var others: seq<EnvAction> := *;
      for i := 0 to |others|
        invariant Valid() && old(log) <= log && world.task == old(world.task)
      {
        assert (log + [Env(others[i])])[..|log|] == log;
        world := EnvStep(world, others[i]);
        log := log + [Env(others[i])];
      }
    }

    /** One API call: it takes effect on the state `before`, with any reply. */
    method Call() returns (before: World, reply: Reply)
      requires Valid()
      modifies `world, `log
      ensures Valid() && old(log) <= log
      ensures before.task == old(world.task)
      ensures world == Exec(cfg, before, reply)
      ensures old(|log|) < |log| && before == Run(cfg, origin, log[..|log| - 1]) && log[|log| - 1] == Op(reply)
    {
      Interfere();
      before := world;
      reply := *;
      assert (log + [Op(reply)])[..|log|] == log;
      world := Exec(cfg, world, reply);
      log := log + [Op(reply)];
    }

    method GetServer() returns (r: Answer<Server>, ghost before: World, ghost reply: Reply)
      requires Valid() && world.task.Idle?
      modifies `world, `log
      ensures Valid() && old(log) <= log
      ensures before.task.Idle? && world == Exec(cfg, before, reply)
      ensures r == if reply.Fault? then Failure else if before.server.None? then NotFound else Found(before.server.value)
    {
      var w, rep := Call();
      before, reply := w, rep;
      r := if rep.Fault? then Failure else if w.server.None? then NotFound else Found(w.server.value);
    }

    method GetSecret(name: string) returns (r: Answer<()>, ghost before: World, ghost reply: Reply)
      requires Valid() && world.task.Busy? && world.task.pc.CheckSecret?
      requires var i := world.task.pc.next;
        i < |world.task.mem.spec.secrets| && world.task.mem.spec.secrets[i].secretName == name
      modifies `world, `log
      ensures Valid() && old(log) <= log
      ensures before.task == old(world.task) && world == Exec(cfg, before, reply)
      ensures old(|log|) < |log| && before == Run(cfg, origin, log[..|log| - 1])
      ensures r == if reply.Fault? then Failure else if name !in before.secrets then NotFound else Found(())
    {
      var w, rep := Call();
      before, reply := w, rep;
      r := if rep.Fault? then Failure else if name !in w.secrets then NotFound else Found(());
    }

    method GetDeployment() returns (r: Answer<Deployment>, ghost before: World, ghost reply: Reply)
      requires Valid() && world.task.Busy? && (world.task.pc.FetchDeployment? || world.task.pc.ObserveDeployment?)
      modifies `world, `log
      ensures Valid() && old(log) <= log
      ensures before.task == old(world.task) && world == Exec(cfg, before, reply)
      ensures old(|log|) < |log| && before == Run(cfg, origin, log[..|log| - 1])
      ensures r == if reply.Fault? then Failure else if before.deployment.None? then NotFound else Found(before.deployment.value)
    {
      var w, rep := Call();
      before, reply := w, rep;
      r := if rep.Fault? then Failure else if w.deployment.None? then NotFound else Found(w.deployment.value);
    }

    method GetService() returns (r: Answer<Service>, ghost before: World, ghost reply: Reply)
      requires Valid() && world.task.Busy? && world.task.pc.FetchService?
      modifies `world, `log
      ensures Valid() && old(log) <= log
      ensures before.task == old(world.task) && world == Exec(cfg, before, reply)
      ensures r == if reply.Fault? then Failure else if before.service.None? then NotFound else Found(before.service.value)
    {
      var w, rep := Call();
      before, reply := w, rep;
      r := if rep.Fault? then Failure else if w.service.None? then NotFound else Found(w.service.value);
    }

    method GetRoute() returns (r: Answer<Route>, ghost before: World, ghost reply: Reply)
      requires Valid() && world.task.Busy? && world.task.pc.FetchRoute?
      modifies `world, `log
      ensures Valid() && old(log) <= log
      ensures before.task == old(world.task) && world == Exec(cfg, before, reply)
      ensures old(|log|) < |log| && before == Run(cfg, origin, log[..|log| - 1]) && log[|log| - 1] == Op(reply)
      ensures r == if reply.Fault? then Failure else if before.route.None? then NotFound else Found(before.route.value)
    {
      var w, rep := Call();
      before, reply := w, rep;
      r := if rep.Fault? then Failure else if w.route.None? then NotFound else Found(w.route.value);
    }

    /** Creating a child: the arguments must be what the transition system stores. */
    method CreateDeployment(labels: Labels, spec: DeploymentSpec)
      returns (ok: bool, ghost before: World, ghost reply: Reply)
      requires Valid() && world.task.Busy? && world.task.pc.CreateDeployment?
      requires labels == CommonLabels(cfg.key) && spec == DeploymentFor(cfg.key, world.task.mem.spec)
      modifies `world, `log
      ensures Valid() && old(log) <= log
      ensures before.task == old(world.task) && world == Exec(cfg, before, reply)
      ensures ok <==> reply.Answered? && before.deployment.None?
    {
      var w, rep := Call();
      before, reply := w, rep;
      ok := rep.Answered? && w.deployment.None?;
    }

    method UpdateDeployment(existing: Deployment) returns (ok: bool, ghost before: World, ghost reply: Reply)
      requires Valid() && world.task.Busy? && world.task.pc.UpdateDeployment?
      requires existing == world.task.pc.oldDeployment.(
        labels := CommonLabels(cfg.key), spec := DeploymentFor(cfg.key, world.task.mem.spec))
      modifies `world, `log
      ensures Valid() && old(log) <= log
      ensures before.task == old(world.task) && world == Exec(cfg, before, reply)
      ensures ok <==> reply.Answered? && before.deployment.Some?
                      && before.deployment.value.resourceVersion == existing.resourceVersion
    {
      var w, rep := Call();
      before, reply := w, rep;
      ok := rep.Answered? && w.deployment.Some? && w.deployment.value.resourceVersion == existing.resourceVersion;
    }

    method CreateService(labels: Labels, annotations: Labels, spec: ServiceSpec)
      returns (ok: bool, ghost before: World, ghost reply: Reply)
      requires Valid() && world.task.Busy? && world.task.pc.CreateService?
      requires labels == CommonLabels(cfg.key) && annotations == world.task.mem.spec.serviceAnnotations
      requires spec == ServiceFor(cfg.key, world.task.mem.spec)
      modifies `world, `log
      ensures Valid() && old(log) <= log
      ensures before.task == old(world.task) && world == Exec(cfg, before, reply)
      ensures ok <==> reply.Answered? && before.service.None?
      ensures world ==
        if ok then AfterService(world, old(world.task.read), old(world.task.mem))
        else RolloutFailed(world, old(world.task.read), old(world.task.mem), ServiceFailed)
    {
      var w, rep := Call();
      before, reply := w, rep;
      ok := rep.Answered? && w.service.None?;
    }

    method UpdateService(existing: Service) returns (ok: bool, ghost before: World, ghost reply: Reply)
      requires Valid() && world.task.Busy? && world.task.pc.UpdateService?
      requires existing == world.task.pc.oldService.(
        annotations := world.task.mem.spec.serviceAnnotations, spec := ServiceFor(cfg.key, world.task.mem.spec))
      modifies `world, `log
      ensures Valid() && old(log) <= log
      ensures before.task == old(world.task) && world == Exec(cfg, before, reply)
      ensures ok <==> reply.Answered? && before.service.Some?
                      && before.service.value.resourceVersion == existing.resourceVersion
      ensures world ==
        if ok then AfterService(world, old(world.task.read), old(world.task.mem))
        else RolloutFailed(world, old(world.task.read), old(world.task.mem), ServiceFailed)
    {
      var w, rep := Call();
      before, reply := w, rep;
      ok := rep.Answered? && w.service.Some? && w.service.value.resourceVersion == existing.resourceVersion;
    }

    method CreateRoute(labels: Labels, spec: RouteSpec) returns (ok: bool, ghost before: World, ghost reply: Reply)
      requires Valid() && world.task.Busy? && world.task.pc.CreateRoute?
      requires labels == RouteLabels(cfg.key) && spec == DesiredRoute(cfg, world.task.mem.spec)
      modifies `world, `log
      ensures Valid() && old(log) <= log
      ensures before.task == old(world.task) && world == Exec(cfg, before, reply)
      ensures old(|log|) < |log| && before == Run(cfg, origin, log[..|log| - 1]) && log[|log| - 1] == Op(reply)
      ensures ok <==> reply.Answered? && before.route.None?
      ensures !ok ==> RouteFailed(log, old(|log|))
      ensures world ==
        if ok then AfterRoute(world, old(world.task.read), old(world.task.mem))
        else SetPhase(world, old(world.task.read), old(world.task.mem), Failed)
    {
      var w, rep := Call();
      before, reply := w, rep;
      ok := rep.Answered? && w.route.None?;
    }

    method UpdateRoute(existing: Route) returns (ok: bool, ghost before: World, ghost reply: Reply)
      requires Valid() && world.task.Busy? && world.task.pc.UpdateRoute?
      requires existing == world.task.pc.oldRoute.(
        labels := RouteLabels(cfg.key), spec := DesiredRoute(cfg, world.task.mem.spec))
      modifies `world, `log
      ensures Valid() && old(log) <= log
      ensures before.task == old(world.task) && world == Exec(cfg, before, reply)
      ensures old(|log|) < |log| && before == Run(cfg, origin, log[..|log| - 1]) && log[|log| - 1] == Op(reply)
      ensures ok <==> reply.Answered? && before.route.Some?
                      && before.route.value.resourceVersion == existing.resourceVersion
      ensures !ok ==> RouteFailed(log, old(|log|))
      ensures world ==
        if ok then AfterRoute(world, old(world.task.read), old(world.task.mem))
        else SetPhase(world, old(world.task.read), old(world.task.mem), Failed)
    {
      var w, rep := Call();
      before, reply := w, rep;
      ok := rep.Answered? && w.route.Some? && w.route.value.resourceVersion == existing.resourceVersion;
    }

    /** Update of the object (`PutFinalizer`) or of its status (`PutStatus`) from the copy. */
    method PutServer() returns (ok: bool, ghost before: World, ghost reply: Reply)
      requires Valid() && world.task.Busy? && (world.task.pc.PutFinalizer? || world.task.pc.PutStatus?)
      requires server == world.task.mem
      modifies `world, `log
      ensures Valid() && old(log) <= log
      ensures before.task == old(world.task) && world == Exec(cfg, before, reply)
      ensures old(|log|) < |log| && before == Run(cfg, origin, log[..|log| - 1])
      ensures ok <==> reply.Answered? && before.server.Some?
                      && before.server.value.resourceVersion == server.resourceVersion
      ensures ok && old(world.task.pc).PutStatus? ==> IsStored()
      ensures ok && FromStart() && world.server.Some? ==>
        world.server.value.generation == server.generation && world.server.value.spec == server.spec
    {
      var w, rep := Call();
      before, reply := w, rep;
      ok := rep.Answered? && w.server.Some? && w.server.value.resourceVersion == server.resourceVersion;
      if FromStart() {
        InvOfRun(cfg, origin, log[..|log| - 1]);
      }
    }

    // ---------------------------------------------- what handlers leave behind

    /** The stored object has the status of the copy. */
    ghost predicate IsStored()
      reads this
    {
      world.server.Some? && world.server.value.status == server.status
    }

    /** The copy went from `mem` to `phase` at its generation, and its status was stored, or not. */
    ghost predicate Moved(mem: Server, phase: Phase, result: Outcome)
      reads this
    {
      && server.status.phase == phase && server.status.observedGeneration == server.generation
      && server == WithPhase(mem, phase)
      && (result.Erred? || (result == PhaseOutcome(phase) && IsStored()))
    }

    /** The state after the first `k` actions. */
    ghost function At(k: nat): World
      requires k <= |log|
      reads this
    {
      Run(cfg, origin, log[..k])
    }

    /** A call about the HTTPRoute fails: no answer, or the write does not fit what is stored. */
    predicate FailsAtRoute(w: World, a: Action) {
      a.Op? && w.task.Busy? &&
      match w.task.pc
      case FetchRoute => a.reply.Fault?
      case CreateRoute => a.reply.Fault? || w.route.Some?
      case UpdateRoute(existing) =>
        a.reply.Fault? || w.route.None? || w.route.value.resourceVersion != existing.resourceVersion
      case _ => false
    }

    /** In the history `past`, after `from`, a call about the HTTPRoute failed. */
    ghost predicate RouteFailed(past: seq<Action>, from: nat) {
      exists k: nat :: from <= k < |past| && FailsAtRoute(Run(cfg, origin, past[..k]), past[k])
    }

    lemma RouteFailedStays(past: seq<Action>, now: seq<Action>, from: nat)
      requires past <= now && RouteFailed(past, from)
      ensures RouteFailed(now, from)
    {
      var k: nat :| from <= k < |past| && FailsAtRoute(Run(cfg, origin, past[..k]), past[k]);
      assert past[..k] == now[..k] && past[k] == now[k];
    }

    /** The copy has the counters of `d`. With all replicas ready, at least one, and in an update all of
        them updated, it is Running and Ready, unless a call about the route failed; otherwise its
        phase has not changed. */
    ghost predicate Observes(mem: Server, d: DeploymentStatus, from: nat)
      reads this
    {
      && server.status.replicas == d.replicas
      && server.status.readyReplicas == d.readyReplicas
      && (if d.readyReplicas > 0 && d.readyReplicas == d.replicas
             && (mem.status.phase.Deploying? || d.updatedReplicas == d.replicas)
          then (server.status.phase.Running? && IsReady(true)) || (server.status.phase.Failed? && RouteFailed(log, from))
          else server.status.phase == mem.status.phase)
      && (mem.status.phase.Deploying? ==> server.status.deploymentName == server.status.serviceName == cfg.key)
    }

    /** The copy has a Ready condition, with this status, for its generation. */
    ghost predicate IsReady(status: bool)
      reads this
    {
      var c := FindCondition(server.status.conditions, ReadyCondition);
      c.Some? && c.value.status == status && c.value.observedGeneration == server.generation
    }

    /** What a rollout handler makes of Deployment status `d`, starting from `mem`. */
    ghost predicate Judged(mem: Server, d: DeploymentStatus, from: nat, result: Outcome)
      reads this
    {
      var seen := Rollout(cfg, mem, d);
      Observes(mem, d, from) &&
      if !RolledOut(mem, d) then
        server == seen && (result.Erred? || (result == After(REQUEUE_DEPLOYING) && IsStored()))
      else Exposed(seen, from, result)
    }

    /** Running with its route in place, or Failed because a call about the route failed. */
    ghost predicate Exposed(mem: Server, from: nat, result: Outcome)
      reads this
    {
      || (cfg.gatewayName != "" && RouteFailed(log, from) && Moved(mem, Failed, result))
      || Moved(WithCondition(mem, ReadyCondition, true, ReadyReason(mem)), Running, result)
    }

    function ReadyReason(mem: Server): Reason {
      if mem.status.phase.Deploying? then DeploymentReady else RolloutComplete
    }

    /** A rollout handler judged the Deployment as it was at some moment after `from`, or could not
        read it and waits. */
    ghost predicate Awaited(mem: Server, from: nat, result: Outcome)
      reads this
    {
      || (server == mem && result == After(REQUEUE_DEPLOYING))
      || exists k: nat :: from <= k < |log| && At(k).deployment.Some? && Judged(mem, At(k).deployment.value.status, from, result)
    }

    // ------------------------------------------------------------- reconciling

    /** One Reconcile: it leaves no call pending, and its result is the one recorded. */
    method Reconcile() returns (result: Outcome)
      requires Valid() && world.task.Idle?
      modifies this
      ensures Valid() && old(log) <= log
      ensures world.task.Idle? && result == world.last
    {
      var r, before, reply := GetServer();
      if r.NotFound? {
        return Done;
      }
      if r.Failure? {
        return Erred;
      }
      server := r.value;
      if server.deleting {
        result := ReconcileDelete();
        return;
      }
      if !server.finalizer {
        server := server.(finalizer := true);
        var ok, _, _ := PutServer();
        return if ok then Again else Erred;
      }
      match server.status.phase {
        case Unset => result := ReconcilePending();
        case Pending => result := ReconcilePending();
        case Deploying => result := ReconcileDeploying();
        case Running => result := ReconcileRunning();
        case Updating => result := ReconcileUpdating();
        case Failed => result := ReconcileFailed();
        case _ => result := MoveTo(Pending);
      }
    }

    method ReconcileDelete() returns (result: Outcome)
      requires Valid() && server.deleting
      requires world == Dispatch(world, server).(last := world.last)
      requires !server.finalizer ==> world.last.Done?
      modifies this
      ensures Valid() && old(log) <= log
      ensures !server.finalizer
      ensures if result.Done? then old(server.finalizer) ==> world.server.None? else result.Erred?
      ensures world.task.Idle? && result == world.last
    {
      if server.finalizer {
        server := server.(finalizer := false);
        var ok, _, _ := PutServer();
        if !ok {
          return Erred;
        }
      }
      return Done;
    }

    /** A stored copy in phase Running is served. */
    lemma StoredRunningServes()
      requires Valid() && FromStart() && IsStored() && server.status.phase.Running?
      requires server.status.observedGeneration == server.generation
      requires world.server.value.generation == server.generation
      requires world.server.value.spec == server.spec
      ensures Serves(cfg, world, server.spec)
    {
      InvOfRun(cfg, origin, log);
    }

    /** Write the status of the copy and look again later. */
    method RecordAndWait(seconds: nat) returns (result: Outcome)
      requires Valid() && world.task.Busy?
      requires world == Await(world, PutStatus(After(seconds)), world.task.read, server)
      modifies `world, `log
      ensures Valid() && old(log) <= log
      ensures result.Erred? || (result == After(seconds) && IsStored())
      ensures world.task.Idle? && result == world.last
    {
      var ok, _, _ := PutServer();
      return if ok then After(seconds) else Erred;
    }

    /** setPhase: change the copy, write its status, and choose how to requeue. */
    method MoveTo(phase: Phase) returns (result: Outcome)
      requires Valid() && world.task.Busy? && world == SetPhase(world, world.task.read, server, phase)
      modifies this
      ensures Valid() && old(log) <= log
      ensures Moved(old(server), phase, result)
      ensures FromStart() && !result.Erred? ==>
        world.server.value.generation == server.generation && world.server.value.spec == server.spec
      ensures world.task.Idle? && result == world.last
    {
      server := server.(status := server.status.(phase := phase));
      server := server.(status := server.status.(observedGeneration := server.generation));
      assert server == WithPhase(old(server), phase);
      var ok, _, _ := PutServer();
      if !ok {
        return Erred;
      }
      assert world.last == PhaseOutcome(phase);
      match phase {
        case Deploying => return After(REQUEUE_DEPLOYING);
        case Running => return After(REQUEUE_RUNNING);
        case Failed => return After(REQUEUE_FAILED);
        case _ => return Again;
      }
    }

    /** meta.SetStatusCondition on the copy. */
    method Note(kind: ConditionKind, status: bool, reason: Reason)
      modifies `server
      ensures server == WithCondition(old(server), kind, status, reason)
    {
      var c := Condition(kind, status, reason, server.generation);
      server := server.(status := server.status.(conditions := SetCondition(server.status.conditions, c)));
    }

    /** What has happened stays as it was. */
    lemma HistoryStays(past: seq<Action>, k: nat)
      requires k <= |past| && past <= log
      ensures At(k) == Run(cfg, origin, past[..k])
    {
      assert log[..k] == past[..k];
    }

    /** In the history `past`, after `from`, there was a moment with, or without, a Secret. */
    ghost predicate SecretSeen(past: seq<Action>, from: nat, name: string) {
      exists k: nat :: from <= k < |past| && name in Run(cfg, origin, past[..k]).secrets
    }

    ghost predicate SecretMissed(past: seq<Action>, from: nat, name: string) {
      exists k: nat :: from <= k < |past| && name !in Run(cfg, origin, past[..k]).secrets
    }

    lemma SeenStays(past: seq<Action>, now: seq<Action>, from: nat, name: string)
      requires past <= now
      ensures SecretSeen(past, from, name) ==> SecretSeen(now, from, name)
      ensures SecretMissed(past, from, name) ==> SecretMissed(now, from, name)
    {
      forall k: nat | k < |past| ensures past[..k] == now[..k] {
      }
    }

    ghost predicate AllSecretsSeen(secrets: seq<ServerSecret>, past: seq<Action>, from: nat) {
      forall i :: 0 <= i < |secrets| ==> SecretSeen(past, from, secrets[i].secretName)
    }

    lemma AllSeenStays(secrets: seq<ServerSecret>, past: seq<Action>, now: seq<Action>, from: nat)
      requires past <= now && AllSecretsSeen(secrets, past, from)
      ensures AllSecretsSeen(secrets, now, from)
    {
      forall i | 0 <= i < |secrets| ensures SecretSeen(now, from, secrets[i].secretName) {
        SeenStays(past, now, from, secrets[i].secretName);
      }
    }

    ghost predicate SomeSecretMissed(secrets: seq<ServerSecret>, past: seq<Action>, from: nat) {
      exists i :: 0 <= i < |secrets| && SecretMissed(past, from, secrets[i].secretName)
    }

    /** Checks the image and the Secrets in order. */
    method ReconcilePending() returns (result: Outcome)
      requires Valid() && world == Validate(world, server)
      modifies this
      ensures Valid() && old(log) <= log
      ensures old(server).spec.source.image == "" ==>
        Moved(WithCondition(old(server), ReadyCondition, false, ValidationFailed), Failed, result)
      ensures old(server).spec.source.image != "" ==>
        || (result.Erred? && server == old(server))
        || (Moved(old(server), Deploying, result) && AllSecretsSeen(server.spec.secrets, log, old(|log|)))
        || (Moved(WithCondition(old(server), ReadyCondition, false, SecretNotFound), Failed, result)
            && SomeSecretMissed(server.spec.secrets, log, old(|log|)))
      ensures world.task.Idle? && result == world.last
    {
      if server.spec.source.image == "" {
        Note(ReadyCondition, false, ValidationFailed);
        result := MoveTo(Failed);
        return;
      }
      for i := 0 to |server.spec.secrets|
        invariant Valid() && old(log) <= log && server == old(server)
        invariant world == NextSecret(world, server.status, server, i)
        invariant AllSecretsSeen(server.spec.secrets[..i], log, old(|log|))
      {
        var r := CheckSecretOf(i, old(|log|));
        if r.NotFound? {
          ghost var past := log;
          Note(ReadyCondition, false, SecretNotFound);
          result := MoveTo(Failed);
          SeenStays(past, log, old(|log|), server.spec.secrets[i].secretName);
          return;
        }
        if r.Failure? {
          return Erred;
        }
        assert server.spec.secrets[..i + 1] == server.spec.secrets[..i] + [server.spec.secrets[i]];
      }
      assert server.spec.secrets[..|server.spec.secrets|] == server.spec.secrets;
      ghost var past := log;
      result := MoveTo(Deploying);
      AllSeenStays(server.spec.secrets, past, log, old(|log|));
    }

    /** Looks for one Secret; what was found of the others stays found. */
    method CheckSecretOf(i: nat, ghost from: nat) returns (r: Answer<()>)
      requires Valid() && i < |server.spec.secrets| && from <= |log|
      requires world == Await(world, CheckSecret(i), server.status, server)
      requires AllSecretsSeen(server.spec.secrets[..i], log, from)
      modifies `world, `log
      ensures Valid() && old(log) <= log
      ensures AllSecretsSeen(server.spec.secrets[..i], log, from)
      ensures r.Found? ==>
        SecretSeen(log, from, server.spec.secrets[i].secretName) && world == NextSecret(world, server.status, server, i + 1)
      ensures r.NotFound? ==>
        && SecretMissed(log, from, server.spec.secrets[i].secretName)
        && world == SetPhase(world, server.status, WithCondition(server, ReadyCondition, false, SecretNotFound), Failed)
      ensures r.Failure? ==> world.task.Idle? && world.last.Erred?
    {
      ghost var past := log;
      var answer, _, _ := GetSecret(server.spec.secrets[i].secretName);
      r := answer;
      AllSeenStays(server.spec.secrets[..i], past, log, from);
    }

    method ReconcileDeployment() returns (ok: bool)
      requires Valid() && world.task.Busy? && world == Await(world, FetchDeployment, world.task.read, server)
      modifies `world, `log
      ensures Valid() && old(log) <= log
      ensures world ==
        if ok then Await(world, FetchService, old(world.task.read), server)
        else RolloutFailed(world, old(world.task.read), server, DeploymentFailed)
      ensures ok && FromStart() ==> DeploymentServes(cfg, world, server.spec)
    {
      var labels, desired := BuildDeployment(cfg.key, server.spec);
      var r, _, _ := GetDeployment();
      match r {
        case NotFound =>
          var created, _, _ := CreateDeployment(labels, desired);
          ok := created;
        case Failure =>
          ok := false;
        case Found(existing) =>
          if existing.spec != desired {
            var changed := existing.(spec := desired);
            changed := changed.(labels := labels);
            var updated, _, _ := UpdateDeployment(changed);
            ok := updated;
          } else {
            ok := true;
          }
      }
      if FromStart() {
        InvOfRun(cfg, origin, log);
      }
    }

    /** What is known once Deployment and Service have been written, and once the route has. */
    lemma ChildrenServe()
      requires Valid() && FromStart() && world.task.Busy? && world.task.pc.ObserveDeployment?
      requires !world.task.read.phase.Running?
      ensures DeploymentServes(cfg, world, world.task.mem.spec) && ServiceServes(cfg, world, world.task.mem.spec)
    {
      InvOfRun(cfg, origin, log);
    }

    lemma AllServe()
      requires Valid() && FromStart() && world.task.Busy? && world.task.pc.PutStatus?
      requires world.task.mem.status.phase.Running? && !world.task.read.phase.Running?
      ensures Serves(cfg, world, world.task.mem.spec)
    {
      InvOfRun(cfg, origin, log);
    }

    method ReconcileService() returns (ok: bool)
      requires Valid() && world.task.Busy? && world == Await(world, FetchService, world.task.read, server)
      modifies `world, `log
      ensures Valid() && old(log) <= log
      ensures world ==
        if ok then AfterService(world, old(world.task.read), server)
        else RolloutFailed(world, old(world.task.read), server, ServiceFailed)
      ensures ok && FromStart() && !old(world.task.read).phase.Running? ==>
        DeploymentServes(cfg, world, server.spec) && ServiceServes(cfg, world, server.spec)
    {
      var labels, annotations, desired := BuildService(cfg.key, server.spec);
      var r, _, _ := GetService();
      match r {
        case NotFound =>
          var created, _, _ := CreateService(labels, annotations, desired);
          ok := created;
        case Failure =>
          ok := false;
        case Found(existing) =>
          if existing.spec.ports != desired.ports || existing.spec.selector != desired.selector {
            var changed := existing.(spec := existing.spec.(ports := desired.ports));
            changed := changed.(spec := changed.spec.(selector := desired.selector));
            changed := changed.(annotations := annotations);
            var updated, _, _ := UpdateService(changed);
            ok := updated;
          } else {
            ok := true;
          }
      }
      if ok && FromStart() && !world.task.read.phase.Running? {
        ChildrenServe();
      }
    }

    method ReconcileHTTPRoute() returns (ok: bool)
      requires Valid() && world.task.Busy?
      requires world == if cfg.gatewayName == "" then AfterRoute(world, world.task.read, server)
                        else Await(world, FetchRoute, world.task.read, server)
      modifies `world, `log
      ensures Valid() && old(log) <= log
      ensures world ==
        if ok then AfterRoute(world, old(world.task.read), server)
        else SetPhase(world, old(world.task.read), server, Failed)
      ensures cfg.gatewayName == "" ==> ok && log == old(log) && world == old(world)
      ensures !ok ==> RouteFailed(log, old(|log|))
      ensures ok && FromStart() && !old(world.task.read).phase.Running? ==> Serves(cfg, world, server.spec)
    {
      if cfg.gatewayName == "" {
        if FromStart() && !world.task.read.phase.Running? {
          AllServe();
        }
        return true;
      }
      var desired := RouteFor(cfg.key, server.spec, cfg.gatewayName, cfg.gatewayNamespace);
      var r, _, _ := GetRoute();
      match r {
        case NotFound =>
          var created, _, _ := CreateRoute(RouteLabels(cfg.key), desired);
          ok := created;
        case Failure =>
          ok := false;
          assert RouteFailed(log, old(|log|));
        case Found(existing) =>
          if existing.spec != desired {
            var changed := existing.(spec := desired);
            changed := changed.(labels := RouteLabels(cfg.key));
            var updated, _, _ := UpdateRoute(changed);
            ok := updated;
          } else {
            ok := true;
          }
      }
      if ok && FromStart() && !world.task.read.phase.Running? {
        AllServe();
      }
    }

    method ReconcileDeploying() returns (result: Outcome)
      requires Valid() && server.status.phase.Deploying?
      requires world == Await(world, FetchDeployment, server.status, server)
      modifies this
      ensures Valid() && old(log) <= log
      ensures
        || Moved(WithCondition(old(server), DeployedCondition, false, DeploymentFailed), Failed, result)
        || Moved(WithCondition(old(server), DeployedCondition, false, ServiceFailed), Failed, result)
        || Awaited(WithCondition(old(server), DeployedCondition, true, DeploymentCreated), old(|log|), result)
      ensures FromStart() && result == After(REQUEUE_RUNNING) ==> Serves(cfg, world, server.spec)
      ensures world.task.Idle? && result == world.last
    {
      var ok := ReconcileDeployment();
      if !ok {
        Note(DeployedCondition, false, DeploymentFailed);
        result := MoveTo(Failed);
        return;
      }
      ok := ReconcileService();
      if !ok {
        Note(DeployedCondition, false, ServiceFailed);
        result := MoveTo(Failed);
        return;
      }
      Note(DeployedCondition, true, DeploymentCreated);
      result := AwaitReadiness();
    }

    /** The second half of reconcileDeploying. */
    method AwaitReadiness() returns (result: Outcome)
      requires Valid() && server.status.phase.Deploying? && world.task.Busy?
      requires world == Await(world, ObserveDeployment, world.task.read, server)
      modifies this
      ensures Valid() && old(log) <= log
      ensures Awaited(old(server), old(|log|), result)
      ensures FromStart() && result == After(REQUEUE_RUNNING) ==> Serves(cfg, world, server.spec)
      ensures world.task.Idle? && result == world.last
    {
      var r, _, _ := GetDeployment();
      ghost var past, k := log, |log| - 1;
      if !r.Found? {
        return After(REQUEUE_DEPLOYING);
      }
      var d := r.value.status;
      server := server.(status := server.status.(replicas := d.replicas));
      server := server.(status := server.status.(readyReplicas := d.readyReplicas));
      server := server.(status := server.status.(deploymentName := cfg.key));
      server := server.(status := server.status.(serviceName := cfg.key));
      assert server == Rollout(cfg, old(server), d);
      if d.readyReplicas > 0 && d.readyReplicas == d.replicas {
        result := Expose(DeploymentReady);
      } else {
        result := RecordAndWait(REQUEUE_DEPLOYING);
      }
      HistoryStays(past, k);
      assert Observes(old(server), d, old(|log|));
      assert Judged(old(server), At(k).deployment.value.status, old(|log|), result);
    }

    /** The end of a rollout: the route first, then Running. */
    method Expose(reason: Reason) returns (result: Outcome)
      requires Valid() && world.task.Busy? && reason == ReadyReason(server)
      requires world == if cfg.gatewayName == "" then AfterRoute(world, world.task.read, server)
                        else Await(world, FetchRoute, world.task.read, server)
      modifies this
      ensures Valid() && old(log) <= log
      ensures Exposed(old(server), old(|log|), result)
      ensures (server.status.phase.Running? && IsReady(true))
              || (server.status.phase.Failed? && RouteFailed(log, old(|log|)))
      ensures server.status.replicas == old(server).status.replicas
      ensures server.status.readyReplicas == old(server).status.readyReplicas
      ensures server.status.deploymentName == old(server).status.deploymentName
      ensures server.status.serviceName == old(server).status.serviceName
      ensures FromStart() && result == After(REQUEUE_RUNNING) ==> Serves(cfg, world, server.spec)
      ensures world.task.Idle? && result == world.last
    {
      var ok := ReconcileHTTPRoute();
      if !ok {
        ghost var past := log;
        result := MoveTo(Failed);
        RouteFailedStays(past, log, old(|log|));
        return;
      }
      Note(ReadyCondition, true, reason);
      result := MoveTo(Running);
      if FromStart() && !result.Erred? {
        StoredRunningServes();
      }
    }

    /** A missing Deployment is deployed again; of one that is there the replicas are recorded. */
    ghost predicate Monitored(mem: Server, d: Option<Deployment>, result: Outcome)
      reads this
    {
      match d
      case None => Moved(mem, Deploying, result)
      case Some(d) =>
        && server.status.replicas == d.status.replicas
        && server.status.readyReplicas == d.status.readyReplicas
        && IsReady(d.status.readyReplicas >= d.status.replicas)
        && server.status.phase == mem.status.phase
        && server == Monitor(mem, d.status)
        && (result.Erred? || (result == After(REQUEUE_RUNNING) && IsStored()))
    }

    method ReconcileRunning() returns (result: Outcome)
      requires Valid() && server.status.phase.Running?
      requires world ==
        if server.generation != server.status.observedGeneration
        then SetPhase(world, server.status, server, Updating)
        else Await(world, ObserveDeployment, server.status, server)
      modifies this
      ensures Valid() && old(log) <= log
      ensures old(server).generation != old(server).status.observedGeneration ==>
        Moved(old(server), Updating, result)
      ensures old(server).generation == old(server).status.observedGeneration ==>
        || (result.Erred? && server == old(server))
        || exists k: nat :: old(|log|) <= k < |log| && Monitored(old(server), At(k).deployment, result)
      ensures world.task.Idle? && result == world.last
    {
      if server.generation != server.status.observedGeneration {
        result := MoveTo(Updating);
      } else {
        result := WatchReplicas();
      }
    }

    /** The second half of reconcileRunning. */
    method WatchReplicas() returns (result: Outcome)
      requires Valid() && server.status.phase.Running?
      requires world == Await(world, ObserveDeployment, server.status, server)
      modifies this
      ensures Valid() && old(log) <= log
      ensures
        || (result.Erred? && server == old(server))
        || exists k: nat :: old(|log|) <= k < |log| && Monitored(old(server), At(k).deployment, result)
      ensures world.task.Idle? && result == world.last
    {
      var r, _, _ := GetDeployment();
      ghost var past, k := log, |log| - 1;
      if r.NotFound? {
        result := MoveTo(Deploying);
        HistoryStays(past, k);
        assert Monitored(old(server), At(k).deployment, result);
        return;
      }
      if r.Failure? {
        return Erred;
      }
      var d := r.value.status;
      server := server.(status := server.status.(replicas := d.replicas));
      server := server.(status := server.status.(readyReplicas := d.readyReplicas));
      if d.readyReplicas < d.replicas {
        Note(ReadyCondition, false, ReplicasNotReady);
      } else {
        Note(ReadyCondition, true, DeploymentReady);
      }
      result := RecordAndWait(REQUEUE_RUNNING);
      HistoryStays(past, k);
      assert Monitored(old(server), At(k).deployment, result);
    }

    method ReconcileUpdating() returns (result: Outcome)
      requires Valid() && server.status.phase.Updating?
      requires world == Await(world, FetchDeployment, server.status, server)
      modifies this
      ensures Valid() && old(log) <= log
      ensures Moved(old(server), Failed, result) || Awaited(old(server), old(|log|), result)
      ensures FromStart() && result == After(REQUEUE_RUNNING) ==> Serves(cfg, world, server.spec)
      ensures world.task.Idle? && result == world.last
    {
      var ok := ReconcileDeployment();
      if !ok {
        result := MoveTo(Failed);
        return;
      }
      ok := ReconcileService();
      if !ok {
        result := MoveTo(Failed);
        return;
      }
      result := AwaitRollout();
    }

    /** The second half of reconcileUpdating. */
    method AwaitRollout() returns (result: Outcome)
      requires Valid() && server.status.phase.Updating? && world.task.Busy?
      requires world == Await(world, ObserveDeployment, world.task.read, server)
      modifies this
      ensures Valid() && old(log) <= log
      ensures Awaited(old(server), old(|log|), result)
      ensures FromStart() && result == After(REQUEUE_RUNNING) ==> Serves(cfg, world, server.spec)
      ensures world.task.Idle? && result == world.last
    {
      var r, _, _ := GetDeployment();
      ghost var past, k := log, |log| - 1;
      if !r.Found? {
        return After(REQUEUE_DEPLOYING);
      }
      var d := r.value.status;
      server := server.(status := server.status.(replicas := d.replicas));
      server := server.(status := server.status.(readyReplicas := d.readyReplicas));
      assert server == Rollout(cfg, old(server), d);
      if d.readyReplicas > 0 && d.readyReplicas == d.replicas && d.updatedReplicas == d.replicas {
        result := Expose(RolloutComplete);
      } else {
        result := RecordAndWait(REQUEUE_DEPLOYING);
      }
      HistoryStays(past, k);
      assert Observes(old(server), d, old(|log|));
      assert Judged(old(server), At(k).deployment.value.status, old(|log|), result);
    }

    method ReconcileFailed() returns (result: Outcome)
      requires Valid() && server.status.phase.Failed?
      requires server.generation != server.status.observedGeneration ==>
        world == SetPhase(world, server.status, server, Pending)
      requires server.generation == server.status.observedGeneration ==>
        world.task.Idle? && world.last == After(REQUEUE_FAILED)
      modifies this
      ensures Valid() && old(log) <= log
      ensures if old(server).generation != old(server).status.observedGeneration
              then Moved(old(server), Pending, result)
              else result == After(REQUEUE_FAILED) && server == old(server)
      ensures world.task.Idle? && result == world.last
    {
      if server.generation != server.status.observedGeneration {
        result := MoveTo(Pending);
        return;
      }
      return After(REQUEUE_FAILED);
    }

    /** Reconciles any number of times, from a cluster without the object. At every moment of what
        happened, between calls and inside them, Running means served. */
    method ReconcileRepeatedly(times: nat)
      requires Valid() && world.task.Idle? && Idempotent(cfg) && Init(origin)
      modifies this
      ensures Valid() && old(log) <= log && world.task.Idle?
      ensures forall k :: 0 <= k <= |log| ==> RunningIsServed(cfg, Run(cfg, origin, log[..k]))
      ensures RunningIsServed(cfg, world)
    {
      for i := 0 to times
        invariant Valid() && old(log) <= log && world.task.Idle?
      {
        var _ := Reconcile();
      }
      forall k | 0 <= k <= |log| ensures RunningIsServed(cfg, Run(cfg, origin, log[..k])) {
        RunningMeansServed(cfg, origin, log[..k]);
      }
      assert log[..|log|] == log;
    }
  }
}
