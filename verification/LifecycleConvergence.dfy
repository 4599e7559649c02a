/** Left alone, with calls that succeed and a Deployment that reports itself rolled out, the
    controller brings a valid server to Running, and then changes nothing any more. */
module LifecycleConvergence {
  import opened Options
  import opened Reconciling
  import opened McpTypes
  import opened ChildObjects
  import opened ServerLifecycle

  // ------------------------------------------------------------ quiet rounds

  /** How many calls a reconcile can still make. */
  function Remaining(task: Task): nat {
    match task
    case Idle => 0
    case Busy(pc, _, mem) =>
      match pc
      case PutFinalizer => 1
      case PutStatus(_) => 1
      case CreateRoute => 2
      case UpdateRoute(_) => 2
      case FetchRoute => 3
      case ObserveDeployment => 4
      case CreateService => 5
      case UpdateService(_) => 5
      case FetchService => 6
      case CreateDeployment => 7
      case UpdateDeployment(_) => 7
      case FetchDeployment => 8
      case CheckSecret(i) => if i < |mem.spec.secrets| then 9 + |mem.spec.secrets| - i else 9
  }

  lemma RolloutCallsRunOut(cfg: Config, w: World, reply: Reply)
    requires w.task.Busy? && 5 <= Remaining(w.task) <= 8
    ensures Remaining(Exec(cfg, w, reply).task) < Remaining(w.task)
  {
  }

  lemma OtherCallsRunOut(cfg: Config, w: World, reply: Reply)
    requires w.task.Busy? && !(5 <= Remaining(w.task) <= 8)
    ensures Remaining(Exec(cfg, w, reply).task) < Remaining(w.task)
  {
  }

  lemma CallsRunOut(cfg: Config, w: World, reply: Reply)
    requires w.task.Busy?
    ensures Remaining(Exec(cfg, w, reply).task) < Remaining(w.task)
  {
    if 5 <= Remaining(w.task) <= 8 {
      RolloutCallsRunOut(cfg, w, reply);
    } else {
      OtherCallsRunOut(cfg, w, reply);
    }
  }

  /** Carry the reconcile in progress to its end, every call succeeding. */
  function Finish(cfg: Config, w: World): World
    decreases Remaining(w.task)
  {
    if w.task.Idle? then w
    else
      CallsRunOut(cfg, w, Answered);
      Finish(cfg, Exec(cfg, w, Answered))
  }

  /** The Deployment, if there is one, reports `st`; then one whole reconcile happens. */
  function Round(cfg: Config, w: World, st: DeploymentStatus): World {
    Finish(cfg, Exec(cfg, EnvStep(w, ReportStatus(st)), Answered))
  }

  function Rounds(cfg: Config, w: World, st: DeploymentStatus, n: nat): World
    decreases n
  {
    if n == 0 then w else Rounds(cfg, Round(cfg, w, st), st, n - 1)
  }

  /** A round is a run of the transition system in which nobody else acts. */
  lemma {:induction false} FinishIsRun(cfg: Config, w: World) returns (actions: seq<Action>)
    ensures Finish(cfg, w) == Run(cfg, w, actions)
    ensures forall a :: a in actions ==> a == Op(Answered)
    decreases Remaining(w.task)
  {
    if w.task.Idle? {
      actions := [];
    } else {
      CallsRunOut(cfg, w, Answered);
      var rest := FinishIsRun(cfg, Exec(cfg, w, Answered));
      var first := [Op(Answered)];
      RunOfOne(cfg, w, first[0]);
      RunAppend(cfg, w, first, rest);
      actions := first + rest;
    }
  }

  lemma RoundIsRun(cfg: Config, w: World, st: DeploymentStatus) returns (actions: seq<Action>)
    ensures Round(cfg, w, st) == Run(cfg, w, actions)
    ensures forall a :: a in actions ==> a == Op(Answered) || a == Env(ReportStatus(st))
  {
    var first := [Env(ReportStatus(st)), Op(Answered)];
    assert first[..1] == [Env(ReportStatus(st))] && [Env(ReportStatus(st))][..0] == [];
    assert Run(cfg, w, first[..1]) == EnvStep(w, ReportStatus(st));
    var w1 := Exec(cfg, EnvStep(w, ReportStatus(st)), Answered);
    assert Run(cfg, w, first) == w1;
    var rest := FinishIsRun(cfg, w1);
    RunAppend(cfg, w, first, rest);
    actions := first + rest;
  }

  // --------------------------------------------------------------- the rank

  predicate RolloutDone(st: DeploymentStatus) {
    st.readyReplicas == st.replicas && st.updatedReplicas == st.replicas && st.replicas > 0
  }

  predicate Drifted(s: Server) {
    s.generation != s.status.observedGeneration
  }

  /** A live server whose spec passes validation, between two reconciles. */
  predicate Valid(w: World) {
    && w.task.Idle?
    && w.server.Some?
    && !w.server.value.deleting
    && w.server.value.spec.source.image != ""
    && forall i :: 0 <= i < |w.server.value.spec.secrets| ==>
         w.server.value.spec.secrets[i].secretName in w.secrets
  }

  /** Failed and not edited since: the controller waits for the user. */
  predicate Stuck(w: World)
    requires w.server.Some?
  {
    w.server.value.status.phase.Failed? && !Drifted(w.server.value)
  }

  function PhaseRank(s: Server, hasDeployment: bool): nat {
    match s.status.phase
    case Running => if Drifted(s) || !hasDeployment then 3 else 0
    case Deploying => if hasDeployment then 1 else 2
    case Updating => if hasDeployment then 1 else 2
    case Unset => 3
    case Pending => 3
    case _ => 4
  }

  function Rank(w: World): nat
    requires w.server.Some?
  {
    (if w.server.value.finalizer then 0 else 5) + PhaseRank(w.server.value, w.deployment.Some?)
  }

  predicate Steady(w: World) {
    w.server.Some? && w.server.value.finalizer && w.deployment.Some?
    && w.server.value.status.phase.Running? && !Drifted(w.server.value)
  }

  // ------------------------------------------- what the rest of a reconcile does

  /** The copy is current: it differs from the stored object in its status only. */
  ghost predicate Current(w: World, mem: Server) {
    w.server.Some? && w.server.value == mem.(status := w.server.value.status)
  }

  /** The reconcile ended with `status` stored; the rest of the object is unchanged. */
  ghost predicate EndsWith(w: World, w': World, status: Status) {
    && w'.task.Idle?
    && w.server.Some? && w'.server.Some?
    && w'.server.value == w.server.value.(status := status, resourceVersion := w'.server.value.resourceVersion)
    && w'.secrets == w.secrets
  }

  lemma FinishPut(cfg: Config, w: World, read: Status, mem: Server, outcome: Outcome)
    requires Current(w, mem)
    ensures
      var w' := Finish(cfg, Await(w, PutStatus(outcome), read, mem));
      && EndsWith(w, w', mem.status)
      && w' == ExecPutStatus(Await(w, PutStatus(outcome), read, mem), Answered, mem, outcome)
      && w'.deployment == w.deployment
  {
  }

  lemma FinishAfterRoute(cfg: Config, w: World, read: Status, mem: Server)
    requires Current(w, mem)
    ensures
      var w' := Finish(cfg, AfterRoute(w, read, mem));
      && w'.server.Some? && EndsWith(w, w', w'.server.value.status)
      && w'.server.value.status.phase.Running? && !Drifted(w'.server.value)
      && w'.deployment == w.deployment
  {
    var mem' := WithPhase(WithCondition(mem, ReadyCondition, true,
      if mem.status.phase.Deploying? then DeploymentReady else RolloutComplete), Running);
    FinishPut(cfg, w, read, mem', PhaseOutcome(Running));
  }

  lemma FinishRoute(cfg: Config, w: World, read: Status, mem: Server)
    requires Current(w, mem)
    ensures
      var w' := Finish(cfg, Await(w, FetchRoute, read, mem));
      && w'.server.Some? && EndsWith(w, w', w'.server.value.status)
      && w'.server.value.status.phase.Running? && !Drifted(w'.server.value)
      && w'.deployment == w.deployment
  {
    var w0 := Await(w, FetchRoute, read, mem);
    var w1 := Exec(cfg, w0, Answered);
    assert Finish(cfg, w0) == Finish(cfg, w1);
    if w0.route.None? || w0.route.value.spec != DesiredRoute(cfg, mem.spec) {
      var w2 := Exec(cfg, w1, Answered);
      assert Finish(cfg, w1) == Finish(cfg, w2);
      var w3 := w2.(task := w0.task);
      assert w2 == AfterRoute(w3, read, mem);
      FinishAfterRoute(cfg, w3, read, mem);
    } else {
      FinishAfterRoute(cfg, w0, read, mem);
    }
  }

  /** What a rollout handler makes of the replicas it sees: Running, or the same phase again. */
  ghost predicate RolloutEnds(w: World, w': World, mem: Server, d: Deployment) {
    && w'.server.Some? && EndsWith(w, w', w'.server.value.status)
    && w'.deployment == Some(d)
    && (RolloutDone(d.status) ==> w'.server.value.status.phase.Running? && !Drifted(w'.server.value))
    && (d.status.readyReplicas == 0 ==>
          && w'.server.value.status.phase == mem.status.phase
          && w'.server.value.status.observedGeneration == mem.status.observedGeneration)
  }

  lemma FinishObserve(cfg: Config, w: World, read: Status, mem: Server)
    requires Current(w, mem) && w.deployment.Some? && !mem.status.phase.Running?
    requires RolloutDone(w.deployment.value.status) || w.deployment.value.status.readyReplicas == 0
    ensures RolloutEnds(w, Finish(cfg, Await(w, ObserveDeployment, read, mem)), mem, w.deployment.value)
  {
    var w0 := Await(w, ObserveDeployment, read, mem);
    var w1 := Exec(cfg, w0, Answered);
    assert Finish(cfg, w0) == Finish(cfg, w1);
    var d := w.deployment.value.status;
    var mem' := Rollout(cfg, mem, d);
    if !RolledOut(mem, d) {
      FinishPut(cfg, w0, read, mem', After(REQUEUE_DEPLOYING));
    } else if cfg.gatewayName == "" {
      FinishAfterRoute(cfg, w0, read, mem');
    } else {
      FinishRoute(cfg, w0, read, mem');
    }
  }

  lemma FinishAfterService(cfg: Config, w: World, read: Status, mem: Server)
    requires Current(w, mem) && w.deployment.Some? && !mem.status.phase.Running?
    requires RolloutDone(w.deployment.value.status) || w.deployment.value.status.readyReplicas == 0
    ensures RolloutEnds(w, Finish(cfg, AfterService(w, read, mem)), mem, w.deployment.value)
  {
    var mem' := if mem.status.phase.Deploying?
                then WithCondition(mem, DeployedCondition, true, DeploymentCreated) else mem;
    FinishObserve(cfg, w, read, mem');
  }

  lemma FinishService(cfg: Config, w: World, read: Status, mem: Server)
    requires Current(w, mem) && w.deployment.Some? && !mem.status.phase.Running?
    requires RolloutDone(w.deployment.value.status) || w.deployment.value.status.readyReplicas == 0
    ensures RolloutEnds(w, Finish(cfg, Await(w, FetchService, read, mem)), mem, w.deployment.value)
  {
    var w0 := Await(w, FetchService, read, mem);
    var w1 := Exec(cfg, w0, Answered);
    assert Finish(cfg, w0) == Finish(cfg, w1);
    if w0.service.None? || w0.service.value.spec != ServiceFor(cfg.key, mem.spec) {
      var w2 := Exec(cfg, w1, Answered);
      assert Finish(cfg, w1) == Finish(cfg, w2);
      var w3 := w2.(task := w0.task);
      assert w2 == AfterService(w3, read, mem);
      FinishAfterService(cfg, w3, read, mem);
    } else {
      FinishAfterService(cfg, w0, read, mem);
    }
  }

  /** A rollout handler as a whole. A Deployment it has just created reports no replicas yet. */
  lemma FinishRollout(cfg: Config, w: World, read: Status, mem: Server)
    requires Current(w, mem) && !mem.status.phase.Running?
    requires w.deployment.Some? ==> RolloutDone(w.deployment.value.status)
    ensures
      var w' := Finish(cfg, Await(w, FetchDeployment, read, mem));
      && w'.server.Some? && EndsWith(w, w', w'.server.value.status) && w'.deployment.Some?
      && (w.deployment.Some? ==> w'.server.value.status.phase.Running? && !Drifted(w'.server.value))
      && (w.deployment.None? ==>
            && w'.server.value.status.phase == mem.status.phase
            && w'.server.value.status.observedGeneration == mem.status.observedGeneration)
  {
    var w0 := Await(w, FetchDeployment, read, mem);
    var w1 := Exec(cfg, w0, Answered);
    assert Finish(cfg, w0) == Finish(cfg, w1);
    if w0.deployment.None? || w0.deployment.value.spec != DeploymentFor(cfg.key, mem.spec) {
      var w2 := Exec(cfg, w1, Answered);
      assert Finish(cfg, w1) == Finish(cfg, w2);
      var w3 := w2.(task := w0.task);
      assert w2 == Await(w3, FetchService, read, mem);
      FinishService(cfg, w3, read, mem);
    } else {
      FinishService(cfg, w0, read, mem);
    }
  }

  lemma {:induction false} FinishSecrets(cfg: Config, w: World, read: Status, mem: Server, i: nat)
    requires Current(w, mem) && i <= |mem.spec.secrets|
    requires forall k :: i <= k < |mem.spec.secrets| ==> mem.spec.secrets[k].secretName in w.secrets
    ensures
      var w' := Finish(cfg, NextSecret(w, read, mem, i));
      && w'.server.Some? && EndsWith(w, w', w'.server.value.status)
      && w'.server.value.status.phase.Deploying? && w'.deployment == w.deployment
    decreases |mem.spec.secrets| - i
  {
    if i < |mem.spec.secrets| {
      var w0 := Await(w, CheckSecret(i), read, mem);
      assert Finish(cfg, w0) == Finish(cfg, Exec(cfg, w0, Answered));
      FinishSecrets(cfg, w0, read, mem, i + 1);
    } else {
      FinishPut(cfg, w, read, WithPhase(mem, Deploying), PhaseOutcome(Deploying));
    }
  }

  // ------------------------------------------------------------- convergence

  lemma SettledRound(cfg: Config, w: World, st: DeploymentStatus)
    requires Valid(w)
    ensures
      var w0 := EnvStep(w, ReportStatus(st));
      && Valid(w0) && w0.server == w.server && Rank(w0) == Rank(w)
      && (w0.deployment.Some? <==> w.deployment.Some?)
      && (w0.deployment.Some? ==> w0.deployment.value.status == st)
      && Round(cfg, w, st) == Finish(cfg, Dispatch(w0, w0.server.value))
  {
  }

  /** Every quiet round brings a valid server that is not stuck strictly closer to Running. */
  lemma RoundsDescend(cfg: Config, w: World, st: DeploymentStatus)
    requires RolloutDone(st)
    requires Valid(w) && !Stuck(w) && Rank(w) > 0
    ensures
      var w' := Round(cfg, w, st);
      Valid(w') && !Stuck(w') && Rank(w') < Rank(w) && w'.server.value.spec == w.server.value.spec
  {
    SettledRound(cfg, w, st);
    var w0 := EnvStep(w, ReportStatus(st));
    var s := w0.server.value;
    if !s.finalizer {
      AddingTheFinalizerDescends(cfg, w0);
    } else {
      match s.status.phase
      case Unset => FinishSecrets(cfg, w0, s.status, s, 0);
      case Pending => FinishSecrets(cfg, w0, s.status, s, 0);
      case Deploying => FinishRollout(cfg, w0, s.status, s);
      case Updating => FinishRollout(cfg, w0, s.status, s);
      case Running =>
        if Drifted(s) {
          FinishPut(cfg, w0, s.status, WithPhase(s, Updating), PhaseOutcome(Updating));
        } else {
          RedeployingDescends(cfg, w0);
        }
      case Failed => FinishPut(cfg, w0, s.status, WithPhase(s, Pending), PhaseOutcome(Pending));
      case Scaling => FinishPut(cfg, w0, s.status, WithPhase(s, Pending), PhaseOutcome(Pending));
      case Terminating => FinishPut(cfg, w0, s.status, WithPhase(s, Pending), PhaseOutcome(Pending));
    }
  }

  lemma AddingTheFinalizerDescends(cfg: Config, w: World)
    requires Valid(w) && !w.server.value.finalizer && !Stuck(w)
    ensures
      var w' := Finish(cfg, Dispatch(w, w.server.value));
      && Valid(w') && !Stuck(w') && Rank(w') == Rank(w) - 5
      && w'.server.value.spec == w.server.value.spec
  {
    var s := w.server.value;
    var w1 := Await(w, PutFinalizer, s.status, s.(finalizer := true));
    assert Dispatch(w, s) == w1;
    assert Finish(cfg, w1) == Finish(cfg, Exec(cfg, w1, Answered));
  }

  lemma RedeployingDescends(cfg: Config, w: World)
    requires Valid(w) && w.server.value.finalizer && w.server.value.status.phase.Running?
    requires !Drifted(w.server.value) && w.deployment.None?
    ensures
      var w' := Finish(cfg, Dispatch(w, w.server.value));
      && Valid(w') && !Stuck(w') && Rank(w') == 2
      && w'.server.value.spec == w.server.value.spec
  {
    var s := w.server.value;
    var w1 := Await(w, ObserveDeployment, s.status, s);
    assert Finish(cfg, w1) == Finish(cfg, Exec(cfg, w1, Answered));
    FinishPut(cfg, w1, s.status, WithPhase(s, Deploying), PhaseOutcome(Deploying));
  }

  /** Within `Rank` rounds the server is Running with its current generation recorded. */
  lemma {:induction false} Converges(cfg: Config, w: World, st: DeploymentStatus) returns (n: nat)
    requires RolloutDone(st)
    requires Valid(w) && !Stuck(w)
    ensures n <= Rank(w)
    ensures Valid(Rounds(cfg, w, st, n)) && Steady(Rounds(cfg, w, st, n))
    decreases Rank(w)
  {
    if Rank(w) == 0 {
      n := 0;
    } else {
      RoundsDescend(cfg, w, st);
      var m := Converges(cfg, Round(cfg, w, st), st);
      n := m + 1;
    }
  }

  lemma {:induction false} StuckStays(cfg: Config, w: World, st: DeploymentStatus, n: nat)
    requires Valid(w) && Stuck(w)
    ensures Valid(Rounds(cfg, w, st, n)) && Stuck(Rounds(cfg, w, st, n))
    decreases n
  {
    if n > 0 {
      SettledRound(cfg, w, st);
      var w0 := EnvStep(w, ReportStatus(st));
      var s := w0.server.value;
      if !s.finalizer {
        var w1 := Await(w0, PutFinalizer, s.status, s.(finalizer := true));
        assert Dispatch(w0, s) == w1;
        assert Finish(cfg, w1) == Finish(cfg, Exec(cfg, w1, Answered));
      }
      StuckStays(cfg, Round(cfg, w, st), st, n - 1);
    }
  }

  // --------------------------------------------- one failed call is enough

  /** A reconcile of a rollout whose first call after reading the object fails. */
  function FaultyRound(cfg: Config, w: World): World {
    Finish(cfg, Exec(cfg, Exec(cfg, w, Answered), Fault(false)))
  }

  /** One failed call, however short-lived its cause, parks any valid server that is being rolled out
      in Failed. */
  lemma OneFaultParks(cfg: Config, w: World)
    requires Valid(w) && w.server.value.finalizer
    requires w.server.value.status.phase.Deploying? || w.server.value.status.phase.Updating?
    ensures
      var w' := FaultyRound(cfg, w);
      Valid(w') && Stuck(w') && w'.server.value.spec == w.server.value.spec
  {
    var s := w.server.value;
    var w1 := Exec(cfg, w, Answered);
    assert w1 == Await(w, FetchDeployment, s.status, s);
    var w2 := Exec(cfg, w1, Fault(false));
    var mem := if s.status.phase.Deploying? then WithCondition(s, DeployedCondition, false, DeploymentFailed) else s;
    assert w2 == SetPhase(w1, s.status, mem, Failed);
    FinishPut(cfg, w1, s.status, WithPhase(mem, Failed), PhaseOutcome(Failed));
  }

  /** An undisturbed server with its finalizer in phase Deploying, in a run from an empty cluster. */
  lemma StartsDeploying(cfg: Config, st: DeploymentStatus) returns (init: World, actions: seq<Action>)
    ensures Init(init)
    ensures
      var w := Run(cfg, init, actions);
      Valid(w) && w.server.value.finalizer && w.server.value.status.phase.Deploying?
  {
    init := World(0, 0, None, None, None, None, {}, {}, Idle, Done);
    var spec := ServerSpec(Source("image", 80, None), "http", "", None, [], None, [], map[], map[]);
    var create := [Env(UserCreate(spec))];
    RunOfOne(cfg, init, create[0]);
    var w := Run(cfg, init, create);
    AddingTheFinalizerDescends(cfg, w);
    SettledRound(cfg, w, st);
    var w1 := Round(cfg, w, st);
    assert w1.server.value.finalizer && w1.server.value.status.phase.Unset?;
    SettledRound(cfg, w1, st);
    var s := w1.server.value;
    FinishSecrets(cfg, w1, s.status, s, 0);
    var rounds := RoundsAreRun(cfg, w, st, 2);
    assert Rounds(cfg, w, st, 2) == Round(cfg, w1, st) by {
      assert Rounds(cfg, w1, st, 1) == Rounds(cfg, Round(cfg, w1, st), st, 0);
    }
    RunAppend(cfg, init, create, rounds);
    actions := create + rounds;
  }

  /** A run, for any configuration, in which nothing goes wrong but one call, after which a server
      with a valid spec is Failed and, left alone, stays so through any number of rounds. */
  lemma StuckAfterOneFault(cfg: Config, st: DeploymentStatus) returns (init: World, actions: seq<Action>)
    ensures Init(init)
    ensures Valid(Run(cfg, init, actions)) && Stuck(Run(cfg, init, actions))
    ensures forall n: nat :: var w := Rounds(cfg, Run(cfg, init, actions), st, n); Valid(w) && Stuck(w)
  {
    var rollout;
    init, rollout := StartsDeploying(cfg, st);
    var w := Run(cfg, init, rollout);
    OneFaultParks(cfg, w);
    RunOfOne(cfg, w, Op(Answered));
    var w1 := Exec(cfg, w, Answered);
    RunOfOne(cfg, w1, Op(Fault(false)));
    var w2 := Exec(cfg, w1, Fault(false));
    var rest := FinishIsRun(cfg, w2);
    RunAppend(cfg, init, rollout, [Op(Answered)]);
    RunAppend(cfg, init, rollout + [Op(Answered)], [Op(Fault(false))]);
    RunAppend(cfg, init, rollout + [Op(Answered)] + [Op(Fault(false))], rest);
    actions := rollout + [Op(Answered)] + [Op(Fault(false))] + rest;
    var parked := Run(cfg, init, actions);
    forall n: nat ensures Valid(Rounds(cfg, parked, st, n)) && Stuck(Rounds(cfg, parked, st, n)) {
      StuckStays(cfg, parked, st, n);
    }
  }

  predicate SteadyAfter(cfg: Config, w: World, st: DeploymentStatus, n: nat) {
    Steady(Rounds(cfg, w, st, n))
  }

  /** Quiet rounds reach Running exactly from the states that are not Failed without an edit. */
  lemma ReachesRunningUnlessStuck(cfg: Config, w: World, st: DeploymentStatus)
    requires RolloutDone(st) && Valid(w)
    ensures (exists n: nat :: SteadyAfter(cfg, w, st, n)) <==> !Stuck(w)
  {
    if Stuck(w) {
      forall n: nat ensures !SteadyAfter(cfg, w, st, n) {
        StuckStays(cfg, w, st, n);
      }
    } else {
      var n := Converges(cfg, w, st);
      assert SteadyAfter(cfg, w, st, n);
    }
  }

  lemma MonitoringRound(cfg: Config, w: World, st: DeploymentStatus)
    requires Valid(w) && Steady(w)
    ensures
      var w0 := EnvStep(w, ReportStatus(st));
      var mem' := Monitor(w0.server.value, st);
      && Valid(w0) && Steady(w0) && w0.server == w.server && w0.deployment.value.status == st
      && EndsWith(w0, Round(cfg, w, st), mem'.status)
      && Round(cfg, w, st).deployment == w0.deployment
      && Round(cfg, w, st).service == w.service && Round(cfg, w, st).route == w.route
      && (mem'.status == w.server.value.status ==> Round(cfg, w, st) == End(w0, After(REQUEUE_RUNNING)))
      && Round(cfg, w, st).last == After(REQUEUE_RUNNING)
  {
    SettledRound(cfg, w, st);
    var w0 := EnvStep(w, ReportStatus(st));
    var s := w0.server.value;
    var w1 := Await(w0, ObserveDeployment, s.status, s);
    var w2 := Await(w0, PutStatus(After(REQUEUE_RUNNING)), s.status, Monitor(s, st));
    assert Dispatch(w0, s) == w1;
    assert Exec(cfg, w1, Answered) == w2;
    assert Finish(cfg, w1) == Finish(cfg, w2);
    FinishPut(cfg, w0, s.status, Monitor(s, st), After(REQUEUE_RUNNING));
  }

  /** Writing a condition that is already there changes nothing. */
  lemma {:induction false} SetConditionTwice(conditions: seq<Condition>, c: Condition)
    ensures SetCondition(SetCondition(conditions, c), c) == SetCondition(conditions, c)
  {
    if conditions != [] && conditions[0].kind != c.kind {
      SetConditionTwice(conditions[1..], c);
      var r := SetCondition(conditions, c);
      assert r[1..] == SetCondition(conditions[1..], c);
    }
  }

  /** One round after Running is reached, nothing changes any more, whatever the Deployment
      constantly reports: not the object, not a child, not even a resourceVersion. */
  lemma RunningIsAFixedPoint(cfg: Config, w: World, st: DeploymentStatus)
    requires Valid(w) && Steady(w)
    ensures
      var w1 := Round(cfg, w, st);
      Valid(w1) && Steady(w1) && Round(cfg, w1, st) == w1
  {
    MonitoringRound(cfg, w, st);
    var w1 := Round(cfg, w, st);
    MonitoringRound(cfg, w1, st);
    var s := w.server.value;
    var good := !(st.readyReplicas < st.replicas);
    SetConditionTwice(s.status.conditions,
      Condition(ReadyCondition, good, if good then DeploymentReady else ReplicasNotReady, s.generation));
    assert EnvStep(w1, ReportStatus(st)) == w1;
  }

  // ------------------------------------------ Running does not mend its children

  lemma {:induction false} RoundsAreRun(cfg: Config, w: World, st: DeploymentStatus, n: nat) returns (actions: seq<Action>)
    ensures Rounds(cfg, w, st, n) == Run(cfg, w, actions)
    decreases n
  {
    if n == 0 {
      actions := [];
    } else {
      var first := RoundIsRun(cfg, w, st);
      var rest := RoundsAreRun(cfg, Round(cfg, w, st), st, n - 1);
      RunAppend(cfg, w, first, rest);
      actions := first + rest;
    }
  }

  /** Once Running, no number of quiet reconciles brings a missing Service or HTTPRoute back. */
  lemma {:induction false} MissingChildrenStayMissing(cfg: Config, w: World, st: DeploymentStatus, n: nat)
    requires Valid(w) && Steady(w)
    ensures
      var w' := Rounds(cfg, w, st, n);
      && Valid(w') && Steady(w')
      && w'.service == w.service && w'.route == w.route
    decreases n
  {
    if n > 0 {
      MonitoringRound(cfg, w, st);
      MissingChildrenStayMissing(cfg, Round(cfg, w, st), st, n - 1);
    }
  }

  /** A run, for any configuration, after which a server is Running at its current generation without
      a Service, and stays so however often it is reconciled undisturbed. */
  lemma RunningWithoutAService(cfg: Config, st: DeploymentStatus)
      returns (init: World, actions: seq<Action>)
    requires RolloutDone(st)
    ensures Init(init)
    ensures forall n: nat ::
      var w := Rounds(cfg, Run(cfg, init, actions), st, n);
      Steady(w) && w.service.None?
  {
    var create;
    init, create := StartsDeploying(cfg, st);
    var created := Run(cfg, init, create);
    var n := Converges(cfg, created, st);
    var deploy := RoundsAreRun(cfg, created, st, n);
    RunAppend(cfg, init, create, deploy);
    var remove := [Env(RemoveChild(ServiceChild))];
    RunAppend(cfg, init, create + deploy, remove);
    var running := Rounds(cfg, created, st, n);
    RunOfOne(cfg, running, remove[0]);
    actions := create + deploy + remove;
    var w := Run(cfg, init, actions);
    forall n: nat ensures Steady(Rounds(cfg, w, st, n)) && Rounds(cfg, w, st, n).service.None? {
      MissingChildrenStayMissing(cfg, w, st, n);
    }
  }

  // --------------------------------------------- why a ready replica is needed

  predicate ReportsReady(a: Action) {
    a.Env? && a.env.ReportStatus? && a.env.status.readyReplicas > 0
  }

  /** No replica has been ready so far: nothing is Running or about to be. */
  predicate NeverReady(w: World) {
    && (w.server.Some? ==> !w.server.value.status.phase.Running?)
    && (w.deployment.Some? ==> w.deployment.value.status.readyReplicas <= 0)
    && (w.task.Busy? ==>
          && !w.task.mem.status.phase.Running?
          && !w.task.pc.FetchRoute? && !w.task.pc.CreateRoute? && !w.task.pc.UpdateRoute?)
  }

  lemma DeploymentCallsKeepNeverReady(cfg: Config, w: World, reply: Reply)
    requires NeverReady(w) && w.task.Busy?
    requires w.task.pc.FetchDeployment? || w.task.pc.CreateDeployment? || w.task.pc.UpdateDeployment?
    ensures NeverReady(Exec(cfg, w, reply))
  {
  }

  lemma FetchServiceKeepsNeverReady(cfg: Config, w: World, reply: Reply)
    requires NeverReady(w) && w.task.Busy? && w.task.pc.FetchService?
    ensures NeverReady(Exec(cfg, w, reply))
  {
  }

  lemma WriteServiceKeepsNeverReady(cfg: Config, w: World, reply: Reply)
    requires NeverReady(w) && w.task.Busy? && (w.task.pc.CreateService? || w.task.pc.UpdateService?)
    ensures NeverReady(Exec(cfg, w, reply))
  {
  }

  lemma OtherCallsKeepNeverReady(cfg: Config, w: World, reply: Reply)
    requires NeverReady(w) && (w.task.Idle? || !(5 <= Remaining(w.task) <= 8))
    ensures NeverReady(Exec(cfg, w, reply))
  {
  }

  lemma StepKeepsNeverReady(cfg: Config, w: World, a: Action)
    requires NeverReady(w) && !ReportsReady(a)
    ensures NeverReady(Step(cfg, w, a))
  {
    if a.Op? {
      if w.task.Busy? && 7 <= Remaining(w.task) <= 8 {
        DeploymentCallsKeepNeverReady(cfg, w, a.reply);
      } else if w.task.Busy? && w.task.pc.FetchService? {
        FetchServiceKeepsNeverReady(cfg, w, a.reply);
      } else if w.task.Busy? && 5 <= Remaining(w.task) <= 6 {
        WriteServiceKeepsNeverReady(cfg, w, a.reply);
      } else {
        OtherCallsKeepNeverReady(cfg, w, a.reply);
      }
    }
  }

  lemma {:induction false} NeverReadyOfRun(cfg: Config, init: World, actions: seq<Action>)
    requires Init(init) && forall a :: a in actions ==> !ReportsReady(a)
    ensures NeverReady(Run(cfg, init, actions))
    decreases |actions|
  {
    if actions != [] {
      var n := |actions| - 1;
      assert actions[n] in actions;
      NeverReadyOfRun(cfg, init, actions[..n]);
      StepKeepsNeverReady(cfg, Run(cfg, init, actions[..n]), actions[n]);
    }
  }

  /** Whatever else happens, no server is Running before its Deployment has reported a ready replica. */
  lemma RunningNeedsAReadyReplica(cfg: Config, init: World, actions: seq<Action>)
    requires Init(init)
    requires
      var w := Run(cfg, init, actions);
      w.server.Some? && w.server.value.status.phase.Running?
    ensures exists a :: a in actions && ReportsReady(a)
  {
    if forall a :: a in actions ==> !ReportsReady(a) {
      NeverReadyOfRun(cfg, init, actions);
    }
  }
}
