/** Left alone, with Keycloak configured and calls that succeed, the controller registers a live agent
    within a fixed number of calls, and it is known exactly whether its credentials are then usable. */
module AgentConvergence {
  import opened Options
  import opened Reconciling
  import opened AgentLifecycle
  import opened AgentInvariant
  import opened AgentTheorems

  // ------------------------------------------------------------ quiet progress

  /** The call succeeds, and Keycloak's answer is a truthful one. */
  predicate Succeeds(cfg: Config, w: World, a: Action) {
    && a.Op? && a.reply.ok
    && (w.task.Busy? ==>
          match w.task.pc
          case PostClient => ClientId(cfg) in w.clients || Mintable(w.clients, a.reply.uuid)
          case SearchClient => Faithful(w.clients, ClientId(cfg), a.reply.listing)
          case FetchSecret(uuid) => HasSecret(w.clients, uuid, a.reply.secret)
          case _ => true)
  }

  /** Nobody else acts, and every call succeeds. */
  ghost predicate Undisturbed(cfg: Config, start: World, actions: seq<Action>) {
    forall i :: 0 <= i < |actions| ==> Succeeds(cfg, Run(cfg, start, actions[..i]), actions[i])
  }

  /** A live agent between two reconciles, with Keycloak configured. */
  predicate Ready(w: World) {
    w.task.Idle? && w.configured && w.agent.Some? && !w.agent.value.deleting
  }

  /** How many calls are left until Active is recorded. */
  function CallsLeft(w: World): nat
    requires w.agent.Some?
  {
    match w.task
    case Idle =>
      if !w.agent.value.finalizer then 12
      else if w.agent.value.phase.Unset? || w.agent.value.phase.Pending? then 10
      else 8
    case Busy(pc, _) =>
      match pc
      case PutFinalizer => 11
      case PutRegistering => 9
      case GetToken => 7
      case LookupSecret => 6
      case PostClient => 5
      case SearchClient => 4
      case FetchSecret(_) => 3
      case CreateSecret(_) => 2
      case _ => 1
  }

  predicate MakesCredentials(pc: Pc) {
    pc.PostClient? || pc.SearchClient? || pc.FetchSecret? || pc.CreateSecret?
  }

  /** On the way to Active: the copy is current, and a Secret that was there at the start is still
      the same, as is then the client table. A Secret that was not is made for this agent. */
  ghost predicate OnTheWay(cfg: Config, start: World, w: World) {
    && start.agent.Some? && w.agent.Some? && w.agent.value.uid == start.agent.value.uid
    && !w.agent.value.deleting && w.configured
    && (w.task.Busy? ==>
          && w.task.mem.resourceVersion == w.agent.value.resourceVersion
          && w.task.mem.uid == w.agent.value.uid && !w.task.mem.deleting
          && (w.task.pc.PutFinalizer? ==> w.task.mem.finalizer)
          && (w.task.pc.PutRegistering? ==> w.agent.value.finalizer && w.task.mem.phase.Registering?)
          && (w.task.pc.PutActive? ==> w.task.mem.phase.Active? && w.secret.Some?)
          && (w.task.pc.PutFinalizer? || w.task.pc.PutRegistering? || w.task.pc.GetToken?
              || w.task.pc.LookupSecret? || MakesCredentials(w.task.pc) || w.task.pc.PutActive?))
    && (start.secret.Some? ==>
          w.secret == start.secret && w.clients == start.clients && (w.task.Busy? ==> !MakesCredentials(w.task.pc)))
    && (start.secret.None? ==> w.secret.None? || w.secret.value.owner == OwnedBy(w.agent.value.uid))
  }

  /** A reconcile has just recorded Active, with a Secret. */
  ghost predicate JustActivated(start: World, w: World) {
    && start.agent.Some? && w.agent.Some? && w.agent.value.uid == start.agent.value.uid
    && w.task.Idle? && w.last.Done? && w.agent.value.phase.Active? && w.secret.Some?
  }

  lemma StartingIsProgress(cfg: Config, start: World, w: World, a: Action)
    requires Inv(cfg, w) && OnTheWay(cfg, start, w) && Succeeds(cfg, w, a) && w.task.Idle?
    ensures
      var w' := Step(cfg, w, a);
      OnTheWay(cfg, start, w') && CallsLeft(w') < CallsLeft(w)
  {
  }

  lemma PreparingIsProgress(cfg: Config, start: World, w: World, a: Action)
    requires Inv(cfg, w) && OnTheWay(cfg, start, w) && Succeeds(cfg, w, a) && w.task.Busy?
    requires w.task.pc.PutFinalizer? || w.task.pc.PutRegistering? || w.task.pc.GetToken? || w.task.pc.LookupSecret?
    ensures
      var w' := Step(cfg, w, a);
      OnTheWay(cfg, start, w') && CallsLeft(w') < CallsLeft(w)
  {
  }

  lemma CredentialsAreProgress(cfg: Config, start: World, w: World, a: Action)
    requires Inv(cfg, w) && OnTheWay(cfg, start, w) && Succeeds(cfg, w, a)
    requires w.task.Busy? && MakesCredentials(w.task.pc)
    ensures
      var w' := Step(cfg, w, a);
      OnTheWay(cfg, start, w') && CallsLeft(w') < CallsLeft(w)
  {
  }

  lemma ActivationArrives(cfg: Config, start: World, w: World, a: Action)
    requires OnTheWay(cfg, start, w) && Succeeds(cfg, w, a) && w.task.Busy? && w.task.pc.PutActive?
    ensures OnTheWay(cfg, start, Step(cfg, w, a)) && JustActivated(start, Step(cfg, w, a))
  {
  }

  /** Each call that succeeds brings a live agent strictly closer to Active, or records it. */
  lemma CallsDescend(cfg: Config, start: World, w: World, a: Action)
    requires Inv(cfg, w) && OnTheWay(cfg, start, w) && Succeeds(cfg, w, a)
    ensures OnTheWay(cfg, start, Step(cfg, w, a))
    ensures CallsLeft(Step(cfg, w, a)) < CallsLeft(w) || JustActivated(start, Step(cfg, w, a))
  {
    if w.task.Idle? {
      StartingIsProgress(cfg, start, w, a);
    } else if MakesCredentials(w.task.pc) {
      CredentialsAreProgress(cfg, start, w, a);
    } else if w.task.pc.PutActive? {
      ActivationArrives(cfg, start, w, a);
    } else {
      PreparingIsProgress(cfg, start, w, a);
    }
  }

  // ------------------------------------------------------------------ liveness

  /** After `n` calls Active has been recorded at some point, or as many calls fewer are left. */
  lemma {:induction false} Progress(cfg: Config, start: World, actions: seq<Action>, n: nat)
    requires Inv(cfg, start) && Ready(start) && n <= |actions| && Undisturbed(cfg, start, actions)
    ensures
      var w := Run(cfg, start, actions[..n]);
      Inv(cfg, w) && OnTheWay(cfg, start, w) &&
      (CallsLeft(w) + n <= CallsLeft(start)
       || exists k :: 0 < k <= n && JustActivated(start, Run(cfg, start, actions[..k])))
    decreases n
  {
    if n > 0 {
      var w, a := Run(cfg, start, actions[..n - 1]), actions[n - 1];
      Progress(cfg, start, actions, n - 1);
      RunTakesStep(cfg, start, actions, n - 1);
      CallsDescend(cfg, start, w, a);
      ExecKeepsInv(cfg, w, a.reply);
    }
  }

  /** The credentials an agent is Active on are usable if and only if there were none at the start, or
      those that were there were usable: what is there is never looked into. */
  lemma UsableExactly(cfg: Config, start: World, w: World)
    requires Inv(cfg, w) && OnTheWay(cfg, start, w) && JustActivated(start, w)
    ensures Usable(w.secret.value, w.clients) <==>
      start.secret.None? || Usable(start.secret.value, start.clients)
  {
  }

  /** Liveness: in any run, from any moment at which the agent is live and no reconcile in progress,
      if nobody else acts and calls succeed, then a reconcile records Active within twelve calls; and
      it is usable credentials it found or made, unless unusable ones had been left there. */
  lemma RegistersWithinTwelveCalls(cfg: Config, init: World, past: seq<Action>, actions: seq<Action>)
      returns (k: nat)
    requires Init(init) && Ready(Run(cfg, init, past))
    requires |actions| >= 12 && Undisturbed(cfg, Run(cfg, init, past), actions)
    ensures 0 < k <= 12
    ensures
      var start := Run(cfg, init, past);
      var w := Run(cfg, start, actions[..k]);
      && JustActivated(start, w)
      && (Usable(w.secret.value, w.clients) <==>
            start.secret.None? || Usable(start.secret.value, start.clients))
  {
    var start := Run(cfg, init, past);
    RunKeepsInv(cfg, init, past);
    Progress(cfg, start, actions, 12);
    k :| 0 < k <= 12 && JustActivated(start, Run(cfg, start, actions[..k]));
    Progress(cfg, start, actions, k);
    UsableExactly(cfg, start, Run(cfg, start, actions[..k]));
  }

  // --------------------------------------------------- success is always possible

  /** Some id is not in use yet: one longer than all that are. */
  lemma {:induction false} SomeIdIsFree(t: ClientTable) returns (uuid: string)
    ensures Mintable(t, uuid)
    ensures forall id :: id in t ==> |t[id].uuid| < |uuid|
    decreases |t|
  {
    if t == map[] {
      uuid := "u";
    } else {
      var id :| id in t;
      var rest := t - {id};
      assert rest.Keys == t.Keys - {id};
      assert |rest.Keys| < |t.Keys|;
      var shorter := SomeIdIsFree(rest);
      uuid := shorter + t[id].uuid + "u";
      forall other | other in t ensures |t[other].uuid| < |uuid| {
        assert other == id || (other in rest && rest[other] == t[other]);
      }
    }
  }

  /** In every state there is an answer with which the next call succeeds. */
  lemma SuccessIsPossible(cfg: Config, w: World) returns (a: Action)
    requires Inv(cfg, w)
    ensures Succeeds(cfg, w, a)
  {
    var reply := Yes();
    if w.task.Busy? {
      match w.task.pc
      case PostClient =>
        var uuid := SomeIdIsFree(w.clients);
        reply := reply.(uuid := uuid);
      case SearchClient =>
        var listing := [ClientRep(w.clients[ClientId(cfg)].uuid, ClientId(cfg))];
        assert listing[0] in listing;
        reply := reply.(listing := listing);
      case FetchSecret(uuid) =>
        reply := reply.(secret := w.clients[ClientId(cfg)].secret);
      case _ =>
    }
    a := Op(reply);
  }
}
