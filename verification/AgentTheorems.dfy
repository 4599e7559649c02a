/** What holds of every run of agent registration, whatever crashes, lost answers, conflicts and
    retries there are. */
module AgentTheorems {
  import opened Options
  import opened Reconciling
  import opened AgentLifecycle
  import opened AgentInvariant

  // -------------------------------------------------------------- credentials

  /** Keycloak has the client these credentials name, with this secret. */
  predicate Usable(c: Credentials, t: ClientTable) {
    c.clientId in t && t[c.clientId].secret == c.clientSecret
  }

  /** In every state of every run, credentials the operator wrote, for whichever agent object, name
      the agent's client and hold exactly the secret Keycloak has for it. They are usable if and only
      if Keycloak has the client at all. */
  lemma RegistrationIsCrashSafe(cfg: Config, init: World, actions: seq<Action>)
    requires Init(init)
    ensures
      var w := Run(cfg, init, actions);
      w.secret.Some? && w.secret.value.owner.OwnedBy? ==>
        && w.secret.value.clientId == ClientId(cfg)
        && (ClientId(cfg) in w.clients ==> w.clients[ClientId(cfg)].secret == w.secret.value.clientSecret)
        && (Usable(w.secret.value, w.clients) <==> ClientId(cfg) in w.clients)
  {
    RunKeepsInv(cfg, init, actions);
  }

  /** The client is there for as long as the agent object they were written for is present and not
      being deleted; so only deletion can make credentials useless. */
  lemma OwnCredentialsAreUsable(cfg: Config, init: World, actions: seq<Action>)
    requires Init(init)
    ensures
      var w := Run(cfg, init, actions);
      (w.agent.Some? && !w.agent.value.deleting
       && w.secret.Some? && w.secret.value.owner == OwnedBy(w.agent.value.uid)) ==>
        Usable(w.secret.value, w.clients)
  {
    RunKeepsInv(cfg, init, actions);
  }

  // ---------------------------------------------------------- which client it is

  /** The client of an agent: the one its spec names, or one named after it. */
  predicate IsTheClient(cfg: Config, id: string) {
    && (cfg.oidcClientId != "" ==> id == cfg.oidcClientId)
    && (cfg.oidcClientId == "" ==> id == "agent-" + cfg.name)
  }

  /** Every Secret the operator wrote is for that client, and for the token endpoint of the realm; an
      agent that refers to a Secret refers to the one named after it. */
  lemma CredentialsWrittenOut(cfg: Config, init: World, actions: seq<Action>)
    requires Init(init)
    ensures
      var w := Run(cfg, init, actions);
      && (w.secret.Some? && w.secret.value.owner.OwnedBy? ==>
            && (cfg.oidcClientId != "" ==> w.secret.value.clientId == cfg.oidcClientId)
            && (cfg.oidcClientId == "" ==> w.secret.value.clientId == "agent-" + cfg.name)
            && w.secret.value.tokenUrl == cfg.baseUrl + "/realms/" + cfg.realm + "/protocol/openid-connect/token")
      && (w.agent.Some? && w.agent.value.secretRef.Some? ==>
            w.agent.value.secretRef.value == cfg.name + "-credentials")
  {
    RunKeepsInv(cfg, init, actions);
    SecretRefOfRun(cfg, init, actions);
  }

  ghost predicate SecretRefOk(cfg: Config, w: World) {
    && (w.agent.Some? && w.agent.value.secretRef.Some? ==> w.agent.value.secretRef.value == cfg.name + "-credentials")
    && (w.task.Busy? && w.task.mem.secretRef.Some? ==> w.task.mem.secretRef.value == cfg.name + "-credentials")
  }

  lemma AgentWritesKeepSecretRef(cfg: Config, w: World, reply: Reply)
    requires SecretRefOk(cfg, w) && w.task.Busy? && WritesTheAgent(w.task.pc)
    ensures SecretRefOk(cfg, Exec(cfg, w, reply))
  {
  }

  lemma StartKeepsSecretRef(cfg: Config, w: World, reply: Reply)
    requires SecretRefOk(cfg, w) && w.task.Idle?
    ensures SecretRefOk(cfg, Exec(cfg, w, reply))
  {
  }

  lemma ActivationKeepsSecretRef(cfg: Config, w: World, reply: Reply)
    requires SecretRefOk(cfg, w) && w.task.Busy? && (w.task.pc.LookupSecret? || w.task.pc.CreateSecret?)
    ensures SecretRefOk(cfg, Exec(cfg, w, reply))
  {
  }

  lemma OtherCallsKeepSecretRef(cfg: Config, w: World, reply: Reply)
    requires SecretRefOk(cfg, w) && w.task.Busy?
    requires !WritesTheAgent(w.task.pc) && !w.task.pc.LookupSecret? && !w.task.pc.CreateSecret?
    ensures SecretRefOk(cfg, Exec(cfg, w, reply))
  {
  }

  lemma {:induction false} SecretRefOfRun(cfg: Config, init: World, actions: seq<Action>)
    requires Init(init)
    ensures SecretRefOk(cfg, Run(cfg, init, actions))
    decreases |actions|
  {
    if actions != [] {
      var w, a := Run(cfg, init, actions[..|actions| - 1]), actions[|actions| - 1];
      SecretRefOfRun(cfg, init, actions[..|actions| - 1]);
      if a.Op? {
        if w.task.Idle? {
          StartKeepsSecretRef(cfg, w, a.reply);
        } else if WritesTheAgent(w.task.pc) {
          AgentWritesKeepSecretRef(cfg, w, a.reply);
        } else if w.task.pc.LookupSecret? || w.task.pc.CreateSecret? {
          ActivationKeepsSecretRef(cfg, w, a.reply);
        } else {
          OtherCallsKeepSecretRef(cfg, w, a.reply);
        }
      }
    }
  }

  /** No step of the operator, in any run, makes, changes or removes any client but that one. */
  lemma OnlyTheClientIsTouched(cfg: Config, init: World, actions: seq<Action>, reply: Reply, id: string)
    requires Init(init) && !IsTheClient(cfg, id)
    ensures
      var t, t' := Run(cfg, init, actions).clients, Step(cfg, Run(cfg, init, actions), Op(reply)).clients;
      (id in t' <==> id in t) && (id in t ==> t'[id] == t[id])
  {
    RunKeepsInv(cfg, init, actions);
    OnlyThreeCallsWriteClients(cfg, Run(cfg, init, actions), reply, id);
  }

  lemma OnlyThreeCallsWriteClients(cfg: Config, w: World, reply: Reply, id: string)
    requires Inv(cfg, w) && !IsTheClient(cfg, id)
    ensures
      var t' := Exec(cfg, w, reply).clients;
      (id in t' <==> id in w.clients) && (id in w.clients ==> t'[id] == w.clients[id])
  {
    if w.task.Busy? && w.task.pc.CleanDelete? {
      CleanupSparesOthers(cfg, w, reply, id);
    } else if w.task.Busy? && !w.task.pc.PostClient? {
      OtherCallsLeaveClients(cfg, w, reply, w.task.pc);
    }
  }

  lemma CleanupSparesOthers(cfg: Config, w: World, reply: Reply, id: string)
    requires Inv(cfg, w) && !IsTheClient(cfg, id) && w.task.Busy? && w.task.pc.CleanDelete?
    ensures
      var t' := Exec(cfg, w, reply).clients;
      (id in t' <==> id in w.clients) && (id in w.clients ==> t'[id] == w.clients[id])
  {
    assert id in w.clients ==> w.clients[id].uuid != w.clients[ClientId(cfg)].uuid;
  }

  lemma OtherCallsLeaveClients(cfg: Config, w: World, reply: Reply, pc: Pc)
    requires w.task.Busy? && w.task.pc == pc && !pc.PostClient? && !pc.CleanDelete?
    ensures Exec(cfg, w, reply).clients == w.clients
  {
  }

  // ------------------------------------------------------------------- Active

  /** After `k` steps this agent object and a credentials Secret were both there. */
  ghost predicate SeenAt(cfg: Config, init: World, actions: seq<Action>, k: nat, uid: nat) {
    k <= |actions| &&
    var w := Run(cfg, init, actions[..k]);
    w.agent.Some? && w.agent.value.uid == uid && w.secret.Some?
  }

  ghost predicate Seen(cfg: Config, init: World, actions: seq<Action>, uid: nat) {
    exists k: nat :: SeenAt(cfg, init, actions, k, uid)
  }

  /** Who is Active, or about to be, has been seen together with a Secret. */
  ghost predicate ActiveOk(cfg: Config, init: World, actions: seq<Action>) {
    var w := Run(cfg, init, actions);
    && (w.agent.Some? && w.agent.value.phase.Active? ==> Seen(cfg, init, actions, w.agent.value.uid))
    && (w.task.Busy? && w.task.mem.phase.Active? ==> Seen(cfg, init, actions, w.task.mem.uid))
  }

  lemma RunTakesStep(cfg: Config, init: World, actions: seq<Action>, k: nat)
    requires k < |actions|
    ensures Run(cfg, init, actions[..k + 1]) == Step(cfg, Run(cfg, init, actions[..k]), actions[k])
  {
    assert actions[..k + 1][..k] == actions[..k];
  }

  lemma SeenStays(cfg: Config, init: World, actions: seq<Action>, n: nat, uid: nat)
    requires n <= |actions| && Seen(cfg, init, actions[..n], uid)
    ensures Seen(cfg, init, actions, uid)
  {
    var k: nat :| SeenAt(cfg, init, actions[..n], k, uid);
    assert actions[..n][..k] == actions[..k];
    assert SeenAt(cfg, init, actions, k, uid);
  }

  /** The two calls after which Active is recorded leave the Secret in place. */
  lemma ActivationSeesTheSecret(cfg: Config, w: World, reply: Reply)
    requires Inv(cfg, w) && w.task.Busy? && (w.task.pc.LookupSecret? || w.task.pc.CreateSecret?)
    ensures
      var w' := Exec(cfg, w, reply);
      w'.task.Busy? && w'.task.pc.PutActive? ==>
        w'.secret.Some? && w'.agent.Some? && w'.agent.value.uid == w'.task.mem.uid
    ensures
      var w' := Exec(cfg, w, reply);
      w'.task.Busy? && !w'.task.pc.PutActive? ==> w'.task.mem == w.task.mem
  {
  }

  /** All other calls carry an Active phase over from the copy or the object they read. */
  lemma OtherCallsDoNotActivate(cfg: Config, w: World, reply: Reply)
    requires w.task.Busy? && !w.task.pc.LookupSecret? && !w.task.pc.CreateSecret?
    ensures
      var w' := Exec(cfg, w, reply);
      w'.task.Busy? && w'.task.mem.phase.Active? ==>
        w.task.mem.phase.Active? && w.task.mem.uid == w'.task.mem.uid
  {
  }

  lemma StartDoesNotActivate(cfg: Config, w: World, reply: Reply)
    requires w.task.Idle?
    ensures
      var w' := Exec(cfg, w, reply);
      w'.task.Busy? && w'.task.mem.phase.Active? ==>
        w.agent.Some? && w.agent.value.phase.Active? && w.agent.value.uid == w'.task.mem.uid
  {
  }

  /** An Active agent was Active before, or the copy written to it was. */
  ghost predicate ActiveFrom(w: World, w': World) {
    w'.agent.Some? && w'.agent.value.phase.Active? ==>
      || (w.agent.Some? && w.agent.value.phase.Active? && w.agent.value.uid == w'.agent.value.uid)
      || (w.task.Busy? && w.task.mem.phase.Active? && w.task.mem.uid == w'.agent.value.uid)
  }

  predicate WritesTheAgent(pc: Pc) {
    pc.PutFinalizer? || pc.DropFinalizer? || pc.PutRegistering? || pc.PutActive? || pc.PutFailed?
  }

  lemma AgentWritesStoreTheCopy(cfg: Config, w: World, reply: Reply)
    requires Inv(cfg, w) && w.task.Busy? && WritesTheAgent(w.task.pc)
    ensures ActiveFrom(w, Exec(cfg, w, reply))
  {
  }

  lemma OtherCallsLeaveTheAgent(cfg: Config, w: World, reply: Reply)
    requires w.task.Idle? || !WritesTheAgent(w.task.pc)
    ensures Exec(cfg, w, reply).agent == w.agent
  {
  }

  lemma ActiveComesFromTheCopy(cfg: Config, w: World, a: Action)
    requires Inv(cfg, w)
    ensures ActiveFrom(w, Step(cfg, w, a))
  {
    if a.Op? {
      if w.task.Busy? && WritesTheAgent(w.task.pc) {
        AgentWritesStoreTheCopy(cfg, w, a.reply);
      } else {
        OtherCallsLeaveTheAgent(cfg, w, a.reply);
      }
    }
  }

  lemma {:induction false} ActiveOfRun(cfg: Config, init: World, actions: seq<Action>)
    requires Init(init)
    ensures ActiveOk(cfg, init, actions)
    decreases |actions|
  {
    if actions != [] {
      var n := |actions| - 1;
      var w, a := Run(cfg, init, actions[..n]), actions[n];
      ActiveOfRun(cfg, init, actions[..n]);
      RunKeepsInv(cfg, init, actions[..n]);
      ActiveComesFromTheCopy(cfg, w, a);
      if a.Op? {
        if w.task.Idle? {
          StartDoesNotActivate(cfg, w, a.reply);
        } else if w.task.pc.LookupSecret? || w.task.pc.CreateSecret? {
          ActivationSeesTheSecret(cfg, w, a.reply);
        } else {
          OtherCallsDoNotActivate(cfg, w, a.reply);
        }
      }
      forall uid | Seen(cfg, init, actions[..n], uid) ensures Seen(cfg, init, actions, uid) {
        SeenStays(cfg, init, actions, n, uid);
      }
      var w' := Run(cfg, init, actions);
      if w'.agent.Some? && w'.secret.Some? {
        assert actions[..n + 1] == actions;
        assert SeenAt(cfg, init, actions, n + 1, w'.agent.value.uid);
      }
    }
  }

  /** An agent is Active only if at some moment of the run a credentials Secret was there together
      with this agent object. */
  lemma ActiveOnlyWithSecret(cfg: Config, init: World, actions: seq<Action>)
    requires Init(init)
    ensures
      var w := Run(cfg, init, actions);
      w.agent.Some? && w.agent.value.phase.Active? ==>
        exists k: nat :: SeenAt(cfg, init, actions, k, w.agent.value.uid)
  {
    ActiveOfRun(cfg, init, actions);
  }

  // -------------------------------------------------------------- no orphans

  /** Keycloak creates the agent's client for the operator, or hands it over with a 409. */
  predicate Takes(cfg: Config, w: World, a: Action) {
    && a.Op? && w.task.Busy? && w.task.pc.PostClient?
    && Lands(a.reply)
    && (ClientId(cfg) in w.clients || Mintable(w.clients, a.reply.uuid))
  }

  /** It is the agent's client that is created or handed over, and Keycloak has it afterwards. */
  lemma TakesTheClient(cfg: Config, w: World, a: Action, id: string)
    requires Takes(cfg, w, a) && IsTheClient(cfg, id)
    ensures id in Step(cfg, w, a).clients
  {
  }

  /** It is the agent's client that a cleanup removes. */
  lemma CleanupRemovesTheClient(cfg: Config, init: World, actions: seq<Action>, reply: Reply, id: string)
    requires Init(init) && IsTheClient(cfg, id)
    requires
      var task := Run(cfg, init, actions).task;
      task.Busy? && task.pc.CleanDelete? && Lands(reply)
    ensures id !in Step(cfg, Run(cfg, init, actions), Op(reply)).clients
  {
    RunKeepsInv(cfg, init, actions);
  }

  /** The cleanup of a deleted agent is skipped because Keycloak is not configured, or a call it
      consists of fails. */
  predicate Lapses(cfg: Config, w: World, a: Action) {
    a.Op? &&
    if w.task.Idle? then a.reply.ok && w.agent.Some? && w.agent.value.deleting && !w.configured
    else
      || ((w.task.pc.CleanToken? || w.task.pc.CleanDelete?) && !a.reply.ok)
      || (w.task.pc.CleanSearch? && !(a.reply.ok && Faithful(w.clients, ClientId(cfg), a.reply.listing)))
  }

  predicate AboutToDrop(w: World) {
    w.task.Busy? && w.task.pc.DropFinalizer?
  }

  /** A client that is there after a step was there before, unless the step created it. */
  lemma OnlyPostCreates(cfg: Config, w: World, a: Action)
    requires ClientId(cfg) !in w.clients && ClientId(cfg) in Step(cfg, w, a).clients
    ensures Takes(cfg, w, a)
  {
    if a.Op? && w.task.Busy? && !w.task.pc.PostClient? {
      OtherCallsCreateNothing(cfg, w, a.reply, w.task.pc);
    }
  }

  lemma OtherCallsCreateNothing(cfg: Config, w: World, reply: Reply, pc: Pc)
    requires w.task.Busy? && w.task.pc == pc && !pc.PostClient?
    ensures Exec(cfg, w, reply).clients.Keys <= w.clients.Keys
  {
  }

  /** A cleanup that goes on to the finalizer although the client still exists has lapsed. */
  lemma OnlyLapsesLeaveTheClient(cfg: Config, w: World, a: Action)
    requires Inv(cfg, w) && !AboutToDrop(w)
    requires AboutToDrop(Step(cfg, w, a)) && ClientId(cfg) in Step(cfg, w, a).clients
    ensures Lapses(cfg, w, a)
  {
    if w.task.Busy? && w.task.pc.CleanSearch? && !Lapses(cfg, w, a) {
      SearchIsExact(w.clients, ClientId(cfg), a.reply.listing);
    } else if w.task.Busy? && !w.task.pc.CleanSearch? && !w.task.pc.CleanToken? && !w.task.pc.CleanDelete? {
      OtherCallsDoNotDrop(cfg, w, a);
    }
  }

  lemma OtherCallsDoNotDrop(cfg: Config, w: World, a: Action)
    requires w.task.Busy? && !AboutToDrop(w)
    requires !w.task.pc.CleanSearch? && !w.task.pc.CleanToken? && !w.task.pc.CleanDelete?
    ensures !AboutToDrop(Step(cfg, w, a))
  {
  }

  /** From step `k` to step `n` one reconcile is about to drop the finalizer, because step `k` was a
      lapse. */
  ghost predicate LapsedAt(cfg: Config, init: World, actions: seq<Action>, k: nat, n: nat)
    requires n <= |actions|
  {
    && k < n && Lapses(cfg, Run(cfg, init, actions[..k]), actions[k])
    && forall i :: k < i <= n ==> AboutToDrop(Run(cfg, init, actions[..i]))
  }

  /** Whenever the finalizer is about to be dropped while the client exists, this very reconcile has
      lapsed. */
  lemma {:induction false} DropsFollowLapses(cfg: Config, init: World, actions: seq<Action>, n: nat) returns (k: nat)
    requires Init(init) && n <= |actions|
    requires
      var w := Run(cfg, init, actions[..n]);
      AboutToDrop(w) && ClientId(cfg) in w.clients
    ensures LapsedAt(cfg, init, actions, k, n)
    decreases n
  {
    var m := n - 1;
    var w, a := Run(cfg, init, actions[..m]), actions[m];
    RunTakesStep(cfg, init, actions, m);
    if AboutToDrop(w) {
      StillAboutToDrop(cfg, w, a);
      k := DropsFollowLapses(cfg, init, actions, m);
      LapseGoesOn(cfg, init, actions, k, m);
    } else {
      RunKeepsInv(cfg, init, actions[..m]);
      OnlyLapsesLeaveTheClient(cfg, w, a);
      k := m;
    }
  }

  lemma LapseGoesOn(cfg: Config, init: World, actions: seq<Action>, k: nat, m: nat)
    requires m < |actions| && LapsedAt(cfg, init, actions, k, m)
    requires AboutToDrop(Run(cfg, init, actions[..m + 1]))
    ensures LapsedAt(cfg, init, actions, k, m + 1)
  {
  }

  lemma StillAboutToDrop(cfg: Config, w: World, a: Action)
    requires AboutToDrop(w) && AboutToDrop(Step(cfg, w, a)) && ClientId(cfg) in Step(cfg, w, a).clients
    ensures ClientId(cfg) in w.clients
  {
  }

  predicate CarriesFinalizer(w: World) {
    w.agent.Some? && w.agent.value.finalizer
  }

  /** An agent with the finalizer loses it, or disappears, only by the call that drops it. */
  lemma OnlyDropsRemoveTheFinalizer(cfg: Config, w: World, a: Action)
    requires Inv(cfg, w) && CarriesFinalizer(w) && !CarriesFinalizer(Step(cfg, w, a))
    ensures a.Op? && AboutToDrop(w)
  {
    if a.Op? && !(w.task.Busy? && WritesTheAgent(w.task.pc)) {
      OtherCallsLeaveTheAgent(cfg, w, a.reply);
    }
  }

  /** Step `d` dropped the finalizer in a reconcile that had lapsed at step `k`. */
  ghost predicate LetGo(cfg: Config, init: World, actions: seq<Action>, k: nat, d: nat)
    requires d < |actions|
  {
    && LapsedAt(cfg, init, actions, k, d)
    && CarriesFinalizer(Run(cfg, init, actions[..d]))
    && !CarriesFinalizer(Run(cfg, init, actions[..d + 1]))
  }

  ghost predicate LetGoAfter(cfg: Config, init: World, actions: seq<Action>, j: nat) {
    exists k, d :: j < k < d < |actions| && LetGo(cfg, init, actions, k, d)
  }

  /** The client exists after step `n` without the agent carrying the finalizer: it was let go at
      some step after it was taken. */
  lemma {:induction false} OrphansWereLetGo(cfg: Config, init: World, actions: seq<Action>, j: nat, n: nat)
      returns (k: nat, d: nat)
    requires Init(init) && j < n <= |actions| && Takes(cfg, Run(cfg, init, actions[..j]), actions[j])
    requires
      var w := Run(cfg, init, actions[..n]);
      ClientId(cfg) in w.clients && !CarriesFinalizer(w)
    ensures j < k < d < n && LetGo(cfg, init, actions, k, d)
    decreases n
  {
    var m := n - 1;
    var w, a := Run(cfg, init, actions[..m]), actions[m];
    RunTakesStep(cfg, init, actions, m);
    RunKeepsInv(cfg, init, actions[..m]);
    if CarriesFinalizer(w) {
      OnlyDropsRemoveTheFinalizer(cfg, w, a);
      StillThere(cfg, w, a);
      k := DropsFollowLapses(cfg, init, actions, m);
      d := m;
      LapseFollowsTake(cfg, init, actions, j, k, m);
    } else {
      if ClientId(cfg) !in w.clients {
        OnlyPostCreates(cfg, w, a);
      }
      k, d := OrphansWereLetGo(cfg, init, actions, j, m);
    }
  }

  lemma StillThere(cfg: Config, w: World, a: Action)
    requires a.Op? && AboutToDrop(w)
    ensures Step(cfg, w, a).clients == w.clients
  {
  }

  /** No client is taken while the finalizer is about to be dropped. */
  lemma LapseFollowsTake(cfg: Config, init: World, actions: seq<Action>, j: nat, k: nat, n: nat)
    requires j < n <= |actions| && LapsedAt(cfg, init, actions, k, n)
    requires Takes(cfg, Run(cfg, init, actions[..j]), actions[j])
    ensures j < k
  {
    assert k < j ==> AboutToDrop(Run(cfg, init, actions[..j]));
  }

  /** No orphaned identity. Once Keycloak has created the agent's client for the operator, or handed
      it over, in every later state in which the client exists the agent object is there and carries
      the finalizer, unless since then a reconcile dropped the finalizer although its own cleanup had
      been skipped or had a call fail. */
  lemma NoOrphanedClient(cfg: Config, init: World, actions: seq<Action>, j: nat)
    requires Init(init) && j < |actions|
    requires Takes(cfg, Run(cfg, init, actions[..j]), actions[j])
    ensures
      var w := Run(cfg, init, actions);
      ClientId(cfg) in w.clients && !LetGoAfter(cfg, init, actions, j) ==> CarriesFinalizer(w)
  {
    var w := Run(cfg, init, actions);
    assert actions[..|actions|] == actions;
    if ClientId(cfg) in w.clients && !CarriesFinalizer(w) {
      var k, d := OrphansWereLetGo(cfg, init, actions, j, |actions|);
    }
  }

  /** At the end of this run no client the operator took is left without an agent that carries the
      finalizer, other than by being let go. */
  ghost predicate NoOrphan(cfg: Config, init: World, actions: seq<Action>) {
    var w := Run(cfg, init, actions);
    ClientId(cfg) in w.clients && !CarriesFinalizer(w) ==>
      forall j :: 0 <= j < |actions| && Takes(cfg, Run(cfg, init, actions[..j]), actions[j]) ==>
        LetGoAfter(cfg, init, actions, j)
  }

  lemma NoOrphanInAnyState(cfg: Config, init: World, actions: seq<Action>)
    requires Init(init)
    ensures NoOrphan(cfg, init, actions)
  {
    forall j | 0 <= j < |actions| && Takes(cfg, Run(cfg, init, actions[..j]), actions[j])
      ensures
        var w := Run(cfg, init, actions);
        ClientId(cfg) in w.clients && !CarriesFinalizer(w) ==> LetGoAfter(cfg, init, actions, j)
    {
      NoOrphanedClient(cfg, init, actions, j);
    }
  }

  /** A client that was not there at first was created for the operator by some step. */
  lemma {:induction false} NewClientsWereTaken(cfg: Config, init: World, actions: seq<Action>)
    requires ClientId(cfg) !in init.clients && ClientId(cfg) in Run(cfg, init, actions).clients
    ensures exists j :: 0 <= j < |actions| && Takes(cfg, Run(cfg, init, actions[..j]), actions[j])
    decreases |actions|
  {
    if actions != [] {
      var n := |actions| - 1;
      var before := actions[..n];
      if ClientId(cfg) in Run(cfg, init, before).clients {
        NewClientsWereTaken(cfg, init, before);
        var j :| 0 <= j < |before| && Takes(cfg, Run(cfg, init, before[..j]), before[j]);
        assert before[..j] == actions[..j] && before[j] == actions[j];
      } else {
        OnlyPostCreates(cfg, Run(cfg, init, before), actions[n]);
      }
    }
  }

  /** One step makes or takes over a client only for an agent that carries the finalizer at that
      moment, in the store and not just in the copy. */
  lemma FinalizerComesFirst(cfg: Config, init: World, actions: seq<Action>, a: Action)
    requires Init(init)
    ensures
      var w := Run(cfg, init, actions);
      Takes(cfg, w, a) ==> CarriesFinalizer(w)
  {
    RunKeepsInv(cfg, init, actions);
  }

  // ------------------------------------- where the promise ends: re-creation

  ghost predicate Reachable(cfg: Config, w: World, w': World) {
    exists actions :: Run(cfg, w, actions) == w'
  }

  lemma ReachesItself(cfg: Config, w: World)
    ensures Reachable(cfg, w, w)
  {
    assert Run(cfg, w, []) == w;
  }

  lemma ReachesNext(cfg: Config, w: World, w1: World, a: Action) returns (w2: World)
    requires Reachable(cfg, w, w1)
    ensures w2 == Step(cfg, w1, a) && Reachable(cfg, w, w2)
  {
    var actions :| Run(cfg, w, actions) == w1;
    assert (actions + [a])[..|actions|] == actions;
    w2 := Step(cfg, w1, a);
    assert Run(cfg, w, actions + [a]) == w2;
  }

  function Yes(): Reply {
    Reply(true, true, "", "", [])
  }

  /** A new agent gets its finalizer and enters Registering. */
  lemma Prepares(cfg: Config, origin: World, w: World) returns (w': World)
    requires Reachable(cfg, origin, w)
    requires w.task.Idle? && w.agent.None?
    ensures Reachable(cfg, origin, w')
    ensures w' == w.(agent := w'.agent, nextUid := w.nextUid + 1, revision := w'.revision,
                     last := w'.last)
    ensures w'.agent.Some? && w'.agent.value == Agent(w.nextUid, w'.agent.value.resourceVersion, false, true, Registering, None)
  {
    w' := ReachesNext(cfg, origin, w, Env(UserCreate));
    w' := ReachesNext(cfg, origin, w', Op(Yes()));
    w' := ReachesNext(cfg, origin, w', Op(Yes()));
    w' := ReachesNext(cfg, origin, w', Op(Yes()));
    w' := ReachesNext(cfg, origin, w', Op(Yes()));
  }

  /** The new agent's client is created in Keycloak. */
  lemma Posts(cfg: Config, origin: World, w: World) returns (w': World, mem: Agent)
    requires Reachable(cfg, origin, w)
    requires w.task.Idle? && w.configured && w.agent.None? && w.secret.None? && w.clients == map[]
    ensures Reachable(cfg, origin, w') && w'.configured && w'.secret.None?
    ensures w'.agent == Some(mem) && mem.finalizer && !mem.deleting && mem.uid < w'.nextUid
    ensures w'.task == Busy(SearchClient, mem)
    ensures w'.clients == map[ClientId(cfg) := Client("u", "s")]
  {
    w' := Prepares(cfg, origin, w);
    mem := w'.agent.value;
    w' := ReachesNext(cfg, origin, w', Op(Yes()));
    w' := ReachesNext(cfg, origin, w', Op(Yes()));
    w' := ReachesNext(cfg, origin, w', Op(Yes()));
    w' := ReachesNext(cfg, origin, w', Op(Yes().(uuid := "u", secret := "s")));
  }

  /** The first registration of an agent, undisturbed. */
  lemma Registers(cfg: Config, origin: World, w: World) returns (w': World)
    requires Reachable(cfg, origin, w)
    requires w.task.Idle? && w.configured && w.agent.None? && w.secret.None? && w.clients == map[]
    ensures Reachable(cfg, origin, w') && w'.task.Idle? && w'.configured
    ensures w'.agent.Some? && w'.agent.value.phase.Active? && w'.agent.value.finalizer && !w'.agent.value.deleting
    ensures w'.agent.value.uid < w'.nextUid
    ensures w'.secret == Some(Credentials(ClientId(cfg), "s", TokenUrl(cfg), OwnedBy(w'.agent.value.uid)))
    ensures w'.clients == map[ClientId(cfg) := Client("u", "s")]
  {
    var mem;
    w', mem := Posts(cfg, origin, w);
    var listing := [ClientRep("u", ClientId(cfg))];
    assert listing[0] in listing;
    w' := ReachesNext(cfg, origin, w', Op(Yes().(listing := listing)));
    assert w'.task == Busy(FetchSecret("u"), mem);
    assert HasSecret(w'.clients, "u", "s");
    w' := ReachesNext(cfg, origin, w', Op(Yes().(secret := "s")));
    w' := ReachesNext(cfg, origin, w', Op(Yes()));
    w' := ReachesNext(cfg, origin, w', Op(Yes()));
  }

  /** Its deletion, undisturbed: the client and the agent are gone, the Secret is left to the
      garbage collector. */
  lemma Deletes(cfg: Config, origin: World, w: World) returns (w': World)
    requires Reachable(cfg, origin, w)
    requires w.task.Idle? && w.configured
    requires w.agent.Some? && w.agent.value.finalizer && !w.agent.value.deleting
    requires w.clients == map[ClientId(cfg) := Client("u", "s")]
    ensures Reachable(cfg, origin, w') && w'.task.Idle? && w'.configured
    ensures w'.agent.None? && w'.secret == w.secret && w'.clients == map[] && w'.nextUid == w.nextUid
  {
    w' := ReachesNext(cfg, origin, w, Env(UserDelete));
    var mem := w'.agent.value;
    w' := ReachesNext(cfg, origin, w', Op(Yes()));
    w' := ReachesNext(cfg, origin, w', Op(Yes()));
    w' := CleansUp(cfg, origin, w', mem);
  }

  lemma CleansUp(cfg: Config, origin: World, w: World, mem: Agent) returns (w': World)
    requires Reachable(cfg, origin, w)
    requires w.task == Busy(CleanSearch, mem) && w.agent == Some(mem) && mem.deleting
    requires w.clients == map[ClientId(cfg) := Client("u", "s")]
    ensures Reachable(cfg, origin, w')
    ensures w' == w.(agent := None, clients := map[], task := Idle, last := w'.last)
  {
    var listing := [ClientRep("u", ClientId(cfg))];
    assert listing[0] in listing;
    w' := ReachesNext(cfg, origin, w, Op(Yes().(listing := listing)));
    assert w'.task == Busy(CleanDelete("u"), mem);
    w' := ReachesNext(cfg, origin, w', Op(Yes()));
    assert w'.clients == map[];
    w' := ReachesNext(cfg, origin, w', Op(Yes()));
  }

  /** An agent created again before its old Secret was collected is taken for registered. */
  lemma Recreates(cfg: Config, origin: World, w: World) returns (w': World)
    requires Reachable(cfg, origin, w)
    requires w.task.Idle? && w.configured && w.agent.None? && w.secret.Some?
    ensures Reachable(cfg, origin, w')
    ensures w'.agent.Some? && w'.agent.value.phase.Active? && !w'.agent.value.deleting
    ensures w'.agent.value.uid == w.nextUid
    ensures w'.secret == w.secret && w'.clients == w.clients
  {
    w' := Prepares(cfg, origin, w);
    w' := ReachesNext(cfg, origin, w', Op(Yes()));
    w' := ReachesNext(cfg, origin, w', Op(Yes()));
    w' := ReachesNext(cfg, origin, w', Op(Yes()));
    w' := ReachesNext(cfg, origin, w', Op(Yes()));
  }

  /** Credentials outlive the agent object they were written for. Delete an agent and create it
      again before the garbage collector has removed its Secret: the new agent becomes Active on
      credentials for which Keycloak has no client. */
  lemma StaleCredentialsAfterRecreation(cfg: Config) returns (init: World, w: World)
    ensures Init(init) && Reachable(cfg, init, w)
    ensures w.agent.Some? && w.agent.value.phase.Active? && !w.agent.value.deleting
    ensures w.secret.Some? && w.secret.value.owner.OwnedBy? && w.secret.value.owner.uid != w.agent.value.uid
    ensures ClientId(cfg) !in w.clients
  {
    init := World(0, 0, None, None, map[], true, Idle, Done);
    ReachesItself(cfg, init);
    var w1 := Registers(cfg, init, init);
    var w2 := Deletes(cfg, init, w1);
    w := Recreates(cfg, init, w2);
  }
}
