/** The MCPAgent reconciler and the Keycloak client in the order their code runs. What they do is a
    run of the transition system of `AgentLifecycle`. */
module AgentReconciler {
  import opened Options
  import opened Reconciling
  import opened AgentLifecycle
  import opened AgentInvariant
  import opened AgentTheorems

  /** How Keycloak responds to the creation of a client. */
  datatype PostResponse = Created | Conflict | OtherResponse

  /** The scan of a search result for an exact match. */
  method ScanForClient(clients: seq<ClientRep>, clientId: string) returns (uuid: string)
    ensures uuid == FindUuid(clients, clientId)
  {
    for i := 0 to |clients|
      invariant FindUuid(clients, clientId) == FindUuid(clients[i..], clientId)
    {
      if clients[i].clientId == clientId {
        return clients[i].id;
      }
    }
    return "";
  }

  class MCPAgentReconciler {
    const cfg: Config
    var world: World
    var agent: Agent               // the copy the reconcile in progress works on
    ghost const origin: World
    ghost var log: seq<Action>

    ghost predicate Valid()
      reads this
    {
      world == Run(cfg, origin, log)
    }

    constructor (cfg: Config, world: World, agent: Agent)
      ensures Valid() && this.cfg == cfg && this.world == world && origin == world && log == []
    {
      this.cfg, this.world, this.agent := cfg, world, agent;
      this.origin, this.log := world, [];
    }

    // ------------------------------------------------------------ remote calls

    method Interfere()
      requires Valid()
      modifies `world, `log
      ensures Valid() && old(log) <= log
      ensures world.task == old(world.task) && world.configured == old(world.configured)
    {
      var others: seq<EnvAction> := *;
      for i := 0 to |others|
        invariant Valid() && old(log) <= log
        invariant world.task == old(world.task) && world.configured == old(world.configured)
      {
        assert (log + [Env(others[i])])[..|log|] == log;
        world := EnvStep(cfg, world, others[i]);
        log := log + [Env(others[i])];
      }
    }

    method Call() returns (before: World, reply: Reply)
      requires Valid()
      modifies `world, `log
      ensures Valid() && old(log) <= log
      ensures before.task == old(world.task) && before.configured == old(world.configured)
      ensures world == Exec(cfg, before, reply)
      ensures Init(origin) ==> Inv(cfg, before) && Inv(cfg, world)
    {
      Interfere();
      before := world;
      reply := *;
      assert (log + [Op(reply)])[..|log|] == log;
      world := Exec(cfg, world, reply);
      log := log + [Op(reply)];
      if Init(origin) {
        RunKeepsInv(cfg, origin, log[..|log| - 1]);
        RunKeepsInv(cfg, origin, log);
      }
    }

    method GetAgent() returns (r: Answer<Agent>, ghost before: World, ghost reply: Reply)
      requires Valid() && world.task.Idle?
      modifies `world, `log
      ensures Valid() && old(log) <= log
      ensures before.task.Idle? && before.configured == old(world.configured) && world == Exec(cfg, before, reply)
      ensures r == if !reply.ok then Failure else if before.agent.None? then NotFound else Found(before.agent.value)
    {
      var w, rep := Call();
      before, reply := w, rep;
      r := if !rep.ok then Failure else if w.agent.None? then NotFound else Found(w.agent.value);
    }

    method GetSecret() returns (r: Answer<Credentials>, ghost before: World, ghost reply: Reply)
      requires Valid() && world.task.Busy? && world.task.pc.LookupSecret?
      modifies `world, `log
      ensures Valid() && old(log) <= log
      ensures before.task == old(world.task) && world == Exec(cfg, before, reply)
      ensures r == if !reply.ok then Failure else if before.secret.None? then NotFound else Found(before.secret.value)
    {
      var w, rep := Call();
      before, reply := w, rep;
      r := if !rep.ok then Failure else if w.secret.None? then NotFound else Found(w.secret.value);
    }

    /** `ok` covers both a creation and the answer that the Secret exists already. */
    method CreateCredentials(c: Credentials) returns (ok: bool, ghost before: World, ghost reply: Reply)
      requires Valid() && world.task.Busy? && world.task.pc.CreateSecret?
      requires c == Credentials(ClientId(cfg), world.task.pc.clientSecret, TokenUrl(cfg), OwnedBy(world.task.mem.uid))
      modifies `world, `log
      ensures Valid() && old(log) <= log
      ensures before.task == old(world.task) && world == Exec(cfg, before, reply)
      ensures ok <==> reply.ok
    {
      var w, rep := Call();
      before, reply := w, rep;
      ok := rep.ok;
    }

    /** Update of the agent (finalizer) or of its status, from the copy. */
    method PutAgent() returns (ok: bool, ghost before: World, ghost reply: Reply)
      requires Valid() && world.task.Busy? && agent == world.task.mem
      requires world.task.pc.PutFinalizer? || world.task.pc.DropFinalizer? || world.task.pc.PutRegistering?
               || world.task.pc.PutActive? || world.task.pc.PutFailed?
      modifies `world, `log
      ensures Valid() && old(log) <= log
      ensures before.task == old(world.task) && world == Exec(cfg, before, reply)
      ensures ok <==> reply.ok && before.agent.Some? && before.agent.value.resourceVersion == agent.resourceVersion
    {
      var w, rep := Call();
      before, reply := w, rep;
      ok := rep.ok && w.agent.Some? && w.agent.value.resourceVersion == agent.resourceVersion;
    }

    method GetAdminToken() returns (ok: bool, ghost before: World, ghost reply: Reply)
      requires Valid() && world.task.Busy? && (world.task.pc.GetToken? || world.task.pc.CleanToken?)
      modifies `world, `log
      ensures Valid() && old(log) <= log
      ensures before.task == old(world.task) && world == Exec(cfg, before, reply)
      ensures ok <==> reply.ok
    {
      var w, rep := Call();
      before, reply := w, rep;
      ok := rep.ok;
    }

    method Post(clientId: string) returns (r: PostResponse, ghost before: World, ghost reply: Reply)
      requires Valid() && world.task.Busy? && world.task.pc.PostClient? && clientId == ClientId(cfg)
      modifies `world, `log
      ensures Valid() && old(log) <= log
      ensures before.task == old(world.task) && world == Exec(cfg, before, reply)
      ensures r ==
        if !reply.ok then OtherResponse
        else if clientId in before.clients then Conflict
        else if Mintable(before.clients, reply.uuid) then Created
        else OtherResponse
    {
      var w, rep := Call();
      before, reply := w, rep;
      r := if !rep.ok then OtherResponse
           else if clientId in w.clients then Conflict
           else if Mintable(w.clients, rep.uuid) then Created
           else OtherResponse;
    }

    method Search(clientId: string) returns (r: Result<seq<ClientRep>, ()>, ghost before: World, ghost reply: Reply)
      requires Valid() && world.task.Busy? && (world.task.pc.SearchClient? || world.task.pc.CleanSearch?)
      requires clientId == ClientId(cfg)
      modifies `world, `log
      ensures Valid() && old(log) <= log
      ensures before.task == old(world.task) && world == Exec(cfg, before, reply)
      ensures Init(origin) ==> Inv(cfg, before) && Inv(cfg, world)
      ensures r == if reply.ok && Faithful(before.clients, clientId, reply.listing) then Ok(reply.listing) else Err(())
    {
      var w, rep := Call();
      before, reply := w, rep;
      r := if rep.ok && Faithful(w.clients, clientId, rep.listing) then Ok(rep.listing) else Err(());
    }

    method Delete(uuid: string) returns (ok: bool, ghost before: World, ghost reply: Reply)
      requires Valid() && world.task.Busy? && world.task.pc == CleanDelete(uuid)
      modifies `world, `log
      ensures Valid() && old(log) <= log
      ensures before.task == old(world.task) && world == Exec(cfg, before, reply)
      ensures Init(origin) ==> Inv(cfg, before) && Inv(cfg, world)
      ensures ok <==> reply.ok
    {
      var w, rep := Call();
      before, reply := w, rep;
      ok := rep.ok;
    }

    /** The stored agent has phase and Secret name of the copy. */
    ghost predicate IsRecorded()
      reads this
    {
      && world.agent.Some?
      && world.agent.value.phase == agent.phase && world.agent.value.secretRef == agent.secretRef
    }

    // ----------------------------------------------------- the Keycloak client

    /** Keycloak has the agent's client, with this secret. */
    ghost predicate KeycloakHolds(clientSecret: string)
      reads this
    {
      ClientId(cfg) in world.clients && world.clients[ClientId(cfg)].secret == clientSecret
    }

    /** findClientUUID: the internal id of a client, empty if it does not exist. */
    method FindClientUUID(clientId: string) returns (r: Result<string, ()>)
      requires Valid() && world.task.Busy? && (world.task.pc.SearchClient? || world.task.pc.CleanSearch?)
      requires clientId == ClientId(cfg)
      modifies `world, `log
      ensures Valid() && old(log) <= log
      ensures old(world.task.pc).SearchClient? ==>
        world == if r.Ok? then Await(world, FetchSecret(r.value), old(world.task.mem))
                 else GiveUp(world, old(world.task.mem))
      ensures old(world.task.pc).CleanSearch? ==>
        world == if r.Ok? && r.value != "" then Await(world, CleanDelete(r.value), old(world.task.mem))
                 else Drop(world, old(world.task.mem))
      ensures Init(origin) && r.Ok? ==>
        if clientId in world.clients then r.value == world.clients[clientId].uuid else r.value == ""
    {
      var found, before, _ := Search(clientId);
      if found.Err? {
        return Err(());
      }
      if Init(origin) {
        SearchIsExact(before.clients, clientId, found.value);
      }
      var uuid := ScanForClient(found.value, clientId);
      return Ok(uuid);
    }

    method GetClientSecret(uuid: string) returns (r: Result<string, ()>)
      requires Valid() && world.task.Busy? && world.task.pc == FetchSecret(uuid)
      modifies `world, `log
      ensures Valid() && old(log) <= log
      ensures world == if r.Ok? then Await(world, CreateSecret(r.value), old(world.task.mem))
                       else GiveUp(world, old(world.task.mem))
      ensures Init(origin) && r.Ok? ==> KeycloakHolds(r.value)
    {
      var w, rep := Call();
      r := if rep.ok && HasSecret(w.clients, uuid, rep.secret) then Ok(rep.secret) else Err(());
    }

    /** CreateClient: an existing client is not an error, its secret is fetched instead. */
    method CreateClient(clientId: string) returns (r: Result<string, ()>)
      requires Valid() && world.task.Busy? && world.task.pc.PostClient? && clientId == ClientId(cfg)
      modifies `world, `log
      ensures Valid() && old(log) <= log
      ensures world == if r.Ok? then Await(world, CreateSecret(r.value), old(world.task.mem))
                       else GiveUp(world, old(world.task.mem))
      ensures Init(origin) && r.Ok? ==> KeycloakHolds(r.value)
    {
      var response, _, _ := Post(clientId);
      match response {
        case Created =>
          var uuid := FindClientUUID(clientId);
          if uuid.Err? {
            return Err(());
          }
          r := GetClientSecret(uuid.value);
        case Conflict =>
          var uuid := FindClientUUID(clientId);
          if uuid.Err? {
            return Err(());
          }
          r := GetClientSecret(uuid.value);
        case OtherResponse =>
          return Err(());
      }
    }

    /** DeleteClient: deleting a client that does not exist is not an error. */
    method DeleteClient(clientId: string) returns (ok: bool)
      requires Valid() && world.task.Busy? && world.task.pc.CleanSearch? && clientId == ClientId(cfg)
      modifies `world, `log
      ensures Valid() && old(log) <= log
      ensures world == Drop(world, old(world.task.mem))
      ensures Init(origin) && ok ==> clientId !in world.clients
    {
      var uuid := FindClientUUID(clientId);
      if uuid.Err? {
        return false;
      }
      if uuid.value == "" {
        if Init(origin) {
          RunKeepsInv(cfg, origin, log);
        }
        return true;
      }
      var deleted, _, _ := Delete(uuid.value);
      return deleted;
    }

    // ------------------------------------------------------------- reconciling

    /** A Secret the operator wrote is for the client the spec names, or for the one named after the
        agent, and for the token endpoint of the realm. */
    ghost predicate CredentialsAreRight()
      reads this
    {
      world.secret.Some? && world.secret.value.owner.OwnedBy? ==>
        && (cfg.oidcClientId != "" ==> world.secret.value.clientId == cfg.oidcClientId)
        && (cfg.oidcClientId == "" ==> world.secret.value.clientId == "agent-" + cfg.name)
        && world.secret.value.tokenUrl == cfg.baseUrl + "/realms/" + cfg.realm + "/protocol/openid-connect/token"
    }

    /** One Reconcile: it leaves no call pending, and its result is the one recorded. */
    method Reconcile() returns (result: Outcome)
      requires Valid() && world.task.Idle?
      modifies this
      ensures Valid() && old(log) <= log
      ensures world.task.Idle? && result == world.last
      ensures Init(origin) ==> CredentialsAreRight()
    {
      var r, _, _ := GetAgent();
      if r.NotFound? {
        result := Done;
      } else if r.Failure? {
        result := Erred;
      } else {
        agent := r.value;
        if agent.deleting {
          result := ReconcileAgentDelete();
        } else {
          result := ReconcileLive();
        }
      }
      if Init(origin) {
        CredentialsWrittenOut(cfg, origin, log);
      }
    }

    /** The rest of Reconcile, for an agent that is not being deleted. */
    method ReconcileLive() returns (result: Outcome)
      requires Valid() && !agent.deleting && world == Dispatch(world, agent).(last := world.last)
      requires agent.finalizer && !agent.phase.Unset? && !agent.phase.Pending? && !world.configured ==>
        world.last == After(RETRY_UNCONFIGURED)
      modifies this
      ensures Valid() && old(log) <= log
      ensures world.task.Idle? && result == world.last
      ensures old(agent.finalizer) && !old(agent.phase).Unset? && !old(agent.phase).Pending? && !old(world.configured) ==>
        result == After(30) && world == old(world)
    {
      if !agent.finalizer {
        agent := agent.(finalizer := true);
        var ok, _, _ := PutAgent();
        return if ok then Again else Erred;
      }
      var clientId := cfg.oidcClientId;
      if clientId == "" {
        clientId := "agent-" + cfg.name;
      }
      if agent.phase.Unset? || agent.phase.Pending? {
        agent := agent.(phase := Registering);
        var ok, _, _ := PutAgent();
        return if ok then Again else Erred;
      }
      if !world.configured {
        return After(RETRY_UNCONFIGURED);
      }
      result := Register(clientId);
    }

    method Fail() returns (result: Outcome)
      requires Valid() && world.task.Busy? && world == GiveUp(world, agent)
      modifies this
      ensures Valid() && old(log) <= log
      ensures result.Erred? && agent == old(agent).(phase := Failed)
      ensures world.task.Idle? && result == world.last
    {
      agent := agent.(phase := Failed);
      var _, _, _ := PutAgent();
      return Erred;
    }

    /** Done means that Active is stored, and that the Secret was there meanwhile. Without token or
        client the copy says Failed; without an answer about the Secret it is left alone. */
    method Register(clientId: string) returns (result: Outcome)
      requires Valid() && world.task == Busy(GetToken, agent) && clientId == ClientId(cfg)
      modifies this
      ensures Valid() && old(log) <= log
      ensures if result.Done?
              then IsRecorded() && agent == old(agent).(phase := Active, secretRef := Some(SecretName(cfg)))
              else result.Erred?
      ensures agent == old(agent) || agent == old(agent).(phase := Failed)
              || agent == old(agent).(phase := Active, secretRef := Some(SecretName(cfg)))
      ensures Init(origin) && result.Done? ==> Seen(cfg, origin, log, world.agent.value.uid)
      ensures world.task.Idle? && result == world.last
    {
      var ok, _, _ := GetAdminToken();
      if !ok {
        result := Fail();
        return;
      }
      var r, _, _ := GetSecret();
      if r.Failure? {
        return Erred;
      }
      if r.NotFound? {
        var clientSecret := CreateClient(clientId);
        if clientSecret.Err? {
          result := Fail();
          return;
        }
        var tokenUrl := cfg.baseUrl + "/realms/" + cfg.realm + "/protocol/openid-connect/token";
        var credentials := Credentials(clientId, clientSecret.value, tokenUrl, OwnedBy(agent.uid));
        var created, _, _ := CreateCredentials(credentials);
        if !created {
          return Erred;
        }
      }
      result := RecordActive();
      if Init(origin) && result.Done? {
        ActiveOfRun(cfg, origin, log);
      }
    }

    method RecordActive() returns (result: Outcome)
      requires Valid() && world.task.Busy? && world == Activate(cfg, world, agent)
      modifies this
      ensures Valid() && old(log) <= log
      ensures agent == old(agent).(phase := Active, secretRef := Some(SecretName(cfg)))
      ensures if result.Done? then IsRecorded() else result.Erred?
      ensures world.task.Idle? && result == world.last
    {
      agent := agent.(phase := Active);
      agent := agent.(secretRef := Some(SecretName(cfg)));
      var put, _, _ := PutAgent();
      return if put then Done else Erred;
    }

    method ReconcileAgentDelete() returns (result: Outcome)
      requires Valid() && agent.deleting
      requires
        if !agent.finalizer then world.task.Idle? && world.last.Done?
        else if world.configured then world.task == Busy(CleanToken, agent)
        else world == Drop(world, agent)
      modifies this
      ensures Valid() && old(log) <= log
      ensures !agent.finalizer
      ensures if result.Done? then old(agent.finalizer) ==> world.agent.None? else result.Erred?
      ensures world.task.Idle? && result == world.last
    {
      if agent.finalizer {
        if world.configured {
          var clientId := cfg.oidcClientId;
          if clientId == "" {
            clientId := "agent-" + cfg.name;
          }
          var ok, _, _ := GetAdminToken();
          if ok {
            var _ := DeleteClient(clientId);
          }
        }
        agent := agent.(finalizer := false);
        var ok, _, _ := PutAgent();
        if !ok {
          return Erred;
        }
      }
      return Done;
    }

    /** Reconciles any number of times from a cluster without the agent. At every moment of what
        happened, between calls and inside them, credentials agree with Keycloak and no client is
        left without its finalizer. */
    method ReconcileRepeatedly(times: nat)
      requires Valid() && world.task.Idle? && Init(origin)
      modifies this
      ensures Valid() && old(log) <= log && world.task.Idle?
      ensures forall k :: 0 <= k <= |log| ==>
        var w := Run(cfg, origin, log[..k]);
        NoOrphan(cfg, origin, log[..k]) && SecretOk(cfg, w)
    {
      for i := 0 to times
        invariant Valid() && old(log) <= log && world.task.Idle?
      {
        var _ := Reconcile();
      }
      forall k | 0 <= k <= |log|
        ensures
          var w := Run(cfg, origin, log[..k]);
          NoOrphan(cfg, origin, log[..k]) && SecretOk(cfg, w)
      {
        RunKeepsInv(cfg, origin, log[..k]);
        NoOrphanInAnyState(cfg, origin, log[..k]);
      }
    }
  }
}
