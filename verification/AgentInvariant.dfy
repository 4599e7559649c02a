/** What every run of agent registration keeps. */
module AgentInvariant {
  import opened Options
  import opened AgentLifecycle

  // --------------------------------------------------------------- invariant

  predicate Registered(cfg: Config, w: World) {
    ClientId(cfg) in w.clients
  }

  ghost predicate AgentOk(w: World) {
    w.agent.Some? ==>
      && w.agent.value.uid < w.nextUid
      && w.agent.value.resourceVersion <= w.revision
  }

  /** Credentials the operator wrote, for whichever agent object, are the ones Keycloak holds if it
      holds any; and it does while that object is there and not being deleted. */
  ghost predicate SecretOk(cfg: Config, w: World) {
    w.secret.Some? && w.secret.value.owner.OwnedBy? ==>
      var c := w.secret.value;
      && c.owner.uid < w.nextUid
      && c.clientId == ClientId(cfg)
      && c.tokenUrl == TokenUrl(cfg)
      && (Registered(cfg, w) ==> w.clients[ClientId(cfg)].secret == c.clientSecret)
      && (w.agent.Some? && w.agent.value.uid == c.owner.uid && !w.agent.value.deleting ==> Registered(cfg, w))
  }

  /** The object that was read is still there, with its finalizer. */
  ghost predicate Held(w: World, mem: Agent) {
    && w.agent.Some?
    && w.agent.value.uid == mem.uid
    && w.agent.value.finalizer
    && (mem.deleting ==> w.agent.value.deleting)
  }

  ghost predicate NoOwnSecret(w: World) {
    w.secret.Some? ==> w.secret.value.owner.Foreign?
  }

  ghost predicate PcOk(cfg: Config, w: World, pc: Pc, mem: Agent) {
    match pc
    case PutFinalizer => mem.finalizer && !mem.deleting
    case PutRegistering => Held(w, mem) && mem.phase.Registering?
    case GetToken => Held(w, mem)
    case LookupSecret => Held(w, mem)
    case PostClient => Held(w, mem) && NoOwnSecret(w)
    case SearchClient => Held(w, mem) && NoOwnSecret(w) && Registered(cfg, w)
    case FetchSecret(uuid) =>
      Held(w, mem) && NoOwnSecret(w) && Registered(cfg, w) && w.clients[ClientId(cfg)].uuid == uuid
    case CreateSecret(s) =>
      Held(w, mem) && NoOwnSecret(w) && Registered(cfg, w) && w.clients[ClientId(cfg)].secret == s
    case PutActive => Held(w, mem)
    case PutFailed => Held(w, mem) && mem.phase.Failed?
    case CleanToken => Held(w, mem) && mem.deleting
    case CleanSearch => Held(w, mem) && mem.deleting
    case CleanDelete(uuid) =>
      Held(w, mem) && mem.deleting && Registered(cfg, w) && w.clients[ClientId(cfg)].uuid == uuid
    case DropFinalizer =>
      Held(w, mem) && mem.deleting && !mem.finalizer
  }

  ghost predicate TaskOk(cfg: Config, w: World) {
    w.task.Busy? ==>
      var mem := w.task.mem;
      && mem.uid < w.nextUid
      && mem.resourceVersion <= w.revision
      && (w.agent.Some? && w.agent.value.resourceVersion == mem.resourceVersion ==>
            w.agent.value.uid == mem.uid && w.agent.value.deleting == mem.deleting)
      && PcOk(cfg, w, w.task.pc, mem)
  }

  ghost predicate Inv(cfg: Config, w: World) {
    && WellFormed(w.clients)
    && AgentOk(w) && SecretOk(cfg, w) && TaskOk(cfg, w)
  }

  // ------------------------------------------------------------ preservation

  lemma OtherClientsKeepInv(cfg: Config, w: World, a: EnvAction)
    requires Inv(cfg, w) && a.ChangeOtherClients?
    ensures Inv(cfg, EnvStep(cfg, w, a))
  {
  }

  lemma UsersKeepInv(cfg: Config, w: World, a: EnvAction)
    requires Inv(cfg, w) && (a.UserCreate? || a.UserTouch? || a.UserDelete?)
    ensures Inv(cfg, EnvStep(cfg, w, a))
  {
  }

  lemma EnvKeepsInv(cfg: Config, w: World, a: EnvAction)
    requires Inv(cfg, w)
    ensures Inv(cfg, EnvStep(cfg, w, a))
  {
    match a
    case ChangeOtherClients(_) => OtherClientsKeepInv(cfg, w, a);
    case RemoveSecret =>
    case ForeignSecret(_, _) =>
    case _ => UsersKeepInv(cfg, w, a);
  }

  /** A faithful search result yields the id of the client, or nothing when it does not exist. */
  lemma SearchIsExact(t: ClientTable, id: string, listing: seq<ClientRep>)
    requires WellFormed(t) && Faithful(t, id, listing)
    ensures FindUuid(listing, id) == if id in t then t[id].uuid else ""
  {
    SearchFindsEntries(t, id, listing);
  }

  lemma {:induction false} SearchFindsEntries(t: ClientTable, id: string, listing: seq<ClientRep>)
    requires WellFormed(t)
    requires forall r :: r in listing ==> r.clientId in t && t[r.clientId].uuid == r.id
    ensures FindUuid(listing, id) ==
      if exists r :: r in listing && r.clientId == id then t[id].uuid else ""
  {
    if listing != [] {
      assert listing[0] in listing;
      if listing[0].clientId != id {
        SearchFindsEntries(t, id, listing[1..]);
        assert forall r :: r in listing && r.clientId == id ==> r in listing[1..];
      }
    }
  }

  lemma LiveStartKeepsInv(cfg: Config, w: World)
    requires Inv(cfg, w) && w.agent.Some? && !w.agent.value.deleting
    ensures Inv(cfg, Dispatch(w, w.agent.value))
  {
  }

  lemma DeletingStartKeepsInv(cfg: Config, w: World)
    requires Inv(cfg, w) && w.agent.Some? && w.agent.value.deleting
    ensures Inv(cfg, Dispatch(w, w.agent.value))
  {
  }

  lemma StartKeepsInv(cfg: Config, w: World, reply: Reply)
    requires Inv(cfg, w) && w.task.Idle?
    ensures Inv(cfg, Exec(cfg, w, reply))
  {
    if reply.ok && w.agent.Some? {
      if w.agent.value.deleting {
        DeletingStartKeepsInv(cfg, w);
      } else {
        LiveStartKeepsInv(cfg, w);
      }
    }
  }

  lemma PutFinalizerKeepsInv(cfg: Config, w: World, reply: Reply)
    requires Inv(cfg, w) && w.task.Busy? && w.task.pc.PutFinalizer?
    ensures Inv(cfg, Exec(cfg, w, reply))
  {
  }

  lemma DropFinalizerKeepsInv(cfg: Config, w: World, reply: Reply)
    requires Inv(cfg, w) && w.task.Busy? && w.task.pc.DropFinalizer?
    ensures Inv(cfg, Exec(cfg, w, reply))
  {
  }

  lemma PutStatusKeepsInv(cfg: Config, w: World, reply: Reply)
    requires Inv(cfg, w) && w.task.Busy? && (w.task.pc.PutRegistering? || w.task.pc.PutActive? || w.task.pc.PutFailed?)
    ensures Inv(cfg, Exec(cfg, w, reply))
  {
  }

  lemma LookupKeepsInv(cfg: Config, w: World, reply: Reply)
    requires Inv(cfg, w) && w.task.Busy? && w.task.pc.LookupSecret?
    ensures Inv(cfg, Exec(cfg, w, reply))
  {
  }

  lemma TokenKeepsInv(cfg: Config, w: World, reply: Reply)
    requires Inv(cfg, w) && w.task.Busy? && w.task.pc.GetToken?
    ensures Inv(cfg, Exec(cfg, w, reply))
  {
  }

  lemma ConflictKeepsInv(cfg: Config, w: World, reply: Reply, mem: Agent)
    requires Inv(cfg, w) && w.task == Busy(PostClient, mem) && Registered(cfg, w)
    ensures Inv(cfg, ExecPostClient(cfg, w, reply, mem))
  {
  }

  lemma CreationKeepsInv(cfg: Config, w: World, reply: Reply, mem: Agent)
    requires Inv(cfg, w) && w.task == Busy(PostClient, mem) && !Registered(cfg, w)
    ensures Inv(cfg, ExecPostClient(cfg, w, reply, mem))
  {
    var w' := w.(clients := w.clients[ClientId(cfg) := Client(reply.uuid, reply.secret)]);
    if Mintable(w.clients, reply.uuid) {
      assert WellFormed(w'.clients);
    }
  }

  lemma PostClientKeepsInv(cfg: Config, w: World, reply: Reply)
    requires Inv(cfg, w) && w.task.Busy? && w.task.pc.PostClient?
    ensures Inv(cfg, Exec(cfg, w, reply))
  {
    if Registered(cfg, w) {
      ConflictKeepsInv(cfg, w, reply, w.task.mem);
    } else {
      CreationKeepsInv(cfg, w, reply, w.task.mem);
    }
  }

  lemma SearchClientKeepsInv(cfg: Config, w: World, reply: Reply)
    requires Inv(cfg, w) && w.task.Busy? && w.task.pc.SearchClient?
    ensures Inv(cfg, Exec(cfg, w, reply))
  {
    if reply.ok && Faithful(w.clients, ClientId(cfg), reply.listing) {
      SearchIsExact(w.clients, ClientId(cfg), reply.listing);
    }
  }

  lemma FetchSecretKeepsInv(cfg: Config, w: World, reply: Reply)
    requires Inv(cfg, w) && w.task.Busy? && w.task.pc.FetchSecret?
    ensures Inv(cfg, Exec(cfg, w, reply))
  {
  }

  lemma CreateSecretKeepsInv(cfg: Config, w: World, reply: Reply)
    requires Inv(cfg, w) && w.task.Busy? && w.task.pc.CreateSecret?
    ensures Inv(cfg, Exec(cfg, w, reply))
  {
  }

  /** Going on to drop the finalizer. */
  lemma DropKeepsInv(cfg: Config, w: World, mem: Agent)
    requires Inv(cfg, w.(task := Idle)) && Held(w, mem) && mem.deleting
    requires mem.uid < w.nextUid && mem.resourceVersion <= w.revision
    requires w.agent.value.resourceVersion == mem.resourceVersion ==> w.agent.value.deleting == mem.deleting
    ensures Inv(cfg, Drop(w, mem))
  {
  }

  lemma CleanTokenKeepsInv(cfg: Config, w: World, reply: Reply)
    requires Inv(cfg, w) && w.task.Busy? && w.task.pc.CleanToken?
    ensures Inv(cfg, Exec(cfg, w, reply))
  {
    if !reply.ok {
      DropKeepsInv(cfg, w, w.task.mem);
    }
  }

  lemma CleanSearchKeepsInv(cfg: Config, w: World, reply: Reply)
    requires Inv(cfg, w) && w.task.Busy? && w.task.pc.CleanSearch?
    ensures Inv(cfg, Exec(cfg, w, reply))
  {
    DropKeepsInv(cfg, w, w.task.mem);
    if reply.ok && Faithful(w.clients, ClientId(cfg), reply.listing) {
      SearchIsExact(w.clients, ClientId(cfg), reply.listing);
    }
  }

  /** Deleting by the client's id removes the client and leaves the others. */
  lemma DeletionKeepsInv(cfg: Config, w: World, uuid: string)
    requires Inv(cfg, w.(task := Idle)) && w.agent.Some? && w.agent.value.deleting
    requires Registered(cfg, w) ==> w.clients[ClientId(cfg)].uuid == uuid
    ensures
      var w' := w.(clients := WithoutUuid(w.clients, uuid));
      Inv(cfg, w'.(task := Idle)) && !Registered(cfg, w')
  {
    var t := WithoutUuid(w.clients, uuid);
    assert WellFormed(t);
    assert ClientId(cfg) !in t;
  }

  lemma CleanDeleteKeepsInv(cfg: Config, w: World, reply: Reply)
    requires Inv(cfg, w) && w.task.Busy? && w.task.pc.CleanDelete?
    ensures Inv(cfg, Exec(cfg, w, reply))
  {
    var Busy(pc, mem) := w.task;
    if Lands(reply) {
      DeletionKeepsInv(cfg, w, pc.id);
      DropKeepsInv(cfg, w.(clients := WithoutUuid(w.clients, pc.id)), mem);
    } else {
      DropKeepsInv(cfg, w, mem);
    }
  }

  lemma ExecKeepsInv(cfg: Config, w: World, reply: Reply)
    requires Inv(cfg, w)
    ensures Inv(cfg, Exec(cfg, w, reply))
  {
    match w.task
    case Idle => StartKeepsInv(cfg, w, reply);
    case Busy(pc, _) =>
      match pc
      case PutFinalizer => PutFinalizerKeepsInv(cfg, w, reply);
      case PutRegistering => PutStatusKeepsInv(cfg, w, reply);
      case GetToken => TokenKeepsInv(cfg, w, reply);
      case LookupSecret => LookupKeepsInv(cfg, w, reply);
      case PostClient => PostClientKeepsInv(cfg, w, reply);
      case SearchClient => SearchClientKeepsInv(cfg, w, reply);
      case FetchSecret(_) => FetchSecretKeepsInv(cfg, w, reply);
      case CreateSecret(_) => CreateSecretKeepsInv(cfg, w, reply);
      case PutActive => PutStatusKeepsInv(cfg, w, reply);
      case PutFailed => PutStatusKeepsInv(cfg, w, reply);
      case CleanToken => CleanTokenKeepsInv(cfg, w, reply);
      case CleanSearch => CleanSearchKeepsInv(cfg, w, reply);
      case CleanDelete(_) => CleanDeleteKeepsInv(cfg, w, reply);
      case DropFinalizer => DropFinalizerKeepsInv(cfg, w, reply);
  }

  lemma {:induction false} RunKeepsInv(cfg: Config, init: World, actions: seq<Action>)
    requires Init(init)
    ensures Inv(cfg, Run(cfg, init, actions))
    decreases |actions|
  {
    if actions != [] {
      var w := Run(cfg, init, actions[..|actions| - 1]);
      RunKeepsInv(cfg, init, actions[..|actions| - 1]);
      match actions[|actions| - 1]
      case Env(env) => EnvKeepsInv(cfg, w, env);
      case Restart(_) =>
      case Op(reply) => ExecKeepsInv(cfg, w, reply);
    }
  }
}
