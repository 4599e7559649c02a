/** Agent registration as a transition system over two systems: the MCPAgent object and its
    credentials Secret in Kubernetes, and the client table of Keycloak. One operator step is one
    remote call and the computation up to the next one. */
module AgentLifecycle {
  import opened Options
  import opened Reconciling

  const RETRY_UNCONFIGURED: nat := 30

  datatype Config = Config(name: string, oidcClientId: string, baseUrl: string, realm: string)

  function ClientId(cfg: Config): string {
    if cfg.oidcClientId == "" then "agent-" + cfg.name else cfg.oidcClientId
  }

  function SecretName(cfg: Config): string {
    cfg.name + "-credentials"
  }

  function TokenUrl(cfg: Config): string {
    cfg.baseUrl + "/realms/" + cfg.realm + "/protocol/openid-connect/token"
  }

  // ------------------------------------------------------------------- state

  datatype Phase = Unset | Pending | Registering | Active | Suspended | Failed

  datatype Agent = Agent(
    uid: nat, resourceVersion: nat, deleting: bool, finalizer: bool,
    phase: Phase, secretRef: Option<string>)

  datatype Owner = OwnedBy(uid: nat) | Foreign
  datatype Credentials = Credentials(clientId: string, clientSecret: string, tokenUrl: string, owner: Owner)

  datatype Client = Client(uuid: string, secret: string)
  type ClientTable = map<string, Client>

  /** Internal ids are non-empty and belong to one client each. */
  predicate WellFormed(t: ClientTable) {
    && (forall a :: a in t ==> t[a].uuid != "")
    && (forall a, b :: a in t && b in t && t[a].uuid == t[b].uuid ==> a == b)
  }

  datatype Pc =
    | PutFinalizer | PutRegistering
    | GetToken | LookupSecret
    | PostClient | SearchClient | FetchSecret(uuid: string)
    | CreateSecret(clientSecret: string)
    | PutActive | PutFailed
    | CleanToken | CleanSearch | CleanDelete(id: string) | DropFinalizer

  datatype Task = Idle | Busy(pc: Pc, mem: Agent)

  datatype World = World(
    revision: nat,
    nextUid: nat,
    agent: Option<Agent>,
    secret: Option<Credentials>,
    clients: ClientTable,
    configured: bool,
    task: Task,
    last: Outcome)

  ghost predicate Init(w: World) {
    w.agent.None? && w.secret.None? && w.task.Idle? && WellFormed(w.clients)
  }

  /** One entry of a search result. */
  datatype ClientRep = ClientRep(id: string, clientId: string)

  /** `ok`: the call is answered. Otherwise it fails, and `landed` says whether it took effect all
      the same. `uuid` and `secret` are what Keycloak mints or reports, `listing` what a search
      returns; a reply that could not come from the table counts as a failed call. */
  datatype Reply = Reply(ok: bool, landed: bool, uuid: string, secret: string, listing: seq<ClientRep>)

  predicate Lands(reply: Reply) {
    reply.ok || reply.landed
  }

  predicate Mintable(t: ClientTable, uuid: string) {
    uuid != "" && forall id :: id in t ==> t[id].uuid != uuid
  }

  /** A search for `id` returns entries of the table, among them that of `id` if it exists. */
  predicate Faithful(t: ClientTable, id: string, listing: seq<ClientRep>) {
    && (forall r :: r in listing ==> r.clientId in t && t[r.clientId].uuid == r.id)
    && (id in t ==> exists r :: r in listing && r.clientId == id)
  }

  /** The id of the first entry for `clientId`, or the empty string. */
  function FindUuid(listing: seq<ClientRep>, clientId: string): string {
    if listing == [] then ""
    else if listing[0].clientId == clientId then listing[0].id
    else FindUuid(listing[1..], clientId)
  }

  predicate HasSecret(t: ClientTable, uuid: string, secret: string) {
    exists id :: id in t && t[id].uuid == uuid && t[id].secret == secret
  }

  function WithoutUuid(t: ClientTable, uuid: string): ClientTable {
    map id | id in t && t[id].uuid != uuid :: t[id]
  }

  // ------------------------------------------------------------- environment

  /** Others may do anything to other clients, but leave the agent's own client alone. */
  datatype EnvAction =
    | UserCreate
    | UserTouch
    | UserDelete
    | RemoveSecret
    | ForeignSecret(clientId: string, clientSecret: string)
    | ChangeOtherClients(others: ClientTable)

  datatype Action = Env(env: EnvAction) | Restart(configured: bool) | Op(reply: Reply)

  function Store(w: World, a: Agent): World {
    w.(agent := Some(a.(resourceVersion := w.revision + 1)), revision := w.revision + 1)
  }

  function OthersChanged(cfg: Config, t: ClientTable, others: ClientTable): ClientTable {
    var id := ClientId(cfg);
    if id in t then others[id := t[id]] else others - {id}
  }

  function EnvStep(cfg: Config, w: World, a: EnvAction): World {
    match a
    case UserCreate =>
      if w.agent.Some? then w
      else w.(agent := Some(Agent(w.nextUid, w.revision + 1, false, false, Unset, None)),
              nextUid := w.nextUid + 1, revision := w.revision + 1)
    case UserTouch =>
      if w.agent.None? then w else Store(w, w.agent.value)
    case UserDelete =>
      if w.agent.None? || w.agent.value.deleting then w
      else if w.agent.value.finalizer then Store(w, w.agent.value.(deleting := true))
      else w.(agent := None)
    case RemoveSecret => w.(secret := None)
    case ForeignSecret(id, s) =>
      if w.secret.Some? then w else w.(secret := Some(Credentials(id, s, "", Foreign)))
    case ChangeOtherClients(others) =>
      var t := OthersChanged(cfg, w.clients, others);
      if WellFormed(t) then w.(clients := t) else w
  }

  function Step(cfg: Config, w: World, a: Action): World {
    match a
    case Env(env) => EnvStep(cfg, w, env)
    case Restart(configured) => w.(task := Idle, configured := configured)
    case Op(reply) => Exec(cfg, w, reply)
  }

  function Run(cfg: Config, w: World, actions: seq<Action>): World
    decreases |actions|
  {
    if actions == [] then w
    else Step(cfg, Run(cfg, w, actions[..|actions| - 1]), actions[|actions| - 1])
  }

  // ---------------------------------------------------------- operator steps

  function Await(w: World, pc: Pc, mem: Agent): World {
    w.(task := Busy(pc, mem))
  }

  function End(w: World, last: Outcome): World {
    w.(task := Idle, last := last)
  }

  function GiveUp(w: World, mem: Agent): World {
    Await(w, PutFailed, mem.(phase := Failed))
  }

  function Drop(w: World, mem: Agent): World {
    Await(w, DropFinalizer, mem.(finalizer := false))
  }

  function Exec(cfg: Config, w: World, reply: Reply): World {
    match w.task
    case Idle => ExecGetAgent(w, reply)
    case Busy(pc, mem) =>
      match pc
      case PutFinalizer => ExecPutFinalizer(w, reply, mem)
      case PutRegistering => ExecPutStatus(w, reply, mem, Again)
      case GetToken => if reply.ok then Await(w, LookupSecret, mem) else GiveUp(w, mem)
      case LookupSecret => ExecLookupSecret(cfg, w, reply, mem)
      case PostClient => ExecPostClient(cfg, w, reply, mem)
      case SearchClient => ExecSearchClient(cfg, w, reply, mem)
      case FetchSecret(uuid) => ExecFetchSecret(w, reply, mem, uuid)
      case CreateSecret(s) => ExecCreateSecret(cfg, w, reply, mem, s)
      case PutActive => ExecPutStatus(w, reply, mem, Done)
      case PutFailed => ExecPutStatus(w, reply, mem, Erred)
      case CleanToken =>
        if reply.ok then Await(w, CleanSearch, mem) else Drop(w, mem)
      case CleanSearch => ExecCleanSearch(cfg, w, reply, mem)
      case CleanDelete(uuid) => ExecCleanDelete(w, reply, mem, uuid)
      case DropFinalizer => ExecPutFinalizer(w, reply, mem)
  }

  function ExecGetAgent(w: World, reply: Reply): World {
    if !reply.ok then End(w, Erred)
    else if w.agent.None? then End(w, Done)
    else Dispatch(w, w.agent.value)
  }

  function Dispatch(w: World, a: Agent): World {
    if a.deleting then
      if !a.finalizer then End(w, Done)
      else if w.configured then Await(w, CleanToken, a)
      else Drop(w, a)
    else if !a.finalizer then Await(w, PutFinalizer, a.(finalizer := true))
    else if a.phase.Unset? || a.phase.Pending? then Await(w, PutRegistering, a.(phase := Registering))
    else if !w.configured then End(w, After(RETRY_UNCONFIGURED))
    else Await(w, GetToken, a)
  }

  function ExecPutFinalizer(w: World, reply: Reply, mem: Agent): World {
    var fits := w.agent.Some? && w.agent.value.resourceVersion == mem.resourceVersion;
    var w' :=
      if !Lands(reply) || !fits then w
      else if mem.deleting && !mem.finalizer then w.(agent := None)
      else Store(w, w.agent.value.(finalizer := mem.finalizer));
    End(w', if !reply.ok || !fits then Erred else if mem.deleting then Done else Again)
  }

  function ExecPutStatus(w: World, reply: Reply, mem: Agent, outcome: Outcome): World {
    var fits := w.agent.Some? && w.agent.value.resourceVersion == mem.resourceVersion;
    var w' :=
      if !Lands(reply) || !fits then w
      else Store(w, w.agent.value.(phase := mem.phase, secretRef := mem.secretRef));
    End(w', if !reply.ok || !fits then Erred else outcome)
  }

  function Activate(cfg: Config, w: World, mem: Agent): World {
    Await(w, PutActive, mem.(phase := Active, secretRef := Some(SecretName(cfg))))
  }

  function ExecLookupSecret(cfg: Config, w: World, reply: Reply, mem: Agent): World {
    if !reply.ok then End(w, Erred)
    else if w.secret.Some? then Activate(cfg, w, mem)
    else Await(w, PostClient, mem)
  }

  /** Keycloak creates the client (201), or reports that it exists (409). */
  function ExecPostClient(cfg: Config, w: World, reply: Reply, mem: Agent): World {
    var id := ClientId(cfg);
    var fits := id in w.clients || Mintable(w.clients, reply.uuid);
    var w' :=
      if !Lands(reply) || !fits || id in w.clients then w
      else w.(clients := w.clients[id := Client(reply.uuid, reply.secret)]);
    if reply.ok && fits then Await(w', SearchClient, mem) else GiveUp(w', mem)
  }

  function ExecSearchClient(cfg: Config, w: World, reply: Reply, mem: Agent): World {
    if reply.ok && Faithful(w.clients, ClientId(cfg), reply.listing)
    then Await(w, FetchSecret(FindUuid(reply.listing, ClientId(cfg))), mem)
    else GiveUp(w, mem)
  }

  function ExecFetchSecret(w: World, reply: Reply, mem: Agent, uuid: string): World {
    if reply.ok && HasSecret(w.clients, uuid, reply.secret)
    then Await(w, CreateSecret(reply.secret), mem)
    else GiveUp(w, mem)
  }

  /** Creating the Secret; that it exists already is not an error. */
  function ExecCreateSecret(cfg: Config, w: World, reply: Reply, mem: Agent, s: string): World {
    var w' :=
      if !Lands(reply) || w.secret.Some? then w
      else w.(secret := Some(Credentials(ClientId(cfg), s, TokenUrl(cfg), OwnedBy(mem.uid))));
    if reply.ok then Activate(cfg, w', mem) else End(w', Erred)
  }

  function ExecCleanSearch(cfg: Config, w: World, reply: Reply, mem: Agent): World {
    if !reply.ok || !Faithful(w.clients, ClientId(cfg), reply.listing) then Drop(w, mem)
    else
      var uuid := FindUuid(reply.listing, ClientId(cfg));
      if uuid == "" then Drop(w, mem) else Await(w, CleanDelete(uuid), mem)
  }

  function ExecCleanDelete(w: World, reply: Reply, mem: Agent, uuid: string): World {
    Drop(if Lands(reply) then w.(clients := WithoutUuid(w.clients, uuid)) else w, mem)
  }
}
