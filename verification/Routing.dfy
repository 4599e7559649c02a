/** From a request to a pod: HTTPRoute, Service and pod labels of several MCPServers that live in one
    namespace, each of them at any moment of any run of its controller. */
module Routing {
  import opened Options
  import opened McpTypes
  import opened ChildObjects
  import opened ServerLifecycle
  import opened LifecycleTheorems

  // ------------------------------------------------------------- path elements

  /** The labels of a path, split at every '/'. */
  function Split(path: string): (r: seq<string>)
    ensures |r| >= 1
  {
    if path == "" then [""]
    else if path[0] == '/' then [""] + Split(path[1..])
    else
      var rest := Split(path[1..]);
      [[path[0]] + rest[0]] + rest[1..]
  }

  /** The labels of a prefix: a trailing '/' is ignored. */
  function Elements(prefix: string): seq<string> {
    var r := Split(prefix);
    if r[|r| - 1] == "" then r[..|r| - 1] else r
  }

  /** HTTPPathMatch of type PathPrefix (Gateway API v1): element by element, case sensitive. */
  predicate PathMatches(prefix: string, path: string) {
    Elements(prefix) <= Split(path)
  }

  predicate Slashless(s: string) {
    '/' !in s
  }

  lemma {:induction false} SplitAtSlash(s: string, rest: string)
    requires Slashless(s)
    ensures Split(s + "/" + rest) == [s] + Split(rest)
    ensures Split(s) == [s]
  {
    if s == "" {
      assert "" + "/" + rest == ['/'] + rest;
    } else {
      assert (s + "/" + rest)[1..] == s[1..] + "/" + rest;
      SplitAtSlash(s[1..], rest);
      assert [s[0]] + s[1..] == s;
    }
  }

  /** The elements of the path prefix of a server. */
  function ServerElements(name: string): seq<string> {
    ["", name, "mcp"]
  }

  lemma ElementsOfPathPrefix(name: string)
    requires Slashless(name)
    ensures Elements(PathPrefixFor(name)) == ServerElements(name)
  {
    assert PathPrefixFor(name) == "" + "/" + (name + "/" + "mcp");
    SplitAtSlash("", name + "/" + "mcp");
    SplitAtSlash(name, "mcp");
    SplitAtSlash("mcp", "");
    assert Split(PathPrefixFor(name)) == ServerElements(name);
  }

  /** With a slash in a name routes would overlap: one path, two servers. */
  lemma SlashesOverlap(a: string, c: string)
    requires Slashless(a) && Slashless(c)
    ensures
      var path := PathPrefixFor(a + "/mcp/" + c);
      && PathMatches(PathPrefixFor(a), path)
      && PathMatches(PathPrefixFor(a + "/mcp/" + c), path)
  {
    ElementsOfPathPrefix(a);
    var inner := c + "/" + "mcp";
    var path := PathPrefixFor(a + "/mcp/" + c);
    assert path == "" + "/" + (a + "/" + ("mcp" + "/" + inner));
    SplitAtSlash("", a + "/" + ("mcp" + "/" + inner));
    SplitAtSlash(a, "mcp" + "/" + inner);
    SplitAtSlash("mcp", inner);
    assert ServerElements(a) <= Split(path);
  }

  /** One path starts with the elements of one server only. */
  lemma OneServerPerPath(name: string, other: string, path: string)
    requires ServerElements(name) <= Split(path) && ServerElements(other) <= Split(path)
    ensures name == other
  {
    assert Split(path)[1] == name && Split(path)[1] == other;
  }

  // ------------------------------------------------------------------ one route

  /** A route attached to `gateway` sends the request to backend `b`. */
  ghost predicate Sends(r: RouteSpec, gateway: ParentRef, verb: string, path: string, b: BackendRef) {
    gateway in r.parents &&
    exists rule, m ::
      rule in r.rules && m in rule.matches && b in rule.backends
      && m.httpMethod == verb && PathMatches(m.pathPrefix, path)
  }

  /** The route of a server takes exactly the POST and GET requests whose path starts with the
      server's elements, and has exactly one backend. */
  lemma RouteSendsExactly(
      name: string, spec: ServerSpec, gatewayName: string, gatewayNamespace: string,
      gateway: ParentRef, verb: string, path: string, b: BackendRef)
    requires Slashless(name)
    ensures Sends(RouteFor(name, spec, gatewayName, gatewayNamespace), gateway, verb, path, b) <==>
      && gateway == ParentRef(gatewayName, gatewayNamespace)
      && verb in {"POST", "GET"}
      && ServerElements(name) <= Split(path)
      && b == BackendRef(name, spec.source.port)
  {
    ElementsOfPathPrefix(name);
    var r := RouteFor(name, spec, gatewayName, gatewayNamespace);
    assert r.rules[0] in r.rules && r.rules[1] in r.rules;
    assert r.rules[0].matches[0] in r.rules[0].matches && r.rules[1].matches[0] in r.rules[1].matches;
  }

  // --------------------------------------------------------------- many servers

  /** Defaulting leaves alone what routing depends on. */
  ghost predicate KeepsRouting(cfg: Config) {
    && KeepsLabels(cfg)
    && (forall d :: SamePorts(cfg.defaultDeployment(d), d))
    && (forall s :: cfg.defaultService(s).ports == s.ports)
    && (forall r :: cfg.defaultRoute(r).parents == r.parents && cfg.defaultRoute(r).rules == r.rules)
  }

  predicate SamePorts(a: DeploymentSpec, b: DeploymentSpec) {
    && |a.containers| == |b.containers|
    && forall i :: 0 <= i < |a.containers| ==>
         a.containers[i].name == b.containers[i].name && a.containers[i].ports == b.containers[i].ports
  }

  /** One MCPServer name with everything that has happened to it so far. */
  datatype Member = Member(cfg: Config, init: World, actions: seq<Action>)

  function Now(m: Member): World {
    Run(m.cfg, m.init, m.actions)
  }

  type Fleet = map<string, Member>

  ghost predicate FleetOk(fleet: Fleet) {
    forall n :: n in fleet ==>
      && Slashless(n)
      && fleet[n].cfg.key == n
      && Init(fleet[n].init)
      && Idempotent(fleet[n].cfg)
      && KeepsRouting(fleet[n].cfg)
  }

  /** A pod of the namespace, and the server whose Deployment made it, if any. */
  datatype Pod = Pod(owner: Option<string>, labels: Labels, containers: seq<Container>)

  /** A selector selects labels that contain it. */
  predicate Selects(selector: Labels, labels: Labels) {
    forall k :: k in selector ==> k in labels && labels[k] == selector[k]
  }

  /** Stamped from a pod template; further labels may be added (a template hash, say). */
  predicate StampedFrom(pod: Pod, d: DeploymentSpec) {
    Selects(d.podLabels, pod.labels) && pod.containers == d.containers
  }

  /** A pod of a server was stamped from its Deployment as it was at some moment, perhaps long ago;
      other pods do not carry the operator's managed-by label. */
  ghost predicate PodOk(fleet: Fleet, pod: Pod) {
    match pod.owner
    case None => !(LABEL_MANAGED_BY in pod.labels && pod.labels[LABEL_MANAGED_BY] == "mcp-gateway")
    case Some(n) => n in fleet && exists i :: StampedAt(fleet[n], i, pod)
  }

  ghost predicate StampedAt(m: Member, i: nat, pod: Pod) {
    i <= |m.actions| &&
    var d := Run(m.cfg, m.init, m.actions[..i]).deployment;
    d.Some? && StampedFrom(pod, d.value.spec)
  }

  /** The route of `n` sends the request to `b`. */
  ghost predicate RoutedBy(fleet: Fleet, n: string, gateway: ParentRef, verb: string, path: string, b: BackendRef) {
    && n in fleet
    && Now(fleet[n]).route.Some?
    && Sends(Now(fleet[n]).route.value.spec, gateway, verb, path, b)
  }

  /** The Service named by `b` forwards to `port` of the pod. */
  ghost predicate Forwards(fleet: Fleet, b: BackendRef, pod: Pod, port: int) {
    && b.name in fleet
    && Now(fleet[b.name]).service.Some?
    && var s := Now(fleet[b.name]).service.value.spec;
       Selects(s.selector, pod.labels)
       && exists p :: p in s.ports && p.port == b.port && p.targetPort == port
  }

  /** A request reaches a port of a pod. */
  ghost predicate Reaches(fleet: Fleet, gateway: ParentRef, verb: string, path: string, pod: Pod, port: int) {
    exists n, b :: RoutedBy(fleet, n, gateway, verb, path, b) && Forwards(fleet, b, pod, port)
  }

  // ---------------------------------------------- routes keep their server's shape

  /** The stored route was built for this server, from some version of its spec. */
  ghost predicate RouteShapeOk(cfg: Config, w: World) {
    w.route.Some? ==> exists spec :: w.route.value.spec == cfg.defaultRoute(DesiredRoute(cfg, spec))
  }

  lemma StepKeepsRouteShape(cfg: Config, w: World, a: Action)
    requires RouteShapeOk(cfg, w)
    ensures RouteShapeOk(cfg, Step(cfg, w, a))
  {
    if a.Op? {
      if w.task.Idle? || !WritesChildren(w.task.pc) {
        OnlySixCallsWriteChildren(cfg, w, a.reply);
      } else {
        WriteKeepsRouteShape(cfg, w, a.reply);
      }
    }
  }

  lemma WriteKeepsRouteShape(cfg: Config, w: World, reply: Reply)
    requires RouteShapeOk(cfg, w) && w.task.Busy? && WritesChildren(w.task.pc)
    ensures RouteShapeOk(cfg, Exec(cfg, w, reply))
  {
    var w' := Exec(cfg, w, reply);
    assert w'.route == w.route ||
      (w'.route.Some? && w'.route.value.spec == cfg.defaultRoute(DesiredRoute(cfg, w.task.mem.spec)));
  }

  lemma {:induction false} RouteShapeOfRun(cfg: Config, init: World, actions: seq<Action>)
    requires Init(init)
    ensures RouteShapeOk(cfg, Run(cfg, init, actions))
    decreases |actions|
  {
    if actions != [] {
      RouteShapeOfRun(cfg, init, actions[..|actions| - 1]);
      StepKeepsRouteShape(cfg, Run(cfg, init, actions[..|actions| - 1]), actions[|actions| - 1]);
    }
  }

  /** In any state of any run the route of `n` takes only requests for `n`, and its backend is `n`. */
  lemma RoutedByItsOwnPath(
      fleet: Fleet, n: string, gateway: ParentRef, verb: string, path: string, b: BackendRef)
    requires FleetOk(fleet) && RoutedBy(fleet, n, gateway, verb, path, b)
    ensures b.name == n && verb in {"POST", "GET"} && ServerElements(n) <= Split(path)
  {
    var m := fleet[n];
    RouteShapeOfRun(m.cfg, m.init, m.actions);
    var stored := Now(m).route.value.spec;
    var spec :| stored == m.cfg.defaultRoute(DesiredRoute(m.cfg, spec));
    assert stored == DesiredRoute(m.cfg, spec);
    RouteSendsExactly(n, spec, m.cfg.gatewayName, m.cfg.gatewayNamespace, gateway, verb, path, b);
  }

  /** However the specs change and wherever each controller is, a path matches the route of at most
      one server. */
  lemma AtMostOneServer(
      fleet: Fleet, n: string, n': string, gateway: ParentRef, gateway': ParentRef,
      verb: string, verb': string, path: string, b: BackendRef, b': BackendRef)
    requires FleetOk(fleet)
    requires RoutedBy(fleet, n, gateway, verb, path, b) && RoutedBy(fleet, n', gateway', verb', path, b')
    ensures n == n'
  {
    RoutedByItsOwnPath(fleet, n, gateway, verb, path, b);
    RoutedByItsOwnPath(fleet, n', gateway', verb', path, b');
    OneServerPerPath(n, n', path);
  }

  // --------------------------------------------------------- pods are told apart

  /** A Service selects exactly the pods of its server, whichever of its templates they are from. */
  lemma ServiceSelectsItsPods(fleet: Fleet, n: string, pod: Pod)
    requires FleetOk(fleet) && PodOk(fleet, pod)
    requires n in fleet && Now(fleet[n]).service.Some?
    ensures Selects(Now(fleet[n]).service.value.spec.selector, pod.labels) <==> pod.owner == Some(n)
  {
    var m := fleet[n];
    LabelsOfRun(m.cfg, m.init, m.actions);
    var selector := Now(m).service.value.spec.selector;
    assert selector == CommonLabels(n);
    if pod.owner.Some? {
      var o := fleet[pod.owner.value];
      var i: nat :| StampedAt(o, i, pod);
      LabelsOfRun(o.cfg, o.init, o.actions[..i]);
      assert Selects(CommonLabels(pod.owner.value), pod.labels);
      assert LABEL_INSTANCE in CommonLabels(pod.owner.value) && LABEL_INSTANCE in selector;
    } else {
      assert LABEL_MANAGED_BY in selector;
    }
  }

  /** Isolation, in every reachable state of every server: a request that reaches a pod reaches a pod
      of the server its path names. */
  lemma RoutingIsolation(
      fleet: Fleet, gateway: ParentRef, verb: string, path: string, pod: Pod, port: int)
    requires FleetOk(fleet) && PodOk(fleet, pod)
    requires Reaches(fleet, gateway, verb, path, pod, port)
    ensures pod.owner.Some? && pod.owner.value in fleet
    ensures ServerElements(pod.owner.value) <= Split(path) && verb in {"POST", "GET"}
  {
    var n, b :| RoutedBy(fleet, n, gateway, verb, path, b) && Forwards(fleet, b, pod, port);
    RoutedByItsOwnPath(fleet, n, gateway, verb, path, b);
    ServiceSelectsItsPods(fleet, n, pod);
  }

  // -------------------------------------------------------- requests do arrive

  /** Running, recorded at the current generation, exposed, and none of its children taken away. */
  ghost predicate Settled(m: Member) {
    var w := Now(m);
    && w.server.Some? && w.server.value.status.phase.Running?
    && w.server.value.status.observedGeneration == w.server.value.generation
    && m.cfg.gatewayName != "" && w.lost == {}
  }

  /** What the children of a settled server say, after any defaulting that keeps routing. */
  lemma SettledChildren(fleet: Fleet, n: string)
    requires FleetOk(fleet) && n in fleet && Settled(fleet[n])
    ensures
      var m := fleet[n];
      var w := Now(m);
      && w.route.Some? && w.route.value.spec == DesiredRoute(m.cfg, w.server.value.spec)
      && w.service.Some? && w.service.value.spec == ServiceFor(n, w.server.value.spec)
      && w.deployment.Some? && SamePorts(w.deployment.value.spec, DeploymentFor(n, w.server.value.spec))
  {
    var m := fleet[n];
    RunningMeansServed(m.cfg, m.init, m.actions);
  }

  /** A POST or GET for a settled server reaches each of its pods, on the port of its current spec. */
  lemma RequestsArrive(fleet: Fleet, n: string, verb: string, path: string, pod: Pod)
    requires FleetOk(fleet) && PodOk(fleet, pod) && n in fleet && Settled(fleet[n])
    requires verb in {"POST", "GET"} && ServerElements(n) <= Split(path)
    requires pod.owner == Some(n)
    ensures
      var cfg, spec := fleet[n].cfg, Now(fleet[n]).server.value.spec;
      Reaches(fleet, ParentRef(cfg.gatewayName, cfg.gatewayNamespace), verb, path, pod, spec.source.port)
  {
    var cfg, w := fleet[n].cfg, Now(fleet[n]);
    var gateway := ParentRef(cfg.gatewayName, cfg.gatewayNamespace);
    var spec := w.server.value.spec;
    SettledChildren(fleet, n);
    ServiceSelectsItsPods(fleet, n, pod);
    var b := BackendRef(n, spec.source.port);
    RouteSendsExactly(n, spec, cfg.gatewayName, cfg.gatewayNamespace, gateway, verb, path, b);
    assert RoutedBy(fleet, n, gateway, verb, path, b);
    assert w.service.value.spec.ports[0] in w.service.value.spec.ports;
    assert Forwards(fleet, b, pod, spec.source.port);
  }

  /** The Service of a settled server forwards its pods' one port, and only from that port. */
  lemma ForwardsOnlyItsPort(fleet: Fleet, n: string, b: BackendRef, pod: Pod, port: int)
    requires FleetOk(fleet) && n in fleet && Settled(fleet[n])
    requires Forwards(fleet, b, pod, port) && b.name == n
    ensures port == b.port == Now(fleet[n]).server.value.spec.source.port
  {
    SettledChildren(fleet, n);
  }

  /** A request for a settled server reaches nothing but its pods on the port of its current spec. */
  lemma RequestsStay(
      fleet: Fleet, n: string, gateway: ParentRef, verb: string, path: string, pod: Pod, port: int)
    requires FleetOk(fleet) && PodOk(fleet, pod) && n in fleet && Settled(fleet[n])
    requires ServerElements(n) <= Split(path)
    requires Reaches(fleet, gateway, verb, path, pod, port)
    ensures pod.owner == Some(n) && port == Now(fleet[n]).server.value.spec.source.port
  {
    var n', b :| RoutedBy(fleet, n', gateway, verb, path, b) && Forwards(fleet, b, pod, port);
    RoutedByItsOwnPath(fleet, n', gateway, verb, path, b);
    OneServerPerPath(n, n', path);
    ForwardsOnlyItsPort(fleet, n, b, pod, port);
    ServiceSelectsItsPods(fleet, n, pod);
  }

  /** End to end: a POST or GET for a settled server reaches every pod of that server and no other
      pod, always on the port of its current spec. */
  lemma RequestsReachExactlyTheServer(
      fleet: Fleet, n: string, verb: string, path: string, pod: Pod, port: int)
    requires FleetOk(fleet) && PodOk(fleet, pod) && n in fleet && Settled(fleet[n])
    requires verb in {"POST", "GET"} && ServerElements(n) <= Split(path)
    ensures
      var cfg := fleet[n].cfg;
      Reaches(fleet, ParentRef(cfg.gatewayName, cfg.gatewayNamespace), verb, path, pod, port) <==>
        pod.owner == Some(n) && port == Now(fleet[n]).server.value.spec.source.port
  {
    var cfg := fleet[n].cfg;
    var gateway := ParentRef(cfg.gatewayName, cfg.gatewayNamespace);
    if Reaches(fleet, gateway, verb, path, pod, port) {
      RequestsStay(fleet, n, gateway, verb, path, pod, port);
    }
    if pod.owner == Some(n) {
      RequestsArrive(fleet, n, verb, path, pod);
    }
  }

  /** Pods stamped from the Deployment of a settled server declare the port requests arrive on. */
  lemma PortIsDeclared(fleet: Fleet, n: string, pod: Pod)
    requires FleetOk(fleet) && n in fleet && Settled(fleet[n])
    requires Now(fleet[n]).deployment.Some? ==> StampedFrom(pod, Now(fleet[n]).deployment.value.spec)
    ensures |pod.containers| >= 1 && pod.containers[0].name == "mcp-server"
    ensures ContainerPort("mcp", Now(fleet[n]).server.value.spec.source.port) in pod.containers[0].ports
  {
    SettledChildren(fleet, n);
    var w := Now(fleet[n]);
    var d := DeploymentFor(n, w.server.value.spec);
    assert pod.containers[0].ports == d.containers[0].ports;
  }
}
