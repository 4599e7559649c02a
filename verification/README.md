# Verified model of the MCP gateway control plane

The gateway's operator turns custom resources into running servers, access policies and
identities. This project models that logic in Dafny and proves what can be relied on.

| file | component |
|---|---|
| `McpTypes`, `ChildObjects` | the resources, and the Deployment, Service and HTTPRoute made from an MCPServer |
| `ServerLifecycle`, `LifecycleInvariant`, `LifecycleTheorems`, `LifecycleMeaning`, `LifecycleConvergence` | the MCPServer controller as a transition system: its invariant, what holds of every run, what the stored objects say, and convergence |
| `ServerReconciler` | the controller's code in the order it runs, proved to be a run of that system |
| `AgentLifecycle`, `AgentInvariant`, `AgentTheorems`, `AgentConvergence`, `AgentReconciler` | agent registration across Kubernetes and Keycloak, built the same way |
| `CelLiteral`, `CelCondition`, `PolicyCompiler`, `DefaultPolicies` | the compiler from MCPPolicy to Cerbos, with an evaluator for either side |
| `HeapSpecs`, `Catalog`, `PodEnvironment`, `Deploy` | marketplace: deep copies, the catalog, and installing an entry |
| `InstalledServers` | from a marketplace install to the Deployment of the running server |
| `Routing` | path to HTTPRoute to Service to pod, for many servers at once |

## How the controllers are modelled

A state (`World`) is what the API server holds, what else the controller depends on, and the
reconcile in progress: its program point and its in-memory copy. One operator step is one API call
and the computation up to the next one. Between any two operator steps users may create, edit,
touch and delete the object, Deployments may report any status, children and referenced secrets may
come and go, and the operator may crash, which drops the copy. Every call may fail, and a failing
write may have landed all the same. Writes with a stale resourceVersion are rejected. What the API
server makes of a stored child spec is an arbitrary idempotent function, so "stored" and "wanted"
need not be equal.

The classes in `ServerReconciler` and `AgentReconciler` run the source's statements on real fields.
Their invariant `Valid()` says that the world is the result of a run of the transition system, so a
statement that is skipped, swapped or takes another branch breaks a proof, and every theorem about
runs holds at every moment of the code (`ReconcileRepeatedly`).

Assumptions:

- reads are current, and one reconcile per object name is in progress at a time;
- a call that takes effect does so before the operator's next step;
- only the operator writes child specs and labels and the object's status; others may delete
  children and report Deployment statuses, and do not remove the operator's finalizer;
- deleting a child is remembered (`lost`) until the operator creates it again;
- nobody else creates, deletes or rotates the Keycloak client of the agent, or edits its credentials
  Secret in place; the agent's client ID does not change;
- Cerbos is asked with the roles of the token plus, for a registered agent, the role the compiler
  gives that agent; nothing in the repository builds that request;
- in `Routing`, defaulting leaves the fields that routing reads alone, and pods that no MCPServer owns
  do not carry the operator's managed-by label.

## Where the code does not do what one might expect

- Running with the current generation recorded does not promise that the children still exist.
  `RunningMeansServed` says which are missing: exactly those that others deleted and the operator has
  not created since. `RunningWithoutAService` is such a run, and `ChildrenReturnOnlyInARollout` says
  that only a rollout creates them again.
- Credentials are checked for existence only. They are usable exactly while Keycloak has the client
  (`RegistrationIsCrashSafe`), and that is certain while the agent object they were written for is not
  deleted (`OwnCredentialsAreUsable`). An agent that is deleted and created again before its old
  Secret is collected becomes Active on credentials Keycloak does not know
  (`StaleCredentialsAfterRecreation` is such a run).
- One failed call in a rollout, however short-lived its cause, parks a valid server in Failed until
  someone edits it (`OneFaultParks`, and `StuckAfterOneFault` is such a run). It is the only obstacle:
  undisturbed and with a Deployment that rolls out, a valid server reaches Running exactly when it is
  not parked like that (`ReachesRunningUnlessStuck`).
- `docs/user-guide.md:214-215` says the first matching rule wins. Cerbos lets a DENY override, and
  compiled rules may stray as described next. `DocumentedReadingExactly` says, for any policy and
  request, when the two agree; `FirstMatchIsOverridden` shows a request for which they do not.
- All rules of a policy are scoped to the first server any rule names, and replacing '/' by ':' and
  prefixing agents with "agent:" can make two names one. `MeaningIsKeptExactly` says, for any policy
  and request, when this changes the decision; `ColonsMergeActions`, `AgentRolesMergeNames` and
  `MixedServersShareTheFirst` are policies for which it does.
- The allowed and denied tools of a default policy are compiled to actions. Unless "*" or the call
  action is listed, a non-empty allowed list permits no tool call at all (`ToolNamesAreActions`).

## Model

| member | source | states |
|---|---|---|
| LifecycleTheorems.RunningMeansServed | internal/controller/mcpserver_controller.go:165-336 | In every state of every run, Running with the current generation recorded means that Deployment, Service and (with a gateway) HTTPRoute, as far as they are there, are what the API server makes of the objects wanted for the current spec; each is missing if and only if others deleted it and the operator has not created it since |
| LifecycleMeaning.RunningDeploymentMeetsSpec | internal/controller/mcpserver_controller.go:397-506 | Field by field, the stored Deployment of a server Running at its current generation has the current spec's replicas (1 if none are asked for), image, environment, ports, probes if and only if a health check is given, resource limits and at least its requests, pod annotations, and the bridge container if and only if the transport is stdio, under defaulting that adds at most resource requests |
| LifecycleTheorems.ChildrenReturnOnlyInARollout | internal/controller/mcpserver_controller.go:165-336 | A missing child is created only by a reconcile that read the object in phase Deploying or Updating |
| LifecycleConvergence.RunningWithoutAService | internal/controller/mcpserver_controller.go:240-285 | For every configuration a run that ends Running and current without a Service, and stays so through any number of undisturbed reconciles |
| LifecycleInvariant.RunKeepsInv | internal/controller/mcpserver_controller.go:78-348 | The protocol invariant, which relates stored object, in-memory copy, program point and children, holds after any interleaving of operator calls, faults, crashes and foreign actions |
| LifecycleInvariant.EnvKeepsServing | internal/controller/mcpserver_controller.go:370-395 | No foreign action turns a child that serves a spec into one that does not, other than by deleting it |
| LifecycleTheorems.StatusIsCoupled | internal/controller/mcpserver_controller.go:194-279 | Running: a Ready condition exists and is True exactly when readyReplicas >= replicas. Running or Updating: Deployed is True and both child names are the server's. Each condition type occurs once |
| LifecycleMeaning.RunningCountersWereReported | internal/controller/mcpserver_controller.go:207-229 | In every state of every run, replicas and readyReplicas of a Running server are what its Deployment reported at one and the same moment, and Ready is True if and only if that Deployment had readyReplicas >= replicas |
| LifecycleTheorems.PhaseHistory | internal/controller/mcpserver_controller.go:104-119 | Each step of each run stays in a phase or follows a coded edge, a new object starts with an empty status, Scaling and Terminating are never reached, observedGeneration grows and stays within the generation |
| LifecycleTheorems.FailedIsLeftOnlyAfterAnEdit | internal/controller/mcpserver_controller.go:339-348 | A run leaves Failed only to Pending, and only after a user edited the spec since Failed was recorded |
| LifecycleTheorems.GrowthNeedsEdit | internal/controller/mcpserver_controller.go:339-348 | While an object stays Failed its generation grows only by an edit or its deletion |
| LifecycleTheorems.SelectorsNeverChange | internal/controller/mcpserver_controller.go:386-392 | Between any two moments of a run the Deployment's selector is the same and equals pod labels and Service selector, and children keep the computed labels |
| LifecycleTheorems.LabelsOfRun | internal/controller/mcpserver_controller.go:655-661 | In every state the labels and selectors of all children are the common labels of the server |
| LifecycleMeaning.LabelsWrittenOut | internal/controller/mcpserver_controller.go:655-661 | The labels and selectors of all children in every state, written out |
| LifecycleMeaning.ServicesCarryAnnotations | internal/controller/mcpserver_controller.go:553-596 | A Service the operator creates or rewrites carries the annotations, the port and the selector of one spec the object had during the run |
| LifecycleMeaning.CopyWasStored | internal/controller/mcpserver_controller.go:78-120 | A reconcile in progress works on a spec the object had at some moment |
| LifecycleTheorems.LiveObjectsAreRequeued | internal/controller/mcpserver_controller.go:78-120 | A Reconcile that ends for good read an absent object or one marked for deletion; every other requeues or errs |
| LifecycleConvergence.RoundsDescend | internal/controller/mcpserver_controller.go:78-348 | With a valid spec, succeeding calls and a rolled-out Deployment, one whole reconcile lowers the rank of finalizer, phase and drift, from every state but Failed without an edit |
| LifecycleConvergence.Converges | internal/controller/mcpserver_controller.go:78-348 | Within rank-many reconciles the server is Running with its generation recorded and a Deployment |
| LifecycleConvergence.ReachesRunningUnlessStuck | internal/controller/mcpserver_controller.go:339-348 | Running is reached if and only if the server is not Failed without an edit |
| LifecycleConvergence.OneFaultParks | internal/controller/mcpserver_controller.go:165-176 | Any valid server in a rollout is Failed without an edit after a reconcile whose first call after reading the object fails |
| LifecycleConvergence.StuckAfterOneFault | internal/controller/mcpserver_controller.go:339-348 | For every configuration a run from an empty cluster in which one call fails and nothing else goes wrong, after which a valid server stays Failed through any number of undisturbed reconciles |
| LifecycleConvergence.RunningNeedsAReadyReplica | internal/controller/mcpserver_controller.go:213-229 | No run is Running before the Deployment has reported a ready replica |
| LifecycleConvergence.RunningIsAFixedPoint | internal/controller/mcpserver_controller.go:240-285 | After one more reconcile of a Running server nothing changes any more, not even a resourceVersion |
| LifecycleConvergence.CallsRunOut | internal/controller/mcpserver_controller.go:78-336 | Every reconcile ends, whatever its calls return: the calls still to come decrease |
| LifecycleConvergence.RoundIsRun | internal/controller/mcpserver_controller.go:78-120 | The rounds convergence speaks of are runs of the same transition system |
| McpTypes.SetCondition | internal/controller/mcpserver_controller.go:194-200 | After an upsert every condition type is looked up as before, except the one written |
| McpTypes.SetConditionKeepsUnique | internal/controller/mcpserver_controller.go:194-200 | An upsert keeps condition types unique |
| ServerReconciler.MCPServerReconciler.Reconcile | internal/controller/mcpserver_controller.go:78-120 | One Reconcile, under any interference and faults, is a run of the transition system that ends with no call pending and returns the recorded result |
| ServerReconciler.MCPServerReconciler.ReconcileDelete | internal/controller/mcpserver_controller.go:352-364 | Done: the object is gone if it still had the finalizer; otherwise an error is returned |
| ServerReconciler.MCPServerReconciler.MoveTo | internal/controller/mcpserver_controller.go:618-637 | The copy gets the phase and its own generation; unless an error is returned that status is stored and the requeue is after 5 seconds for Deploying, 30 for Running, 60 for Failed, at once otherwise |
| ServerReconciler.MCPServerReconciler.ReconcilePending | internal/controller/mcpserver_controller.go:123-162 | Without an image: Failed. Otherwise Deploying after each Secret was there at some moment of the call, or Failed because one was not, each with the coded condition, or an error and an unchanged copy |
| ServerReconciler.MCPServerReconciler.ReconcileDeployment | internal/controller/mcpserver_controller.go:370-395 | On success the stored Deployment serves the spec of the copy (or was deleted since); on failure nothing else was called |
| ServerReconciler.MCPServerReconciler.ReconcileService | internal/controller/mcpserver_controller.go:553-580 | On success Deployment and Service serve the spec of the copy |
| ServerReconciler.MCPServerReconciler.ReconcileHTTPRoute | internal/controller/mcpserver_controller.go:518-547 | On success all three children serve the spec of the copy; failure means that a call about the route failed; without a gateway nothing is called and nothing happens |
| ServerReconciler.MCPServerReconciler.ReconcileDeploying | internal/controller/mcpserver_controller.go:165-188 | Failed with the condition of the child that failed, or Deployed and then what AwaitReadiness says; ending Running means that all children serve the spec |
| ServerReconciler.MCPServerReconciler.AwaitReadiness | internal/controller/mcpserver_controller.go:190-237 | The copy has the replicas and ready replicas the Deployment reported at a moment of the call, and both child names. If these replicas were equal and not zero it is Running and Ready, or Failed because a call about the route failed; otherwise its phase is unchanged |
| ServerReconciler.MCPServerReconciler.ReconcileRunning | internal/controller/mcpserver_controller.go:240-285 | Drift: Updating. Otherwise Deploying if the Deployment was missing at a moment of the call; or the copy has the replicas and ready replicas that it reported at a moment of the call, and Ready True if and only if enough of these were ready; or an error and an unchanged copy |
| ServerReconciler.MCPServerReconciler.ReconcileUpdating | internal/controller/mcpserver_controller.go:289-300 | Failed with unchanged conditions, or what AwaitRollout says; ending Running means that all children serve the spec |
| ServerReconciler.MCPServerReconciler.AwaitRollout | internal/controller/mcpserver_controller.go:302-336 | As AwaitReadiness, but Running also needs as many updated replicas |
| ServerReconciler.MCPServerReconciler.ReconcileFailed | internal/controller/mcpserver_controller.go:339-348 | Pending exactly on drift; otherwise the copy is unchanged and looked at again later |
| ServerReconciler.MCPServerReconciler.ReconcileRepeatedly | internal/controller/mcpserver_controller.go:78-120 | However often the code reconciles, at every moment in between Running means served |
| ChildObjects.BuildDeployment | internal/controller/mcpserver_controller.go:397-506 | Field by field: minReplicas if given, else 1; labels and selector; in every container the image, the resources and the variables from Secrets before those of the spec; in the first one the port, and both probes with path and period if and only if a health check is given; a bridge container if and only if the transport is stdio; the pod annotations |
| ChildObjects.BuildService | internal/controller/mcpserver_controller.go:582-611 | One port, the source port on both sides; labels and selector written out; the annotations of the spec |
| AgentTheorems.RegistrationIsCrashSafe | internal/controller/mcpagent_controller.go:114-204 | In every state of every run, any credentials Secret the operator wrote, for whichever agent object, names the agent's client and holds exactly the secret Keycloak has for it, whichever of the 201, 409 and retry paths led there; it is usable if and only if Keycloak has the client |
| AgentTheorems.OwnCredentialsAreUsable | internal/controller/mcpagent_controller.go:114-204 | While the agent object a Secret was written for is there and not being deleted, Keycloak has the client with that secret |
| AgentTheorems.CredentialsWrittenOut | internal/controller/mcpagent_controller.go:84-88 | In every state of every run: client ID, token URL and the name of the Secret the agent refers to, written out from the agent's spec, its name and the realm |
| AgentTheorems.OnlyTheClientIsTouched | internal/controller/mcpagent_controller.go:58-243 | No step of the operator in any run creates, changes or removes a client other than the one the spec names, or else the one named after the agent |
| AgentTheorems.TakesTheClient | internal/keycloak/client.go:168-212 | That client exists after the step that creates it or takes it over |
| AgentTheorems.CleanupRemovesTheClient | internal/keycloak/client.go:251-281 | That client is gone after the call that deletes it, in any run |
| AgentTheorems.ActiveOnlyWithSecret | internal/controller/mcpagent_controller.go:114-204 | If the stored agent is Active, there was a moment of the run at which this same agent object and a credentials Secret were both there |
| AgentConvergence.RegistersWithinTwelveCalls | internal/controller/mcpagent_controller.go:58-208 | From any moment of any run at which the agent is live, Keycloak configured and no reconcile in progress: if nobody else acts and calls succeed, Active is recorded within twelve calls, and the credentials are usable if and only if none, or usable ones, were there before |
| AgentConvergence.CallsDescend | internal/controller/mcpagent_controller.go:58-208 | Each successful call lowers the number of calls left, or records Active |
| AgentConvergence.SuccessIsPossible | internal/keycloak/client.go:168-246 | In every reachable state some truthful answer makes the next call succeed |
| AgentTheorems.NoOrphanedClient | internal/controller/mcpagent_controller.go:212-243 | From the step on at which Keycloak created the client for the operator or handed it over: while the client exists the agent is there with the finalizer, unless after that step a reconcile dropped the finalizer although the cleanup of that very reconcile was skipped for want of configuration or had a call fail |
| AgentTheorems.OnlyLapsesLeaveTheClient | internal/controller/mcpagent_controller.go:212-243 | The one-step form: a cleanup goes on to drop the finalizer while the client exists only by such a lapse |
| AgentTheorems.NewClientsWereTaken | internal/controller/mcpagent_controller.go:126-160 | A client that did not exist at first was created by a step of the operator |
| AgentTheorems.FinalizerComesFirst | internal/controller/mcpagent_controller.go:70-82 | A step that creates or takes over the client happens only while the stored agent carries the finalizer |
| AgentInvariant.RunKeepsInv | internal/controller/mcpagent_controller.go:58-243 | The invariant over both systems holds after any interleaving, with lost answers, restarts and foreign clients |
| AgentInvariant.SearchIsExact | internal/keycloak/client.go:289-326 | Scanning a search result finds the id of the client if and only if the client exists |
| AgentTheorems.StaleCredentialsAfterRecreation | internal/controller/mcpagent_controller.go:114-124 | A run in which a re-created agent becomes Active on credentials without a client |
| AgentReconciler.ScanForClient | internal/keycloak/client.go:318-326 | The scan returns the id of the first exact match, or nothing |
| AgentReconciler.MCPAgentReconciler.FindClientUUID | internal/keycloak/client.go:289-326 | The id returned is the client's, and empty exactly when there is no such client |
| AgentReconciler.MCPAgentReconciler.GetClientSecret | internal/keycloak/client.go:216-246 | On success the agent's client exists and has the returned secret |
| AgentReconciler.MCPAgentReconciler.CreateClient | internal/keycloak/client.go:168-212 | After 201 or 409 alike, on success the client exists and has the returned secret |
| AgentReconciler.MCPAgentReconciler.DeleteClient | internal/keycloak/client.go:251-281 | On success the client does not exist, whether it did before or not |
| AgentReconciler.MCPAgentReconciler.Reconcile | internal/controller/mcpagent_controller.go:58-118 | One Reconcile is a run of the registration protocol that ends with no call pending; after it a Secret the operator wrote is for the client the spec names, or the one named after the agent, and for the realm's token endpoint |
| AgentReconciler.MCPAgentReconciler.Register | internal/controller/mcpagent_controller.go:105-208 | Done: Active and the Secret's name are stored, and (in a run from a start without the agent) the Secret was there together with it. Otherwise an error, and the copy is unchanged, Failed or Active but unstored |
| AgentReconciler.MCPAgentReconciler.ReconcileAgentDelete | internal/controller/mcpagent_controller.go:212-243 | The copy loses the finalizer whether or not the cleanup worked; Done means that the agent is gone if it had one, otherwise an error is returned |
| AgentReconciler.MCPAgentReconciler.ReconcileRepeatedly | internal/controller/mcpagent_controller.go:58-208 | However often the code reconciles, at every moment in between credentials agree with Keycloak and no client that was taken is orphaned other than by such a lapse |
| CelLiteral.QuoteReadsBack | internal/cerbos/translate.go:177-191 | For every text and every notion of printable character without control characters, CEL reads the literal that %q prints as that text |
| CelLiteral.RuneReadsBack | internal/cerbos/translate.go:177-191 | CEL reads one printed character back, whatever follows it |
| CelLiteral.EscapesWrittenOut | internal/cerbos/translate.go:177-191 | The one-letter escapes as printed and as CEL reads them |
| CelCondition.EqualityIsRead | internal/cerbos/translate.go:177-184 | CEL evaluates path, ==, literal as equality of that attribute with the text of the literal |
| PolicyCompiler.ConditionIsExact | internal/cerbos/translate.go:177-191 | The printed expressions, read by an evaluator that knows paths, == and != and literals, hold for exactly the listed tools |
| PolicyCompiler.TranslationFailsExactly | internal/cerbos/translate.go:80-145 | Translation fails exactly without rules or with an unknown effect, and names the first such rule |
| PolicyCompiler.MeaningIsKeptExactly | internal/cerbos/translate.go:80-173 | For every translatable policy and every request: Cerbos decides as the rules do if and only if the rules are faithful to the request, a condition on the source rules alone that says which rules stray to another server or confuse names |
| PolicyCompiler.CompiledMeaning | internal/cerbos/translate.go:80-173 | For every translatable policy and every request: allowed if and only if the request is for the first server named, some ALLOW matches or strays, and no DENY does |
| PolicyCompiler.CompilationPreservesMeaning | internal/cerbos/translate.go:80-173 | Decisions agree for rules about one resource that confuse no names of the request |
| PolicyCompiler.CleanPoliciesKeepTheirMeaning | internal/cerbos/translate.go:80-173 | In particular for ':'-free actions and roles that do not start like agent roles |
| PolicyCompiler.RuleCompiled | internal/cerbos/translate.go:103-114 | A compiled rule matches exactly what the source rule matches and what it confuses; it never matches less |
| PolicyCompiler.MixedPolicyMeaning | internal/cerbos/translate.go:166-173 | Unless names are confused, a policy about several servers means its rules all scoped to the first server named |
| PolicyCompiler.MixedServersShareTheFirst | internal/cerbos/translate.go:166-173 | Two rules for two servers for which compilation changes a decision |
| PolicyCompiler.ColonsMergeActions | internal/cerbos/translate.go:94-98 | An action with ':' for which compilation changes a decision |
| PolicyCompiler.AgentRolesMergeNames | internal/cerbos/translate.go:150-162 | A token role spelled like an agent's for which compilation changes a decision |
| PolicyCompiler.OrderIsIrrelevant | internal/cerbos/translate.go:87-115 | Permuting the rules of a Cerbos policy changes no decision |
| PolicyCompiler.PermutedPoliciesAgree | internal/cerbos/translate.go:80-128 | Permuting MCPPolicy rules before translation changes no decision as long as the first server named stays the same |
| PolicyCompiler.PermutingKeepsTheServer | internal/cerbos/translate.go:166-173 | It always does for rules about one resource |
| PolicyCompiler.DocumentedReadingExactly | docs/user-guide.md:214-215 | For every translatable policy and every request: Cerbos decides as first-match, deny-by-default if and only if the rules are read as documented, a condition on the source rules alone: where the documentation permits, the server is the policy's and no DENY matches later or strays; where it refuses, no ALLOW strays to the request unstopped by a DENY |
| PolicyCompiler.DocumentedReadingOfCleanPolicies | docs/user-guide.md:214-215 | For rules about one resource that confuse no names, the two agree if and only if the first matching rule is not an ALLOW followed by a matching DENY |
| PolicyCompiler.CompiledOrderExactly | docs/user-guide.md:214-215 | On the compiled rules of any policy, Cerbos agrees with first-match if and only if the first match is not an ALLOW followed by a matching DENY |
| PolicyCompiler.FirstMatchIsOverridden | docs/user-guide.md:214-215 | A policy and request with an ALLOW before a matching DENY, allowed as documented and denied by Cerbos |
| PolicyCompiler.TranslatePolicy | internal/cerbos/translate.go:80-128 | Succeeds exactly with rules whose effects are all ALLOW or DENY; written out: version, resource of the first server named or mcp:tool, and for each rule effect, actions with '/' replaced, roles, and a condition if and only if tools are listed that holds for exactly these |
| PolicyCompiler.MapPrincipalsLoop | internal/cerbos/translate.go:150-162 | Roles if given, otherwise a role per agent, otherwise everyone |
| PolicyCompiler.FindResourceKind | internal/cerbos/translate.go:166-173 | The kind of the first rule with a serverRef |
| PolicyCompiler.BuildToolCondition | internal/cerbos/translate.go:177-191 | One comparison per tool, which CEL, reading attribute, operator and literal for itself, finds true of exactly the listed tools |
| DefaultPolicies.BuildPolicyRules | internal/marketplace/deploy.go:145-186 | Computes the rules of a default policy |
| DefaultPolicies.DefaultPolicyMeaning | internal/marketplace/deploy.go:145-186 | For every default policy, translation succeeds, targets the server, and Cerbos allows an action to anyone if and only if no denied name covers it and an allowed name does, or both lists are empty |
| DefaultPolicies.ToolNamesAreActions | internal/marketplace/deploy.go:148-168 | With allowed tools that name neither the wildcard nor the call action, nobody may call any tool |
| HeapSpecs.DeepCopy | api/v1alpha1/zz_generated.deepcopy.go:683-733 | Field by field, down to what pointers point to, the copy equals the source; nil stays nil; it reaches only new objects |
| HeapSpecs.CopyScaling | api/v1alpha1/zz_generated.deepcopy.go:622-634 | Copies the struct and both of its pointers |
| HeapSpecs.CopyEnv | api/v1alpha1/zz_generated.deepcopy.go:683-723 | Copies the slice and the pointer in each element |
| HeapSpecs.Append | internal/marketplace/deploy.go:103-109 | Go's append: in place when there is room, otherwise to a new array |
| Deploy.WireSecrets | internal/marketplace/deploy.go:100-112 | Appends one reference per provided key, in any map order, and writes no array that existed before |
| Deploy.PrepareSpec | internal/marketplace/deploy.go:86-112 | The new spec is the template's value with the references appended; nothing that existed is written |
| Deploy.DeployService.DeployFromCatalog | internal/marketplace/deploy.go:42-142 | Unknown entry or missing secret: an error and no change. Success or failure, only the Secret, the server and the policy of that name and namespace may differ afterwards, no Secret without values, no policy without a default policy. Success: all values were provided, these objects hold what entry and values say, and the name is the one requested. Writes happen in order up to the first that fails |
| Deploy.InstallTouches | internal/marketplace/deploy.go:56-139 | The footprint of an install, whatever its outcome |
| Deploy.InstallWrittenOut | internal/marketplace/deploy.go:56-139 | What a successful install stores: labels, the template with one reference per provided key, values merged into the Secret, the policy |
| Deploy.DeployService.Find | internal/marketplace/deploy.go:43-54 | Which of the two errors is returned, and that the entry's own name is the requested one |
| Deploy.DeployService.DeployMany | internal/marketplace/deploy.go:97-112 | After any sequence of installs every catalog entry has the value it had |
| Deploy.SecretsReachTheContainer | internal/marketplace/deploy.go:56-117 | After a successful install the main container's environment maps every provided key the template does not define to a reference that the created Secret resolves to the provided value |
| InstalledServers.SecretsReachTheDeployment | internal/controller/mcpserver_controller.go:397-419 | After a successful install and any run of the controller that ends Running as installed, the first container of the stored Deployment, unless others deleted that, resolves every such key to the provided value |
| Deploy.InstalledPolicyMeaning | internal/marketplace/deploy.go:119-139 | After a successful install the stored policy decides as the default policy says |
| PodEnvironment.WiredEnvironment | internal/controller/mcpserver_controller.go:405-419 | What each variable of the main container resolves to: the template's own definition, else the wired key, else a secret reference of the template |
| PodEnvironment.WiringOrderIsInvisible | internal/marketplace/deploy.go:103-109 | The resolved environment is the same for every iteration order of the secrets |
| Catalog.CatalogStore.List | internal/marketplace/store.go:58-69 | Each entry once, and exactly those of the category, or all without one, for every map order |
| Catalog.CatalogStore.Search | internal/marketplace/store.go:73-85 | Each entry once, and exactly those of which display name, description or a tag contains the query in lower case, for every map order |
| Catalog.CatalogStore.MatchesQuery | internal/marketplace/store.go:103-116 | True exactly when display name, description or some tag contains the query |
| Catalog.CatalogStore.Add | internal/marketplace/store.go:41-45 | Stores the entry under its own name |
| Catalog.CatalogStore.Get | internal/marketplace/store.go:49-54 | The entry of that name, if any |
| Catalog.CatalogStore.Delete | internal/marketplace/store.go:88-92 | Removes that name only |
| Catalog.ListsPartitionTheCatalog | internal/marketplace/store.go:58-99 | Lists over the distinct categories and the uncategorised entries add up to the count |
| Catalog.LongerQueriesFindLess | internal/marketplace/store.go:73-116 | Searching for a lower-cased superstring finds a subset |
| Routing.RouteSendsExactly | internal/envoy/route.go:34-98 | A server's route takes exactly the POST and GET requests whose path starts with the elements of its prefix, to one backend |
| Routing.ElementsOfPathPrefix | internal/envoy/route.go:35 | The path prefix of a '/'-free name has three elements, with the name in the middle |
| Routing.SlashesOverlap | internal/envoy/route.go:35 | With a slash in a name one path matches the routes of two servers |
| Routing.AtMostOneServer | internal/envoy/route.go:34-98 | Wherever the controllers of many servers are in their runs, a request matches the route of at most one |
| Routing.ServiceSelectsItsPods | internal/controller/mcpserver_controller.go:582-611 | A Service selects a pod if and only if the pod belongs to its server, even if stamped from an older template |
| Routing.RoutingIsolation | internal/controller/mcpserver_controller.go:397-506 | In every reachable state of every server, a request that reaches a pod reaches one of the server its path names |
| Routing.RequestsReachExactlyTheServer | internal/controller/mcpserver_controller.go:582-611 | For a settled server, a request for it reaches a port of a pod if and only if the pod is the server's and the port is that of its current spec |
| Routing.PortIsDeclared | internal/controller/mcpserver_controller.go:420-433 | Pods of the current template declare that port in their main container |

## Left out

- Condition messages, transition times and events; requeue intervals are kept as results, not as time.
- Stale informer caches, leader election and concurrent reconciles of one name.
- Writes that take effect after the operator has gone on to another call.
- Owner references and garbage collection of children, beyond a child disappearing at any time.
- Finalizers of other controllers, and namespaces in the lifecycle (names are unique where they live).
- nil and empty slices and maps are one value in specs that went through the API server; `HeapSpecs` tells them apart.
- Container fields that do not depend on the spec, and protocol and port-name fields of child objects beyond those modelled.
- HTTP, JSON, tokens, URL building and protocol mappers in the Keycloak client: only outcomes and the effect on the client table are kept.
- CEL beyond comparisons of one attribute with a string literal.
- Policy rules in YAML form, the MCPPolicy reconciler and its status, and the Cerbos engine itself beyond default deny, DENY over ALLOW and "*" as the only wildcard.
- Tool names that are not valid Unicode.
- Locking in the catalog store; lower-casing is an arbitrary function.
- PolicyCompiler.MeaningIsKeptExactly: takes a rule without a serverRef to be about the generic tool resource, because the sources give no other meaning to it.
- PolicyCompiler.MeaningIsKeptExactly: reads a rule with both roles and agentRefs as one for the roles only, as the compiler does; `docs/user-guide.md:219-220` gives neither precedence, so for such rules the reading itself follows the code.
- InstalledServers.SecretsReachTheDeployment: assumes that defaulting leaves container environments alone, and that nobody edits the installed spec or Secret.
- Routing.RequestsReachExactlyTheServer: does not say that pods already run the current spec, because the controller does not check the Deployment's own observed generation.
- LifecycleConvergence.Converges: needs a Deployment that reports at least one replica, because without one the code never records Running (LifecycleConvergence.RunningNeedsAReadyReplica).
- The discovery client, audit log, observability, API handlers, UI, scripts, charts and both main programs.
