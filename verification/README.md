# The tunnel operator, modelled and proved in Dafny

The operator keeps a remote platform (tunnels, tokens, routes), a token Secret and an agent Deployment in line
with `Tunnel` and `TunnelRoute` objects. Each reconcile is a sequence of calls any of which can fail, lose its
answer, or be the last one before a crash, while users edit and delete objects in between. The whole of its
correctness is in what is persisted before which remote call. This project models that protocol and proves what
every interleaving of it keeps.

`dafny verify dfyconfig.toml` verifies everything.

## How the model is organised

| file | what it holds |
|---|---|
| `Base`, `Strings`, `Errors` | conditions and exits; splitting a string at a separator; the error chain and its classification |
| `Platform` | the platform's contract as a transition function: adopt on an equal external id, rotate, cascade on delete |
| `TunnelMachine` | the tunnel reconciler as a machine of micro-steps, with everything the environment may do in between |
| `TunnelSafety`, `TunnelInvariants` | the inductive invariant of that machine, step by step |
| `TunnelTheorems`, `TunnelConvergence`, `TunnelVerdicts`, `TunnelTokens` | what it means for whole runs, for uninterrupted reconciles, for what the status tells of the platform's answers, and for stale tokens and ids |
| `TunnelReconciler` | the tunnel reconciler in its own imperative form, proved to be an execution of the machine |
| `RouteSpec`, `Upstream` | what a route object asks for, the difference to a platform route, `ensureRoute`, upstream resolution |
| `RouteMachine` | the route reconciler as micro-steps: any number of route objects composed with the tunnel machine |
| `RouteSafety`, `TunnelEffects`, `RouteSystem`, `RouteSteps`, `RouteRuns` | the inductive invariant of both machines together |
| `RouteTheorems`, `RouteFixed`, `RouteUpstream`, `RouteVerdicts`, `RouteConvergence` | what it means for whole runs, for what is written and what the status tells of the platform's answers, and for uninterrupted reconciles |
| `RouteOvertaken`, `RouteLimits`, `RouteStranded`, `RouteSearch`, `RouteClaims` | what users may do to a route object and when, exactly, and what happens otherwise |
| `RouteReconciler` | the route reconciler in its own imperative form, proved to be an execution of the machine |
| `EndToEnd`, `Executions` | from a fresh Tunnel to a published route; the theorems about runs, stated of the two reconcilers as written |
| `ClientCache`, `Pagination` | the client cache and its key; the bounded listing loop |

A reconcile in flight is a program counter with the copy of the object it read (`Worker`). An action of a run is
one call of one reconcile with an outcome (`Done`, `Refused` without effect, `Lost` with the effect but without the
answer), a crash, a user's delete or edit, another controller's finalizer, a change of the credential or of the
Secret, a change of the agent's replicas or of the platform's view of the connection, a change of the namespace's
Services, anything other accounts do on the platform, and for the tunnel a deletion or a token rotation in the
platform's own panel. A theorem about runs is a statement about every finite sequence of such actions.

The two `Reconciler` classes hold the code's own control flow. Their `Valid()` says that the world they hold is the
end of a run of the machine, and every call they make is a step of it, so a method that left out, swapped or
repeated a call could not be verified. Their `ledger` is what can be read off the trace of that run: the errors that
failed a reconcile and how often a closing status was written. `Interfere` stands for anything that happens between two calls; callers know
nothing about it but its contract.

## Standing assumptions

- A read of a Kubernetes object is current when made; a write fails if the object changed since it was read.
- At most one reconcile of an object is in flight.
- A platform request takes effect atomically in its step or not at all; a 404 means the resource is absent.
- The account behind a credential does not change; ids and tokens are never minted twice.
- Nobody edits finalizers, statuses or the agent Deployment's template by hand, or deletes that Deployment. Outsiders
  may delete or empty the token Secret, but do not write a token of their own into it.
- `CreateOrUpdate` is a read followed by a compare-and-set write, so its success is one atomic step.
- Routes: one Tunnel whose name is not reused; the name of a route object in the model stands for one object, so a
  recreated object is a new name; only the operator writes routes into the tunnel, and nobody deletes the tunnel in the
  panel.
- Routes, what users claim: an object is applied, or edited to another identity (type, hostname, prefix), only with a
  hostname and prefix that no other object asks for, objects that are being deleted included, and that no live route of
  another object still has, even if that object no longer asks for them. So a hostname may be given to a second object
  only after the first one was reconciled away from it. The second half of this condition is exact: where it fails, the
  next reconcile takes the other object's route or publishes a second one beside it (`ApplyTakesRouteExactlyWhen`,
  `EditTakesKeyExactlyWhen`).
- Routes, when users act: an edit of the identity, and a delete of an object that recorded a route, fall only on a
  settled object (`RouteMachine.Settled`). That is, every live route made for the object is the one its status names,
  and the reconcile in flight, if there is one, will not make a route: it is past that point, or it read the identity of
  the live route that the status names. Nor is the identity edited while a delete path that recorded nothing is looking
  for a route by it (`RouteMachine.Searching`). Edits of anything else, and deletes of an object that recorded nothing,
  are free at any moment. These conditions are exact: where one fails, some run goes on to lose a route to its object or
  to delete another object's (`DeleteStrandsExactlyWhen`, `EditGuardIsExact`).
- None of the conditions on users excludes anything as long as identities are not edited: with the specs of different
  objects distinct, users may apply, edit and delete as they like (`FixedIdentityNeedsNoGuards`).

## Where the code and what is said about it differ

The model follows the code.

- `Ready` is said to roll up the other conditions, but the exit for an unreadable credential rewrites `Synced` and
  leaves `Ready` as it was, and nothing else does (`ReadyImpliesSyncedExactlyWhen`).
- A stored token is never compared with anything. After a deletion in the panel and one lost create answer, no run
  brings the adopted tunnel and the old Secret together again unless somebody takes the token away or touches the
  tunnel in the panel (`StaleTokenIsForever`). The delete path, which looks by external id only when no id is recorded,
  leaves that tunnel behind (`OrphanAfterOnePanelDelete`; exactly when, in `TunnelTokens.DeleteOrphansExactlyWhen`).
- The cache key is said to cover everything that changes the client, but it omits the two entry names read from the
  Secret (`OtherEntriesShareClient`), and a `|` in an endpoint makes two settings print alike (`SeparatorSharesClient`).
  When exactly the cache serves what rebuilding would: `CacheAgreesExactlyWhenDistinguished`.
- A create whose answer is lost leaves a route that the status does not name, be it the first one or the one that ends
  a replacement. Recovery is by hostname and prefix, so editing those before the next reconcile publishes a second
  route, also when nothing was ever recorded (`EditLeavesSecondRouteExactlyWhen`). Deleting the object after such a
  replacement leaves the route (`RouteStranded.DeleteOrphansExactlyWhen`).
- No answer need be lost if the user is quick. An edit of the identity or a delete that falls into a reconcile which is
  about to make a route makes its status write fail, although the status named the live route when the user acted: the
  edit ends in two routes (`EditDuringReconcileLeavesTwo`), the delete in an orphan (`DeleteDuringReconcileOrphans`).
- Hostname and prefix are said to identify a route as well as its id does. Moving a hostname from one object to another
  in one go shows where they do not: the second object's reconcile adopts the first one's live route and reports it
  published, and the first one's next reconcile deletes it (`MovedHostnameIsTakenDown`). Likewise a delete path that
  looks for its route by hostname and prefix deletes the route of whoever has them by then
  (`EditedSearchTakesOthersRoute`).
- When the write that records the external id fails, the marker is already set in memory, and the status write of
  the failure path may persist it. This is harmless: the marker only ever errs towards asking the platform.

## Model

| member | source | states |
|---|---|---|
| Errors.WrappingIsInvisible | internal/nubulus/errors.go:113-133 | An error wrapped to any depth looks the same to `errors.As`, to `IsNotFound` and to the classification |
| Errors.RecognisedCodeDecides | internal/nubulus/errors.go:168-264 | For a code matched by name the verdict ignores the HTTP status and any depth of wrapping, and is transient exactly for quota and inactive tunnel |
| Errors.PermanentExactlyWhen | internal/nubulus/errors.go:168-264 | When exactly a whole error chain is permanent: both directions, for every chain |
| Errors.ReasonTells | internal/nubulus/errors.go:168-264 | Which reason is reported exactly when: the transport, each matched code, and otherwise the status |
| Errors.ReasonDecides | internal/nubulus/errors.go:137-166 | The reason on the condition alone tells whether the failure is permanent |
| Errors.AnswersAreSeen | internal/nubulus/errors.go:113-133 | However deep an answer is wrapped, its status and code are seen, and a 404 is what counts as not found |
| Platform.CreateKeepsValid | internal/nubulus/tunnel.go:251-276 | A create, making or adopting, keeps external ids unique and everything minted remembered |
| Platform.DeleteKeepsValid | internal/nubulus/tunnel.go:364-367 | Deleting a tunnel takes its routes and leaves the platform well formed |
| TunnelSafety.StepKeepsStructure | internal/controller/tunnel_controller.go:85-389 | Every action, of the reconcile or of the environment, keeps what the persisted object and the reconcile in flight know of each other |
| TunnelInvariants.RunKeepsInv | internal/controller/tunnel_controller.go:85-496 | The full invariant (structure, counting, exactness of ids, token coherence, roll-up) survives every run |
| TunnelTheorems.NoOrphanTunnel | internal/controller/tunnel_controller.go:97-109 | In every run without panel deletions, a platform tunnel under the UID has its object, with finalizer, marker, and an empty or correct recorded id |
| TunnelTheorems.OrphanBornExactlyWhen | internal/controller/tunnel_controller.go:330-389 | Panel deletions allowed: a step makes an orphan if and only if it releases the finalizer while the platform holds a tunnel under another id than the recorded one |
| TunnelTheorems.NoOrphanWithoutStaleRelease | internal/controller/tunnel_controller.go:330-389 | Over whole runs, panel deletions included, no such release means no orphan |
| TunnelTheorems.CreationCount | internal/controller/tunnel_controller.go:184-215 | The platform makes at most one tunnel for a UID plus one per panel deletion, in every run |
| TunnelTheorems.NothingMadeAfterDelete | internal/controller/tunnel_controller.go:381-388 | After the operator's own delete no run makes another tunnel or deletes again |
| TunnelTheorems.MarkerSound | internal/controller/tunnel_controller.go:340-362 | A release that skips the platform because the marker is empty happens only if no create ever reached it |
| TunnelTheorems.NeverReadableNeverMarked | internal/controller/tunnel_controller.go:111-118 | A credential that was never readable never sets the marker, and a delete then always takes the exit that needs no credential: its first step leads to the release |
| TunnelTheorems.MarkedAndUnreadableKeepsFinalizer | internal/controller/tunnel_controller.go:340-362 | With the marker set and the credential unreadable, whatever main-path reconcile is in flight, no run releases the finalizer |
| TunnelTheorems.TokenCoherence | internal/controller/tunnel_controller.go:246-297 | Through lost creates, lost rotations and failed Secret writes, a stored token is the platform's valid one |
| TunnelTheorems.CompletedReconcileNamesToken | internal/controller/agent.go:149-155 | A completed reconcile leaves a template naming the Secret version that holds the valid token of the recorded tunnel |
| TunnelTheorems.ReadyRollup | internal/controller/tunnel_controller.go:468-496 | In every persisted status a synced tunnel is Ready exactly with an available agent and the platform's "online", and one that is not synced is not Ready unless its credential was unreadable |
| TunnelTheorems.ReadyImpliesSyncedExactlyWhen | internal/controller/tunnel_controller.go:111-118 | In every run "Ready implies Synced" is broken by exactly one step: the status write of the unreadable-credential exit, of an object that was Ready |
| TunnelConvergence.OneShotConvergence | internal/controller/tunnel_controller.go:85-155 | One uninterrupted reconcile of a live object ends with exactly one tunnel under its UID, its id recorded, a token stored, the template naming that Secret version, AgentAvailable and Ready as the replicas and the platform have it; a tunnel is made, or a token rotated, exactly when that takes it |
| TunnelConvergence.TokenFreshExactlyWhen | internal/controller/tunnel_controller.go:246-297 | The token it leaves is the valid one if and only if it did not start from a stale stored one |
| TunnelConvergence.SecondReconcileIsQuiet | internal/controller/tunnel_controller.go:160-327 | A second reconcile creates nothing, rotates nothing, writes no Secret and leaves the template alone |
| TunnelConvergence.ConvergedIsFixedPoint | internal/controller/tunnel_controller.go:85-155 | Both together: from every live object one uninterrupted reconcile converges to a live object, and one more after it is quiet |
| TunnelConvergence.ReconcileIsRun | internal/controller/tunnel_controller.go:85-155 | The uninterrupted reconcile is a run of the machine |
| TunnelConvergence.OrphanAfterOnePanelDelete | internal/controller/tunnel_controller.go:364-389 | From any converged object, one panel deletion, one lost answer and an ordinary delete leave an orphan |
| TunnelVerdicts.FailureIsTold | internal/controller/tunnel_controller.go:392-412 | A call that fails a reconcile, by the error the platform answered or a missing tunnel, makes the status Synced False for that error's reason, not Ready, about this generation, and keeps the rest |
| TunnelVerdicts.NoFailureGoesOn | internal/controller/tunnel_controller.go:160-297 | Without such an error a status write is reached only from an unreadable credential or with everything done |
| TunnelVerdicts.UnreadableIsTold | internal/controller/tunnel_controller.go:111-118 | The unreadable credential is told exactly when it could not be read, and changes nothing else |
| TunnelVerdicts.CompletionIsTold | internal/controller/tunnel_controller.go:138-154 | A completed reconcile is Synced; AgentAvailable exactly if a replica was available when the Deployment was written; Ready exactly if moreover the platform answered "online" for the tunnel it records |
| TunnelVerdicts.RemoteIsAnswered | internal/controller/tunnel_controller.go:160-243 | What the reconcile goes on with of a tunnel is what the platform answered for the id it asked for |
| TunnelVerdicts.ReportWasDecided | internal/controller/tunnel_controller.go:415-432 | In every run every persisted report was decided by one of these steps earlier in the run |
| TunnelTokens.StaleTokenBornExactlyWhen | internal/controller/tunnel_controller.go:246-297 | In every run, panel included, the steps by which a stored token becomes stale, both directions |
| TunnelTokens.StaleTokenStays | internal/controller/tunnel_controller.go:262-277 | A stale token that nothing in flight replaces stays through every run that leaves the Secret and the panel alone |
| TunnelTokens.StaleTokenIsForever | internal/controller/tunnel_controller.go:208-232 | From any converged object one panel deletion and one lost answer lead to a token that no such run ever makes valid again |
| TunnelTokens.DeleteOrphansExactlyWhen | internal/controller/tunnel_controller.go:330-389 | An uninterrupted delete releases the object, and leaves an orphan if and only if an id is recorded and the platform holds the UID under another one |
| TunnelTokens.DeleteReleasesExactlyWhen | internal/controller/tunnel_controller.go:330-362 | An uninterrupted delete releases the object if and only if it carries no marker or its credential is readable; without a marker the platform is not asked for anything, and when it does not release nothing changes |
| TunnelReconciler.Reconciler.Get | internal/controller/tunnel_controller.go:88-95 | Reading starts the machine's reconcile with the object as it is, or ends it |
| TunnelReconciler.Reconciler.Reconcile | internal/controller/tunnel_controller.go:85-155 | Every execution is a run of the machine; every exit is an error or a five-minute delay unless the object is gone or deleting without our finalizer. If the status was written, the exit is no error when no call failed, and else an error exactly when the one failed call's error, as the trace has it, is not permanent, and the status tells its reason |
| TunnelReconciler.Reconciler.EnsureTunnel | internal/controller/tunnel_controller.go:160-243 | Get, marker, create and get in that order, and no other; it hands over the tunnel and the token only a create answers, or an error with the verdict of the one the platform answered |
| TunnelReconciler.Reconciler.Provide | internal/controller/tunnel_controller.go:120-154 | The same as Reconcile for its part from the client on |
| TunnelReconciler.Reconciler.EnsureCredentialSecret | internal/controller/tunnel_controller.go:246-297 | Uses the created token, else the stored one, else rotates; hands over the version of the Secret that holds it |
| TunnelReconciler.Reconciler.EnsureAgentDeployment | internal/controller/tunnel_controller.go:300-327 | Leaves a Deployment whose template names the given Secret version |
| TunnelReconciler.Reconciler.ReconcileDelete | internal/controller/tunnel_controller.go:330-389 | The delete path, step for step a run of the machine; never drops the object; a delay is asked for only when the credential could not be read |
| TunnelReconciler.Reconciler.Fail | internal/controller/tunnel_controller.go:392-412 | When the status was written, the exit is five minutes without error for a permanent failure and an error otherwise, and the status tells the reason |
| TunnelReconciler.Reconciler.Finish | internal/controller/tunnel_controller.go:415-432 | Writes the status it was given, keeps the reconcile's own error, and drops nothing but an object that is gone |
| TunnelReconciler.Reconciler.SetAgentAvailable | internal/controller/tunnel_controller.go:444-462 | True exactly with an available replica |
| TunnelReconciler.Reconciler.SetReadyFrom | internal/controller/tunnel_controller.go:468-496 | Ready exactly when Synced and AgentAvailable are True and the platform says "online"; the first that fails is the reason |
| RouteSpec.KeyDeterminesIdentity | api/v1alpha1/tunnelroute_types.go:99-101 | Under the CRD's rules, hostname and prefix determine the type: equal key if and only if unchanged identity |
| RouteSpec.DriftExact | internal/controller/tunnelroute_controller.go:333-369 | Drift is reported if and only if the route is not the one asked for, read off the spec's own fields; the partial update sends exactly the fields it changes and makes it so |
| RouteSpec.DesiredIsAsked | internal/controller/tunnelroute_controller.go:371-411 | The route the controller aims at is the one and only route that has every field the spec sets and the default of every field it does not |
| RouteSpec.StoredAsAsked | internal/nubulus/tunnel.go:198-220 | A create makes all of that but enabled and a priority of 0 |
| RouteSpec.FindRouteMeans | internal/controller/tunnelroute_controller.go:295-323 | For any order of the listing: the recorded id if it is there, else a route with the spec's hostname and prefix, else none exists |
| RouteSpec.EnsureRouteRealises | internal/controller/tunnelroute_controller.go:226-287 | For every platform state and spec the result is the route asked for, field by field of the spec (enabled=false and priority 0 included), every other route but the replaced one is untouched, at most three writes |
| RouteSpec.SecondEnsureIsQuiet | internal/controller/tunnelroute_controller.go:276-287 | Repeating it, on any listing, makes no write |
| Upstream.FindPort | internal/controller/tunnelroute_controller.go:203-223 | Answers a declared port that matches, and refuses exactly when none does |
| Upstream.HostDeterminesService | internal/controller/tunnelroute_controller.go:196-199 | Distinct Services or namespaces have distinct hosts, for dot-free labels |
| Upstream.ServiceRouteExact | internal/controller/tunnelroute_controller.go:171-200 | A Service-backed spec resolves to a declared port, by its name or number, and to the one host `<name>.<namespace>.svc.<domain>` of its Service, and fails exactly when there is no such Service or port |
| TunnelEffects.StepEffect | internal/controller/tunnel_controller.go:85-389 | To the routes, a step of the tunnel machine is nothing, the end of the tunnel with all its routes, or its beginning; a recorded id is never forgotten |
| RouteRuns.RunKeepsSysInv | internal/controller/tunnelroute_controller.go:80-503 | The invariant of both controllers, for any number of route objects, survives every run |
| RouteTheorems.NoOrphanRoute | internal/controller/tunnelroute_controller.go:108-116 | Each route in the tunnel is covered by exactly one object that carries the finalizer, and each object covers at most one route, at every micro-step of both controllers |
| RouteTheorems.TunnelTakesItsRoutes | internal/nubulus/tunnel.go:364-367 | Once the tunnel is gone no route the operator ever made is left |
| RouteTheorems.ReleaseLeavesNoRoute | internal/controller/tunnelroute_controller.go:414-445 | Whichever of the three exits of the delete path was taken, when the finalizer goes there is no route made for the object, under its recorded id, or under its hostname and prefix |
| RouteTheorems.FinalizerOnlyReleased | internal/controller/tunnelroute_controller.go:443-444 | The finalizer goes if and only if that release is what happens |
| RouteTheorems.NonInterference | internal/controller/tunnelroute_controller.go:226-287 | No step of one route object changes or deletes anything on the platform but routes made for it |
| RouteTheorems.CrashSafeReplacement | internal/controller/tunnelroute_controller.go:240-274 | At every micro-step of replacements interrupted and retried at will, at most one route per object and per hostname and prefix |
| RouteTheorems.LostCreateNeverReplaces | internal/controller/tunnelroute_controller.go:317-331 | Every route is of type host exactly when its prefix is "/", and what the fallback finds is adopted, never replaced |
| RouteTheorems.RouteReadyRollup | internal/controller/tunnelroute_controller.go:489-557 | In every persisted status Ready is exactly Resolved and Synced, and then one generation runs through all of it |
| RouteFixed.PlainRunKeeps | internal/controller/tunnelroute_controller.go:80-503 | With identities fixed and specs distinct, every run in which users apply, edit and delete at will is a run of the machine, so every theorem about runs holds of it |
| RouteFixed.FixedIdentityNeedsNoGuards | internal/controller/tunnelroute_controller.go:295-323 | In such runs no replacement is ever begun, every live route has the identity its object asks for, and no step of one object touches a route of another |
| RouteUpstream.CarriedWasRead | internal/controller/tunnelroute_controller.go:125-139 | Every upstream a reconcile goes on with was read by that reconcile from the cluster's Services, at an earlier state of the run |
| RouteUpstream.UnresolvedExactlyWhen | internal/controller/tunnelroute_controller.go:179-194 | Once the read is answered a Service-backed route is unresolved if and only if the cluster then has no such Service or it declares no such port |
| RouteUpstream.EveryWriteIsResolved | internal/controller/tunnelroute_controller.go:125-139 | Whatever a create or update writes, in any interleaving, is what that reconcile read earlier in the run; a create leaves what it can express of the route asked for and an update exactly that route; a Service-backed one has the host of its own-namespace Service and a port that Service declared at that state |
| RouteVerdicts.SyncedExactlyWhenPublished | internal/controller/tunnelroute_controller.go:148-167 | In every interleaving, a reconcile that reaches its status write says Synced, and Ready, if and only if every call was answered, and then the platform holds under the recorded id the route asked for; a failed listing, replacement, create or update says Synced and Ready False for that error's reason |
| RouteVerdicts.SyncedWasPublished | internal/controller/tunnelroute_controller.go:489-503 | In every run a persisted Synced or Ready was earned by such a publishing earlier in the run, of the observed generation at the recorded upstream |
| RouteVerdicts.FailureIsTold | internal/controller/tunnelroute_controller.go:149-158 | A failed call is told with its own reason, about this generation; what was recorded of an earlier one is kept |
| RouteVerdicts.RefusalIsTold | internal/controller/tunnelroute_controller.go:98-146 | The exits before publishing each tell their own reason and leave what was recorded |
| RouteVerdicts.RefusedExactlyWhen | internal/controller/tunnelroute_controller.go:98-146 | They are taken exactly when there is no tunnel, no upstream or no readable credential |
| RouteConvergence.ReconcileEnsures | internal/controller/tunnelroute_controller.go:80-168 | The uninterrupted reconcile of the machine is `ensureRoute`, with the id it answers recorded |
| RouteConvergence.RouteConverges | internal/controller/tunnelroute_controller.go:226-287 | From every reachable state one uninterrupted reconcile ends with exactly one route for the object, as asked for on every field of the spec, recorded and Ready, all others as they were |
| RouteConvergence.SecondReconcileIsQuiet | internal/controller/tunnelroute_controller.go:276-287 | A second reconcile changes neither the platform's routes nor the status |
| RouteLimits.LostCreateIsUnnamed | internal/controller/tunnelroute_controller.go:259-274 | How a live route comes to be one the status does not name: the lost answer of a first create, or of the create that ends a replacement |
| RouteLimits.DeleteStrandsExactlyWhen | internal/controller/tunnelroute_controller.go:447-487 | At any moment, reconciles in flight included, a delete never strands a route in any run from there if and only if the object is settled or recorded nothing |
| RouteLimits.EditStrandsExactlyWhen | internal/controller/tunnelroute_controller.go:240-287 | The same for an edit outside such a search: never if and only if it keeps the identity or the object is settled |
| RouteSearch.EditGuardIsExact | internal/controller/tunnelroute_controller.go:226-287 | Among edits that keep hostnames and prefixes distinct, at any moment, those allowed are exactly those from which no run strands a route or touches another object's |
| RouteSearch.SearchTouchesExactlyWhen | internal/controller/tunnelroute_controller.go:469-486 | An edit before the delete path's lookup leads some run to touch another object's route if and only if the copy read has the finalizer and the tunnel was not deleted |
| RouteSearch.EditedSearchTakesOthersRoute | internal/controller/tunnelroute_controller.go:469-486 | The run itself: edit during the search, another object applied with the old hostname and prefix, its create, and the delete path about to delete that route |
| RouteSearch.SearchTakesAnyOwner | internal/controller/tunnelroute_controller.go:469-486 | A delete path that recorded nothing deletes whatever route has the hostname and prefix it read, whoever it was made for |
| RouteClaims.MovedHostnameIsTakenDown | internal/controller/tunnelroute_controller.go:295-331 | All specs distinct throughout: one object is edited away from its hostname, another applied with it; reconciled first, the other takes the live route over and reports Ready, and then loses it |
| RouteClaims.ApplyTakesRouteExactlyWhen | internal/controller/tunnelroute_controller.go:317-331 | A new object's first reconcile records a route made for another object if and only if a live one has its hostname and prefix |
| RouteClaims.EditTakesKeyExactlyWhen | internal/controller/tunnelroute_controller.go:240-274 | After an edit: the same without a live route of its own; with one, the replacement ends in two routes under one hostname and prefix if and only if another object's live route has them |
| RouteStranded.StrandedStaysBeside | internal/controller/tunnelroute_controller.go:295-323 | The next reconcile of a live object records another route and leaves the stranded one beside it |
| RouteStranded.StrandedStaysBehind | internal/controller/tunnelroute_controller.go:469-486 | The delete path releases the object and leaves the stranded route |
| RouteStranded.EditLeavesSecondRouteExactlyWhen | internal/controller/tunnelroute_controller.go:309-323 | Between reconciles, recorded id or none: an edit leaves a second route if and only if some live route is not the recorded one and has another hostname or prefix than the new spec |
| RouteStranded.DeleteOrphansExactlyWhen | internal/controller/tunnelroute_controller.go:469-486 | Between reconciles: a delete leaves a route behind if and only if the status named another one |
| RouteStranded.DeleteReleasesExactlyWhen | internal/controller/tunnelroute_controller.go:414-445 | An uninterrupted delete releases the object if and only if there is no Tunnel object, no tunnel recorded, or a readable credential; when it does not, nothing changes |
| RouteStranded.EditDuringReconcileLeavesTwo | internal/controller/tunnelroute_controller.go:240-274 | An identity edit that falls into a reconcile about to make a route ends in two routes |
| RouteStranded.DeleteDuringReconcileOrphans | internal/controller/tunnelroute_controller.go:240-274 | A delete that falls into such a reconcile of an object that recorded a route ends in an orphan |
| RouteReconciler.SearchRoute | internal/controller/tunnelroute_controller.go:295-323 | The two search loops compute the lookup that `FindRouteMeans` is about |
| RouteReconciler.RouteDrift | internal/controller/tunnelroute_controller.go:333-369 | Filling in the update field by field computes the drift that `DriftExact` is about |
| RouteReconciler.Reconciler.Get | internal/controller/tunnelroute_controller.go:80-84 | Reading starts the machine's reconcile with the object as it is, or ends it |
| RouteReconciler.Reconciler.Reconcile | internal/controller/tunnelroute_controller.go:80-106 | Every execution is a run of the machine; every exit is an error, or the delay its written status calls for (fifteen seconds for a tunnel still being made, else five minutes), unless the object is gone or deleting without our finalizer. If the status was written, the exit is an error exactly when the one failed call's error, as the trace has it, is not permanent, and the status tells its reason |
| RouteReconciler.Reconciler.Publish | internal/controller/tunnelroute_controller.go:108-139 | The same from the finalizer on: nothing is asked of the platform before the finalizer is on and the upstream resolved |
| RouteReconciler.Reconciler.PublishIn | internal/controller/tunnelroute_controller.go:118-139 | The same once the finalizer is on |
| RouteReconciler.Reconciler.Deliver | internal/controller/tunnelroute_controller.go:141-168 | The same for the rest of the main path: client, route, status |
| RouteReconciler.Reconciler.ResolveUpstream | internal/controller/tunnelroute_controller.go:171-200 | Answers the resolution of the spec against the Services the cluster holds at the read; fails, once answered, if and only if there is no such Service or port |
| RouteReconciler.Reconciler.EnsureRoute | internal/controller/tunnelroute_controller.go:226-287 | List, delete, create, compare and update are the machine's steps in that order; it hands over the id to record or an error with the verdict of the one the platform answered |
| RouteReconciler.Reconciler.ReconcileDelete | internal/controller/tunnelroute_controller.go:414-445 | The delete path, step for step a run of the machine; never drops the object |
| RouteReconciler.Reconciler.DeleteRemoteRoute | internal/controller/tunnelroute_controller.go:447-487 | Success leaves the release as the only thing to do; any failure ends the reconcile with the finalizer on |
| RouteReconciler.Reconciler.FailPublishing | internal/controller/tunnelroute_controller.go:149-158 | When the status was written, the exit is five minutes without error for a permanent failure and an error otherwise, and the status says not Synced, not Ready, for that reason |
| RouteReconciler.Reconciler.Finish | internal/controller/tunnelroute_controller.go:489-503 | Writes the status it was given, keeps the reconcile's own error, and drops nothing but an object that is gone |
| RouteReconciler.Reconciler.SetReadyFrom | internal/controller/tunnelroute_controller.go:534-557 | Ready exactly when Resolved and Synced are True; the first that fails is the reason |
| EndToEnd.TunnelComesUp | internal/controller/tunnel_controller.go:85-155 | From any fresh cluster there is a run in which one uninterrupted tunnel reconcile makes the tunnel a waiting route object needs |
| EndToEnd.FreshClusterPublishes | internal/controller/tunnelroute_controller.go:80-168 | If the spec resolves in that cluster, the first uninterrupted reconcile of that object publishes exactly the desired route, whatever is minted and however routes are listed |
| Executions.TunnelExecutionIsSafe | internal/controller/tunnel_controller.go:85-389 | Wherever an execution of the tunnel reconciler stands: no orphan, and the stored token is valid |
| Executions.RouteExecutionIsSafe | internal/controller/tunnelroute_controller.go:80-503 | Wherever an execution of a route reconcile stands: every route has exactly one object that covers it, and the roll-up holds |
| ClientCache.PrintedIsUnique | internal/controller/apiclient.go:143-148 | The key format reads back in one way only |
| ClientCache.PrintedExactlyWhen | internal/controller/apiclient.go:143-148 | Two keys print alike if and only if they are of one version of one Secret and their endpoint fields print alike |
| ClientCache.ConfigTells | internal/controller/apiclient.go:104-141 | The built config field by field against the Tunnel's endpoints and the Secret's entries, and exactly when and how it fails |
| ClientCache.CacheAgreesExactlyWhen | internal/controller/apiclient.go:64-94 | For every history of calls the cache agrees with rebuilding if and only if equal keys came from equal configs; one build per distinct key |
| ClientCache.CacheAgreesExactlyWhenDistinguished | internal/controller/apiclient.go:104-148 | In terms of what callers ask for: it agrees if and only if calls on one version of a Secret whose endpoint fields print alike have the same endpoints and read the same values |
| ClientCache.CacheAgreesWithRebuilding | internal/controller/apiclient.go:98-151 | It does for every history of Secret updates and endpoint edits that reads a Secret by the same entries and keeps the separator out of its URLs |
| ClientCache.OtherEntriesShareClient | internal/controller/apiclient.go:104-148 | Two Tunnels reading different entries of one Secret share the first one's client |
| ClientCache.SeparatorSharesClient | internal/controller/apiclient.go:146-148 | A separator inside an endpoint makes two settings one key, and the second caller gets a client of the first one's endpoints |
| ClientCache.CachedClientFactory.ClientFor | internal/controller/apiclient.go:64-94 | Answers as the history of calls determines, and under the conditions above with the config just computed or its error |
| Pagination.ListTunnels | internal/nubulus/tunnel.go:339-362 | Lists the prefix a thousand pages reach, and fails exactly when a request that is made fails |
| Pagination.CompleteExactlyWhen | internal/nubulus/tunnel.go:245-249 | A listing is complete if and only if a thousand pages are enough, as they are for up to a thousand rows whatever the page sizes |
| Pagination.UniformLength | internal/nubulus/tunnel.go:240-249 | With pages of c rows the listing has exactly min(N, 1000 c) rows |

## Left out

- HTTP, JSON, the OAuth2 client-credentials exchange (section 4.4 of RFC 6749), context cancellation, and the reading of error bodies: an error is what its chain, status and code say.
- Error codes are values of a datatype rather than strings; a code the operator does not match by name is `OtherCode`.
- The agent Deployment beyond the credential version in its template and its available replicas; its replica count and strategy are constants of the source.
- The status fields that only copy what a read answered (subdomain, CNAME target, WireGuard address, Secret name), and all message texts.
- Events, logging, watches, indexes, the work queue, leader election, informer lag and garbage collection: see the standing assumptions.
- The hostname pattern and the OpenAPI schema beyond the enum and the three cross-field rules.
- The transport behind a client: a client is the config it was built from and the number of its build; the defaults `New` fills in are not applied.
- A listing served by a server that ignores the offset; the loop still ends after a thousand pages.
- Several Tunnels at once and a route whose tunnelRef is edited: one Tunnel with any number of routes is modelled, and everything else on the platform is an action of others.
- RouteReconciler.Reconciler.ResolveUpstream: with an upstream written in the spec the code reads nothing; the model has a step there whose result is not used.
- TunnelReconciler.Reconciler.EnsureAgentDeployment: states only the template's credential version and the replicas it answers.
