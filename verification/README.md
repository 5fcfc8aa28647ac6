# A verified model of the agent operator and its runtime

The operator turns an `Agent` resource into a ServiceAccount, one or two
ClusterRoleBindings, a history claim, a Deployment and a Service, and keeps them in
step with the Agent's spec and with its credentials Secret. The runtime inside the pod
answers chat requests, streams them to a browser, and keeps a bounded log per session
on the history volume. This project models both and proves what they keep, over all runs.

`dafny verify dfyconfig.toml` checks everything.

## How the model is laid out

| file | what it holds |
|---|---|
| `AgentTypes`, `Builder` | the Agent, the names and contents of the objects built from it |
| `StatusService` | the status writes, the condition list, and what a log of writes amounts to |
| `Occ`, `AgentWriters` | optimistic concurrency: any number of writers with stale reads and retries, first for any object and any change, then for Agent status and the credentials stamp |
| `Cluster`, `Reconcile` | the API server with faults, and one worker's pass as an automaton: each state waits on one request |
| `Controller` | `Reconcile` and its services as step-by-step code over an API server object; every method is proved to carry the automaton from one state to another |
| `StatusShape`, `Snapshot`, `Contents` | what holds in every reachable state, with spec edits at any moment; what the stored objects contain |
| `Freshness`, `Creation`, `Rollouts` | what holds unless particular steps are taken; those steps, exactly |
| `Convergence`, `Isolation` | liveness by a measure; passes for different Agents |
| `SecretEvents` | the Secret event filter and the mapping of events to Agents |
| `Selections` | what a filtering loop or comprehension keeps, said by position |
| `SessionFiles`, `HistoryStore`, `HistoryCrash` | the session log: operations, refinement of an unbounded log, and saves as interleaved file operations with crashes |
| `Executor`, `EventStream`, `Chat` | splitting requests, flattening steps, framing events, the browser's incremental reader, and a streamed turn from the agent to the session file |

A run is any sequence of events. For the operator these are steps of the worker, each with a
fault (none, refused, or carried out with the answer lost), crashes, and changes by others:
spec edits, Agent deletion, Secret writes and deletions, deletion of the account, of bindings, of
the claim and of the Deployment, and readiness.
The Agent keeps all its spec revisions; the generation is their number, so that a status can be
compared with the spec it claims to have observed. The log of a run records each creation of a
Deployment with the generation it was built from. A pass is proved to be a run
(`Reconcile.FinishIsARun`), and so is the retry loop (`Occ.RetryIsARun`); whatever holds of runs
holds of the imperative code.

In `Reconcile` a retried read-modify-write is one request. `Occ` and `AgentWriters` open that
request up: a client holds a copy of some version, and writes that copy, changed; only the check
of the resourceVersion keeps updates from being lost. A call then commits at most once, on top of
the newest version, and what it commits is what the server does with the one request
(`StatusCallIsServed`, `StampCallIsServed`).

JSON is a pair of functions that are each other's inverse on what is written. Event payloads are
objects on one line, as section 7 of RFC 8259 and the absence of indentation make them. Frames
are a subset of section 9.2 of the WHATWG HTML Living Standard.

## Where the code does not do what it says

The model follows the code. Where a property fails, the table names the failing trace and the
condition under which the property holds, in both directions.

- `updateRetry` reads from a cache (status_service.go:120-123). A cache that stays behind uses up
  any retry budget with nobody else writing; a call whose own reads are up to date gives up only
  after as many other commits as its budget. A lost answer makes a call report an error although
  it committed.
- A status write stamps the generation it finds, not the one the pass acted on
  (status_service.go:52, :71). A spec edit that changes what is built goes unnoticed when it comes
  over a left-behind Deployment, before a pass creates from its older copy, or before a pass
  marks ready. These three steps, and no others, break freshness (`StepFreshIff`); an edit inside a
  pass that does not go on to claim the Deployment is acted on by the next one.
- Rollout conservation breaks in exactly two ways (`StepLedgerIff`), both after an edit that
  switches the Secret under a pass about to compare versions: the pass marks ready with the stamp
  of the old Secret, which the next pass then finds wrong; or it rolls for a new version of the
  old Secret, which the Agent no longer uses. Each needs that no cause is left over.
- `CreateDeployment` returns before the Service when the Deployment exists
  (deployment_service.go:39-42), so a failure between the two leaves the Service missing until the
  next rebuild. Which faults in that window do harm is stated exactly (`StepPairedIff`).
- ClusterRoleBindings are named after the Agent alone (builder.go:91-93), so Agents of one name in
  two namespaces share them. If only one of them may write, they can never both have what their
  specs ask for.
- `deleteRoleBinding` calls a missing binding a success (rbac_service.go:127-130), but one that
  goes missing between its Get and its Delete is an error (`VanishedBindingIsAnError`); the pass is
  run again.
- `equalStringMap` takes a missing key for an empty value (predicates.go:70-80).
- The event filter lets a Secret update without new data pass unreported, but the next pass
  compares resourceVersions and rolls the pods all the same (agent_controller.go:270-274).
- The request model promises that stored messages are prepended to a request (server.py:72-77).
  The handler only appends (server.py:326-367), and so does the model.
- An unreadable history file is said to be left for a human to inspect (history.py:100-103); the
  next saved turn overwrites it.
- A sync that fails is ignored (history.py:155-158): the file is renamed all the same, and a loss of
  power can then cut it short. It survives every loss of power exactly if it is synced or empty.
- The id pattern's end anchor also accepts one final newline (history.py:41).
- `split_messages` promises every message but the last as history
  (_langchain_executor.py:40-41); system and tool messages are dropped.
- A browser that leaves before the terminator leaves the turn unpersisted (server.py:339-355).

## Model

| member | source | states |
|---|---|---|
| Builder.NamesInjective | operator/internal/deployment/builder.go:78-93 | every namespaced derived key tells any two Agents apart; binding names tell them apart exactly when the Agents' names differ |
| Builder.ReadIsNotWrite | operator/internal/deployment/builder.go:89-99 | no Agent's read binding has the name of any Agent's write binding |
| Builder.NamesSpelled | operator/internal/deployment/builder.go:78-93 | the names are the Agent's with the suffixes of the source |
| Builder.ApplyHistory | operator/internal/deployment/builder.go:186-208 | the loop wires exactly the containers named "agent" and leaves the others as they are, and adds one volume |
| Builder.BuildDeployment | operator/internal/deployment/builder.go:104-133 | builds the Deployment that all the results below speak of, with no credentials stamp |
| Builder.HistoryWiring | operator/internal/deployment/builder.go:181-208 | in anything that is the builder's output up to stamp and readiness, the environment variable, the mount and the claim are all there or all missing, as the spec asks |
| Builder.BuildIff | operator/internal/deployment/builder.go:104-179 | two specs build the same Deployment iff their images, the Secrets they resolve to, and whether history is on agree |
| Builder.BuiltRunsSpec | operator/internal/deployment/builder.go:104-208 | what is built runs one replica of the spec's image as the Agent's account, with the environment of exactly the Secret the spec resolves to, selects its own pods, and with history on mounts the Agent's claim where the runtime is told to look |
| Builder.SecretOfSpec | operator/internal/deployment/builder.go:61-66 | the Secret is the one a spec names, and the operator's default if it names none or the empty one |
| Builder.OthersBuilt | operator/internal/services/rbac_service.go:98-117 | the bindings grant the read and the write role to the account the pods run as, the claim has the size and class of the spec or the defaults, and the Service selects the pods |
| StatusService.AppendOrReplaceCondition | operator/internal/services/status_service.go:131-139 | replacing the first entry of a kind in place, or appending, is one upsert of an ordered map |
| StatusService.UpsertAt | operator/internal/services/status_service.go:132-137 | an upsert changes one position, that of the first entry of the kind |
| StatusService.UpsertNew | operator/internal/services/status_service.go:138 | an upsert of a new kind goes to the end |
| StatusService.MutateInPlace | operator/internal/services/status_service.go:26-112 | the field-by-field closures change the status only, to the value of the status function used in all runs |
| StatusService.StartedAtIsFirstReady | operator/internal/services/status_service.go:66-83 | after any log of status writes, StartedAt is set iff a ready mark follows the last reset, and is the time of the first such mark |
| StatusService.ConditionsAreAnOrderedMap | operator/internal/services/status_service.go:131-139 | after any log, each kind occurs once, with the latest entry, in order of first write; and a kind is there iff it was written |
| StatusService.ConditionsFollowTheLog | operator/internal/services/status_service.go:26-112 | the conditions of a status are that ordered map of everything its log wrote |
| StatusService.ConditionsTellTheLog | operator/internal/services/status_service.go:26-139 | after any log from an empty list, there is a condition Ready, Running, Failed or Pending iff the write of that name is in the log; it is True since the time, and for the reason, of the last such write; and there is no other |
| StatusService.LastWriteDecides | operator/internal/services/status_service.go:26-112 | phase, observed generation, ready count and references are those of the last write |
| StatusService.DecimalReads | operator/internal/services/status_service.go:58-80 | a number written into a message is read back from it |
| Occ.NoLostUpdates | operator/internal/services/status_service.go:117-129 | for any number of writers, interleaving and stale reads, where each writes back the changed copy it read: the stored object is the fold of the committed changes in commit order, no commit overwrites a version it did not read, and each call commits as often as its outcome says |
| Occ.CommitMatches | operator/internal/services/status_service.go:123-127 | a write keeps the log in order exactly when the version it is based on is the newest: the check of the resourceVersion is what does it |
| Occ.UpdatedIffCommitted | operator/internal/services/retry.go:9-20 | a finished call that lost no answer itself, whatever others lose, reports an update iff it committed exactly once, and anything else iff it did not commit |
| Occ.LostAnswerHidesACommit | operator/internal/services/retry.go:18-20 | a call whose answer is lost reports an error although it committed |
| Occ.ConflictNeedsContention | operator/internal/services/retry.go:18-20 | over every run, a call ends in a conflict only if its own stale reads and the commits of others since it began make up its budget |
| Occ.StaleReadsExhaustTheBudget | operator/internal/services/status_service.go:120-123 | stale reads alone can do it: a cache that stays behind uses up any budget although nothing is committed |
| Occ.ApiObject.Update | operator/internal/services/status_service.go:127 | an update succeeds iff the version it names is the newest, and otherwise changes nothing |
| Occ.ApiObject.RetryOnConflict | operator/internal/services/retry.go:18-20 | the bounded loop of read, change and write amid interference leaves the versions and returns the outcome of the recursive specification |
| Occ.RetryIsARun | operator/internal/services/retry.go:18-20 | what one call does amid any interference is a run of the machine with the same history and outcome, so the results about runs hold of the loop |
| Occ.CallActsInOneStep | operator/internal/services/retry.go:18-20 | a call that reports an update changed the version that was the newest just before, however often it had to try again |
| AgentWriters.StatusUnderContention | operator/internal/services/status_service.go:114-129 | under contention of status writers and spec editors: the status is the fold of the committed writes, no status commit moves spec or generation, and StartedAt and the conditions follow the commits |
| AgentWriters.UpdateRetry | operator/internal/services/status_service.go:117-129 | the status write is that retry loop on the Agent |
| AgentWriters.StatusCallIsServed | operator/internal/services/status_service.go:117-129 | what a successful status write commits is what the server of the reconcile model does with its one request |
| AgentWriters.CredentialPatch | operator/internal/controller/agent_controller.go:261-300 | amid arbitrary rewrites, each commit of a roll sets only the stamp, to the version read, on top of the Deployment it replaces; a call that lost no answer itself reports a roll iff it committed once |
| AgentWriters.StampedOnlyStamps | operator/internal/controller/agent_controller.go:283-292 | stamping keeps every other annotation and field |
| AgentWriters.PatchStamp | operator/internal/controller/agent_controller.go:275-299 | the two results of the roll are those of the retry loop: rolled iff updated, error iff conflicted or failed |
| AgentWriters.StampCallIsServed | operator/internal/controller/agent_controller.go:276-298 | what a roll commits is what the server of the reconcile model does with its one request, and both find nothing to do on the same Deployments |
| Reconcile.StepKeepsBasic | operator/internal/controller/agent_controller.go:135-187 | while a pass runs, the status it read stays the stored one, and each point of the pass implies what the branches before it decided |
| Reconcile.ResetNeedsNoDeployment | operator/internal/controller/agent_controller.go:169-176 | a pass comes to its reset only when no Deployment is left, whatever faults it met |
| Reconcile.FinishIsARun | operator/internal/controller/agent_controller.go:135-249 | a whole pass with faults and interference is a run of the system |
| Reconcile.PassesAreRunAgain | operator/internal/controller/agent_controller.go:151-249 | a pass that has begun work on a live Agent always asks to be run again |
| Reconcile.PassStopsIff | operator/internal/controller/agent_controller.go:138-149 | a pass stops for good iff its first read is answered and finds no Agent or one being deleted, and then it has written nothing; an unanswered read is an error |
| Reconcile.DeletedIsLeftAlone | operator/internal/controller/agent_controller.go:147-149 | a pass for an Agent being deleted, or gone, writes nothing, whatever else happens |
| Reconcile.DeletedIsLeftAloneForGood | operator/internal/controller/agent_controller.go:147-149 | over every run, once an Agent is being deleted and the pass in flight has ended, no pass for it writes anything |
| Reconcile.FaultEndsThePass | operator/internal/controller/agent_controller.go:153-249 | a request that is not answered is the last of its pass, which fails; only a failed creation is followed by the record of it |
| Reconcile.FailedCreationIsRecorded | operator/internal/controller/agent_controller.go:191-196 | the record of a failed creation leaves phase Failed for the generation found, and a condition Failed that is True and carries the message |
| Reconcile.VanishedBindingIsAnError | operator/internal/services/rbac_service.go:131-141 | a write binding that others delete between the Get and the Delete of a pass makes it fail; deleted before the Get, or not at all, the pass goes on |
| Controller.ApiServer.Do | operator/internal/controller/agent_controller.go:135-187 | one request, with what others do before it and its fault, takes the automaton to its next state |
| Controller.AgentReconciler.Reconcile | operator/internal/controller/agent_controller.go:135-187 | the step-by-step pass ends with the objects, audit log and result of the automaton |
| Controller.AgentReconciler.StartDeployment | operator/internal/controller/agent_controller.go:189-207 | carries the automaton from creation to the end, marking the failure of a failed creation |
| Controller.AgentReconciler.ObserveDeployment | operator/internal/controller/agent_controller.go:209-249 | carries the automaton from observation to the end: reset, roll, mark ready or wait |
| Controller.AgentReconciler.RollIfCredentialsChanged | operator/internal/controller/agent_controller.go:261-300 | carries the automaton through the Secret read and the stamp; a roll is never also an error |
| Controller.RbacService.ReconcileRBAC | operator/internal/services/rbac_service.go:55-72 | carries the automaton through the account and both bindings, creating or removing the write binding as the spec asks |
| Controller.RbacService.DeleteRoleBinding | operator/internal/services/rbac_service.go:127-141 | a binding missing at the read is success, one missing at the deletion is an error |
| Controller.StorageService.ReconcilePVC | operator/internal/services/storage_service.go:37-42 | carries the automaton through the claim step, creating or deleting as the spec asks |
| Controller.StorageService.EnsurePVC | operator/internal/services/storage_service.go:45-86 | creates the claim with the spec's size and class or the defaults; an existing one is success |
| Controller.StorageService.DeletePVC | operator/internal/services/storage_service.go:89-103 | a missing claim is success |
| Controller.DeploymentService.CreateDeployment | operator/internal/services/deployment_service.go:34-57 | an existing Deployment ends the call in success before the Service is created; any other failure is returned with its message |
| Controller.DeploymentService.GetDeployment | operator/internal/services/deployment_service.go:60-67 | reads under the name in the status |
| Controller.DeploymentService.DeleteDeployment | operator/internal/services/deployment_service.go:84-102 | succeeds, and goes on to the reset, exactly when the Deployment was missing or is deleted |
| StatusShape.StatusShapeOverRuns | operator/internal/services/status_service.go:46-112 | in every reachable state, edits inside a pass included: both references empty or both the deterministic names, a set one iff phase Running or Ready, ready count positive iff phase Ready iff StartedAt set, and a True condition says Ready, Running or Failed if the phase does |
| StatusShape.StepKeepsShape | operator/internal/controller/agent_controller.go:180-249 | every step of the system keeps that shape |
| Snapshot.SoundOverRuns | operator/internal/controller/agent_controller.go:164-187 | in every reachable state, edits inside a pass included: the observed generation is one the Agent has had, what a pass read is an earlier or the current revision, and it resets only without a Deployment |
| Snapshot.WorkOn | operator/internal/controller/agent_controller.go:135-300 | a request does to an Agent and its Deployment a status write, a creation from the pass's own copy, a deletion or a stamp of that Agent's own pass, or nothing |
| Contents.StoredDeploymentRuns | operator/internal/deployment/builder.go:104-230 | over every run: a stored Deployment runs the image, the account, the Secret and the history of the revision it was built from, and a stored Service selects its pods |
| Contents.StoredObjectsServe | operator/internal/services/rbac_service.go:55-125 | over every run: stored bindings grant the read and the write role to the account of an Agent of that name, and a stored claim has the size and class of a spec the Agent has had |
| Contents.PodsCanWork | operator/internal/controller/agent_controller.go:151-187 | after an undisturbed pass from any reachable state, for an Agent with no namesake, the account its pods run as exists and has the read role, and the write role if writing is enabled |
| Freshness.Provenance | operator/internal/deployment/builder.go:104-133 | over every run whatever: a stored Deployment is the builder's output, up to stamp and readiness, for the logged generation it was built from; it is fresh iff that revision and the claimed one differ in nothing that is built |
| Freshness.StepFreshIff | operator/internal/services/status_service.go:46-83 | from a fresh state, a step leads to a fresh state iff it is not an edit over an orphan, a creation from an overtaken copy, or a ready mark by an overtaken pass, that lets a difference in what is built go unnoticed |
| Freshness.FreshnessOverRuns | operator/internal/controller/agent_controller.go:166-186 | over every run with faults, crashes and edits anywhere: a stored Deployment is at every moment the builder's output for the spec at the observed generation iff every step is harmless in that sense |
| Freshness.CarefulRunsAreHarmless | operator/internal/controller/agent_controller.go:164-178 | no edit that changes what is built inside a pass or over an orphan suffices |
| Freshness.EditInsideAPassMattersIff | operator/internal/services/status_service.go:46-83 | an edit inside a pass that changes what is built matters iff the pass, whatever else happens in it, ends with a Deployment claimed for the new generation or left without a reference |
| Freshness.EditInsideAPassGoesUnnoticed | operator/internal/services/status_service.go:46-83 | the traces: an edit just before the record or the ready mark is claimed as observed with the old Deployment, and the next pass only observes it |
| Creation.PairedOverRuns | operator/internal/services/deployment_service.go:34-57 | over every run with edits and faults anywhere: Deployment, reference and Service stay together iff every window is kept; then outside windows an empty reference means no Deployment exists and a set one that the Service exists |
| Creation.ServiceAfterCreationIff | operator/internal/services/deployment_service.go:39-44 | an undisturbed pass that creates leaves a Service iff it finds no Deployment or a Service already there |
| Creation.CrashInTheWindowLosesTheService | operator/internal/services/deployment_service.go:39-44 | the trace: after a crash between Deployment and Service, even an undisturbed pass sets the reference and leaves the Service missing |
| Creation.StepPairedIff | operator/internal/services/deployment_service.go:39-56 | a step strands a Deployment iff it loses the answer of its creation, or, while the Deployment stands, crashes inside the window, fails the Service or refuses the record |
| Rollouts.RolloutConservation | operator/internal/controller/agent_controller.go:229-300 | over every run, with faults, crashes, edits and Secret writes anywhere: rolls plus one if the stamp is out of date never exceed creations plus writes to the Secret in use, at any moment, iff no step rolls, or marks ready with a stamp that is not the Secret's version, when no cause is left |
| Rollouts.StepLedgerIff | operator/internal/controller/agent_controller.go:229-245 | the same for each step, before it is taken: such a step breaks conservation, any other keeps the ledger, including what a pass about to roll has set aside |
| Rollouts.UnswitchedRunsConserve | operator/internal/controller/agent_controller.go:261-300 | conservation holds in every run in which no edit switches the Secret under a pass about to compare versions, even when edits switch it elsewhere |
| Rollouts.SwitchBeforeReadyMarkBreaksIff | operator/internal/controller/agent_controller.go:237-245 | an edit just before the ready mark, with no cause left, breaks it iff the mark gets through and the newly resolved Secret is there with another version than the stamp |
| Rollouts.OldSecretRollsWithoutCause | operator/internal/controller/agent_controller.go:262-275 | the other trace: an edit switches the Agent away from a Secret under a pass about to read it, the old Secret is written, and the pass rolls for it |
| Isolation.ApartIffNamesDiffer | operator/internal/deployment/builder.go:80-93 | the objects of two Agents are disjoint iff the Agents' names differ |
| Isolation.PassLeavesOthersAlone | operator/internal/controller/agent_controller.go:135-187 | a pass, whatever fails in it, changes no object of an Agent of another name |
| Isolation.PassDependsOnlyOnOwn | operator/internal/controller/agent_controller.go:135-249 | what a pass does depends only on the objects of its own Agent and the Secrets |
| Isolation.PassesCommute | operator/internal/controller/agent_controller.go:135-249 | passes of Agents of different names commute: same objects, and each ends as it would have alone |
| Isolation.VisitsAgree | operator/internal/controller/agent_controller.go:135-249 | passes for Agents of other names, between the rounds of an Agent and with any faults, leave its objects where its own rounds alone would have brought them |
| Isolation.ConvergenceAmongOthers | operator/internal/controller/agent_controller.go:135-249 | so an Agent converges among others too: any number of passes for Agents of other names may come between its rounds |
| Isolation.SameNameSharesBindings | operator/internal/services/rbac_service.go:55-72 | without different names it fails: from any reachable state, an undisturbed pass for an Agent that may not write removes the write binding of a namesake in another namespace |
| Isolation.NamesakesNeverAgree | operator/internal/deployment/builder.go:89-93 | two namesakes of which one may write and one may not never both have what their specs ask for |
| Convergence.FinishIsSettle | operator/internal/controller/agent_controller.go:135-249 | a pass with no faults and no interference is the undisturbed pass the next results speak of |
| Convergence.SettlePass | operator/internal/controller/agent_controller.go:151-187 | an undisturbed pass brings bindings and claim in line with the spec and then rebuilds, creates or observes |
| Convergence.RoundAdvances | operator/internal/controller/agent_controller.go:164-249 | every pass keeps the invariants and the spec, ends with the derived objects in agreement, lowers the stage (rebuild, create, roll, mark ready) unless it is zero, and leaves a Deployment of the current spec iff there was one, none, or one the status gave away |
| Convergence.RoundIsARun | operator/internal/controller/agent_controller.go:135-249 | a readiness change and a pass are a run of the system |
| Convergence.Convergence | operator/internal/controller/agent_controller.go:135-249 | from every state any run can reach, with edits, faults and crashes anywhere, however readiness comes and goes at first, four rounds with the same positive ready count reach Ready with observed generation, references, stamp, a True Ready condition and derived objects current; the Deployment is then of the current spec iff it was so, missing, or given away by the status at the start |
| Convergence.HarmlessRunsConvergeToTheSpec | operator/internal/controller/agent_controller.go:135-249 | after a run of harmless steps it is of the current spec, with its mounts in place |
| Convergence.StageZeroIsSettled | operator/internal/controller/agent_controller.go:237-245 | nothing is left to do iff the Agent is Ready with everything current |
| Convergence.SettledWritesNothing | operator/internal/controller/agent_controller.go:209-249 | once there, a pass changes no object at all and asks for the next poll |
| Convergence.NextPoll | operator/internal/controller/agent_controller.go:164-249 | an undisturbed pass asks to be run again at once after a reset, 3 seconds after a creation or a roll, 10 while pods are ready, and 5 while they are not, when it leaves Agent and Deployment as they are |
| Convergence.DerivedAfterEveryPass | operator/internal/services/rbac_service.go:55-72 | after every undisturbed pass from any reachable state: write binding iff writing enabled, claim iff history enabled, variable, mount and volume of a Deployment together or not at all, and what it mounts exists iff it mounts nothing or history is enabled |
| Convergence.BuiltNowMounts | operator/internal/services/storage_service.go:37-103 | a Deployment of the current spec then mounts the claim iff history is enabled, and the claim exists |
| Convergence.AdoptedOrphanIsStale | operator/internal/services/deployment_service.go:39-42 | the trace: an edit over a left-behind Deployment is claimed as observed by the pass that adopts it, and the next pass only observes it |
| SecretEvents.EqualByteMap | operator/internal/controller/predicates.go:54-68 | true iff the maps are equal as finite maps, in whatever order keys are visited |
| SecretEvents.EqualStringMap | operator/internal/controller/predicates.go:70-80 | true iff sizes agree and every lookup with the zero-value default does |
| SecretEvents.LooksEqualIffEqual | operator/internal/controller/predicates.go:70-80 | that is map equality iff the maps are not of one size and with the same non-empty values while an empty value of the first is missing in the second; in particular whenever the first map has no empty values |
| SecretEvents.EmptyValuesLookMissing | operator/internal/controller/predicates.go:74-77 | two different maps it takes for equal |
| SecretEvents.OnUpdate | operator/internal/controller/predicates.go:27-45 | the filter fires iff both objects are Secrets, the resourceVersions differ, and the data differ (or the write-only strings look different) |
| SecretEvents.FiresIffDataMoves | operator/internal/controller/predicates.go:27-45 | of two stored versions of a Secret the filter reports exactly those that differ in resourceVersion and in data, and never anything else |
| SecretEvents.QuietUpdateStillRolls | operator/internal/controller/agent_controller.go:270-274 | an update without new data is not reported, and the next pass stamps its resourceVersion and rolls all the same |
| SecretEvents.SecretToAgents | operator/internal/controller/agent_controller.go:96-116 | enqueues the Agents of the namespace whose resolved Secret this is, in list order; nothing for other objects or a failed listing |
| SecretEvents.UsingIsSelection | operator/internal/controller/agent_controller.go:102-114 | what it enqueues are exactly the Agents of the namespace whose resolved Secret has that name, in list order |
| SecretEvents.RoutingIsExact | operator/internal/controller/agent_controller.go:96-116 | given all Agents, exactly those whose next pass reads that Secret are enqueued, once each |
| SessionFiles.NamesAreSafe | runtime/src/agent_runtime/history.py:78-87 | a temporary name is never a session file's, different ids have different files, and no accepted id leaves the directory |
| SessionFiles.AcceptedIff | runtime/src/agent_runtime/history.py:41 | the accepted ids are those of 1 to 128 letters, digits, dots, underscores and dashes, with or without one newline at the end |
| SessionFiles.LastOfLast | runtime/src/agent_runtime/history.py:126-127 | trimming at every step equals trimming once at the end |
| HistoryStore.Store.Load | runtime/src/agent_runtime/history.py:89-115 | which of the four results a load gives, and that only well-formed messages come back |
| HistoryStore.Store.Save | runtime/src/agent_runtime/history.py:117-171 | a save either puts the whole text of the last 200 messages under the session's name, or leaves every file but its own temporary one as it was; and which result each failure gives |
| HistoryStore.Store.PersistTurn | runtime/src/agent_runtime/server.py:244-285 | saves iff there is a session, persistence, an accepted id and no failure; the session file becomes that of the turn, every other session's file stays |
| HistoryStore.SavedIsLoaded | runtime/src/agent_runtime/history.py:89-171 | what is saved is what is loaded, up to the cap |
| HistoryStore.TurnLoads | runtime/src/agent_runtime/server.py:266-285 | after a saved turn, loading gives the last 200 of what was loaded before and the turn's entries |
| HistoryStore.LoadKeepsTheValid | runtime/src/agent_runtime/history.py:94-115 | a load gives nothing for a missing or unreadable file, and otherwise exactly the elements with a text content and one of the four roles, unchanged and in order |
| HistoryStore.TurnAddsWhatWasSaid | runtime/src/agent_runtime/server.py:274-281 | a saved turn adds exactly the request's messages of user, assistant and system, with role and content unchanged and in order, and the answer if there is one; of all that the last 200 are loaded |
| HistoryStore.TurnAddsTheRequest | runtime/src/agent_runtime/server.py:274-281 | a request in which only these speak is found in the session message by message, after what was there, and the answer last |
| HistoryStore.BoundedLog | runtime/src/agent_runtime/server.py:244-285 | after any turns whose reads succeed, loading gives the last 200 entries of the initial valid messages and all saved turns; before the first saved turn, the initial valid messages untrimmed |
| HistoryStore.FailedReadForgets | runtime/src/agent_runtime/history.py:99-108 | a failed read in a saved turn loses all that the file held |
| HistoryCrash.StepKeepsInv | runtime/src/agent_runtime/history.py:134-171 | under every file operation, failure, crash or power loss, each running save has a temporary file of its own with what it has written so far |
| HistoryCrash.StepWholeIff | runtime/src/agent_runtime/history.py:149-159 | an event leaves a whole session file whole iff it is not a loss of power that cuts its unsynced text short |
| HistoryCrash.CrashSafety | runtime/src/agent_runtime/history.py:117-171 | under any interleaving of saves with a failure, crash or power loss anywhere, a session file holds at every moment the whole text of the last finished save for it, or what was there before, iff no loss of power cuts its unsynced text short; finished saves have at most 200 messages |
| HistoryCrash.FinishedSavesWereAskedFor | runtime/src/agent_runtime/history.py:125-131 | over every run, a finished save was begun under its accepted id, and stores the last 200 of the messages it was begun with |
| HistoryCrash.UndisturbedSaveFinishes | runtime/src/agent_runtime/history.py:134-159 | a save that nothing disturbs finishes, leaves its whole text under the session's name, and no temporary file |
| HistoryCrash.SurvivesIffSynced | runtime/src/agent_runtime/history.py:153-159 | a session file survives every possible loss of power iff it is synced or empty |
| HistoryCrash.SyncedSessionsAreDurable | runtime/src/agent_runtime/history.py:153-159 | a session whose own syncs succeed stays whole through any losses of power, whatever the syncs of others do |
| HistoryCrash.UnsyncedRenameIsNotDurable | runtime/src/agent_runtime/history.py:155-159 | after an ignored sync failure, power loss can leave any prefix of the text under the session's name |
| Executor.SplitMessages | runtime/src/agent_runtime/agent/_langchain_executor.py:35-65 | history and input together are exactly the messages of user and assistant, each as its kind, content unchanged, in order; it fails exactly when what is not a system message is missing or does not end with the user |
| Executor.NonSystemIsSelection | runtime/src/agent_runtime/agent/_langchain_executor.py:46-47 | what is left of a request are exactly the messages of other roles than system, in order |
| Executor.SystemIsSilent | runtime/src/agent_runtime/agent/_langchain_executor.py:46-47 | dropping system messages drops nothing that was said |
| Executor.FlattenIntermediate | runtime/src/agent_runtime/agent/_langchain_executor.py:81-90 | two parallel lists, one entry a step of either shape: the tool and its input, and the tool and the first 2000 characters of the observation |
| Executor.Stream | runtime/src/agent_runtime/agent/_langchain_executor.py:154-167 | yields the events of a run in order and passes its exception on; a rejected request yields nothing |
| Executor.StreamAgreesWithRun | runtime/src/agent_runtime/agent/_langchain_executor.py:81-167 | however steps are grouped into events, the calls and results streamed are those `run` returns for all steps, each result directly after its call |
| Executor.StepsByPosition | runtime/src/agent_runtime/agent/_langchain_executor.py:156-159 | the steps of a run are those of its events, each event's together and after those before it |
| Executor.StreamedByPosition | runtime/src/agent_runtime/agent/_langchain_executor.py:156-165 | the i-th call and the i-th result streamed report the i-th step, field by field |
| Executor.AnswersAreOutputs | runtime/src/agent_runtime/agent/_langchain_executor.py:157-167 | the answers streamed are the outputs of the events without steps, in order; an output beside steps is not announced |
| Executor.OutputsAreSelection | runtime/src/agent_runtime/agent/_langchain_executor.py:166-167 | those outputs are exactly those of the events with an output and without steps, in order |
| EventStream.EventSource | runtime/src/agent_runtime/server.py:339-355 | a consumer of any number of frames gets that prefix of the frames, error frame and terminator included; the turn is persisted iff the consumer got as far as the terminator, with the text of the last reached yield that carries a textual answer, or nothing if none does |
| EventStream.CollectedIffAnswer | runtime/src/agent_runtime/server.py:340-344 | there is exactly one such answer, and it is what the loop collects |
| EventStream.SentByPosition | runtime/src/agent_runtime/server.py:342-347 | what is sent are the events before the first exception, as they are, and then that exception as an error |
| EventStream.SplitResumes | runtime/src/agent_runtime/webui/index.html:484-486 | splitting a longer text resumes from the unfinished line |
| EventStream.SplitLosesNothing | runtime/src/agent_runtime/webui/index.html:485-486 | the pieces of a split hold no newline and, joined with newlines, are the text |
| EventStream.TrimTakesSpace | runtime/src/agent_runtime/webui/index.html:488-490 | trimming takes white space off both ends and nothing else |
| EventStream.NoiseIsIgnored | runtime/src/agent_runtime/webui/index.html:488-494 | a line that is no data line, the terminator, or no JSON makes no difference wherever it comes; a null payload ends the reading |
| EventStream.ActedUpToTheFirstError | runtime/src/agent_runtime/webui/index.html:494-510 | the browser acts on every event it knows up to the first error, that one included |
| EventStream.StreamChat | runtime/src/agent_runtime/webui/index.html:477-513 | what the browser acts on is a function of the text alone, however it is cut into chunks; the buffer holds the unfinished line; an error event or null payload stops it there |
| EventStream.RoundTrip | runtime/src/agent_runtime/webui/index.html:477-513 | of a framed list of events and a terminator the browser acts on exactly those events up to the first error, with nothing left unread; of a text broken off anywhere, on a prefix of them |
| EventStream.BrowserAndLogAgree | runtime/src/agent_runtime/server.py:339-355 | of a stream read to its end the browser sees every event before an exception and then the error; the answer handed to the log is the last one it saw |
| EventStream.BrowserSeesTheRun | runtime/src/agent_runtime/agent/_langchain_executor.py:144-167 | end to end, the calls, results and answers the browser lists for a streamed run are those of the same run not streamed |
| Chat.StreamedTurn | runtime/src/agent_runtime/server.py:339-357 | a streamed turn hands out a prefix of the frames and saves the turn with the collected answer iff the consumer got the terminator, there is an accepted session and persistence, and loading and saving do not fail; the session file is then that of the turn, and all others stay |
| Chat.BrowserAndFileAgree | runtime/src/agent_runtime/server.py:244-355 | after a saved turn the session loads, of what it did before, the request's messages that were said, and the last textual answer among the events the browser acted on, the last 200 |

## Left out

- Controller.AgentReconciler.RollIfCredentialsChanged: the retried patch is one request here, so stale reads and conflicts inside it do not show; `PatchStamp` is the loop, and `StampCallIsServed` ties the two.
- EventStream.BrowserAndLogAgree: is about streams of calls, results and answers; an agent that yields an error event of its own stops the browser there, as `RoundTrip` says.
- More than one worker: passes run one at a time, as the controller's default has it; contention with others is the subject of `Occ`.
- Stale cached snapshots at the start of a pass; stale reads are kept where a write follows, in `Occ`.
- The Agent's task and config fields: the operator never reads them; they are one `unread` field that moves the generation.
- Resource requests, probes, ports of the container, and `resource.MustParse`, which panics on a malformed size.
- Owner references other than the owner's key, garbage collection after Agent deletion, and failures to set a reference.
- Deletion of a Service by others; nothing in the code repairs it.
- `MarkPending`: part of `StatusService`, but nothing in the repository calls it in a pass.
- Propagation of deletions: a deleted object is gone at once.
- The value of the retry budget: a parameter of at least one. Backoff and all other durations are left out, except how soon a pass asks to be run again.
- resourceVersions of objects other than Secrets in the system of `Reconcile`; in `Occ` they are positions in the history.
- A default credentials Secret other than the one main.go sets.
- The manager's watch wiring and the work queue: a pass may be started for any Agent at any time. Of the event filter only Update; Create lets every object through and Delete none.
- UTF-8 and JSON themselves; payloads of history files that are JSON but not an object with a list of messages.
- Durability of the rename itself: a rename is taken to reach the disk with the file it names.
- Steps of a tuple shape with fewer than two elements, and events that are not mappings.
- HTTP plumbing, classification, prompts, langchain and the model behind it: the executor is any sequence of events with or without an exception.
- The role filter and agent lookup before a stream starts, and the non-streaming handler, beyond what `run` returns.
- All of the web page but the reader of `streamChat`.
- Container, tool and Kubernetes client code under the runtime's tools directory.
