/** Reconcile and its services as the step-by-step code they are, each method shown to carry the
    automaton of module Reconcile from one of its states to another. */
module Controller {
  import opened Wrappers
  import opened AgentTypes
  import opened Builder
  import opened StatusService
  import opened Cluster
  import opened Reconcile

  /** The API server with a script of what happens around the coming requests; when the script
      is used up, requests are answered at once at time `clock`. */
  class ApiServer {
    var objects: Objects
    var audit: seq<Effect>
    var script: seq<Turn>
    const clock: Time

    constructor (objects: Objects, script: seq<Turn>, clock: Time)
      ensures this.objects == objects && this.audit == [] && this.script == script && this.clock == clock
    {
      this.objects, this.audit, this.script, this.clock := objects, [], script, clock;
    }

    /** Where the automaton ends up if it is now at `pc`. */
    ghost function Outcome(pc: Pc): (System, seq<Turn>)
      reads this
    {
      Finish(System(objects, audit, pc), script, clock)
    }

    /** The time at which the coming request is made. */
    method Now() returns (now: Time)
      ensures now == TurnAt(script, clock).now
    {
      now := if script == [] then clock else script[0].now;
    }

    /** Makes one request, the one the automaton waits on at `pc`. */
    method Do(req: Request, ghost pc: Pc) returns (r: Reply)
      requires pc.Working() && req == RequestOf(pc, TurnAt(script, clock).now)
      modifies this
      ensures var t := TurnAt(old(script), clock);
              var s := DisturbedAll(System(old(objects), old(audit), pc), t.before);
              var served := Respond(s.objects, req, t.fault);
              && objects == served.objects && audit == s.audit + served.effects && r == served.reply
              && script == Rest(old(script))
      ensures Outcome(Next(pc, r)) == old(Outcome(pc))
    {
      var t := TurnAt(script, clock);
      ghost var s := DisturbedAll(System(objects, audit, pc), t.before);
      AdvancedRank(s, t.fault, t.now);
      var i := 0;
      while i < |t.before|
        invariant 0 <= i <= |t.before|
        invariant DisturbedAll(System(objects, audit, pc), t.before[i..]) == s
        invariant script == old(script)
      {
        assert t.before[i..][1..] == t.before[i + 1..];
        audit := audit + EffectsOf(objects, t.before[i]);
        objects := Changed(objects, t.before[i]);
        i := i + 1;
      }
      var served := Respond(objects, req, t.fault);
      objects, audit, r := served.objects, audit + served.effects, served.reply;
      if script != [] { script := script[1..]; }
    }
  }

  /** rbac_service.go */
  class RbacService {
    const client: ApiServer

    constructor (client: ApiServer)
      ensures this.client == client
    {
      this.client := client;
    }

    method CreateServiceAccount(a: Agent) returns (ok: bool)
      modifies client
      ensures client.Outcome(if ok then BindingRead(a) else Ended(Failure)) == old(client.Outcome(CreatingAccount(a)))
    {
      var r := client.Do(CreateAccount(AccountKey(a.key), ServiceAccount(a.key)), CreatingAccount(a));
      ok := r == Done || r == AlreadyExists;
    }

    /** Used for either binding: `pc` is the state that creates this one. */
    method CreateRoleBinding(a: Agent, clusterRole: string, suffix: string, ghost pc: Pc) returns (ok: bool)
      requires || (pc == BindingRead(a) && clusterRole == READ_CLUSTER_ROLE && suffix == READ_BINDING_SUFFIX)
               || (pc == BindingWrite(a) && clusterRole == WRITE_CLUSTER_ROLE && suffix == WRITE_BINDING_SUFFIX)
      modifies client
      ensures client.Outcome(if ok then Next(pc, Done) else Ended(Failure)) == old(client.Outcome(pc))
    {
      var r := client.Do(CreateBinding(BindingName(a.key, suffix), BuildBinding(a.key, clusterRole)), pc);
      ok := r == Done || r == AlreadyExists;
    }

    /** Finds and then deletes; a binding gone in between is an error. */
    method DeleteRoleBinding(a: Agent) returns (ok: bool)
      modifies client
      ensures client.Outcome(if ok then AfterBindings(a) else Ended(Failure)) == old(client.Outcome(FindingWrite(a)))
    {
      var r := client.Do(GetBinding(WriteBinding(a.key)), FindingWrite(a));
      if r == NotFound { return true; }
      if !r.TheBinding? { return false; }
      r := client.Do(DeleteBinding(WriteBinding(a.key)), UnbindingWrite(a));
      ok := r == Done;
    }

    method ReconcileRBAC(a: Agent) returns (ok: bool)
      modifies client
      ensures client.Outcome(if ok then AfterBindings(a) else Ended(Failure)) == old(client.Outcome(CreatingAccount(a)))
    {
      ok := CreateServiceAccount(a);
      if !ok { return; }
      ok := CreateRoleBinding(a, READ_CLUSTER_ROLE, READ_BINDING_SUFFIX, BindingRead(a));
      if !ok { return; }
      if a.Spec().writeEnabled {
        ok := CreateRoleBinding(a, WRITE_CLUSTER_ROLE, WRITE_BINDING_SUFFIX, BindingWrite(a));
      } else {
        ok := DeleteRoleBinding(a);
      }
    }
  }

  /** storage_service.go */
  class StorageService {
    const client: ApiServer

    constructor (client: ApiServer)
      ensures this.client == client
    {
      this.client := client;
    }

    method EnsurePVC(a: Agent) returns (ok: bool)
      modifies client
      ensures client.Outcome(if ok then AfterClaim(a) else Ended(Failure)) == old(client.Outcome(CreatingClaim(a)))
    {
      var size := DEFAULT_HISTORY_SIZE;
      var sc := "";
      var history := a.Spec().history;
      if history.Some? {
        if history.value.size != "" { size := history.value.size; }
        if history.value.storageClassName.Some? { sc := history.value.storageClassName.value; }
      }
      var claim := Claim(LabelsFor(a.key), size, None, a.key);
      if sc != "" { claim := claim.(storageClass := Some(sc)); }
      var r := client.Do(CreateClaim(ClaimKey(a.key), claim), CreatingClaim(a));
      ok := r == Done || r == AlreadyExists;
    }

    method DeletePVC(a: Agent) returns (ok: bool)
      modifies client
      ensures client.Outcome(if ok then AfterClaim(a) else Ended(Failure)) == old(client.Outcome(DeletingClaim(a)))
    {
      var r := client.Do(DeleteClaim(ClaimKey(a.key)), DeletingClaim(a));
      ok := r == Done || r == NotFound;
    }

    method ReconcilePVC(a: Agent) returns (ok: bool)
      modifies client
      ensures client.Outcome(if ok then AfterClaim(a) else Ended(Failure)) == old(client.Outcome(AfterBindings(a)))
    {
      if a.Spec().HistoryOn() {
        ok := EnsurePVC(a);
      } else {
        ok := DeletePVC(a);
      }
    }
  }

  /** deployment_service.go */
  class DeploymentService {
    const client: ApiServer

    constructor (client: ApiServer)
      ensures this.client == client
    {
      this.client := client;
    }

    /** Creates the Deployment and then the Service; an existing Deployment ends the call before
        the Service is looked at. */
    method CreateDeployment(a: Agent) returns (failure: Option<string>)
      modifies client
      ensures client.Outcome(if failure.None? then MarkingRunning(a) else MarkingFailed(a, failure.value)) ==
              old(client.Outcome(Creating(a)))
    {
      var d := BuildDeployment(a.key, a.Spec());
      var r := client.Do(Request.CreateDeployment(DeploymentKey(a.key), d, a.Generation()), Creating(a));
      if r == AlreadyExists { return None; }
      if r != Done { return Some("create deployment: " + if r.Unavailable? then r.message else ""); }
      r := client.Do(CreateService(ServiceKey(a.key), BuildService(a.key)), CreatingService(a));
      if r == Done || r == AlreadyExists { return None; }
      return Some("create service: " + if r.Unavailable? then r.message else "");
    }

    method GetDeployment(a: Agent) returns (r: Reply)
      modifies client
      ensures client.Outcome(Next(Observing(a), r)) == old(client.Outcome(Observing(a)))
    {
      r := client.Do(Request.GetDeployment(Key(a.key.namespace, a.status.deploymentRef)), Observing(a));
    }

    method DeleteDeployment(a: Agent) returns (ok: bool)
      modifies client
      ensures client.Outcome(if ok then Resetting(a) else Ended(Failure)) == old(client.Outcome(FindingOld(a)))
    {
      var r := client.Do(Request.GetDeployment(DeploymentKey(a.key)), FindingOld(a));
      if r == NotFound { return true; }
      if !r.TheDeployment? { return false; }
      r := client.Do(Request.DeleteDeployment(DeploymentKey(a.key)), DeletingOld(a));
      ok := r == Done || r == NotFound;
    }
  }

  /** The status writes of status_service.go that a pass makes. */
  class StatusWriter {
    const client: ApiServer

    constructor (client: ApiServer)
      ensures this.client == client
    {
      this.client := client;
    }

    method MarkRunning(a: Agent, depName: string) returns (ok: bool)
      requires depName == DeploymentName(a.key)
      modifies client
      ensures client.Outcome(Ended(if ok then RequeueAfter(REQUEUE_AFTER_DEPLOYMENT_CREATE) else Failure)) ==
              old(client.Outcome(MarkingRunning(a)))
    {
      var now := client.Now();
      var r := client.Do(UpdateStatus(a.key, Mutation.MarkRunning(depName, now)), MarkingRunning(a));
      ok := r == Done;
    }

    method MarkReady(a: Agent, replicas: nat) returns (ok: bool)
      modifies client
      ensures client.Outcome(Ended(if ok then RequeueAfter(REQUEUE_AFTER_OBSERVED_READY) else Failure)) ==
              old(client.Outcome(MarkingReady(a, replicas)))
    {
      var now := client.Now();
      var r := client.Do(UpdateStatus(a.key, Mutation.MarkReady(replicas, now)), MarkingReady(a, replicas));
      ok := r == Done;
    }

    method MarkFailed(a: Agent, reason: string)
      modifies client
      ensures client.Outcome(Ended(Failure)) == old(client.Outcome(MarkingFailed(a, reason)))
    {
      var now := client.Now();
      var _ := client.Do(UpdateStatus(a.key, Mutation.MarkFailed(reason, now)), MarkingFailed(a, reason));
    }

    method ResetForRerun(a: Agent) returns (ok: bool)
      modifies client
      ensures client.Outcome(Ended(if ok then Requeue else Failure)) == old(client.Outcome(Resetting(a)))
    {
      var r := client.Do(UpdateStatus(a.key, Mutation.ResetForRerun), Resetting(a));
      ok := r == Done;
    }
  }

  /** agent_controller.go */
  class AgentReconciler {
    const client: ApiServer
    const rbacService: RbacService
    const storageService: StorageService
    const depService: DeploymentService
    const statusService: StatusWriter

    ghost predicate Wired() {
      && rbacService.client == client && storageService.client == client
      && depService.client == client && statusService.client == client
    }

    constructor (client: ApiServer)
      ensures Wired() && this.client == client
    {
      this.client := client;
      this.rbacService := new RbacService(client);
      this.storageService := new StorageService(client);
      this.depService := new DeploymentService(client);
      this.statusService := new StatusWriter(client);
    }

    /** One pass. Its result, the objects and the rest of the script are those of the automaton
        started on the same Agent; and so a pass is a run of the system. */
    method Reconcile(k: Key) returns (result: Result)
      requires Wired()
      modifies client
      ensures (System(client.objects, client.audit, Ended(result)), client.script) ==
              Finish(System(old(client.objects), old(client.audit), Fetching(k)), old(client.script), client.clock)
    {
      var r := client.Do(GetAgent(k), Fetching(k));
      if r == NotFound { return Stop; }
      if !r.TheAgent? { return Failure; }
      var a := r.agent;
      if a.deleting { return Stop; }
      var ok := rbacService.ReconcileRBAC(a);
      if !ok { return Failure; }
      ok := storageService.ReconcilePVC(a);
      if !ok { return Failure; }
      if a.status.deploymentRef != "" && a.status.observedGeneration != a.Generation() {
        ok := depService.DeleteDeployment(a);
        if !ok { return Failure; }
        ok := statusService.ResetForRerun(a);
        return if ok then Requeue else Failure;
      }
      if a.status.deploymentRef == "" {
        result := StartDeployment(a);
      } else {
        result := ObserveDeployment(a);
      }
    }

    method StartDeployment(a: Agent) returns (result: Result)
      requires Wired()
      modifies client
      ensures client.Outcome(Ended(result)) == old(client.Outcome(Creating(a)))
    {
      var failure := depService.CreateDeployment(a);
      if failure.Some? {
        statusService.MarkFailed(a, failure.value);
        return Failure;
      }
      var ok := statusService.MarkRunning(a, DeploymentName(a.key));
      return if ok then RequeueAfter(REQUEUE_AFTER_DEPLOYMENT_CREATE) else Failure;
    }

    method ObserveDeployment(a: Agent) returns (result: Result)
      requires Wired()
      modifies client
      ensures client.Outcome(Ended(result)) == old(client.Outcome(Observing(a)))
    {
      var r := depService.GetDeployment(a);
      if r == NotFound {
        var ok := statusService.ResetForRerun(a);
        return if ok then Requeue else Failure;
      }
      if !r.TheDeployment? { return Failure; }
      var d := r.deployment;
      var rolled, failed := RollIfCredentialsChanged(a, d);
      if failed { return Failure; }
      if rolled { return RequeueAfter(REQUEUE_AFTER_CREDENTIAL_ROLL); }
      if d.readyReplicas > 0 {
        if a.status.phase != Ready || a.status.readyReplicas != d.readyReplicas {
          var ok := statusService.MarkReady(a, d.readyReplicas);
          if !ok { return Failure; }
        }
        return RequeueAfter(REQUEUE_AFTER_OBSERVED_READY);
      }
      return RequeueAfter(REQUEUE_AFTER_OBSERVED_NOT_READY);
    }

    /** The retried patch is the one request StampDeployment here; AgentWriters.PatchStamp is
        the loop behind it. */
    method RollIfCredentialsChanged(a: Agent, d: Deployment) returns (rolled: bool, failed: bool)
      modifies client
      ensures rolled ==> !failed
      ensures client.Outcome(if failed then Ended(Failure)
                             else if rolled then Ended(RequeueAfter(REQUEUE_AFTER_CREDENTIAL_ROLL))
                             else AfterRoll(a, d)) == old(client.Outcome(ReadingSecret(a, d)))
    {
      var r := client.Do(GetSecret(SecretKey(a.key, a.Spec())), ReadingSecret(a, d));
      if r == NotFound { return false, false; }
      if !r.TheSecret? { return false, true; }
      var rv := r.secret.version;
      if d.Stamp() == Some(rv) { return false, false; }
      r := client.Do(StampDeployment(Key(a.key.namespace, a.status.deploymentRef), rv), Rolling(a, d, rv));
      return r == Done, r != Done && r != Unneeded;
    }
  }
}
