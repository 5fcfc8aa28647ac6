/** Undisturbed passes bring an Agent to Ready, and then write nothing more. */
module Convergence {
  import opened Wrappers
  import opened AgentTypes
  import opened Builder
  import opened StatusService
  import opened Cluster
  import opened Reconcile
  import opened StatusShape
  import opened Snapshot
  import opened Freshness
  import opened Rollouts

  // ---------------------------------------------------------------- an undisturbed pass

  /** The rest of a pass whose requests are all answered, with nobody else acting. */
  function Settle(o: Objects, pc: Pc, now: Time): (Objects, Pc)
    decreases Rank(pc)
  {
    if !pc.Working() then (o, pc)
    else
      var r := Serve(o, RequestOf(pc, now));
      NextRank(pc, r.reply);
      Settle(r.objects, Next(pc, r.reply), now)
  }

  lemma {:induction false} FinishIsSettle(s: System, now: Time)
    ensures var s' := Finish(s, [], now).0; (s'.objects, s'.pc) == Settle(s.objects, s.pc, now)
    decreases Rank(s.pc)
  {
    if s.pc.Working() {
      AdvancedRank(s, NoFault, now);
      FinishIsSettle(Advanced(s, NoFault, now), now);
    }
  }

  function WithBindings(o: Objects, a: Agent): Objects {
    var withRead := Inserted(o.bindings, ReadBinding(a.key), BuildBinding(a.key, READ_CLUSTER_ROLE));
    o.(accounts := Inserted(o.accounts, AccountKey(a.key), ServiceAccount(a.key)),
    bindings := if a.Spec().writeEnabled then
                  Inserted(withRead, WriteBinding(a.key), BuildBinding(a.key, WRITE_CLUSTER_ROLE))
                else Removed(withRead, WriteBinding(a.key)))
  }

  function WithClaim(o: Objects, a: Agent): Objects {
    o.(claims := if a.Spec().HistoryOn() then Inserted(o.claims, ClaimKey(a.key), BuildClaim(a.key, a.Spec()))
                 else Removed(o.claims, ClaimKey(a.key)))
  }

  function WithStatus(o: Objects, k: Key, m: Mutation): Objects {
    o.(agents := StatusSet(o.agents, k, m))
  }

  lemma SettleStep(o: Objects, pc: Pc, now: Time, req: Request)
    requires pc.Working() && req == RequestOf(pc, now)
    ensures Settle(o, pc, now) == Settle(Serve(o, req).objects, Next(pc, Serve(o, req).reply), now)
  {
  }

  lemma SettleFetch(o: Objects, k: Key, now: Time)
    requires k in o.agents && !o.agents[k].deleting
    ensures Settle(o, Fetching(k), now) == Settle(o, CreatingAccount(o.agents[k]), now)
  {
    SettleStep(o, Fetching(k), now, GetAgent(k));
  }

  function WithWriteBinding(o: Objects, a: Agent): Objects {
    o.(bindings := if a.Spec().writeEnabled then
                     Inserted(o.bindings, WriteBinding(a.key), BuildBinding(a.key, WRITE_CLUSTER_ROLE))
                   else Removed(o.bindings, WriteBinding(a.key)))
  }

  lemma SettleWriteBinding(o: Objects, a: Agent, now: Time)
    ensures Settle(o, if a.Spec().writeEnabled then BindingWrite(a) else FindingWrite(a), now) ==
            Settle(WithWriteBinding(o, a), AfterBindings(a), now)
  {
    hide Settle;
    var k := a.key;
    if a.Spec().writeEnabled {
      SettleStep(o, BindingWrite(a), now, CreateBinding(WriteBinding(k), BuildBinding(k, WRITE_CLUSTER_ROLE)));
    } else {
      SettleStep(o, FindingWrite(a), now, GetBinding(WriteBinding(k)));
      if WriteBinding(k) in o.bindings {
        SettleStep(o, UnbindingWrite(a), now, DeleteBinding(WriteBinding(k)));
      }
    }
  }

  lemma SettleBindings(o: Objects, a: Agent, now: Time)
    ensures Settle(o, CreatingAccount(a), now) == Settle(WithBindings(o, a), AfterBindings(a), now)
  {
    hide Settle;
    var k := a.key;
    SettleStep(o, CreatingAccount(a), now, CreateAccount(AccountKey(k), ServiceAccount(k)));
    var o1 := o.(accounts := Inserted(o.accounts, AccountKey(k), ServiceAccount(k)));
    var read := BuildBinding(k, READ_CLUSTER_ROLE);
    SettleStep(o1, BindingRead(a), now, CreateBinding(ReadBinding(k), read));
    SettleWriteBinding(o1.(bindings := Inserted(o1.bindings, ReadBinding(k), read)), a, now);
  }

  lemma SettleClaim(o: Objects, a: Agent, now: Time)
    ensures Settle(o, AfterBindings(a), now) == Settle(WithClaim(o, a), AfterClaim(a), now)
  {
    hide Settle;
    if a.Spec().HistoryOn() {
      SettleStep(o, CreatingClaim(a), now, CreateClaim(ClaimKey(a.key), BuildClaim(a.key, a.Spec())));
    } else {
      SettleStep(o, DeletingClaim(a), now, DeleteClaim(ClaimKey(a.key)));
    }
  }

  lemma SettleReset(o: Objects, a: Agent, now: Time)
    requires a.key in o.agents
    ensures Settle(o, Resetting(a), now) == (WithStatus(o, a.key, ResetForRerun), Ended(Requeue))
  {
    SettleStep(o, Resetting(a), now, UpdateStatus(a.key, ResetForRerun));
  }

  /** The old Deployment goes and the references with it. */
  lemma SettleRebuild(o: Objects, a: Agent, now: Time)
    requires a.key in o.agents
    ensures Settle(o, FindingOld(a), now) ==
            (WithStatus(o.(deployments := Removed(o.deployments, DeploymentKey(a.key))), a.key, ResetForRerun),
             Ended(Requeue))
  {
    hide Settle;
    var key := DeploymentKey(a.key);
    SettleStep(o, FindingOld(a), now, GetDeployment(key));
    if key in o.deployments {
      SettleStep(o, DeletingOld(a), now, DeleteDeployment(key));
    }
    SettleReset(o.(deployments := Removed(o.deployments, key)), a, now);
  }

  /** The Deployment is created or adopted; only a creation makes the Service. */
  function WithDeployment(o: Objects, a: Agent): Objects {
    o.(deployments := Inserted(o.deployments, DeploymentKey(a.key), Build(a.key, a.Spec())),
    services := if DeploymentKey(a.key) in o.deployments then o.services
                else Inserted(o.services, ServiceKey(a.key), BuildService(a.key)))
  }

  lemma SettleMarkRunning(o: Objects, a: Agent, now: Time)
    requires a.key in o.agents
    ensures Settle(o, MarkingRunning(a), now) ==
            (WithStatus(o, a.key, MarkRunning(DeploymentName(a.key), now)),
             Ended(RequeueAfter(REQUEUE_AFTER_DEPLOYMENT_CREATE)))
  {
    SettleStep(o, MarkingRunning(a), now, UpdateStatus(a.key, MarkRunning(DeploymentName(a.key), now)));
  }

  lemma SettleCreate(o: Objects, a: Agent, now: Time)
    requires a.key in o.agents
    ensures Settle(o, Creating(a), now) ==
            (WithStatus(WithDeployment(o, a), a.key, MarkRunning(DeploymentName(a.key), now)),
             Ended(RequeueAfter(REQUEUE_AFTER_DEPLOYMENT_CREATE)))
  {
    hide Settle;
    var key := DeploymentKey(a.key);
    SettleStep(o, Creating(a), now, CreateDeployment(key, Build(a.key, a.Spec()), a.Generation()));
    var o1 := o.(deployments := Inserted(o.deployments, key, Build(a.key, a.Spec())));
    if key !in o.deployments {
      SettleStep(o1, CreatingService(a), now, CreateService(ServiceKey(a.key), BuildService(a.key)));
    }
    SettleMarkRunning(WithDeployment(o, a), a, now);
  }

  /** What an observation of the Deployment `d` does when it rolls nothing. */
  function Observed(o: Objects, a: Agent, d: Deployment, now: Time): (Objects, Pc) {
    if d.readyReplicas > 0 && (a.status.phase != Ready || a.status.readyReplicas != d.readyReplicas) then
      (WithStatus(o, a.key, MarkReady(d.readyReplicas, now)), Ended(RequeueAfter(REQUEUE_AFTER_OBSERVED_READY)))
    else (o, AfterRoll(a, d))
  }

  lemma SettleObserved(o: Objects, a: Agent, d: Deployment, now: Time)
    requires a.key in o.agents
    ensures Settle(o, AfterRoll(a, d), now) == Observed(o, a, d, now)
  {
    if AfterRoll(a, d).MarkingReady? {
      SettleStep(o, AfterRoll(a, d), now, UpdateStatus(a.key, MarkReady(d.readyReplicas, now)));
    }
  }

  /** The roll, if the stamp is not the Secret's version, and else the readiness. */
  function Rolled(o: Objects, a: Agent, d: Deployment, now: Time): (Objects, Pc) {
    if SecretOf(o, a).Some? && d.Stamp() != Some(SecretOf(o, a).value.version) then
      (o.(deployments := o.deployments[DeploymentKey(a.key) := d.Stamped(SecretOf(o, a).value.version)]),
       Ended(RequeueAfter(REQUEUE_AFTER_CREDENTIAL_ROLL)))
    else Observed(o, a, d, now)
  }

  lemma SettleRolling(o: Objects, a: Agent, d: Deployment, v: string, now: Time)
    requires a.status.deploymentRef == DeploymentName(a.key) && DeploymentOf(o, a.key) == Some(d)
    requires d.Stamp() != Some(v)
    ensures Settle(o, Rolling(a, d, v), now) ==
            (o.(deployments := o.deployments[DeploymentKey(a.key) := d.Stamped(v)]),
             Ended(RequeueAfter(REQUEUE_AFTER_CREDENTIAL_ROLL)))
  {
    SettleStep(o, Rolling(a, d, v), now, StampDeployment(DeploymentKey(a.key), v));
  }

  lemma SettleReadSecret(o: Objects, a: Agent, d: Deployment, now: Time)
    requires a.key in o.agents && a.status.deploymentRef == DeploymentName(a.key) && DeploymentOf(o, a.key) == Some(d)
    ensures Settle(o, ReadingSecret(a, d), now) == Rolled(o, a, d, now)
  {
    hide Settle;
    SettleStep(o, ReadingSecret(a, d), now, GetSecret(SecretKey(a.key, a.Spec())));
    if SecretOf(o, a).Some? && d.Stamp() != Some(SecretOf(o, a).value.version) {
      SettleRolling(o, a, d, SecretOf(o, a).value.version, now);
    } else {
      SettleObserved(o, a, d, now);
    }
  }

  lemma SettleObserve(o: Objects, a: Agent, now: Time)
    requires a.key in o.agents && a.status.deploymentRef == DeploymentName(a.key)
    ensures Settle(o, Observing(a), now) ==
            match DeploymentOf(o, a.key)
            case None => (WithStatus(o, a.key, ResetForRerun), Ended(Requeue))
            case Some(d) => Rolled(o, a, d, now)
  {
    hide Settle;
    SettleStep(o, Observing(a), now, GetDeployment(DeploymentKey(a.key)));
    match DeploymentOf(o, a.key) {
      case None => SettleReset(o, a, now);
      case Some(d) => SettleReadSecret(o, a, d, now);
    }
  }

  /** The whole pass. */
  function Passed(o: Objects, a: Agent, now: Time): (Objects, Pc) {
    var o1 := WithClaim(WithBindings(o, a), a);
    Settle(o1, AfterClaim(a), now)
  }

  lemma SettlePass(o: Objects, k: Key, now: Time)
    requires k in o.agents && !o.agents[k].deleting
    ensures Settle(o, Fetching(k), now) == Passed(o, o.agents[k], now)
  {
    var a := o.agents[k];
    SettleFetch(o, k, now);
    SettleBindings(o, a, now);
    SettleClaim(WithBindings(o, a), a, now);
  }

  // ---------------------------------------------------------------- states reached between passes

  /** The stored Deployment is what the builder gives for some spec the Agent has had. */
  predicate BuiltOnce(a: Agent, d: Option<Deployment>) {
    d.Some? ==> exists i :: 0 <= i < |a.revisions| && d.value.Core() == Build(a.key, a.revisions[i])
  }

  /** What a reachable cluster gives a live Agent, whenever its spec was edited. */
  predicate Good(o: Objects, k: Key) {
    && k in o.agents && o.agents[k].key == k && !o.agents[k].deleting
    && Shaped(k, o.agents[k].status)
    && o.agents[k].status.observedGeneration <= o.agents[k].Generation()
    && BuiltOnce(o.agents[k], DeploymentOf(o, k))
  }

  /** The derived objects agree with the spec: the write binding exists exactly when writing is
      enabled, the claim exactly when history is; a Deployment has variable, mount and volume
      together or not at all; and what it mounts exists exactly when there is nothing to mount
      or history is still enabled. */
  predicate Derived(o: Objects, k: Key)
    requires k in o.agents
  {
    var spec := o.agents[k].Spec();
    && AccountKey(k) in o.accounts && ReadBinding(k) in o.bindings
    && (WriteBinding(k) in o.bindings <==> spec.writeEnabled)
    && (ClaimKey(k) in o.claims <==> spec.HistoryOn())
    && (DeploymentOf(o, k).Some? ==>
          var d := DeploymentOf(o, k).value;
          && HasHistoryEnv(d) == HasHistoryMount(d) == (MountedClaims(d) != {})
          && (MountsExist(o, k, d) <==> MountedClaims(d) == {} || spec.HistoryOn()))
  }

  predicate MountsExist(o: Objects, k: Key, d: Deployment) {
    forall c :: c in MountedClaims(d) ==> Key(k.namespace, c) in o.claims
  }

  /** Any stored Deployment is built from the current spec. */
  predicate BuiltNow(o: Objects, k: Key)
    requires k in o.agents
  {
    DeploymentOf(o, k).Some? ==> DeploymentOf(o, k).value.Core() == Build(k, o.agents[k].Spec())
  }

  /** And then it mounts the claim exactly when history is enabled, and what it mounts exists. */
  lemma BuiltNowMounts(o: Objects, k: Key)
    requires k in o.agents && Derived(o, k) && BuiltNow(o, k)
    ensures DeploymentOf(o, k).Some? ==>
              var d := DeploymentOf(o, k).value;
              MountsExist(o, k, d) && HasHistoryEnv(d) == o.agents[k].Spec().HistoryOn()
  {
    if DeploymentOf(o, k).Some? {
      var d := DeploymentOf(o, k).value;
      HistoryWiring(k, o.agents[k].Spec(), d);
      if o.agents[k].Spec().HistoryOn() { assert ClaimKey(k).name in MountedClaims(d); }
    }
  }

  /** The Deployment is built from the current spec, or a pass will see that it has to go. */
  predicate WillMatch(o: Objects, k: Key)
    requires k in o.agents
  {
    var st := o.agents[k].status;
    BuiltNow(o, k) || (st.deploymentRef != "" && st.observedGeneration != o.agents[k].Generation())
  }

  lemma PreparedDerives(o: Objects, k: Key)
    requires Good(o, k)
    ensures var a := o.agents[k]; var o1 := WithClaim(WithBindings(o, a), a);
            && o1.agents == o.agents && o1.deployments == o.deployments && o1.services == o.services
            && o1.secrets == o.secrets
            && AccountKey(k) in o1.accounts && ReadBinding(k) in o1.bindings
            && (WriteBinding(k) in o1.bindings <==> a.Spec().writeEnabled)
            && (ClaimKey(k) in o1.claims <==> a.Spec().HistoryOn())
  {
    ReadIsNotWrite(k, k);
  }

  /** Bindings and claim in place, and any Deployment built from some spec of the Agent. */
  lemma BuiltDerives(o: Objects, k: Key)
    requires k in o.agents && o.agents[k].key == k && BuiltOnce(o.agents[k], DeploymentOf(o, k))
    requires var spec := o.agents[k].Spec();
             && AccountKey(k) in o.accounts && ReadBinding(k) in o.bindings
             && (WriteBinding(k) in o.bindings <==> spec.writeEnabled)
             && (ClaimKey(k) in o.claims <==> spec.HistoryOn())
    ensures Derived(o, k)
  {
    if DeploymentOf(o, k).Some? {
      var a, d := o.agents[k], DeploymentOf(o, k).value;
      var i :| 0 <= i < |a.revisions| && d.Core() == Build(k, a.revisions[i]);
      HistoryWiring(k, a.revisions[i], d);
      if a.revisions[i].HistoryOn() { assert ClaimKey(k).name in MountedClaims(d); }
    }
  }

  /** The five things a pass can do, in the order in which they are needed. */
  function Stage(o: Objects, k: Key, n: nat): nat
    requires k in o.agents
  {
    var a := o.agents[k];
    if a.status.deploymentRef == "" then 3
    else if a.status.observedGeneration != a.Generation() || DeploymentOf(o, k).None? then 4
    else if OutOfDate(o, k) then 2
    else if a.status.phase != Ready || a.status.readyReplicas != n then 1
    else 0
  }

  function WithReady(o: Objects, k: Key, n: nat): Objects {
    Changed(o, ReadyChange(DeploymentKey(k), n))
  }

  /** The pods of the Deployment come to `n` ready ones, if it exists, and then a pass runs. */
  function Round(o: Objects, k: Key, n: nat, now: Time): Objects {
    Settle(WithReady(o, k, n), Fetching(k), now).0
  }

  /** What a pass leaves in place: the spec and the Secrets. */
  predicate Keeps(o: Objects, p: Objects, k: Key) {
    && k in o.agents && k in p.agents && p.agents[k].revisions == o.agents[k].revisions
    && p.agents[k].deleting == o.agents[k].deleting && p.secrets == o.secrets
  }

  lemma ReadyKeepsGood(o: Objects, k: Key, n: nat)
    requires Good(o, k)
    ensures var p := WithReady(o, k, n);
            && Good(p, k) && Keeps(o, p, k) && p.agents == o.agents
            && p.accounts == o.accounts && p.bindings == o.bindings && p.claims == o.claims && p.services == o.services
            && (forall m :: Stage(p, k, m) == Stage(o, k, m)) && (WillMatch(p, k) <==> WillMatch(o, k))
            && (DeploymentOf(p, k).Some? <==> DeploymentOf(o, k).Some?)
            && (DeploymentOf(p, k).Some? ==>
                  && DeploymentOf(p, k).value.readyReplicas == n
                  && DeploymentOf(p, k).value.Core() == DeploymentOf(o, k).value.Core()
                  && DeploymentOf(p, k).value.Stamp() == DeploymentOf(o, k).value.Stamp())
  {
    var p := WithReady(o, k, n);
    if DeploymentOf(o, k).Some? {
      var d := DeploymentOf(o, k).value;
      assert DeploymentOf(p, k) == Some(d.(readyReplicas := n));
      assert d.(readyReplicas := n).Core() == d.Core();
    }
  }

  /** The Deployment that a round observes has `n` ready replicas. */
  predicate ReadyIs(o: Objects, k: Key, n: nat) {
    DeploymentOf(o, k).Some? ==> DeploymentOf(o, k).value.readyReplicas == n
  }

  /** What a pass owes: goodness, the derived objects, the spec, progress, and the current build
      exactly if it was there or seen to be missing. */
  predicate Advances(o: Objects, p: Objects, k: Key, n: nat) {
    && Good(o, k) && Good(p, k) && Keeps(o, p, k) && Derived(p, k)
    && (n > 0 ==> Stage(p, k, n) < Stage(o, k, n) || Stage(p, k, n) == Stage(o, k, n) == 0)
    && (Stage(o, k, n) <= 1 ==> Stage(p, k, n) <= 1)
    && (BuiltNow(p, k) <==> WillMatch(o, k)) && (WillMatch(p, k) <==> WillMatch(o, k))
  }

  lemma ResetAdvances(o: Objects, o1: Objects, k: Key, n: nat)
    requires Good(o, k) && Stage(o, k, n) == 4
    requires o1.agents == o.agents && o1.secrets == o.secrets && DeploymentOf(o1, k).None?
    requires AccountKey(k) in o1.accounts && ReadBinding(k) in o1.bindings
    requires WriteBinding(k) in o1.bindings <==> o.agents[k].Spec().writeEnabled
    requires ClaimKey(k) in o1.claims <==> o.agents[k].Spec().HistoryOn()
    ensures Advances(o, WithStatus(o1, k, ResetForRerun), k, n)
  {
    var p := WithStatus(o1, k, ResetForRerun);
    TimelyKeepsShape(k, o.agents[k].Generation(), o.agents[k].status, ResetForRerun);
    BuiltDerives(p, k);
  }

  lemma CreateAdvances(o: Objects, o1: Objects, k: Key, n: nat, now: Time)
    requires Good(o, k) && Stage(o, k, n) == 3
    requires o1.agents == o.agents && o1.secrets == o.secrets && o1.deployments == o.deployments
    requires AccountKey(k) in o1.accounts && ReadBinding(k) in o1.bindings
    requires WriteBinding(k) in o1.bindings <==> o.agents[k].Spec().writeEnabled
    requires ClaimKey(k) in o1.claims <==> o.agents[k].Spec().HistoryOn()
    ensures Advances(o, WithStatus(WithDeployment(o1, o.agents[k]), k, MarkRunning(DeploymentName(k), now)), k, n)
  {
    hide Build;
    var a := o.agents[k];
    var p := WithStatus(WithDeployment(o1, a), k, MarkRunning(DeploymentName(k), now));
    TimelyKeepsShape(k, a.Generation(), a.status, MarkRunning(DeploymentName(k), now));
    CoreOfBuilt(k, a.Spec());
    NamesInjective(k, k);
    assert DeploymentOf(o, k).None? ==>
        DeploymentOf(p, k).value.Core() == Build(k, p.agents[k].revisions[|a.revisions| - 1]);
    assert p.agents[k].revisions == a.revisions && p.agents[k].status.observedGeneration == a.Generation();
    BuiltDerives(p, k);
  }

  lemma RollAdvances(o: Objects, o1: Objects, k: Key, n: nat)
    requires Good(o, k) && Stage(o, k, n) == 2
    requires o1.agents == o.agents && o1.secrets == o.secrets && o1.deployments == o.deployments
    requires AccountKey(k) in o1.accounts && ReadBinding(k) in o1.bindings
    requires WriteBinding(k) in o1.bindings <==> o.agents[k].Spec().writeEnabled
    requires ClaimKey(k) in o1.claims <==> o.agents[k].Spec().HistoryOn()
    ensures var v := SecretOf(o, o.agents[k]).value.version;
            var stamped := o1.deployments[DeploymentKey(k) := DeploymentOf(o, k).value.Stamped(v)];
            Advances(o, o1.(deployments := stamped), k, n)
  {
    hide Build, DeploymentName;
    var a, d := o.agents[k], DeploymentOf(o, k).value;
    var v := SecretOf(o, a).value.version;
    var p := o1.(deployments := o1.deployments[DeploymentKey(k) := d.Stamped(v)]);
    CoreOfStamped(d, v);
    StampedStamp(d, v);
    BuiltDerives(p, k);
  }

  /** Bindings and claim in place, and the rest as it was, Deployment included. */
  lemma PreparedAdvances(o: Objects, o1: Objects, k: Key, n: nat)
    requires Good(o, k) && o.agents[k].status.deploymentRef != ""
    requires o.agents[k].status.observedGeneration == o.agents[k].Generation()
    requires o1.agents == o.agents && o1.secrets == o.secrets && o1.deployments == o.deployments
    requires AccountKey(k) in o1.accounts && ReadBinding(k) in o1.bindings
    requires WriteBinding(k) in o1.bindings <==> o.agents[k].Spec().writeEnabled
    requires ClaimKey(k) in o1.claims <==> o.agents[k].Spec().HistoryOn()
    ensures Good(o1, k) && Derived(o1, k) && Stage(o1, k, n) == Stage(o, k, n)
    ensures BuiltNow(o1, k) <==> BuiltNow(o, k)
  {
    hide Build, DeploymentName, Derived;
    BuiltDerives(o1, k);
  }

  lemma MarkReadyAdvances(o: Objects, k: Key, n: nat, now: Time)
    requires Good(o, k) && Derived(o, k) && Stage(o, k, n) <= 1 && n > 0
    ensures var p := WithStatus(o, k, MarkReady(n, now));
            Good(p, k) && Derived(p, k) && Keeps(o, p, k) && Stage(p, k, n) == 0 && (BuiltNow(p, k) <==> BuiltNow(o, k))
  {
    hide Build, DeploymentName, HasHistoryEnv, HasHistoryMount, MountedClaims;
    TimelyKeepsShape(k, o.agents[k].Generation(), o.agents[k].status, MarkReady(n, now));
  }

  lemma ObserveAdvances(o: Objects, o1: Objects, k: Key, n: nat, now: Time)
    requires Good(o, k) && Stage(o, k, n) <= 1 && ReadyIs(o, k, n)
    requires o1.agents == o.agents && o1.secrets == o.secrets && o1.deployments == o.deployments
    requires AccountKey(k) in o1.accounts && ReadBinding(k) in o1.bindings
    requires WriteBinding(k) in o1.bindings <==> o.agents[k].Spec().writeEnabled
    requires ClaimKey(k) in o1.claims <==> o.agents[k].Spec().HistoryOn()
    ensures Advances(o, Observed(o1, o.agents[k], DeploymentOf(o, k).value, now).0, k, n)
  {
    hide Build, DeploymentName, Derived, MatchesStatus, Mutated;
    PreparedAdvances(o, o1, k, n);
    var st := o.agents[k].status;
    if n > 0 && (st.phase != Ready || st.readyReplicas != n) { MarkReadyAdvances(o1, k, n, now); }
  }

  lemma PassAdvances(o: Objects, k: Key, n: nat, now: Time)
    requires Good(o, k) && ReadyIs(o, k, n)
    ensures Advances(o, Settle(o, Fetching(k), now).0, k, n)
  {
    hide Settle, Build, DeploymentName;
    var a := o.agents[k];
    var o1 := WithClaim(WithBindings(o, a), a);
    SettlePass(o, k, now);
    PreparedDerives(o, k);
    NamesInjective(k, k);
    if a.status.deploymentRef == "" {
      SettleCreate(o1, a, now);
      CreateAdvances(o, o1, k, n, now);
    } else if a.status.observedGeneration != a.Generation() {
      SettleRebuild(o1, a, now);
      ResetAdvances(o, o1.(deployments := Removed(o1.deployments, DeploymentKey(k))), k, n);
    } else {
      SettleObserve(o1, a, now);
      if DeploymentOf(o, k).None? { ResetAdvances(o, o1, k, n); }
      else if OutOfDate(o, k) { RollAdvances(o, o1, k, n); }
      else { ObserveAdvances(o, o1, k, n, now); }
    }
  }

  lemma RoundAdvances(o: Objects, k: Key, n: nat, now: Time)
    requires Good(o, k)
    ensures Advances(o, Round(o, k, n, now), k, n)
  {
    ReadyKeepsGood(o, k, n);
    PassAdvances(WithReady(o, k, n), k, n, now);
  }

  // ---------------------------------------------------------------- main results

  datatype Poll = Poll(ready: nat, now: Time)

  function Rounds(o: Objects, k: Key, polls: seq<Poll>): Objects
    decreases polls
  {
    if polls == [] then o else Rounds(Round(o, k, polls[0].ready, polls[0].now), k, polls[1..])
  }

  /** Ready: the references and the observed generation are current, the Deployment is there and
      stamped with the current Secret, the ready count is right, and the derived objects agree. */
  predicate Settled(o: Objects, k: Key, n: nat) {
    && Good(o, k) && Derived(o, k)
    && (var a, d := o.agents[k], DeploymentOf(o, k);
        && a.status.phase == Ready && a.status.readyReplicas == n && a.status.startedAt.Some?
        && a.status.deploymentRef == DeploymentName(k) && a.status.serviceRef == ServiceName(k)
        && a.status.observedGeneration == a.Generation()
        && d.Some?
        && (SecretOf(o, a).Some? ==> d.value.Stamp() == Some(SecretOf(o, a).value.version)))
  }

  lemma StageZeroIsSettled(o: Objects, k: Key, n: nat)
    requires Good(o, k) && Derived(o, k)
    ensures Stage(o, k, n) == 0 <==> Settled(o, k, n)
  {
    hide Build, DeploymentName, ServiceName, Derived;
    NamesInjective(k, k);
  }

  lemma {:induction false} RoundsKeepGood(o: Objects, k: Key, polls: seq<Poll>)
    requires Good(o, k)
    ensures Good(Rounds(o, k, polls), k) && Keeps(o, Rounds(o, k, polls), k)
    ensures WillMatch(Rounds(o, k, polls), k) <==> WillMatch(o, k)
    ensures polls != [] ==> Derived(Rounds(o, k, polls), k) && (BuiltNow(Rounds(o, k, polls), k) <==> WillMatch(o, k))
    decreases polls
  {
    hide Round, Derived, BuiltNow, WillMatch;
    if polls != [] {
      var p := Round(o, k, polls[0].ready, polls[0].now);
      RoundAdvances(o, k, polls[0].ready, polls[0].now);
      RoundsKeepGood(p, k, polls[1..]);
    }
  }

  lemma {:induction false} RoundsSettle(o: Objects, k: Key, n: nat, polls: seq<Poll>)
    requires Good(o, k) && n > 0 && polls != [] && (forall p :: p in polls ==> p.ready == n)
    requires Stage(o, k, n) <= |polls|
    ensures Settled(Rounds(o, k, polls), k, n)
    decreases polls
  {
    var p := Round(o, k, polls[0].ready, polls[0].now);
    RoundAdvances(o, k, n, polls[0].now);
    if |polls| == 1 {
      assert polls[1..] == [];
      StageZeroIsSettled(p, k, n);
    } else {
      RoundsSettle(p, k, n, polls[1..]);
    }
  }

  lemma {:induction false} RoundsAppend(o: Objects, k: Key, a: seq<Poll>, b: seq<Poll>)
    ensures Rounds(o, k, a + b) == Rounds(Rounds(o, k, a), k, b)
    decreases a
  {
    if a == [] {
      assert a + b == b;
    } else {
      assert (a + b)[1..] == a[1..] + b;
      RoundsAppend(Round(o, k, a[0].ready, a[0].now), k, a[1..], b);
    }
  }

  lemma SoundIsGood(s: System, k: Key)
    requires Sound(s, k) && BuiltAt(s, k) && k in s.objects.agents && !s.objects.agents[k].deleting
    ensures Good(s.objects, k)
  {
    hide Build, LastBuilt, DeploymentName, ServiceName;
    assert ShapedAt(s, k);
    var a, b := s.objects.agents[k], LastBuilt(s.audit, DeploymentKey(k));
    if DeploymentOf(s.objects, k).Some? {
      assert DeploymentOf(s.objects, k).value.Core() == Build(k, a.revisions[b - 1]);
    }
  }

  lemma FreshWillMatch(s: System, k: Key)
    requires k in s.objects.agents && s.objects.agents[k].key == k && FreshAt(s, k)
    ensures WillMatch(s.objects, k)
  {
    hide Build;
  }

  lemma ReachableIsGood(s: System, evs: seq<Event>, k: Key)
    requires Fresh(s) && k in Run(s, evs).objects.agents && !Run(s, evs).objects.agents[k].deleting
    ensures Good(Run(s, evs).objects, k)
    ensures FreshAt(Run(s, evs), k) ==> WillMatch(Run(s, evs).objects, k)
  {
    hide Run, FreshAt, WillMatch, Build, LastBuilt, DeploymentName;
    BuiltKept(s, evs, k);
    SoundIsGood(Run(s, evs), k);
    if FreshAt(Run(s, evs), k) { FreshWillMatch(Run(s, evs), k); }
  }

  lemma StageBound(o: Objects, k: Key, n: nat)
    requires Good(o, k)
    ensures k in o.agents && Stage(o, k, n) <= 4
  {
  }

  /** Convergence: from every state that any run can reach between passes, with spec edits,
      faults and crashes anywhere, undisturbed passes with the spec and the Secrets left alone
      bring the Agent to Ready, however the readiness of the pods comes and goes at first, as
      soon as it has stayed the same positive number for four rounds; each of those rounds takes
      a stage of rebuild, create, roll and mark ready off the work to do. The Deployment is then
      the one for the current spec exactly if it was so at the start, or missing, or the status
      gave it away. */
  lemma Convergence(s: System, evs: seq<Event>, k: Key, unsteady: seq<Poll>, steady: seq<Poll>, n: nat)
    requires Fresh(s)
    requires k in Run(s, evs).objects.agents && !Run(s, evs).objects.agents[k].deleting
    requires n > 0 && |steady| >= 4 && forall p :: p in steady ==> p.ready == n
    ensures var o := Run(s, evs).objects;
            var p := Rounds(o, k, unsteady + steady);
            && Settled(p, k, n) && Keeps(o, p, k)
            && (BuiltNow(p, k) <==> WillMatch(o, k))
  {
    hide Settled, Good, Derived, Stage, Fresh, Rounds, Run, BuiltNow, WillMatch, FreshAt;
    var o := Run(s, evs).objects;
    ReachableIsGood(s, evs, k);
    RoundsKeepGood(o, k, unsteady);
    RoundsAppend(o, k, unsteady, steady);
    StageBound(Rounds(o, k, unsteady), k, n);
    RoundsSettle(Rounds(o, k, unsteady), k, n, steady);
    RoundsKeepGood(o, k, unsteady + steady);
  }

  /** So every run whose steps are harmless converges to the current spec, mounts included. */
  lemma HarmlessRunsConvergeToTheSpec(
    s: System, evs: seq<Event>, k: Key, unsteady: seq<Poll>, steady: seq<Poll>, n: nat)
    requires Fresh(s) && AllHarmless(s, evs, k)
    requires k in Run(s, evs).objects.agents && !Run(s, evs).objects.agents[k].deleting
    requires n > 0 && |steady| >= 4 && forall p :: p in steady ==> p.ready == n
    ensures var p := Rounds(Run(s, evs).objects, k, unsteady + steady);
            && Settled(p, k, n) && BuiltNow(p, k)
            && MountsExist(p, k, DeploymentOf(p, k).value)
            && HasHistoryEnv(DeploymentOf(p, k).value) == p.agents[k].Spec().HistoryOn()
  {
    hide Good, Derived, Stage, Fresh, Rounds, Run, BuiltNow, WillMatch, FreshAt, AllHarmless;
    FreshnessOverRuns(s, evs, k);
    ReachableIsGood(s, evs, k);
    Convergence(s, evs, k, unsteady, steady, n);
    BuiltNowMounts(Rounds(Run(s, evs).objects, k, unsteady + steady), k);
  }

  /** Once settled, a round writes nothing: every object is what it was. */
  lemma SettledWritesNothing(o: Objects, k: Key, n: nat, now: Time)
    requires Settled(o, k, n) && n > 0 && ReadyIs(o, k, n)
    ensures Settle(WithReady(o, k, n), Fetching(k), now) == (o, Ended(RequeueAfter(REQUEUE_AFTER_OBSERVED_READY)))
  {
    hide Settle, Build, DeploymentName, HasHistoryEnv, HasHistoryMount, MountedClaims;
    var a, d := o.agents[k], DeploymentOf(o, k).value;
    assert d.(readyReplicas := n) == d;
    assert o.deployments[DeploymentKey(k) := d] == o.deployments;
    assert WithReady(o, k, n) == o;
    NamesInjective(k, k);
    ReadIsNotWrite(k, k);
    assert WithClaim(WithBindings(o, a), a) == o;
    SettlePass(o, k, now);
    SettleObserve(o, a, now);
  }

  /** The derived objects agree at the end of every undisturbed pass, from every state any run
      can reach; and any Deployment left is the one for the current spec exactly under the same
      condition as above. */
  lemma DerivedAfterEveryPass(s: System, evs: seq<Event>, k: Key, now: Time)
    requires Fresh(s)
    requires k in Run(s, evs).objects.agents && !Run(s, evs).objects.agents[k].deleting
    ensures var o := Run(s, evs).objects;
            var p := Settle(o, Fetching(k), now).0;
            k in p.agents && Derived(p, k) && (BuiltNow(p, k) <==> WillMatch(o, k))
  {
    hide Good, Derived, Stage, Fresh, Run, BuiltNow, WillMatch;
    var o := Run(s, evs).objects;
    ReachableIsGood(s, evs, k);
    var n := if DeploymentOf(o, k).Some? then DeploymentOf(o, k).value.readyReplicas else 0;
    PassAdvances(o, k, n, now);
  }

  /** When an undisturbed pass asks to be run again: at once after a reset, 3 seconds after a
      creation or a roll, 10 seconds while pods are ready, and 5 while they are not, in which
      case it leaves the status as it is. */
  lemma NextPoll(o: Objects, k: Key, now: Time)
    requires Good(o, k)
    ensures var a, d := o.agents[k], DeploymentOf(o, k);
            var (p, pc) := Settle(o, Fetching(k), now);
            pc == Ended(
              if a.status.deploymentRef == "" then RequeueAfter(3)
              else if a.status.observedGeneration != a.Generation() || d.None? then Requeue
              else if OutOfDate(o, k) then RequeueAfter(3)
              else if d.value.readyReplicas > 0 then RequeueAfter(10)
              else RequeueAfter(5)) &&
            (pc == Ended(RequeueAfter(5)) ==> p.agents == o.agents && p.deployments == o.deployments)
  {
    hide Settle, Build, DeploymentName, BuiltOnce, Serve, RequestOf, Next;
    var a := o.agents[k];
    var o1 := WithClaim(WithBindings(o, a), a);
    SettlePass(o, k, now);
    NamesInjective(k, k);
    if a.status.deploymentRef == "" {
      SettleCreate(o1, a, now);
    } else if a.status.observedGeneration != a.Generation() {
      SettleRebuild(o1, a, now);
    } else {
      SettleObserve(o1, a, now);
    }
  }

  /** An edit over a left-behind Deployment is not acted on: the next pass adopts what is there
      and claims it for the new generation, and the one after that only observes it. */
  lemma AdoptedOrphanIsStale(s: System, spec: AgentSpec, k: Key, now: Time)
    requires Sound(s, k) && FreshAt(s, k) && Orphaned(s, k) && !s.objects.agents[k].deleting
    requires !SameBuild(k, spec, s.objects.agents[k].Spec())
    ensures var o := Changed(s.objects, SpecEdit(k, spec));
            var p := Settle(o, Fetching(k), now).0;
            && k in p.agents && p.agents[k].Spec() == spec && DeploymentOf(p, k) == DeploymentOf(s.objects, k)
            && !MatchesStatus(p.agents[k], DeploymentOf(p, k))
            && AfterClaim(p.agents[k]) == Observing(p.agents[k])
  {
    hide Settle, Build, DeploymentName, ServiceName, RequestOf, Next, Serve;
    var o := Changed(s.objects, SpecEdit(k, spec));
    var a := o.agents[k];
    assert a == s.objects.agents[k].Edited(spec) && a.Spec() == spec;
    SettlePass(o, k, now);
    var prepared := WithClaim(WithBindings(o, a), a);
    assert prepared.deployments == o.deployments && prepared.agents == o.agents;
    SettleCreate(prepared, a, now);
    NamesInjective(k, k);
  }

  /** A round is a run of the system: the readiness change, the start, and the pass. */
  lemma RoundIsARun(s: System, k: Key, n: nat, now: Time)
    requires !s.pc.Working()
    ensures exists evs :: Run(s, evs).objects == Round(s.objects, k, n, now)
  {
    hide Settle, Finish, Events, Run, DeploymentName, Serve, RequestOf, Next, Respond, Advanced, Changed;
    var x := ReadyChange(DeploymentKey(k), n);
    var s1 := Disturbed(s, x);
    var s2 := s1.(pc := Fetching(k));
    var evs := Events(s2, [], now);
    FinishIsARun(s2, [], now);
    FinishIsSettle(s2, now);
    var before := [Environment(x), Start(k)];
    RunAppend(s, before, evs);
    RunTwo(s, Environment(x), Start(k));
    assert Run(s, before + evs).objects == Round(s.objects, k, n, now);
  }
}
