/** The two retried writers of the operator: Agent status writes (updateRetry) and the
    credentials stamp on the Deployment (rollIfCredentialsChanged), under contention. */
module AgentWriters {
  import opened Wrappers
  import opened AgentTypes
  import opened Builder
  import opened StatusService
  import opened Occ
  import Cluster

  // ---------------------------------------------------------------- Agent status

  /** Changes to an Agent: status writes of the operator, and spec edits by anyone else. */
  datatype AgentOp = WriteStatus(mutation: Mutation) | EditSpec(spec: AgentSpec)

  /** The status subresource takes the status and leaves the rest of the object alone. */
  function AgentChange(op: AgentOp, a: Agent): Attempt<Agent> {
    match op
    case WriteStatus(m) => Write(a.(status := Mutated(a.key, a.Generation(), a.status, m)))
    case EditSpec(spec) => if spec == a.Spec() then Skip else Write(a.Edited(spec))
  }

  /** The status commits of a version history, each with the generation it found. */
  function StatusLog(history: seq<Agent>, log: seq<Commit<AgentOp>>): seq<StatusCommit>
    requires |history| >= |log|
  {
    if log == [] then []
    else
      var n := |log| - 1;
      StatusLog(history, log[..n]) +
      if log[n].op.WriteStatus? then [StatusCommit(log[n].op.mutation, history[n].Generation())] else []
  }

  lemma {:induction false} StatusFollowsLog(a: Agent, w: World<Agent, AgentOp>, n: nat)
    requires LogMatches(AgentChange, w) && w.history[0] == a && n <= |w.log|
    ensures w.history[n].key == a.key
    ensures w.history[n].status == StatusAfter(a.key, a.status, StatusLog(w.history, w.log[..n]))
  {
    if n > 0 {
      StatusFollowsLog(a, w, n - 1);
      assert w.log[..n][..n - 1] == w.log[..n - 1];
      var before := StatusLog(w.history, w.log[..n - 1]);
      var all := StatusLog(w.history, w.log[..n]);
      assert w.log[n - 1].base == n - 1;
      if w.log[n - 1].op.WriteStatus? {
        assert all[..|all| - 1] == before;
      } else {
        assert all == before;
      }
    }
  }

  /** Any number of concurrent status writers and spec editors, with stale reads, lost answers
      and any interleaving: the stored status is the fold of the committed status writes; no
      status write moves the spec or the generation; StartedAt is the time of the first ready
      mark committed since the last reset; and the conditions are the ordered map of
      everything committed. */
  lemma StatusUnderContention(a: Agent, evs: seq<Event<AgentOp>>)
    requires a.status.startedAt.None? && a.status.conditions == []
    ensures var w := Run(AgentChange, Initial(a), evs);
            && |w.history| == |w.log| + 1
            && (var log := StatusLog(w.history, w.log);
                var st := Newest(w.history).status;
                && st == StatusAfter(a.key, a.status, log)
                && st.startedAt == FirstReady(log[LastReset(log)..])
                && st.conditions == Upserts(Written(log)))
            && (forall i :: 0 <= i < |w.log| && w.log[i].op.WriteStatus? ==>
                              w.history[i + 1] == w.history[i].(status := w.history[i + 1].status))
  {
    var w := Run(AgentChange, Initial(a), evs);
    RunKeepsInv(AgentChange, None, Initial(a), evs);
    FirstVersionStays(AgentChange, Initial(a), evs);
    StatusFollowsLog(a, w, |w.log|);
    assert w.log[..|w.log|] == w.log;
    var log := StatusLog(w.history, w.log);
    StartedAtIsFirstReady(a.key, a.status, log);
    ConditionsFollowTheLog(a.key, a.status, log);
    forall i | 0 <= i < |w.log| && w.log[i].op.WriteStatus?
      ensures w.history[i + 1] == w.history[i].(status := w.history[i + 1].status)
    {
      assert AgentChange(w.log[i].op, w.history[i]) == Write(w.history[i + 1]);
    }
  }

  /** updateRetry: the retried read, mutate and status update. */
  method UpdateRetry(agents: ApiObject<Agent, AgentOp>, m: Mutation, budget: nat, turns: seq<Turn<AgentOp>>)
    returns (outcome: Outcome)
    requires agents.Valid() && agents.sem == AgentChange && 1 <= budget <= |turns|
    modifies agents
    ensures agents.Valid()
    ensures (agents.versions, outcome) == Retry(AgentChange, old(agents.versions), WriteStatus(m), budget, turns)
  {
    outcome := agents.RetryOnConflict(WriteStatus(m), budget, turns);
  }

  /** The system of module Reconcile makes one request of such a call. What the server does with
      that request is what the call commits, on the object as it is just before the commit. */
  lemma StatusCallIsServed(
    history: seq<Agent>, m: Mutation, budget: nat, turns: seq<Turn<AgentOp>>, o: Cluster.Objects, k: Key)
    requires history != [] && 1 <= budget <= |turns|
    requires var (h, outcome) := Retry(AgentChange, history, WriteStatus(m), budget, turns);
             outcome == Updated && |h| >= 2 && Lookup(o.agents, k) == Some(h[|h| - 2]) && o.agents[k].key == k
    ensures var h := Retry(AgentChange, history, WriteStatus(m), budget, turns).0;
            var served := Cluster.Serve(o, Cluster.UpdateStatus(k, m));
            served.reply == Cluster.Done && served.objects == o.(agents := o.agents[k := Newest(h)])
  {
    CallActsInOneStep(AgentChange, history, WriteStatus(m), budget, turns);
  }

  // ---------------------------------------------------------------- the credentials stamp

  /** Changes to a Deployment: the stamp, or any rewrite at all by another client. */
  datatype DeploymentOp = Roll(version: string) | Rewrite(d: Deployment)

  function DeploymentChange(op: DeploymentOp, d: Deployment): Attempt<Deployment> {
    match op
    case Roll(version) => if d.Stamp() == Some(version) then Skip else Write(d.Stamped(version))
    case Rewrite(d') => Write(d')
  }

  /** `after` differs from `before` in the credentials stamp alone, which is now `version`. */
  predicate OnlyStamps(before: Deployment, after: Deployment, version: string) {
    && after.Stamp() == Some(version)
    && before.Stamp() != Some(version)
    && after.Core() == before.Core()
    && after.readyReplicas == before.readyReplicas
    && after.template.annotations - {CREDENTIALS_VERSION_ANNOTATION} ==
       before.template.annotations - {CREDENTIALS_VERSION_ANNOTATION}
  }

  /** The credential patch under contention with arbitrary rewrites: every commit of a call
      changes the stamp alone, to the version the call read, on top of the newest Deployment,
      whatever landed between its attempts; and, unless it loses an answer itself, the call
      reports a roll exactly when it committed, which is then once. */
  lemma CredentialPatch(d: Deployment, evs: seq<Event<DeploymentOp>>, id: nat)
    ensures var w := Run(DeploymentChange, Initial(d), evs);
            && |w.history| == |w.log| + 1
            && (forall i :: 0 <= i < |w.log| && w.log[i].op.Roll? ==>
                              OnlyStamps(w.history[i], w.history[i + 1], w.log[i].op.version))
            && (Admissible(Some(id), evs) &&
                id in w.clients && w.clients[id].phase.Finished? ==>
                  (w.clients[id].phase.outcome == Updated <==> Commits(w.log, id) == 1) &&
                  (w.clients[id].phase.outcome != Updated <==> Commits(w.log, id) == 0))
  {
    var w := Run(DeploymentChange, Initial(d), evs);
    NoLostUpdates(DeploymentChange, d, evs);
    if Admissible(Some(id), evs) {
      UpdatedIffCommitted(DeploymentChange, d, evs, id);
    }
    forall i | 0 <= i < |w.log| && w.log[i].op.Roll?
      ensures OnlyStamps(w.history[i], w.history[i + 1], w.log[i].op.version)
    {
      assert DeploymentChange(w.log[i].op, w.history[i]) == Write(w.history[i + 1]);
      StampedOnlyStamps(w.history[i], w.log[i].op.version);
    }
  }

  lemma StampedOnlyStamps(d: Deployment, version: string)
    requires d.Stamp() != Some(version)
    ensures OnlyStamps(d, d.Stamped(version), version)
  {
    assert d.Stamped(version).template.annotations - {CREDENTIALS_VERSION_ANNOTATION} ==
           d.template.annotations - {CREDENTIALS_VERSION_ANNOTATION};
  }

  /** The retried part of rollIfCredentialsChanged. */
  method PatchStamp(
    deployments: ApiObject<Deployment, DeploymentOp>, version: string, budget: nat, turns: seq<Turn<DeploymentOp>>)
    returns (updated: bool, failed: bool)
    requires deployments.Valid() && deployments.sem == DeploymentChange && 1 <= budget <= |turns|
    modifies deployments
    ensures deployments.Valid()
    ensures var r := Retry(DeploymentChange, old(deployments.versions), Roll(version), budget, turns);
            && deployments.versions == r.0
            && updated == r.1.Updated? && failed == (r.1.Conflicted? || r.1.Errored?)
  {
    var outcome := deployments.RetryOnConflict(Roll(version), budget, turns);
    updated, failed := outcome == Updated, outcome == Conflicted || outcome == Errored;
  }

  /** Likewise the stamp: a call that rolls does what the server does with the one request, on the
      Deployment as it is just before; and the server has nothing to do exactly on the versions
      on which a call has nothing to do. */
  lemma StampCallIsServed(
    history: seq<Deployment>, version: string, budget: nat, turns: seq<Turn<DeploymentOp>>,
    o: Cluster.Objects, key: Key)
    requires history != [] && 1 <= budget <= |turns| && key in o.deployments
    ensures var (h, outcome) := Retry(DeploymentChange, history, Roll(version), budget, turns);
            var served := Cluster.Serve(o, Cluster.StampDeployment(key, version));
            && (outcome == Updated && |h| >= 2 && o.deployments[key] == h[|h| - 2] ==>
                  && served.reply == Cluster.Done
                  && served.objects == o.(deployments := o.deployments[key := Newest(h)]))
            && (served.reply == Cluster.Unneeded <==> DeploymentChange(Roll(version), o.deployments[key]).Skip?)
            && (served.reply == Cluster.Unneeded ==> served.objects == o)
  {
    CallActsInOneStep(DeploymentChange, history, Roll(version), budget, turns);
  }
}
