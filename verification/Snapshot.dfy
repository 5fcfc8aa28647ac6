/** What a running pass knows of the Agent it read, in every state a single worker can reach,
    with spec edits at any moment. */
module Snapshot {
  import opened Wrappers
  import opened AgentTypes
  import opened Builder
  import opened StatusService
  import opened Cluster
  import opened Reconcile
  import opened StatusShape

  function DeploymentOf(o: Objects, k: Key): Option<Deployment> {
    Lookup(o.deployments, DeploymentKey(k))
  }

  predicate RunsFor(pc: Pc, k: Key) {
    HasAgent(pc) && pc.a.key == k
  }

  /** The pass goes on to observe the Deployment, rather than to rebuild or to create it. */
  predicate Watching(pc: Pc, k: Key) {
    RunsFor(pc, k) && pc.a.status.deploymentRef != "" && pc.a.status.observedGeneration == pc.a.Generation()
  }

  /** The observed generation exists; what the pass read is a revision the Agent has had; and the
      pass resets only without a Deployment. */
  predicate SnapshotAt(s: System, k: Key) {
    k in s.objects.agents ==>
      var a := s.objects.agents[k];
      && a.status.observedGeneration <= a.Generation()
      && (a.status.deploymentRef != "" ==> a.status.observedGeneration > 0)
      && (RunsFor(s.pc, k) ==>
            && s.pc.a.revisions <= a.revisions
            && s.pc.a.status.observedGeneration <= s.pc.a.Generation()
            && (s.pc.Resetting? ==> DeploymentOf(s.objects, k).None?))
  }

  ghost predicate AllShaped(s: System) {
    forall k :: ShapedAt(s, k)
  }

  /** A spec edit that really changes the spec of `k`. */
  predicate Edits(s: System, ev: Event, k: Key) {
    && ev.Environment? && ev.change.SpecEdit? && ev.change.key == k
    && k in s.objects.agents && ev.change.spec != s.objects.agents[k].Spec()
  }

  /** A Deployment without a reference to it. */
  predicate Orphaned(s: System, k: Key) {
    k in s.objects.agents && s.objects.agents[k].status.deploymentRef == "" && DeploymentOf(s.objects, k).Some?
  }

  lemma CoreOfStamped(d: Deployment, version: string)
    ensures d.Stamped(version).Core() == d.Core()
  {
    assert d.Stamped(version).template.annotations - {CREDENTIALS_VERSION_ANNOTATION} ==
           d.template.annotations - {CREDENTIALS_VERSION_ANNOTATION};
  }

  lemma CoreOfBuilt(k: Key, spec: AgentSpec)
    ensures Build(k, spec).Core() == Build(k, spec)
    ensures Build(k, spec).Stamp() == None && Build(k, spec).readyReplicas == 0
  {
    assert Build(k, spec).template.annotations - {CREDENTIALS_VERSION_ANNOTATION} == map[];
  }

  lemma StatusUpdated(o: Objects, req: Request, fault: Fault, k: Key)
    requires req.UpdateStatus? && k in o.agents
    ensures var a, o' := o.agents[k], Respond(o, req, fault).objects;
            && o'.deployments == o.deployments && o'.secrets == o.secrets && k in o'.agents
            && o'.agents[k] ==
               if req.key == k && !fault.Refused? then
                 a.(status := Mutated(k, a.Generation(), a.status, req.mutation))
               else a
  {
  }

  lemma SnapshotTaken(s: System, fault: Fault, now: Time, k: Key)
    requires Basic(s) && SnapshotAt(s, k) && s.pc.Working() && k in s.objects.agents
    requires RunsFor(Advanced(s, fault, now).pc, k)
    ensures var pc := Advanced(s, fault, now).pc;
            && (RunsFor(s.pc, k) ==> pc.a == s.pc.a)
            && (!RunsFor(s.pc, k) ==> s.pc.Fetching? && pc.a == s.objects.agents[k])
            && (pc.Resetting? ==> RunsFor(s.pc, k))
  {
    StatusWriteEnds(s.pc, now, Respond(s.objects, RequestOf(s.pc, now), fault).reply);
    if s.pc.Fetching? {
      var r := Respond(s.objects, GetAgent(s.pc.k), fault);
      assert r.reply.TheAgent? ==> r.reply.agent == s.objects.agents[s.pc.k];
    }
  }

  lemma WorkKeepsSnapshot(s: System, fault: Fault, now: Time, k: Key)
    requires Basic(s) && AllShaped(s) && SnapshotAt(s, k) && s.pc.Working()
    ensures SnapshotAt(Advanced(s, fault, now), k)
  {
    hide Next;
    var req := RequestOf(s.pc, now);
    var s' := Advanced(s, fault, now);
    OnlyStatusWritesTouchAgents(s.objects, req, fault);
    StatusWriteEnds(s.pc, now, Respond(s.objects, req, fault).reply);
    if k in s.objects.agents {
      if req.UpdateStatus? {
        RequestsAreTimely(s.pc, now);
        StatusUpdated(s.objects, req, fault, k);
      } else if RunsFor(s'.pc, k) {
        SnapshotTaken(s, fault, now, k);
        if s'.pc.Resetting? {
          assert ShapedAt(s, k);
          ResetNeedsNoDeployment(s, fault, now);
        }
      }
    }
  }

  /** Others change the readiness of a Deployment or delete it, and nothing else. */
  lemma OutsideDeployment(o: Objects, x: Outside, key: Key)
    ensures var d, d' := Lookup(o.deployments, key), Lookup(Changed(o, x).deployments, key);
            d'.Some? ==> d.Some? && d'.value == d.value.(readyReplicas := d'.value.readyReplicas)
  {
    hide UsersOf;
    match x {
      case SpecEdit(_, _) =>
      case AgentDeletion(_) =>
      case SecretWrite(_, _) =>
      case SecretDeletion(_) =>
      case AccountDeletion(_) =>
      case BindingDeletion(_) =>
      case ClaimDeletion(_) =>
      case DeploymentDeletion(_) =>
      case ReadyChange(_, _) =>
    }
  }

  lemma OutsideSecrets(o: Objects, x: Outside, key: Key)
    requires !x.SecretWrite?
    ensures Lookup(Changed(o, x).secrets, key) in {None, Lookup(o.secrets, key)}
  {
  }

  lemma OutsideAgent(o: Objects, x: Outside, k: Key)
    requires k in o.agents
    ensures var a := o.agents[k];
            && k in Changed(o, x).agents
            && Changed(o, x).agents[k] ==
               if x.SpecEdit? && x.key == k then a.Edited(x.spec)
               else if x.AgentDeletion? && x.key == k then a.(deleting := true)
               else a
  {
    hide UsersOf;
    match x {
      case SpecEdit(_, _) =>
      case AgentDeletion(_) =>
      case SecretWrite(_, _) =>
      case SecretDeletion(_) =>
      case AccountDeletion(_) =>
      case BindingDeletion(_) =>
      case ClaimDeletion(_) =>
      case DeploymentDeletion(_) =>
      case ReadyChange(_, _) =>
    }
  }

  lemma DisturbanceKeepsSnapshot(s: System, x: Outside, k: Key)
    requires Basic(s) && SnapshotAt(s, k)
    ensures SnapshotAt(Disturbed(s, x), k)
  {
    OutsideDeployment(s.objects, x, DeploymentKey(k));
    OutsideKeepsStatus(s.objects, x);
    if k in s.objects.agents { OutsideAgent(s.objects, x, k); }
  }

  /** What a pass read is the current revision, or the Agent is ahead of it. */
  lemma CurrentOrBehind(s: System, k: Key)
    requires SnapshotAt(s, k) && k in s.objects.agents && RunsFor(s.pc, k)
    ensures s.pc.a.revisions == s.objects.agents[k].revisions || s.pc.a.Generation() < s.objects.agents[k].Generation()
  {
    assert s.pc.a.revisions <= s.objects.agents[k].revisions;
  }

  lemma StepKeepsAllShaped(s: System, ev: Event)
    requires Basic(s) && AllShaped(s)
    ensures AllShaped(Step(s, ev))
  {
    forall k ensures ShapedAt(Step(s, ev), k) { StepKeepsShape(s, ev, k); }
  }

  /** What every reachable state has, whoever the Agent. */
  ghost predicate Sound(s: System, k: Key) {
    Basic(s) && AllShaped(s) && SnapshotAt(s, k)
  }

  lemma StepKeepsSound(s: System, ev: Event, k: Key)
    requires Sound(s, k)
    ensures Sound(Step(s, ev), k)
  {
    StepKeepsBasic(s, ev);
    StepKeepsAllShaped(s, ev);
    match ev {
      case Work(fault, now) => if s.pc.Working() { WorkKeepsSnapshot(s, fault, now, k); }
      case Environment(x) => DisturbanceKeepsSnapshot(s, x, k);
      case Start(_) =>
      case Crash =>
    }
  }

  lemma {:induction false} SoundOverRuns(s: System, evs: seq<Event>, k: Key)
    requires Sound(s, k)
    ensures Sound(Run(s, evs), k)
    decreases evs
  {
    hide Sound, Step;
    if evs != [] {
      StepKeepsSound(s, evs[0], k);
      SoundOverRuns(Step(s, evs[0]), evs[1..], k);
    }
  }

  /** What a request of a pass does to the Agent and the Deployment of `k`: a status write of
      its own pass, a creation, deletion or stamp of its own pass, or nothing. */
  lemma WorkOn(s: System, fault: Fault, now: Time, k: Key)
    requires Sound(s, k) && s.pc.Working() && k in s.objects.agents
    ensures var o, s', req := s.objects, Advanced(s, fault, now), RequestOf(s.pc, now);
            var a, d, d' := o.agents[k], DeploymentOf(o, k), DeploymentOf(s'.objects, k);
            && k in s'.objects.agents && s'.objects.secrets == o.secrets
            && (if RunsFor(s.pc, k) && req.UpdateStatus? && !fault.Refused? then
                  s'.objects.agents[k] == a.(status := Mutated(k, a.Generation(), a.status, req.mutation)) && d' == d
                else
                  s'.objects.agents[k] == a)
            && (|| d' == d
                || (RunsFor(s.pc, k) && s.pc.Creating? && !fault.Refused? && d.None? &&
                    d' == Some(Build(k, s.pc.a.Spec())))
                || (RunsFor(s.pc, k) && s.pc.DeletingOld? && !fault.Refused? && d'.None?)
                || (RunsFor(s.pc, k) && s.pc.Rolling? && !fault.Refused? && d.Some? &&
                    d' == Some(d.value.Stamped(s.pc.version))))
            && (RunsFor(s.pc, k) && s.pc.Creating? && !fault.Refused? && d.None? ==>
                  d' == Some(Build(k, s.pc.a.Spec())))
  {
    hide Next, Build, DeploymentName;
    var req := RequestOf(s.pc, now);
    OnlyStatusWritesTouchAgents(s.objects, req, fault);
    if HasAgent(s.pc) { assert ShapedAt(s, s.pc.a.key); NamesInjective(s.pc.a.key, k); }
    DeploymentRequests(s.pc, now);
    DeploymentEffect(s.objects, req, fault, DeploymentKey(k));
    if req.UpdateStatus? {
      RequestsAreTimely(s.pc, now);
      StatusUpdated(s.objects, req, fault, k);
    }
    NothingElseMoves(s.objects, req, fault);
  }

  lemma NothingElseMoves(o: Objects, req: Request, fault: Fault)
    ensures var o' := Respond(o, req, fault).objects;
            && o'.secrets == o.secrets && (fault.Refused? ==> o' == o)
            && (req.CreateDeployment? && !fault.Refused? && req.key !in o.deployments ==>
                  Lookup(o'.deployments, req.key) == Some(req.deployment))
  {
  }
}
