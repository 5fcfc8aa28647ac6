/** The stored Deployment against the spec the status claims to have observed: when it agrees,
    and exactly which steps break the agreement. */
module Freshness {
  import opened Wrappers
  import opened AgentTypes
  import opened Builder
  import opened StatusService
  import opened Cluster
  import opened Reconcile
  import opened StatusShape
  import opened Snapshot

  /** A set reference: the Deployment is absent or built from the spec at the observed
      generation. An empty one: absent, or left behind by a failed creation and still built
      from the current spec. */
  predicate MatchesStatus(a: Agent, d: Option<Deployment>) {
    d.Some? ==>
      if a.status.deploymentRef == "" then d.value.Core() == Build(a.key, a.Spec())
      else 0 < a.status.observedGeneration <= a.Generation() &&
           d.value.Core() == Build(a.key, a.revisions[a.status.observedGeneration - 1])
  }

  predicate FreshAt(s: System, k: Key) {
    k in s.objects.agents ==> MatchesStatus(s.objects.agents[k], DeploymentOf(s.objects, k))
  }

  /** Two specs that differ in nothing that is built. */
  predicate SameBuild(k: Key, a: AgentSpec, b: AgentSpec) {
    Build(k, a) == Build(k, b)
  }

  // ---------------------------------------------------------------- provenance

  /** The generation the last Deployment under a key was built from. */
  function LastBuilt(audit: seq<Effect>, key: Key): nat {
    if audit == [] then 0
    else
      var e := audit[|audit| - 1];
      if e.DeploymentCreated? && e.key == key then e.generation else LastBuilt(audit[..|audit| - 1], key)
  }

  lemma LastBuiltMore(audit: seq<Effect>, e: Effect, key: Key)
    ensures LastBuilt(audit + [e], key) ==
            if e.DeploymentCreated? && e.key == key then e.generation else LastBuilt(audit, key)
    ensures LastBuilt(audit + [], key) == LastBuilt(audit, key)
  {
    assert (audit + [e])[..|audit|] == audit && audit + [] == audit;
  }

  /** A stored Deployment is what the builder gives for the revision it was built from. */
  predicate BuiltAt(s: System, k: Key) {
    k in s.objects.agents && DeploymentOf(s.objects, k).Some? ==>
      var a, b := s.objects.agents[k], LastBuilt(s.audit, DeploymentKey(k));
      0 < b <= a.Generation() && DeploymentOf(s.objects, k).value.Core() == Build(k, a.revisions[b - 1])
  }

  lemma CreationEffects(o: Objects, req: Request, fault: Fault)
    ensures var effects := Respond(o, req, fault).effects;
            if req.CreateDeployment? && !fault.Refused? && req.key !in o.deployments then
              effects == [DeploymentCreated(req.key, req.generation)]
            else effects == [] || (req.StampDeployment? && effects == [DeploymentStamped(req.key)])
  {
  }

  lemma CreationLogged(s: System, fault: Fault, now: Time, k: Key)
    requires Sound(s, k) && s.pc.Working()
    ensures var s', key := Advanced(s, fault, now), DeploymentKey(k);
            if RunsFor(s.pc, k) && s.pc.Creating? && !fault.Refused? && DeploymentOf(s.objects, k).None? then
              LastBuilt(s'.audit, key) == s.pc.a.Generation()
            else LastBuilt(s'.audit, key) == LastBuilt(s.audit, key)
  {
    hide Next, Build, DeploymentName, Respond, Serve, LastBuilt;
    var req := RequestOf(s.pc, now);
    var r := Respond(s.objects, req, fault);
    if HasAgent(s.pc) { assert ShapedAt(s, s.pc.a.key); NamesInjective(s.pc.a.key, k); }
    DeploymentRequests(s.pc, now);
    CreationEffects(s.objects, req, fault);
    if r.effects != [] { LastBuiltMore(s.audit, r.effects[0], DeploymentKey(k)); }
    LastBuiltMore(s.audit, DeploymentStamped(DeploymentKey(k)), DeploymentKey(k));
  }

  lemma WorkKeepsBuilt(s: System, fault: Fault, now: Time, k: Key)
    requires Sound(s, k) && BuiltAt(s, k) && s.pc.Working()
    ensures BuiltAt(Advanced(s, fault, now), k)
  {
    hide RequestOf, Next, Respond, Serve, Build, DeploymentName;
    OnlyStatusWritesTouchAgents(s.objects, RequestOf(s.pc, now), fault);
    if k in s.objects.agents {
      WorkOn(s, fault, now, k);
      CreationLogged(s, fault, now, k);
      if RunsFor(s.pc, k) { CoreOfBuilt(k, s.pc.a.Spec()); }
      var d := DeploymentOf(s.objects, k);
      if d.Some? && s.pc.Rolling? { CoreOfStamped(d.value, s.pc.version); }
    }
  }

  lemma DisturbanceKeepsBuilt(s: System, x: Outside, k: Key)
    requires BuiltAt(s, k)
    ensures BuiltAt(Disturbed(s, x), k)
  {
    hide DeploymentName, Build;
    OutsideDeployment(s.objects, x, DeploymentKey(k));
    OutsideKeepsStatus(s.objects, x);
    LastBuiltMore(s.audit, SecretChanged(k, {}), DeploymentKey(k));
    if x.SecretWrite? { LastBuiltMore(s.audit, EffectsOf(s.objects, x)[0], DeploymentKey(k)); }
    if k in s.objects.agents {
      OutsideAgent(s.objects, x, k);
      var d, d' := DeploymentOf(s.objects, k), DeploymentOf(Changed(s.objects, x), k);
      if d'.Some? { assert d'.value.Core() == d.value.Core(); }
    }
  }

  lemma {:induction false} BuiltKept(s: System, evs: seq<Event>, k: Key)
    requires Sound(s, k) && BuiltAt(s, k)
    ensures Sound(Run(s, evs), k) && BuiltAt(Run(s, evs), k)
    decreases evs
  {
    hide Sound, BuiltAt;
    if evs != [] {
      StepKeepsSound(s, evs[0], k);
      match evs[0] {
        case Work(fault, now) => if s.pc.Working() { WorkKeepsBuilt(s, fault, now, k); }
        case Environment(x) => DisturbanceKeepsBuilt(s, x, k);
        case Start(_) => SameObjectsBuilt(s, Step(s, evs[0]), k);
        case Crash => SameObjectsBuilt(s, Step(s, evs[0]), k);
      }
      BuiltKept(Step(s, evs[0]), evs[1..], k);
    }
  }

  lemma SameObjectsBuilt(s: System, s': System, k: Key)
    requires s'.objects == s.objects && s'.audit == s.audit && BuiltAt(s, k)
    ensures BuiltAt(s', k)
  {
  }

  /** The generation a status stands for: the observed one, or the current one if no reference
      is set. */
  function Claimed(a: Agent): nat {
    if a.status.deploymentRef == "" then a.Generation() else a.status.observedGeneration
  }

  /** Over every run whatever, spec edits at any moment included: a stored Deployment is what the
      builder gives for the revision it was built from; and so it is fresh exactly when that
      revision and the claimed one differ in nothing that is built. */
  lemma Provenance(s: System, evs: seq<Event>, k: Key)
    requires Fresh(s)
    ensures var s' := Run(s, evs);
            k in s'.objects.agents && DeploymentOf(s'.objects, k).Some? ==>
              var a, b := s'.objects.agents[k], LastBuilt(s'.audit, DeploymentKey(k));
              && 0 < b <= a.Generation() && 0 < Claimed(a) <= a.Generation()
              && DeploymentOf(s'.objects, k).value.Core() == Build(k, a.revisions[b - 1])
              && (FreshAt(s', k) <==> SameBuild(k, a.revisions[b - 1], a.revisions[Claimed(a) - 1]))
  {
    hide Run, Build, LastBuilt, DeploymentName, SameBuild, MatchesStatus;
    BuiltKept(s, evs, k);
    var s' := Run(s, evs);
    if k in s'.objects.agents && DeploymentOf(s'.objects, k).Some? {
      var a, b := s'.objects.agents[k], LastBuilt(s'.audit, DeploymentKey(k));
      FreshIffSameBuild(a, DeploymentOf(s'.objects, k).value, b);
    }
  }

  lemma FreshIffSameBuild(a: Agent, d: Deployment, b: nat)
    requires 0 < b <= a.Generation() && d.Core() == Build(a.key, a.revisions[b - 1]) && 0 < Claimed(a) <= a.Generation()
    ensures MatchesStatus(a, Some(d)) <==> SameBuild(a.key, a.revisions[b - 1], a.revisions[Claimed(a) - 1])
  {
    hide Build;
  }

  // ---------------------------------------------------------------- the steps that break it

  /** A step is harmless unless it lets a spec pass unnoticed in which something that is built
      is different: an edit over a Deployment without a reference; a creation, or a ready mark,
      by a pass whose spec is no longer the stored one. */
  predicate Harmless(s: System, ev: Event, k: Key) {
    k in s.objects.agents ==>
      var o := s.objects;
      && (Edits(s, ev, k) && Orphaned(s, k) ==> SameBuild(k, ev.change.spec, o.agents[k].Spec()))
      && (ev.Work? && !ev.fault.Refused? && RunsFor(s.pc, k) &&
          ((s.pc.Creating? && DeploymentOf(o, k).None?) || (s.pc.MarkingReady? && DeploymentOf(o, k).Some?)) ==>
            SameBuild(k, s.pc.a.Spec(), o.agents[k].Spec()))
  }

  lemma CreatedMatchesIff(a: Agent, spec: AgentSpec)
    requires a.status.deploymentRef == ""
    ensures MatchesStatus(a, Some(Build(a.key, spec))) <==> SameBuild(a.key, spec, a.Spec())
  {
    CoreOfBuilt(a.key, spec);
  }

  lemma SameCoreMatches(a: Agent, d: Option<Deployment>, d': Option<Deployment>)
    requires MatchesStatus(a, d) && (d'.Some? ==> d.Some? && d'.value.Core() == d.value.Core())
    ensures MatchesStatus(a, d')
  {
  }

  /** A request other than a status write. */
  lemma DeploymentWorkFreshIff(s: System, fault: Fault, now: Time, k: Key)
    requires Sound(s, k) && FreshAt(s, k) && s.pc.Working() && k in s.objects.agents
    requires !(RunsFor(s.pc, k) && RequestOf(s.pc, now).UpdateStatus?)
    ensures FreshAt(Advanced(s, fault, now), k) <==> Harmless(s, Work(fault, now), k)
  {
    hide Next, Respond, Serve, Build, DeploymentName, MatchesStatus, SameBuild;
    WorkOn(s, fault, now, k);
    var a, d := s.objects.agents[k], DeploymentOf(s.objects, k);
    var d' := DeploymentOf(Advanced(s, fault, now).objects, k);
    if RunsFor(s.pc, k) && s.pc.Creating? && !fault.Refused? && d.None? {
      CreatedMatchesIff(a, s.pc.a.Spec());
    } else {
      if d.Some? && s.pc.Rolling? { CoreOfStamped(d.value, s.pc.version); }
      SameCoreMatches(a, d, d');
    }
  }

  /** What a timely status write does to a matching status. */
  lemma MutatedMatchesIff(a: Agent, d: Option<Deployment>, m: Mutation)
    requires MatchesStatus(a, d) && Timely(a.key, a.status, m) && (m.ResetForRerun? ==> d.None?)
    ensures var a' := a.(status := Mutated(a.key, a.Generation(), a.status, m));
            MatchesStatus(a', d) <==>
            (m.MarkReady? && d.Some? ==> SameBuild(a.key, a.revisions[a.status.observedGeneration - 1], a.Spec()))
  {
    hide Build;
    NamesInjective(a.key, a.key);
  }

  /** A status write of the Agent's own pass. */
  lemma StatusWorkFreshIff(s: System, fault: Fault, now: Time, k: Key)
    requires Sound(s, k) && FreshAt(s, k) && s.pc.Working() && k in s.objects.agents
    requires RunsFor(s.pc, k) && RequestOf(s.pc, now).UpdateStatus?
    ensures FreshAt(Advanced(s, fault, now), k) <==> Harmless(s, Work(fault, now), k)
  {
    hide Next, Respond, Serve, Build, MatchesStatus, SameBuild, Mutated;
    WorkOn(s, fault, now, k);
    RequestsAreTimely(s.pc, now);
    if !fault.Refused? {
      MutatedMatchesIff(s.objects.agents[k], DeploymentOf(s.objects, k), RequestOf(s.pc, now).mutation);
      if s.pc.MarkingReady? && DeploymentOf(s.objects, k).Some? {
        assert s.objects.agents[k].revisions[s.pc.a.Generation() - 1] == s.pc.a.Spec();
      }
    }
  }

  lemma WorkFreshIff(s: System, fault: Fault, now: Time, k: Key)
    requires Sound(s, k) && FreshAt(s, k) && s.pc.Working()
    ensures FreshAt(Advanced(s, fault, now), k) <==> Harmless(s, Work(fault, now), k)
  {
    hide Next, Respond, Serve, Build, DeploymentName, Harmless, MatchesStatus;
    OnlyStatusWritesTouchAgents(s.objects, RequestOf(s.pc, now), fault);
    if k !in s.objects.agents {
      NoAgentNoHarm(s, Work(fault, now), k);
    } else if RunsFor(s.pc, k) && RequestOf(s.pc, now).UpdateStatus? {
      StatusWorkFreshIff(s, fault, now, k);
    } else {
      DeploymentWorkFreshIff(s, fault, now, k);
    }
  }

  lemma NoAgentNoHarm(s: System, ev: Event, k: Key)
    requires k !in s.objects.agents
    ensures Harmless(s, ev, k)
  {
  }

  lemma EditedMatchesIff(a: Agent, spec: AgentSpec, d: Option<Deployment>)
    requires MatchesStatus(a, d) && a.status.observedGeneration <= a.Generation() && spec != a.Spec()
    ensures MatchesStatus(a.Edited(spec), d) <==>
            (a.status.deploymentRef == "" && d.Some? ==> SameBuild(a.key, spec, a.Spec()))
  {
    hide Build;
  }

  lemma DisturbanceFreshIff(s: System, x: Outside, k: Key)
    requires Sound(s, k) && FreshAt(s, k)
    ensures FreshAt(Disturbed(s, x), k) <==> Harmless(s, Environment(x), k)
  {
    hide Build, DeploymentName, MatchesStatus, SameBuild;
    OutsideKeepsStatus(s.objects, x);
    if k in s.objects.agents {
      OutsideAgent(s.objects, x, k);
      var a, d, d' := s.objects.agents[k], DeploymentOf(s.objects, k), DeploymentOf(Changed(s.objects, x), k);
      if Edits(s, Environment(x), k) {
        assert d' == d;
        EditedMatchesIff(a, x.spec, d);
      } else {
        OutsideDeployment(s.objects, x, DeploymentKey(k));
        if d'.Some? { assert d'.value.Core() == d.value.Core(); }
        SameCoreMatches(a, d, d');
        DeletionMatches(a, d');
      }
    }
  }

  lemma DeletionMatches(a: Agent, d: Option<Deployment>)
    ensures MatchesStatus(a.(deleting := true), d) <==> MatchesStatus(a, d)
  {
  }

  /** Every step, exactly. */
  lemma StepFreshIff(s: System, ev: Event, k: Key)
    requires Sound(s, k) && FreshAt(s, k)
    ensures FreshAt(Step(s, ev), k) <==> Harmless(s, ev, k)
  {
    match ev {
      case Work(fault, now) => if s.pc.Working() { WorkFreshIff(s, fault, now, k); }
      case Environment(x) => DisturbanceFreshIff(s, x, k);
      case Start(_) =>
      case Crash =>
    }
  }

  // ---------------------------------------------------------------- over runs

  predicate AlwaysFresh(s: System, evs: seq<Event>, k: Key)
    decreases evs
  {
    FreshAt(s, k) && (evs == [] || AlwaysFresh(Step(s, evs[0]), evs[1..], k))
  }

  predicate AllHarmless(s: System, evs: seq<Event>, k: Key)
    decreases evs
  {
    evs == [] || (Harmless(s, evs[0], k) && AllHarmless(Step(s, evs[0]), evs[1..], k))
  }

  lemma {:induction false} FreshKept(s: System, evs: seq<Event>, k: Key)
    requires Sound(s, k) && FreshAt(s, k)
    ensures AlwaysFresh(s, evs, k) <==> AllHarmless(s, evs, k)
    ensures AllHarmless(s, evs, k) ==> FreshAt(Run(s, evs), k)
    decreases evs
  {
    hide Sound, FreshAt, Harmless, Step;
    if evs != [] {
      StepKeepsSound(s, evs[0], k);
      StepFreshIff(s, evs[0], k);
      if FreshAt(Step(s, evs[0]), k) { FreshKept(Step(s, evs[0]), evs[1..], k); }
    }
  }

  /** Freshness over every run, with failures, lost answers, crashes and changes by others at any
      point: the Deployment is fresh at every moment if and only if every step is harmless. */
  lemma FreshnessOverRuns(s: System, evs: seq<Event>, k: Key)
    requires Fresh(s)
    ensures AlwaysFresh(s, evs, k) <==> AllHarmless(s, evs, k)
    ensures AllHarmless(s, evs, k) ==> FreshAt(Run(s, evs), k)
  {
    FreshKept(s, evs, k);
  }

  /** An edit that changes what is built, inside a pass for the Agent or over an orphan. */
  predicate Careless(s: System, ev: Event, k: Key) {
    && Edits(s, ev, k) && !SameBuild(k, ev.change.spec, s.objects.agents[k].Spec())
    && (RunsFor(s.pc, k) || Orphaned(s, k))
  }

  predicate NeverCareless(s: System, evs: seq<Event>, k: Key)
    decreases evs
  {
    evs == [] || (!Careless(s, evs[0], k) && NeverCareless(Step(s, evs[0]), evs[1..], k))
  }

  /** The spec of the pass is the stored one in all that is built. */
  predicate UpToDate(s: System, k: Key) {
    k in s.objects.agents && RunsFor(s.pc, k) ==> SameBuild(k, s.pc.a.Spec(), s.objects.agents[k].Spec())
  }

  lemma StepKeepsUpToDate(s: System, ev: Event, k: Key)
    requires Sound(s, k) && UpToDate(s, k) && !Careless(s, ev, k)
    ensures UpToDate(Step(s, ev), k) && Harmless(s, ev, k)
  {
    hide RequestOf, Next, Respond, Serve, Build, DeploymentName;
    match ev {
      case Work(fault, now) =>
        if s.pc.Working() && k in s.objects.agents {
          WorkOn(s, fault, now, k);
          if RunsFor(Advanced(s, fault, now).pc, k) { SnapshotTaken(s, fault, now, k); }
        }
        if s.pc.Working() { OnlyStatusWritesTouchAgents(s.objects, RequestOf(s.pc, now), fault); }
      case Environment(x) =>
        OutsideKeepsStatus(s.objects, x);
        if k in s.objects.agents { OutsideAgent(s.objects, x, k); }
      case Start(_) =>
      case Crash =>
    }
  }

  /** A schedule without such edits is harmless, whatever else happens in it. */
  lemma {:induction false} CarefulRunsAreHarmless(s: System, evs: seq<Event>, k: Key)
    requires Sound(s, k) && UpToDate(s, k) && NeverCareless(s, evs, k)
    ensures AllHarmless(s, evs, k)
    decreases evs
  {
    hide Sound, UpToDate, Harmless, Careless, Step;
    if evs != [] {
      StepKeepsSound(s, evs[0], k);
      StepKeepsUpToDate(s, evs[0], k);
      CarefulRunsAreHarmless(Step(s, evs[0]), evs[1..], k);
    }
  }

  // ---------------------------------------------------------------- an edit inside a pass

  predicate NoEdits(script: seq<Turn>, k: Key) {
    forall t, x :: t in script && x in t.before ==> !(x.SpecEdit? && x.key == k)
  }

  /** A pass whose spec an edit has replaced by one that builds something else. */
  ghost predicate Overtaken(s: System, k: Key) {
    && Sound(s, k) && k in s.objects.agents && RunsFor(s.pc, k)
    && (var a, d := s.objects.agents[k], DeploymentOf(s.objects, k);
        && !SameBuild(k, s.pc.a.Spec(), a.Spec())
        && (d.Some? ==>
              if a.status.deploymentRef == "" then d.value.Core() == Build(k, s.pc.a.Spec()) else MatchesStatus(a, d)))
  }

  /** The Agent has a Deployment, and its status claims it for the current generation, or has no
      reference, so that the next pass will. */
  predicate LeavesClaim(o: Objects, k: Key) {
    && k in o.agents && DeploymentOf(o, k).Some?
    && (o.agents[k].status.deploymentRef == "" || o.agents[k].status.observedGeneration == o.agents[k].Generation())
  }

  lemma OvertakenIsBehind(s: System, k: Key)
    requires Overtaken(s, k)
    ensures s.objects.agents[k].status.observedGeneration < s.objects.agents[k].Generation()
    ensures s.pc.a.status == s.objects.agents[k].status && s.objects.agents[k].key == k
  {
    assert s.pc.a.revisions <= s.objects.agents[k].revisions && s.pc.a.revisions != s.objects.agents[k].revisions;
  }

  lemma OvertakenStatusWrite(s: System, now: Time, k: Key)
    requires Overtaken(s, k) && RequestOf(s.pc, now).UpdateStatus?
    ensures var a, d := s.objects.agents[k], DeploymentOf(s.objects, k);
            var a' := a.(status := Mutated(k, a.Generation(), a.status, RequestOf(s.pc, now).mutation));
            MatchesStatus(a', d) <==>
            !(d.Some? && (a'.status.deploymentRef == "" || a'.status.observedGeneration == a'.Generation()))
  {
    hide Build;
    OvertakenIsBehind(s, k);
    RequestsAreTimely(s.pc, now);
    assert ShapedAt(s, k);
    NamesInjective(k, k);
  }

  lemma OvertakenWork(s: System, fault: Fault, now: Time, k: Key)
    requires Overtaken(s, k)
    ensures var s' := Advanced(s, fault, now);
            if s'.pc.Working() then Overtaken(s', k) else FreshAt(s', k) <==> !LeavesClaim(s'.objects, k)
  {
    hide RequestOf, Next, Respond, Serve, Build, DeploymentName, Mutated, SameBuild;
    var s' := Advanced(s, fault, now);
    StepKeepsSound(s, Work(fault, now), k);
    OvertakenIsBehind(s, k);
    WorkOn(s, fault, now, k);
    StatusWriteEnds(s.pc, now, Respond(s.objects, RequestOf(s.pc, now), fault).reply);
    ComesFrom(s.pc, Respond(s.objects, RequestOf(s.pc, now), fault).reply);
    CoreOfBuilt(k, s.pc.a.Spec());
    var d := DeploymentOf(s.objects, k);
    if d.Some? && s.pc.Rolling? { CoreOfStamped(d.value, s.pc.version); }
    if RequestOf(s.pc, now).UpdateStatus? && !fault.Refused? { OvertakenStatusWrite(s, now, k); }
    if !s'.pc.Working() && !(RequestOf(s.pc, now).UpdateStatus? && !fault.Refused?) { StillBehind(s, s', k); }
  }

  lemma StillBehind(s: System, s': System, k: Key)
    requires Overtaken(s, k) && k in s'.objects.agents && s'.objects.agents[k] == s.objects.agents[k]
    requires var a, d' := s.objects.agents[k], DeploymentOf(s'.objects, k);
             d'.Some? ==>
               if a.status.deploymentRef == "" then d'.value.Core() == Build(k, s.pc.a.Spec()) else MatchesStatus(a, d')
    ensures FreshAt(s', k) <==> !LeavesClaim(s'.objects, k)
  {
    hide Build;
    OvertakenIsBehind(s, k);
  }

  lemma OvertakenDisturbed(s: System, x: Outside, k: Key)
    requires Overtaken(s, k) && !(x.SpecEdit? && x.key == k)
    ensures Overtaken(Disturbed(s, x), k)
  {
    hide Build, DeploymentName, SameBuild;
    StepKeepsSound(s, Environment(x), k);
    OutsideDeployment(s.objects, x, DeploymentKey(k));
    OutsideKeepsStatus(s.objects, x);
    OutsideAgent(s.objects, x, k);
    var d, d' := DeploymentOf(s.objects, k), DeploymentOf(Changed(s.objects, x), k);
    if d'.Some? { assert d'.value.Core() == d.value.Core(); }
  }

  lemma {:induction false} OvertakenDisturbedAll(s: System, xs: seq<Outside>, k: Key)
    requires Overtaken(s, k) && forall x :: x in xs ==> !(x.SpecEdit? && x.key == k)
    ensures Overtaken(DisturbedAll(s, xs), k)
    decreases xs
  {
    hide Overtaken;
    if xs != [] {
      OvertakenDisturbed(s, xs[0], k);
      OvertakenDisturbedAll(Disturbed(s, xs[0]), xs[1..], k);
    }
  }

  lemma {:induction false} OvertakenToTheEnd(s: System, script: seq<Turn>, now: Time, k: Key)
    requires Overtaken(s, k) && NoEdits(script, k)
    ensures var s' := Finish(s, script, now).0; FreshAt(s', k) <==> !LeavesClaim(s'.objects, k)
    decreases Rank(s.pc)
  {
    hide Sound, FreshAt, LeavesClaim, SameBuild, MatchesStatus, Next, RequestOf, Respond, Serve;
    var t := TurnAt(script, now);
    var s1 := DisturbedAll(s, t.before);
    assert NoEdits(Rest(script), k);
    OvertakenDisturbedAll(s, t.before, k);
    AdvancedRank(s1, t.fault, t.now);
    OvertakenWork(s1, t.fault, t.now, k);
    var s2 := Advanced(s1, t.fault, t.now);
    if s2.pc.Working() {
      OvertakenToTheEnd(s2, Rest(script), now, k);
    } else {
      assert Finish(s2, Rest(script), now).0 == s2;
    }
  }

  lemma EditOvertakes(s: System, spec: AgentSpec, k: Key)
    requires Sound(s, k) && FreshAt(s, k) && k in s.objects.agents && RunsFor(s.pc, k)
    requires SameBuild(k, s.pc.a.Spec(), s.objects.agents[k].Spec())
    requires !SameBuild(k, spec, s.objects.agents[k].Spec())
    ensures var s' := Disturbed(s, SpecEdit(k, spec));
            && Overtaken(s', k) && s'.pc == s.pc && s'.objects.agents[k].Spec() == spec
            && s'.objects.deployments == s.objects.deployments
  {
    hide Build, DeploymentName;
    StepKeepsSound(s, Environment(SpecEdit(k, spec)), k);
    OutsideKeepsStatus(s.objects, SpecEdit(k, spec));
    assert Disturbed(s, SpecEdit(k, spec)).objects.agents[k].Spec() == spec;
  }

  /** An edit inside a pass that changes what is built matters exactly when the pass goes on to
      claim the Deployment for the new generation, or leaves it without a reference. What else
      happens in the pass, faults and changes by others, makes no difference. This speaks of
      how the pass ends; StepFreshIff says before each step whether it does harm. */
  lemma EditInsideAPassMattersIff(s: System, spec: AgentSpec, script: seq<Turn>, now: Time, k: Key)
    requires Sound(s, k) && FreshAt(s, k) && k in s.objects.agents && RunsFor(s.pc, k)
    requires SameBuild(k, s.pc.a.Spec(), s.objects.agents[k].Spec())
    requires !SameBuild(k, spec, s.objects.agents[k].Spec()) && NoEdits(script, k)
    ensures var s' := Finish(Disturbed(s, SpecEdit(k, spec)), script, now).0;
            FreshAt(s', k) <==> !LeavesClaim(s'.objects, k)
  {
    EditOvertakes(s, spec, k);
    OvertakenToTheEnd(Disturbed(s, SpecEdit(k, spec)), script, now, k);
  }

  /** Two ways to claim. An edit that comes just before a pass records its Deployment, or just
      before it marks it ready, is taken for observed: the next pass does not rebuild. */
  lemma EditInsideAPassGoesUnnoticed(s: System, spec: AgentSpec, now: Time, k: Key)
    requires Sound(s, k) && FreshAt(s, k) && k in s.objects.agents && RunsFor(s.pc, k)
    requires s.pc.MarkingRunning? || s.pc.MarkingReady?
    requires DeploymentOf(s.objects, k).Some? && !SameBuild(k, spec, s.objects.agents[k].Spec())
    requires SameBuild(k, s.pc.a.Spec(), s.objects.agents[k].Spec())
    ensures var s' := Run(s, [Environment(SpecEdit(k, spec)), Work(NoFault, now)]);
            && !FreshAt(s', k) && k in s'.objects.agents && s'.objects.agents[k].Spec() == spec
            && AfterClaim(s'.objects.agents[k]) == Observing(s'.objects.agents[k])
  {
    hide Sound, FreshAt, Overtaken, SameBuild, Advanced, AfterClaim;
    var x := SpecEdit(k, spec);
    var s1 := Disturbed(s, x);
    EditOvertakes(s, spec, k);
    OvertakenWork(s1, NoFault, now, k);
    assert Sound(s1, k) by { OvertakenIsSound(s1, k); }
    ClaimIsObservedNext(s1, now, k);
    var evs := [Environment(x), Work(NoFault, now)];
    assert evs[1..] == [Work(NoFault, now)] && [Work(NoFault, now)][1..] == [];
    assert Run(s, evs) == Run(s1, [Work(NoFault, now)]) == Run(Advanced(s1, NoFault, now), []);
  }

  lemma OvertakenIsSound(s: System, k: Key)
    requires Overtaken(s, k)
    ensures Sound(s, k)
  {
  }

  lemma ClaimIsObservedNext(s: System, now: Time, k: Key)
    requires Sound(s, k) && k in s.objects.agents && RunsFor(s.pc, k) && (s.pc.MarkingRunning? || s.pc.MarkingReady?)
    ensures var s' := Advanced(s, NoFault, now);
            && k in s'.objects.agents && s'.objects.agents[k].Spec() == s.objects.agents[k].Spec()
            && s'.objects.deployments == s.objects.deployments && !s'.pc.Working()
            && AfterClaim(s'.objects.agents[k]) == Observing(s'.objects.agents[k])
            && s'.objects.agents[k].status.observedGeneration == s'.objects.agents[k].Generation()
  {
    hide Build;
    assert ShapedAt(s, k);
    NamesInjective(k, k);
  }
}
