/** The window between creating a Deployment and recording it: what exactly must not happen in
    it. */
module Creation {
  import opened Wrappers
  import opened AgentTypes
  import opened Builder
  import opened StatusService
  import opened Cluster
  import opened Reconcile
  import opened StatusShape
  import opened Snapshot
  import Convergence

  predicate InWindow(pc: Pc, k: Key) {
    RunsFor(pc, k) && (pc.CreatingService? || pc.MarkingRunning?)
  }

  /** The creation that opens the window does not lose its answer; and as long as the Deployment
      stands, there is no crash inside, no failure of the Service, and no refusal of the record. */
  predicate WindowKept(s: System, ev: Event, k: Key) {
    RunsFor(s.pc, k) ==>
      var stands := DeploymentOf(s.objects, k).Some?;
      && (InWindow(s.pc, k) && stands ==> !ev.Crash?)
      && (ev.Work? && s.pc.Creating? ==> !ev.fault.AnswerLost?)
      && (ev.Work? && s.pc.CreatingService? && stands ==> ev.fault.NoFault?)
      && (ev.Work? && s.pc.MarkingRunning? && stands ==> !ev.fault.Refused?)
  }

  /** A Deployment without a reference exists only inside the window, and a reference only
      with its Service. */
  predicate PairedAt(s: System, k: Key) {
    && (Orphaned(s, k) ==> InWindow(s.pc, k))
    && (k in s.objects.agents && s.objects.agents[k].status.deploymentRef != "" ==> ServiceKey(k) in s.objects.services)
    && (RunsFor(s.pc, k) && s.pc.MarkingRunning? ==> ServiceKey(k) in s.objects.services)
  }

  /** An orphan outside any window. */
  predicate Stranded(s: System, k: Key) {
    Orphaned(s, k) && !InWindow(s.pc, k)
  }

  lemma ServicesStay(o: Objects, req: Request, fault: Fault)
    ensures o.services.Keys <= Respond(o, req, fault).objects.services.Keys
    ensures req.CreateService? && fault.NoFault? ==> req.key in Respond(o, req, fault).objects.services
  {
  }

  /** The pass of another Agent. */
  lemma OthersKeepPaired(s: System, fault: Fault, now: Time, k: Key)
    requires Sound(s, k) && PairedAt(s, k) && s.pc.Working() && !RunsFor(s.pc, k)
    ensures PairedAt(Advanced(s, fault, now), k)
  {
    hide RequestOf, Next, Respond, Serve, Build, DeploymentName, ServiceName;
    var req := RequestOf(s.pc, now);
    ServicesStay(s.objects, req, fault);
    OnlyStatusWritesTouchAgents(s.objects, req, fault);
    if k in s.objects.agents { WorkOn(s, fault, now, k); }
    StatusWriteEnds(s.pc, now, Respond(s.objects, req, fault).reply);
    ComesFrom(s.pc, Respond(s.objects, req, fault).reply);
  }

  /** The pass of the Agent itself, neither creating nor in the window. */
  lemma OutsideWindowKeepsPaired(s: System, fault: Fault, now: Time, k: Key)
    requires Sound(s, k) && PairedAt(s, k) && RunsFor(s.pc, k) && !InWindow(s.pc, k) && !s.pc.Creating?
    ensures PairedAt(Advanced(s, fault, now), k)
  {
    hide RequestOf, Next, Respond, Serve, Build, DeploymentName, ServiceName, Mutated;
    var req := RequestOf(s.pc, now);
    ServicesStay(s.objects, req, fault);
    WorkOn(s, fault, now, k);
    StatusWriteEnds(s.pc, now, Respond(s.objects, req, fault).reply);
    ComesFrom(s.pc, Respond(s.objects, req, fault).reply);
    if req.UpdateStatus? {
      RequestsAreTimely(s.pc, now);
      RefAfter(k, s.objects.agents[k].Generation(), s.objects.agents[k].status, req.mutation);
    }
  }

  lemma RefAfter(k: Key, generation: nat, st: AgentStatus, m: Mutation)
    ensures Mutated(k, generation, st, m).deploymentRef ==
            if m.MarkRunning? then m.depName else if m.ResetForRerun? then "" else st.deploymentRef
  {
  }

  lemma CreationPairedIff(s: System, fault: Fault, now: Time, k: Key)
    requires Sound(s, k) && PairedAt(s, k) && RunsFor(s.pc, k) && s.pc.Creating?
    ensures var s' := Advanced(s, fault, now); if fault.AnswerLost? then Stranded(s', k) else PairedAt(s', k)
  {
    hide Build, DeploymentName, ServiceName;
    WorkOn(s, fault, now, k);
    ServicesStay(s.objects, RequestOf(s.pc, now), fault);
    assert DeploymentOf(s.objects, k).None?;
    assert RequestOf(s.pc, now) == CreateDeployment(DeploymentKey(k), Build(k, s.pc.a.Spec()), s.pc.a.Generation());
    assert !fault.NoFault? ==> Advanced(s, fault, now).pc.MarkingFailed?;
  }

  lemma ServicePairedIff(s: System, fault: Fault, now: Time, k: Key)
    requires Sound(s, k) && PairedAt(s, k) && RunsFor(s.pc, k) && s.pc.CreatingService?
    ensures var s' := Advanced(s, fault, now);
            if DeploymentOf(s.objects, k).Some? && !fault.NoFault? then Stranded(s', k) else PairedAt(s', k)
  {
    hide Build, DeploymentName, ServiceName;
    WorkOn(s, fault, now, k);
    ServicesStay(s.objects, RequestOf(s.pc, now), fault);
    assert RequestOf(s.pc, now) == CreateService(ServiceKey(k), BuildService(k));
  }

  lemma RecordPairedIff(s: System, fault: Fault, now: Time, k: Key)
    requires Sound(s, k) && PairedAt(s, k) && RunsFor(s.pc, k) && s.pc.MarkingRunning?
    ensures var s' := Advanced(s, fault, now);
            if DeploymentOf(s.objects, k).Some? && fault.Refused? then Stranded(s', k) else PairedAt(s', k)
  {
    WorkOn(s, fault, now, k);
    NamesInjective(k, k);
    ServicesStay(s.objects, RequestOf(s.pc, now), fault);
    assert RequestOf(s.pc, now) == UpdateStatus(k, MarkRunning(DeploymentName(k), now));
  }

  lemma WorkPairedIff(s: System, fault: Fault, now: Time, k: Key)
    requires Sound(s, k) && PairedAt(s, k) && s.pc.Working()
    ensures var s' := Advanced(s, fault, now);
            if WindowKept(s, Work(fault, now), k) then PairedAt(s', k) else Stranded(s', k)
  {
    hide Sound, PairedAt, Stranded, Advanced, DeploymentName;
    if !RunsFor(s.pc, k) { OthersKeepPaired(s, fault, now, k); }
    else if s.pc.Creating? { CreationPairedIff(s, fault, now, k); }
    else if s.pc.CreatingService? { ServicePairedIff(s, fault, now, k); }
    else if s.pc.MarkingRunning? { RecordPairedIff(s, fault, now, k); }
    else { OutsideWindowKeepsPaired(s, fault, now, k); }
  }

  lemma DisturbanceKeepsPaired(s: System, x: Outside, k: Key)
    requires PairedAt(s, k)
    ensures PairedAt(Disturbed(s, x), k)
  {
    OutsideDeployment(s.objects, x, DeploymentKey(k));
    OutsideKeepsStatus(s.objects, x);
    assert Changed(s.objects, x).services == s.objects.services;
  }

  /** Every step, exactly. */
  lemma StepPairedIff(s: System, ev: Event, k: Key)
    requires Sound(s, k) && PairedAt(s, k)
    ensures PairedAt(Step(s, ev), k) <==> WindowKept(s, ev, k)
    ensures !WindowKept(s, ev, k) ==> Stranded(Step(s, ev), k)
  {
    hide RequestOf, Next, Respond, Serve, Changed, Advanced;
    match ev {
      case Work(fault, now) => if s.pc.Working() { WorkPairedIff(s, fault, now, k); }
      case Environment(x) => DisturbanceKeepsPaired(s, x, k);
      case Start(_) =>
      case Crash =>
    }
  }

  predicate AlwaysPaired(s: System, evs: seq<Event>, k: Key)
    decreases evs
  {
    PairedAt(s, k) && (evs == [] || AlwaysPaired(Step(s, evs[0]), evs[1..], k))
  }

  predicate AllWindowsKept(s: System, evs: seq<Event>, k: Key)
    decreases evs
  {
    evs == [] || (WindowKept(s, evs[0], k) && AllWindowsKept(Step(s, evs[0]), evs[1..], k))
  }

  lemma {:induction false} PairedKept(s: System, evs: seq<Event>, k: Key)
    requires Sound(s, k) && PairedAt(s, k)
    ensures AlwaysPaired(s, evs, k) <==> AllWindowsKept(s, evs, k)
    ensures AllWindowsKept(s, evs, k) ==> PairedAt(Run(s, evs), k)
    decreases evs
  {
    hide Sound, PairedAt, WindowKept, Step;
    if evs != [] {
      StepKeepsSound(s, evs[0], k);
      StepPairedIff(s, evs[0], k);
      if PairedAt(Step(s, evs[0]), k) { PairedKept(Step(s, evs[0]), evs[1..], k); }
    }
  }

  /** Over every run, with edits, crashes, failures and lost answers anywhere: Deployment,
      reference and Service stay together at every moment if and only if every window is kept.
      And then, whenever no pass is in its window, an empty reference means that no Deployment
      exists, and a set one that the Service exists. */
  lemma PairedOverRuns(s: System, evs: seq<Event>, k: Key)
    requires Fresh(s)
    ensures AlwaysPaired(s, evs, k) <==> AllWindowsKept(s, evs, k)
    ensures var s' := Run(s, evs);
            AllWindowsKept(s, evs, k) && k in s'.objects.agents && !InWindow(s'.pc, k) ==>
              if s'.objects.agents[k].status.deploymentRef == "" then DeploymentKey(k) !in s'.objects.deployments
              else ServiceKey(k) in s'.objects.services
  {
    PairedKept(s, evs, k);
  }

  /** The guard that decides it: an undisturbed pass that creates leaves a Service exactly when
      it finds no Deployment, or a Service already there. */
  lemma ServiceAfterCreationIff(o: Objects, k: Key, now: Time)
    requires k in o.agents && o.agents[k].key == k && !o.agents[k].deleting && o.agents[k].status.deploymentRef == ""
    ensures var p := Convergence.Settle(o, Fetching(k), now).0;
            && k in p.agents && p.agents[k].status.deploymentRef == DeploymentName(k)
            && (ServiceKey(k) in p.services <==> DeploymentKey(k) !in o.deployments || ServiceKey(k) in o.services)
  {
    hide Convergence.Settle, DeploymentName, ServiceName, Build, RequestOf, Next, Serve;
    var a := o.agents[k];
    Convergence.SettlePass(o, k, now);
    var prepared := Convergence.WithClaim(Convergence.WithBindings(o, a), a);
    assert prepared.services == o.services && prepared.deployments == o.deployments;
    Convergence.SettleCreate(prepared, a, now);
  }

  /** So a crash between the Deployment and the Service is not made good: the next pass,
      undisturbed as it may be, adopts the Deployment and leaves the Service out. */
  lemma CrashInTheWindowLosesTheService(s: System, k: Key, now: Time)
    requires Basic(s) && s.pc.CreatingService? && s.pc.a.key == k && !s.objects.agents[k].deleting
    requires DeploymentOf(s.objects, k).Some? && ServiceKey(k) !in s.objects.services
    ensures var o := Convergence.Settle(Run(s, [Crash, Start(k)]).objects, Fetching(k), now).0;
            && k in o.agents && o.agents[k].status.deploymentRef == DeploymentName(k)
            && ServiceKey(k) !in o.services
  {
    hide Convergence.Settle, DeploymentName, ServiceName;
    var evs, s1 := [Crash, Start(k)], Step(s, Crash);
    assert evs[1..] == [Start(k)] && [Start(k)][1..] == [];
    assert Run(s, evs) == Run(s1, [Start(k)]) == Run(Step(s1, Start(k)), []);
    ServiceAfterCreationIff(s.objects, k, now);
  }
}
