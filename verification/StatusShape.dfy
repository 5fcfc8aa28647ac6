/** The shape of an Agent's status in every state a single worker can reach. */
module StatusShape {
  import opened AgentTypes
  import opened Builder
  import opened StatusService
  import opened Cluster
  import opened Reconcile

  predicate Shaped(k: Key, st: AgentStatus) {
    && ((st.deploymentRef == "" && st.serviceRef == "") ||
        (st.deploymentRef == DeploymentName(k) && st.serviceRef == ServiceName(k)))
    && (if st.deploymentRef == "" then st.phase in {Unset, Pending, Failed} else st.phase in {Running, Ready})
    && (st.readyReplicas > 0 <==> st.phase == Ready)
    && (st.startedAt.Some? <==> st.phase == Ready)
    && Told(st)
  }

  /** What the phase says, a condition says too. */
  predicate Told(st: AgentStatus) {
    && (st.phase == Ready ==> Says(st.conditions, "Ready"))
    && (st.phase == Running ==> Says(st.conditions, "Running"))
    && (st.phase == Failed ==> Says(st.conditions, "Failed"))
  }

  lemma MutatedTells(k: Key, generation: nat, st: AgentStatus, m: Mutation)
    ensures Told(Mutated(k, generation, st, m))
  {
    var c := ConditionOf(m, generation);
    if c.Some? { UpsertSays(st.conditions, c.value, c.value.kind); }
  }

  predicate ShapedAt(s: System, k: Key) {
    k in s.objects.agents ==> Shaped(k, s.objects.agents[k].status)
  }

  /** The status writes a pass makes, given the references in the status it read. */
  predicate Timely(k: Key, st: AgentStatus, m: Mutation) {
    match m
    case MarkPending(_, _) => false
    case MarkRunning(depName, _) => st.deploymentRef == "" && depName == DeploymentName(k)
    case MarkReady(n, _) => st.deploymentRef != "" && n > 0
    case MarkFailed(_, _) => st.deploymentRef == ""
    case ResetForRerun => st.deploymentRef != ""
  }

  lemma RequestsAreTimely(pc: Pc, now: Time)
    requires pc.Working() && PcOk(pc) && RequestOf(pc, now).UpdateStatus?
    ensures HasAgent(pc) && RequestOf(pc, now).key == pc.a.key
    ensures Timely(pc.a.key, pc.a.status, RequestOf(pc, now).mutation)
    ensures RequestOf(pc, now).mutation.MarkReady? ==> pc.MarkingReady?
    ensures RequestOf(pc, now).mutation.ResetForRerun? ==> pc.Resetting?
    ensures RequestOf(pc, now).mutation.MarkRunning? ==> pc.MarkingRunning?
  {
  }

  lemma TimelyKeepsShape(k: Key, generation: nat, st: AgentStatus, m: Mutation)
    requires Shaped(k, st) && Timely(k, st, m)
    ensures Shaped(k, Mutated(k, generation, st, m))
  {
    hide Told, Recorded;
    MutatedTells(k, generation, st, m);
    NamesInjective(k, k);
  }

  lemma StatusWritten(o: Objects, req: Request, fault: Fault, k: Key)
    requires req.UpdateStatus? && k in o.agents
    ensures var o' := Respond(o, req, fault).objects;
            && k in o'.agents
            && (o'.agents[k].status == o.agents[k].status ||
                (req.key == k &&
                 o'.agents[k].status == Mutated(k, o.agents[k].Generation(), o.agents[k].status, req.mutation)))
  {
  }

  lemma WorkKeepsShape(s: System, fault: Fault, now: Time, k: Key)
    requires Basic(s) && ShapedAt(s, k) && s.pc.Working()
    ensures ShapedAt(Advanced(s, fault, now), k)
  {
    var req := RequestOf(s.pc, now);
    OnlyStatusWritesTouchAgents(s.objects, req, fault);
    if req.UpdateStatus? && k in s.objects.agents {
      RequestsAreTimely(s.pc, now);
      StatusWritten(s.objects, req, fault, k);
      if req.key == k {
        TimelyKeepsShape(k, s.objects.agents[k].Generation(), s.objects.agents[k].status, req.mutation);
      }
    }
  }

  lemma StepKeepsShape(s: System, ev: Event, k: Key)
    requires Basic(s) && ShapedAt(s, k)
    ensures ShapedAt(Step(s, ev), k)
  {
    match ev {
      case Work(fault, now) => if s.pc.Working() { WorkKeepsShape(s, fault, now, k); }
      case Environment(x) => OutsideKeepsStatus(s.objects, x);
      case Start(_) =>
      case Crash =>
    }
  }

  lemma {:induction false} ShapeKept(s: System, evs: seq<Event>, k: Key)
    requires Basic(s) && ShapedAt(s, k)
    ensures ShapedAt(Run(s, evs), k)
    decreases evs
  {
    if evs != [] {
      StepKeepsBasic(s, evs[0]);
      StepKeepsShape(s, evs[0], k);
      ShapeKept(Step(s, evs[0]), evs[1..], k);
    }
  }

  /** In every reachable state, whatever fails, crashes or changes at any point of a pass, spec
      edits in the middle of one included: the two references are both empty or both the
      deterministic names; the phase agrees with them; the ready count is positive exactly in
      phase Ready, which is exactly when StartedAt is set; and a condition says that the Agent
      is Ready, Running or Failed if its phase does. */
  lemma StatusShapeOverRuns(s: System, evs: seq<Event>, k: Key)
    requires Fresh(s)
    ensures ShapedAt(Run(s, evs), k)
  {
    ShapeKept(s, evs, k);
  }
}
