/** One worker running Reconcile (agent_controller.go) against the API server, as an automaton:
    each state waits for the answer to one request, and the answer decides the next state. */
module Reconcile {
  import opened Wrappers
  import opened AgentTypes
  import opened Builder
  import opened StatusService
  import opened Cluster

  /** How a pass ends: nothing to do, run again (at once, or after some seconds), or an error,
      on which the work queue runs it again. */
  datatype Result = Stop | Requeue | RequeueAfter(seconds: nat) | Failure

  const REQUEUE_AFTER_DEPLOYMENT_CREATE := 3
  const REQUEUE_AFTER_CREDENTIAL_ROLL := 3
  const REQUEUE_AFTER_OBSERVED_READY := 10
  const REQUEUE_AFTER_OBSERVED_NOT_READY := 5

  /** Where a pass stands; `a` is the Agent as read when the pass began. */
  datatype Pc =
    | Idle
    | Fetching(k: Key)
    | CreatingAccount(a: Agent)
    | BindingRead(a: Agent)
    | BindingWrite(a: Agent)
    | FindingWrite(a: Agent)
    | UnbindingWrite(a: Agent)
    | CreatingClaim(a: Agent)
    | DeletingClaim(a: Agent)
    | FindingOld(a: Agent)
    | DeletingOld(a: Agent)
    | Resetting(a: Agent)
    | Creating(a: Agent)
    | CreatingService(a: Agent)
    | MarkingRunning(a: Agent)
    | MarkingFailed(a: Agent, reason: string)
    | Observing(a: Agent)
    | ReadingSecret(a: Agent, d: Deployment)
    | Rolling(a: Agent, d: Deployment, version: string)
    | MarkingReady(a: Agent, n: nat)
    | Ended(result: Result)
  {
    predicate Working() {
      !Idle? && !Ended?
    }

    /** The Agent a running pass is for. */
    function Subject(): Key
      requires Working()
    {
      if Fetching? then k else a.key
    }
  }

  function StatusKey(a: Agent): Key {
    Key(a.key.namespace, a.status.deploymentRef)
  }

  /** The request a working state waits on. */
  function RequestOf(pc: Pc, now: Time): Request
    requires pc.Working()
  {
    match pc
    case Fetching(k) => GetAgent(k)
    case CreatingAccount(a) => CreateAccount(AccountKey(a.key), ServiceAccount(a.key))
    case BindingRead(a) => CreateBinding(ReadBinding(a.key), BuildBinding(a.key, READ_CLUSTER_ROLE))
    case BindingWrite(a) => CreateBinding(WriteBinding(a.key), BuildBinding(a.key, WRITE_CLUSTER_ROLE))
    case FindingWrite(a) => GetBinding(WriteBinding(a.key))
    case UnbindingWrite(a) => DeleteBinding(WriteBinding(a.key))
    case CreatingClaim(a) => CreateClaim(ClaimKey(a.key), BuildClaim(a.key, a.Spec()))
    case DeletingClaim(a) => DeleteClaim(ClaimKey(a.key))
    case FindingOld(a) => GetDeployment(DeploymentKey(a.key))
    case DeletingOld(a) => DeleteDeployment(DeploymentKey(a.key))
    case Resetting(a) => UpdateStatus(a.key, ResetForRerun)
    case Creating(a) => CreateDeployment(DeploymentKey(a.key), Build(a.key, a.Spec()), a.Generation())
    case CreatingService(a) => CreateService(ServiceKey(a.key), BuildService(a.key))
    case MarkingRunning(a) => UpdateStatus(a.key, MarkRunning(DeploymentName(a.key), now))
    case MarkingFailed(a, reason) => UpdateStatus(a.key, MarkFailed(reason, now))
    case Observing(a) => GetDeployment(StatusKey(a))
    case ReadingSecret(a, _) => GetSecret(SecretKey(a.key, a.Spec()))
    case Rolling(a, _, version) => StampDeployment(StatusKey(a), version)
    case MarkingReady(a, n) => UpdateStatus(a.key, MarkReady(n, now))
  }

  /** The claim step, then the choice between rebuilding, creating and observing. */
  function AfterBindings(a: Agent): Pc {
    if a.Spec().HistoryOn() then CreatingClaim(a) else DeletingClaim(a)
  }

  function AfterClaim(a: Agent): Pc {
    if a.status.deploymentRef != "" && a.status.observedGeneration != a.Generation() then FindingOld(a)
    else if a.status.deploymentRef == "" then Creating(a)
    else Observing(a)
  }

  /** The end of an observation that rolled nothing. */
  function AfterRoll(a: Agent, d: Deployment): Pc {
    if d.readyReplicas > 0 then
      if a.status.phase != Ready || a.status.readyReplicas != d.readyReplicas then MarkingReady(a, d.readyReplicas)
      else Ended(RequeueAfter(REQUEUE_AFTER_OBSERVED_READY))
    else Ended(RequeueAfter(REQUEUE_AFTER_OBSERVED_NOT_READY))
  }

  function Next(pc: Pc, r: Reply): Pc
    requires pc.Working()
  {
    var made := r.Done? || r.AlreadyExists?;
    var gone := r.Done? || r.NotFound?;
    match pc
    case Fetching(_) =>
      if r.TheAgent? && !r.agent.deleting then CreatingAccount(r.agent)
      else if r.TheAgent? || r.NotFound? then Ended(Stop)
      else Ended(Failure)
    case CreatingAccount(a) => if made then BindingRead(a) else Ended(Failure)
    case BindingRead(a) =>
      if !made then Ended(Failure) else if a.Spec().writeEnabled then BindingWrite(a) else FindingWrite(a)
    case BindingWrite(a) => if made then AfterBindings(a) else Ended(Failure)
    case FindingWrite(a) =>
      if r.NotFound? then AfterBindings(a) else if r.TheBinding? then UnbindingWrite(a) else Ended(Failure)
    case UnbindingWrite(a) => if r.Done? then AfterBindings(a) else Ended(Failure)
    case CreatingClaim(a) => if made then AfterClaim(a) else Ended(Failure)
    case DeletingClaim(a) => if gone then AfterClaim(a) else Ended(Failure)
    case FindingOld(a) =>
      if r.NotFound? then Resetting(a) else if r.TheDeployment? then DeletingOld(a) else Ended(Failure)
    case DeletingOld(a) => if gone then Resetting(a) else Ended(Failure)
    case Resetting(a) => if r.Done? then Ended(Requeue) else Ended(Failure)
    case Creating(a) =>
      if r.Done? then CreatingService(a)
      else if r.AlreadyExists? then MarkingRunning(a)
      else MarkingFailed(a, "create deployment: " + if r.Unavailable? then r.message else "")
    case CreatingService(a) =>
      if made then MarkingRunning(a)
      else MarkingFailed(a, "create service: " + if r.Unavailable? then r.message else "")
    case MarkingRunning(a) =>
      if r.Done? then Ended(RequeueAfter(REQUEUE_AFTER_DEPLOYMENT_CREATE)) else Ended(Failure)
    case MarkingFailed(_, _) => Ended(Failure)
    case Observing(a) =>
      if r.TheDeployment? then ReadingSecret(a, r.deployment)
      else if r.NotFound? then Resetting(a)
      else Ended(Failure)
    case ReadingSecret(a, d) =>
      if r.NotFound? then AfterRoll(a, d)
      else if r.TheSecret? then
        if d.Stamp() == Some(r.secret.version) then AfterRoll(a, d) else Rolling(a, d, r.secret.version)
      else Ended(Failure)
    case Rolling(a, d, _) =>
      if r.Done? then Ended(RequeueAfter(REQUEUE_AFTER_CREDENTIAL_ROLL))
      else if r.Unneeded? then AfterRoll(a, d)
      else Ended(Failure)
    case MarkingReady(_, _) =>
      if r.Done? then Ended(RequeueAfter(REQUEUE_AFTER_OBSERVED_READY)) else Ended(Failure)
  }

  // ---------------------------------------------------------------- runs

  /** The cluster, the log of what happened in it, and the one worker. */
  datatype System = System(objects: Objects, audit: seq<Effect>, pc: Pc)

  datatype Event =
    | Start(k: Key)
    | Work(fault: Fault, now: Time)
    | Crash
    | Environment(change: Outside)

  function Advanced(s: System, fault: Fault, now: Time): System
    requires s.pc.Working()
  {
    var r := Respond(s.objects, RequestOf(s.pc, now), fault);
    System(r.objects, s.audit + r.effects, Next(s.pc, r.reply))
  }

  function Disturbed(s: System, x: Outside): System {
    s.(objects := Changed(s.objects, x), audit := s.audit + EffectsOf(s.objects, x))
  }

  /** One step of the whole system; an event that is not enabled changes nothing. */
  function Step(s: System, ev: Event): System {
    match ev
    case Start(k) => if s.pc.Working() then s else s.(pc := Fetching(k))
    case Work(fault, now) => if s.pc.Working() then Advanced(s, fault, now) else s
    case Crash => s.(pc := Idle)
    case Environment(x) => Disturbed(s, x)
  }

  function Run(s: System, evs: seq<Event>): System
    decreases evs
  {
    if evs == [] then s else Run(Step(s, evs[0]), evs[1..])
  }

  lemma {:induction false} RunAppend(s: System, a: seq<Event>, b: seq<Event>)
    ensures Run(s, a + b) == Run(Run(s, a), b)
    decreases a
  {
    if a == [] {
      assert a + b == b;
    } else {
      assert (a + b)[1..] == a[1..] + b;
      RunAppend(Step(s, a[0]), a[1..], b);
    }
  }

  /** The cluster before anybody has acted: Agents without status and none of their objects. */
  ghost predicate Fresh(s: System) {
    && s.audit == [] && s.pc == Idle
    && s.objects.accounts == map[] && s.objects.bindings == map[] && s.objects.claims == map[]
    && s.objects.deployments == map[] && s.objects.services == map[]
    && forall k :: k in s.objects.agents ==> s.objects.agents[k].key == k && s.objects.agents[k].status == NEW_STATUS
  }

  // ---------------------------------------------------------------- what a running pass knows

  /** What the Agent read at the start and the answers so far imply at each point. */
  predicate PcOk(pc: Pc) {
    match pc
    case FindingOld(a) => a.status.deploymentRef != "" && a.status.observedGeneration != a.Generation()
    case DeletingOld(a) => a.status.deploymentRef != "" && a.status.observedGeneration != a.Generation()
    case Resetting(a) => a.status.deploymentRef != ""
    case Creating(a) => a.status.deploymentRef == ""
    case CreatingService(a) => a.status.deploymentRef == ""
    case MarkingRunning(a) => a.status.deploymentRef == ""
    case MarkingFailed(a, _) => a.status.deploymentRef == ""
    case Observing(a) => a.status.deploymentRef != "" && a.status.observedGeneration == a.Generation()
    case ReadingSecret(a, _) => a.status.deploymentRef != "" && a.status.observedGeneration == a.Generation()
    case Rolling(a, d, version) =>
      a.status.deploymentRef != "" && a.status.observedGeneration == a.Generation() && d.Stamp() != Some(version)
    case MarkingReady(a, n) =>
      a.status.deploymentRef != "" && a.status.observedGeneration == a.Generation() && n > 0
    case _ => true
  }

  lemma NextOk(pc: Pc, r: Reply)
    requires pc.Working() && PcOk(pc)
    ensures PcOk(Next(pc, r))
  {
  }

  ghost predicate Keyed(o: Objects) {
    forall k :: k in o.agents ==> o.agents[k].key == k
  }

  predicate HasAgent(pc: Pc) {
    pc.Working() && !pc.Fetching?
  }

  /** The status read at the start is still the stored one: nobody else writes it. */
  predicate Held(s: System) {
    HasAgent(s.pc) ==> s.pc.a.key in s.objects.agents && s.objects.agents[s.pc.a.key].status == s.pc.a.status
  }

  ghost predicate Basic(s: System) {
    Keyed(s.objects) && PcOk(s.pc) && Held(s)
  }

  /** A request on an Agent is the last of its pass. */
  lemma StatusWriteEnds(pc: Pc, now: Time, r: Reply)
    requires pc.Working()
    ensures RequestOf(pc, now).UpdateStatus? ==> Next(pc, r).Ended?
    ensures HasAgent(pc) && HasAgent(Next(pc, r)) ==> Next(pc, r).a == pc.a
    ensures pc.Fetching? && HasAgent(Next(pc, r)) ==> r.TheAgent? && Next(pc, r).a == r.agent
    ensures pc.Fetching? ==> RequestOf(pc, now) == GetAgent(pc.k)
  {
  }

  lemma OnlyStatusWritesTouchAgents(o: Objects, req: Request, fault: Fault)
    ensures !req.UpdateStatus? ==> Respond(o, req, fault).objects.agents == o.agents
    ensures var o' := Respond(o, req, fault).objects;
            forall k :: k in o.agents ==> k in o'.agents && o'.agents[k].key == o.agents[k].key
    ensures Respond(o, req, fault).objects.agents.Keys == o.agents.Keys
  {
  }

  lemma BasicCarried(s: System, s': System, req: Request, r: Reply)
    requires Basic(s) && PcOk(s'.pc)
    requires s'.objects.agents.Keys == s.objects.agents.Keys
    requires forall k :: k in s.objects.agents ==> s'.objects.agents[k].key == s.objects.agents[k].key
    requires HasAgent(s'.pc) ==> s'.objects.agents == s.objects.agents
    requires HasAgent(s.pc) && HasAgent(s'.pc) ==> s'.pc.a == s.pc.a
    requires !HasAgent(s.pc) && HasAgent(s'.pc) ==> s'.pc.a in s.objects.agents.Values
    ensures Basic(s')
  {
  }

  lemma WorkKeepsBasic(s: System, fault: Fault, now: Time)
    requires Basic(s) && s.pc.Working()
    ensures Basic(Advanced(s, fault, now))
  {
    var req := RequestOf(s.pc, now);
    var r := Respond(s.objects, req, fault);
    NextOk(s.pc, r.reply);
    StatusWriteEnds(s.pc, now, r.reply);
    OnlyStatusWritesTouchAgents(s.objects, req, fault);
    BasicCarried(s, Advanced(s, fault, now), req, r.reply);
  }

  /** Nobody else writes an Agent's status. */
  lemma OutsideKeepsStatus(o: Objects, x: Outside)
    ensures Changed(o, x).agents.Keys == o.agents.Keys
    ensures forall k :: k in o.agents ==> Changed(o, x).agents[k].key == o.agents[k].key
                                          && Changed(o, x).agents[k].status == o.agents[k].status
  {
    if x.SpecEdit? || x.AgentDeletion? { OneAgentChanges(o, x); } else { NoAgentChanges(o, x); }
  }

  lemma OneAgentChanges(o: Objects, x: Outside)
    requires x.SpecEdit? || x.AgentDeletion?
    ensures Changed(o, x).agents.Keys == o.agents.Keys
    ensures forall k :: k in o.agents ==> Changed(o, x).agents[k].key == o.agents[k].key
                                          && Changed(o, x).agents[k].status == o.agents[k].status
  {
    if x.key in o.agents { assert Changed(o, x).agents.Keys == o.agents.Keys + {x.key}; }
  }

  lemma NoAgentChanges(o: Objects, x: Outside)
    requires !x.SpecEdit? && !x.AgentDeletion?
    ensures Changed(o, x).agents == o.agents
  {
  }

  lemma DisturbanceKeepsBasic(s: System, x: Outside)
    requires Basic(s)
    ensures Basic(Disturbed(s, x))
  {
    OutsideKeepsStatus(s.objects, x);
  }

  lemma StepKeepsBasic(s: System, ev: Event)
    requires Basic(s)
    ensures Basic(Step(s, ev))
  {
    match ev {
      case Work(fault, now) => if s.pc.Working() { WorkKeepsBasic(s, fault, now); }
      case Environment(x) => DisturbanceKeepsBasic(s, x);
      case Start(_) =>
      case Crash =>
    }
  }

  lemma {:induction false} RunKeepsBasic(s: System, evs: seq<Event>)
    requires Basic(s)
    ensures Basic(Run(s, evs))
    decreases evs
  {
    if evs != [] {
      StepKeepsBasic(s, evs[0]);
      RunKeepsBasic(Step(s, evs[0]), evs[1..]);
    }
  }

  // ---------------------------------------------------------------- where a state comes from

  lemma ComesFrom(pc: Pc, r: Reply)
    requires pc.Working()
    ensures var next := Next(pc, r);
            && (next.ReadingSecret? ==> pc.Observing? && r == TheDeployment(next.d))
            && (next.Rolling? ==>
                  pc.ReadingSecret? && next.d == pc.d && r.TheSecret? && r.secret.version == next.version)
            && (next.Resetting? ==> pc.FindingOld? || pc.DeletingOld? || pc.Observing?)
            && (next.CreatingService? ==> pc.Creating? && r.Done?)
            && (pc.Creating? && r.Done? ==> next == CreatingService(pc.a))
            && (next.MarkingRunning? ==>
                  (pc.Creating? && r.AlreadyExists?) || (pc.CreatingService? && (r.Done? || r.AlreadyExists?)))
            && (HasAgent(pc) ==> next != Ended(Stop) && !next.Idle? && !next.Fetching?)
  {
  }

  // ---------------------------------------------------------------- what requests do to Deployments

  predicate NamedRef(a: Agent) {
    a.status.deploymentRef == "" || a.status.deploymentRef == DeploymentName(a.key)
  }

  /** Requests that write a Deployment, and the points of a pass that make them. */
  lemma DeploymentRequests(pc: Pc, now: Time)
    requires pc.Working() && PcOk(pc) && (HasAgent(pc) ==> NamedRef(pc.a))
    ensures var req := RequestOf(pc, now);
            && (req.CreateDeployment? ==>
                  && pc.Creating? && req.key == DeploymentKey(pc.a.key)
                  && req.deployment == Build(pc.a.key, pc.a.Spec()) && req.generation == pc.a.Generation())
            && (req.DeleteDeployment? ==> pc.DeletingOld? && req.key == DeploymentKey(pc.a.key))
            && (req.StampDeployment? ==>
                  pc.Rolling? && req.key == DeploymentKey(pc.a.key) && req.version == pc.version)
            && (req.GetDeployment? ==> req.key == DeploymentKey(pc.a.key))
  {
  }

  /** Under one key, a request leaves the Deployment alone or does what it was sent for. */
  lemma DeploymentEffect(o: Objects, req: Request, fault: Fault, key: Key)
    ensures var o' := Respond(o, req, fault).objects;
            var d, d' := Lookup(o.deployments, key), Lookup(o'.deployments, key);
            || d' == d
            || (req.CreateDeployment? && req.key == key && d.None? && d' == Some(req.deployment))
            || (req == DeleteDeployment(key) && d.Some? && d'.None?)
            || (req.StampDeployment? && req.key == key && d.Some? && d' == Some(d.value.Stamped(req.version)))
  {
  }

  /** A pass comes to its reset only when it has seen that there is no Deployment. */
  lemma ResetNeedsNoDeployment(s: System, fault: Fault, now: Time)
    requires s.pc.Working() && !s.pc.Fetching? && PcOk(s.pc) && NamedRef(s.pc.a)
    requires Advanced(s, fault, now).pc.Resetting?
    ensures DeploymentKey(s.pc.a.key) !in Advanced(s, fault, now).objects.deployments
  {
    assert s.pc.FindingOld? || s.pc.DeletingOld? || s.pc.Observing?;
    DeploymentRequests(s.pc, now);
  }

  // ---------------------------------------------------------------- one pass

  /** An upper bound on the requests a pass has still to make. */
  function Rank(pc: Pc): nat {
    match pc
    case Fetching(_) => 10
    case CreatingAccount(_) => 9
    case BindingRead(_) => 8
    case BindingWrite(_) | FindingWrite(_) => 7
    case UnbindingWrite(_) => 6
    case CreatingClaim(_) | DeletingClaim(_) => 5
    case FindingOld(_) | Observing(_) | Creating(_) => 4
    case DeletingOld(_) | ReadingSecret(_, _) | CreatingService(_) => 3
    case Resetting(_) | MarkingRunning(_) | Rolling(_, _, _) => 2
    case MarkingFailed(_, _) | MarkingReady(_, _) => 1
    case Idle | Ended(_) => 0
  }

  lemma NextRank(pc: Pc, r: Reply)
    requires pc.Working()
    ensures Rank(Next(pc, r)) < Rank(pc)
  {
  }

  lemma AdvancedRank(s: System, fault: Fault, now: Time)
    requires s.pc.Working()
    ensures Rank(Advanced(s, fault, now).pc) < Rank(s.pc)
  {
    NextRank(s.pc, Respond(s.objects, RequestOf(s.pc, now), fault).reply);
  }

  /** What surrounds one request: changes by others before it arrives, and its fate. */
  datatype Turn = Turn(before: seq<Outside>, fault: Fault, now: Time)

  function DisturbedAll(s: System, xs: seq<Outside>): (r: System)
    ensures r.pc == s.pc
    decreases xs
  {
    if xs == [] then s else DisturbedAll(Disturbed(s, xs[0]), xs[1..])
  }

  function TurnAt(script: seq<Turn>, now: Time): Turn {
    if script == [] then Turn([], NoFault, now) else script[0]
  }

  function Rest(script: seq<Turn>): seq<Turn> {
    if script == [] then [] else script[1..]
  }

  /** The pass carried to its end; when the script is used up, every request is answered at
      once at time `now`. */
  function Finish(s: System, script: seq<Turn>, now: Time): (r: (System, seq<Turn>))
    ensures !r.0.pc.Working()
    decreases Rank(s.pc)
  {
    if !s.pc.Working() then (s, script)
    else
      var t := TurnAt(script, now);
      var s1 := DisturbedAll(s, t.before);
      AdvancedRank(s1, t.fault, t.now);
      Finish(Advanced(s1, t.fault, t.now), Rest(script), now)
  }

  /** The events a pass consists of. */
  function Events(s: System, script: seq<Turn>, now: Time): seq<Event>
    decreases Rank(s.pc)
  {
    if !s.pc.Working() then []
    else
      var t := TurnAt(script, now);
      var s1 := DisturbedAll(s, t.before);
      AdvancedRank(s1, t.fault, t.now);
      EnvironmentEvents(t.before) + [Work(t.fault, t.now)] +
      Events(Advanced(s1, t.fault, t.now), Rest(script), now)
  }

  function EnvironmentEvents(xs: seq<Outside>): seq<Event> {
    if xs == [] then [] else [Environment(xs[0])] + EnvironmentEvents(xs[1..])
  }

  lemma {:induction false} EnvironmentRun(s: System, xs: seq<Outside>)
    ensures Run(s, EnvironmentEvents(xs)) == DisturbedAll(s, xs)
    decreases xs
  {
    if xs != [] {
      var evs := EnvironmentEvents(xs);
      assert evs[0] == Environment(xs[0]) && evs[1..] == EnvironmentEvents(xs[1..]);
      EnvironmentRun(Disturbed(s, xs[0]), xs[1..]);
    }
  }

  /** A whole pass is a run, so what holds over runs holds of passes. */
  lemma {:induction false} FinishIsARun(s: System, script: seq<Turn>, now: Time)
    ensures Run(s, Events(s, script, now)) == Finish(s, script, now).0
    decreases Rank(s.pc)
  {
    if s.pc.Working() {
      var t := TurnAt(script, now);
      var s1 := DisturbedAll(s, t.before);
      AdvancedRank(s1, t.fault, t.now);
      var s2 := Advanced(s1, t.fault, t.now);
      EnvironmentRun(s, t.before);
      RunAppend(s, EnvironmentEvents(t.before), [Work(t.fault, t.now)]);
      RunAppend(s, EnvironmentEvents(t.before) + [Work(t.fault, t.now)], Events(s2, Rest(script), now));
      assert Run(s1, [Work(t.fault, t.now)]) == Run(Step(s1, Work(t.fault, t.now)), []);
      FinishIsARun(s2, Rest(script), now);
    }
  }

  /** A pass for a live Agent always asks to be run again. */
  lemma {:induction false} PassesAreRunAgain(s: System, script: seq<Turn>, now: Time)
    requires s.pc.Working() && !s.pc.Fetching?
    ensures var pc := Finish(s, script, now).0.pc; pc.Ended? && pc.result != Stop
    decreases Rank(s.pc)
  {
    hide RequestOf, Next, Respond, Serve;
    var t := TurnAt(script, now);
    var s1 := DisturbedAll(s, t.before);
    AdvancedRank(s1, t.fault, t.now);
    var s2 := Advanced(s1, t.fault, t.now);
    ComesFrom(s.pc, Respond(s1.objects, RequestOf(s.pc, t.now), t.fault).reply);
    if s2.pc.Working() { PassesAreRunAgain(s2, Rest(script), now); }
  }

  // ---------------------------------------------------------------- when there is nothing to do

  /** No Agent, or one that is being deleted. */
  predicate GoneOrGoing(o: Objects, k: Key) {
    k !in o.agents || o.agents[k].deleting
  }

  /** Nobody takes a deletion back. */
  lemma DeletionStays(o: Objects, x: Outside, k: Key)
    requires GoneOrGoing(o, k)
    ensures GoneOrGoing(Changed(o, x), k)
  {
    OutsideKeepsStatus(o, x);
  }

  lemma {:induction false} DeletionStaysAll(s: System, xs: seq<Outside>, k: Key)
    requires GoneOrGoing(s.objects, k)
    ensures GoneOrGoing(DisturbedAll(s, xs).objects, k)
    decreases xs
  {
    if xs != [] {
      DeletionStays(s.objects, xs[0], k);
      DeletionStaysAll(Disturbed(s, xs[0]), xs[1..], k);
    }
  }

  /** A pass stops, never to be asked for again, exactly when its first read is answered and finds
      no Agent or one being deleted; then it has written nothing. An unanswered first read is an
      error, and writes nothing either. */
  lemma PassStopsIff(s: System, script: seq<Turn>, now: Time, k: Key)
    requires s.pc == Fetching(k)
    ensures var t := TurnAt(script, now);
            var s1, s' := DisturbedAll(s, t.before), Finish(s, script, now).0;
            && (s'.pc == Ended(Stop) <==> t.fault.NoFault? && GoneOrGoing(s1.objects, k))
            && (!t.fault.NoFault? ==> s'.pc == Ended(Failure))
            && (!t.fault.NoFault? || GoneOrGoing(s1.objects, k) ==> s'.objects == s1.objects && s'.audit == s1.audit)
  {
    hide GoneOrGoing;
    var t := TurnAt(script, now);
    var s1 := DisturbedAll(s, t.before);
    AdvancedRank(s1, t.fault, t.now);
    var s2 := Advanced(s1, t.fault, t.now);
    FirstRead(s1, t.fault, t.now, k);
    if s2.pc.Working() {
      PassesAreRunAgain(s2, Rest(script), now);
    } else {
      assert Finish(s2, Rest(script), now).0 == s2;
    }
  }

  lemma FirstRead(s: System, fault: Fault, now: Time, k: Key)
    requires s.pc == Fetching(k)
    ensures var s' := Advanced(s, fault, now);
            && s'.objects == s.objects && s'.audit == s.audit
            && (if !fault.NoFault? then s'.pc == Ended(Failure)
                else if GoneOrGoing(s.objects, k) then s'.pc == Ended(Stop)
                else s'.pc == CreatingAccount(s.objects.agents[k]))
  {
    assert s.audit + [] == s.audit;
  }

  /** An Agent marked for deletion, or gone, before a pass for it starts: the pass writes nothing,
      whatever else happens. */
  lemma DeletedIsLeftAlone(s: System, script: seq<Turn>, now: Time, k: Key)
    requires s.pc == Fetching(k) && GoneOrGoing(s.objects, k)
    ensures var t := TurnAt(script, now);
            var s1, s' := DisturbedAll(s, t.before), Finish(s, script, now).0;
            && s'.objects == s1.objects && s'.audit == s1.audit
            && s'.pc == Ended(if t.fault.NoFault? then Stop else Failure)
  {
    hide GoneOrGoing;
    DeletionStaysAll(s, TurnAt(script, now).before, k);
    PassStopsIff(s, script, now, k);
  }

  /** A step of a pass for `k` that writes nothing. */
  predicate WritesNothing(s: System, ev: Event, k: Key) {
    ev.Work? && s.pc.Working() && s.pc.Subject() == k ==>
      Step(s, ev).objects == s.objects && Step(s, ev).audit == s.audit
  }

  predicate AllWriteNothing(s: System, evs: seq<Event>, k: Key)
    decreases evs
  {
    evs == [] || (WritesNothing(s, evs[0], k) && AllWriteNothing(Step(s, evs[0]), evs[1..], k))
  }

  lemma StepLeavesAlone(s: System, ev: Event, k: Key)
    requires GoneOrGoing(s.objects, k) && !(HasAgent(s.pc) && s.pc.a.key == k) && Keyed(s.objects)
    ensures WritesNothing(s, ev, k)
    ensures GoneOrGoing(Step(s, ev).objects, k) && !(HasAgent(Step(s, ev).pc) && Step(s, ev).pc.a.key == k)
    ensures Keyed(Step(s, ev).objects)
  {
    hide RequestOf, Next, Respond, Serve, Changed;
    match ev {
      case Start(_) =>
      case Crash =>
      case Environment(x) =>
        DeletionStays(s.objects, x, k);
        OutsideKeepsStatus(s.objects, x);
      case Work(fault, now) =>
        if s.pc.Fetching? {
          FirstRead(s, fault, now, s.pc.k);
        } else if s.pc.Working() {
          OnlyStatusWritesTouchAgents(s.objects, RequestOf(s.pc, now), fault);
          StatusWriteEnds(s.pc, now, Respond(s.objects, RequestOf(s.pc, now), fault).reply);
          DeletingStays(s.objects, RequestOf(s.pc, now), fault, k);
          ComesFrom(s.pc, Respond(s.objects, RequestOf(s.pc, now), fault).reply);
        }
    }
  }

  lemma DeletingStays(o: Objects, req: Request, fault: Fault, k: Key)
    requires GoneOrGoing(o, k)
    ensures GoneOrGoing(Respond(o, req, fault).objects, k)
  {
  }

  /** Over every run: once an Agent is being deleted, or is gone, and the pass in flight for it has
      ended, no pass for it writes anything any more. */
  lemma {:induction false} DeletedIsLeftAloneForGood(s: System, evs: seq<Event>, k: Key)
    requires GoneOrGoing(s.objects, k) && !(HasAgent(s.pc) && s.pc.a.key == k) && Keyed(s.objects)
    ensures AllWriteNothing(s, evs, k)
    decreases evs
  {
    hide GoneOrGoing, WritesNothing, Step, Keyed;
    if evs != [] {
      StepLeavesAlone(s, evs[0], k);
      DeletedIsLeftAloneForGood(Step(s, evs[0]), evs[1..], k);
    }
  }

  // ---------------------------------------------------------------- when a request fails

  /** A request that is not answered is the last of its pass, which is then run again. Only a
      creation that fails is followed by one more write, the record of the failure. */
  lemma FaultEndsThePass(s: System, script: seq<Turn>, now: Time)
    requires s.pc.Working() && script != [] && !script[0].fault.NoFault?
    ensures var s1 := DisturbedAll(s, script[0].before);
            var s2, s' := Advanced(s1, script[0].fault, script[0].now), Finish(s, script, now).0;
            && s'.pc == Ended(Failure)
            && (if s.pc.Creating? || s.pc.CreatingService? then
                  s2.pc == MarkingFailed(s.pc.a, (if s.pc.Creating? then "create deployment: "
                                                  else "create service: ") + script[0].fault.message)
                else s'.objects == s2.objects && s'.audit == s2.audit)
            && (script[0].fault.Refused? ==> s2.objects == s1.objects)
  {
    var t := script[0];
    var s1 := DisturbedAll(s, t.before);
    AdvancedRank(s1, t.fault, t.now);
    var s2 := Advanced(s1, t.fault, t.now);
    UnansweredNext(s1, t.fault, t.now);
    if s2.pc.Working() {
      var u := TurnAt(Rest(script), now);
      var s3 := DisturbedAll(s2, u.before);
      AdvancedRank(s3, u.fault, u.now);
      var s4 := Advanced(s3, u.fault, u.now);
      assert s3.pc == s2.pc && s4.pc == Ended(Failure);
      assert Finish(s4, Rest(Rest(script)), now).0 == s4;
      assert Finish(s2, Rest(script), now).0 == s4;
    }
  }

  lemma UnansweredNext(s: System, fault: Fault, now: Time)
    requires s.pc.Working() && !fault.NoFault?
    ensures var s' := Advanced(s, fault, now);
            && s'.pc == (if s.pc.Creating? then MarkingFailed(s.pc.a, "create deployment: " + fault.message)
                         else if s.pc.CreatingService? then MarkingFailed(s.pc.a, "create service: " + fault.message)
                         else Ended(Failure))
            && (fault.Refused? ==> s'.objects == s.objects)
  {
    hide RequestOf, Serve;
  }

  /** A failed creation is recorded, if the record gets through: phase Failed for the generation
      found, and a condition Failed that holds since then and carries the message. */
  lemma FailedCreationIsRecorded(s: System, message: string, now: Time, later: Time)
    requires (s.pc.Creating? || s.pc.CreatingService?) && s.pc.a.key in s.objects.agents
    ensures var k := s.pc.a.key;
            var s' := Run(s, [Work(Refused(message), now), Work(NoFault, later)]);
            && s'.pc == Ended(Failure) && k in s'.objects.agents
            && (var a := s'.objects.agents[k];
                && a.status.phase == Failed && a.status.observedGeneration == a.Generation()
                && exists i :: 0 <= i < |a.status.conditions| &&
                               a.status.conditions[i] ==
                               Condition("Failed", "True", later, "DeploymentFailed",
                                         (if s.pc.Creating? then "create deployment: "
                                          else "create service: ") + message))
  {
    hide RequestOf, Next, Respond, Serve, Advanced;
    var w := Work(Refused(message), now);
    var reason := (if s.pc.Creating? then "create deployment: " else "create service: ") + message;
    UnansweredNext(s, Refused(message), now);
    RunTwo(s, w, Work(NoFault, later));
    RecordsFailure(Step(s, w), reason, later);
  }

  lemma RecordsFailure(s: System, reason: string, now: Time)
    requires s.pc.MarkingFailed? && s.pc.reason == reason && s.pc.a.key in s.objects.agents
    ensures var k, s' := s.pc.a.key, Advanced(s, NoFault, now);
            && s'.pc == Ended(Failure) && k in s'.objects.agents
            && (var a := s'.objects.agents[k];
                && a.status.phase == Failed && a.status.observedGeneration == a.Generation()
                && exists i :: 0 <= i < |a.status.conditions| &&
                               a.status.conditions[i] == Condition("Failed", "True", now, "DeploymentFailed", reason))
  {
    var k := s.pc.a.key;
    UpsertHas(s.objects.agents[k].status.conditions, Condition("Failed", "True", now, "DeploymentFailed", reason));
    assert RequestOf(s.pc, now) == UpdateStatus(k, MarkFailed(reason, now));
  }

  /** A binding that somebody else removes between a pass's Get and its Delete turns what is
      elsewhere a success, a binding that is not there, into an error; without that the pass
      goes on. */
  lemma VanishedBindingIsAnError(s: System, now: Time)
    requires s.pc.FindingWrite? && WriteBinding(s.pc.a.key) in s.objects.bindings
    ensures var name := WriteBinding(s.pc.a.key);
            && Run(s, [Work(NoFault, now), Environment(BindingDeletion(name)), Work(NoFault, now)]).pc == Ended(Failure)
            && Run(s, [Environment(BindingDeletion(name)), Work(NoFault, now)]).pc == AfterBindings(s.pc.a)
            && Run(s, [Work(NoFault, now), Work(NoFault, now)]).pc == AfterBindings(s.pc.a)
  {
    hide AfterBindings;
    var a, name := s.pc.a, WriteBinding(s.pc.a.key);
    var w, x := Work(NoFault, now), Environment(BindingDeletion(name));
    var s1 := Step(s, w);
    assert s1.pc == UnbindingWrite(a) && s1.objects == s.objects;
    RunTwo(s, w, w);
    RunTwo(s, x, w);
    assert [w, x, w][1..] == [x, w];
    RunTwo(s1, x, w);
    assert Run(s, [w, x, w]) == Run(s1, [x, w]);
  }

  lemma RunTwo(s: System, a: Event, b: Event)
    ensures Run(s, [a, b]) == Step(Step(s, a), b)
  {
    assert [a, b][1..] == [b] && [b][1..] == [];
    assert Run(s, [a, b]) == Run(Step(s, a), [b]) == Run(Step(Step(s, a), b), []);
  }
}
