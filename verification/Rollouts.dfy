/** Credential rolls against their causes. */
module Rollouts {
  import opened Wrappers
  import opened AgentTypes
  import opened Builder
  import opened StatusService
  import opened Cluster
  import opened Reconcile
  import opened StatusShape
  import opened Snapshot

  datatype Kind = Creation | Roll | SecretMove

  predicate IsOf(e: Effect, kind: Kind, k: Key) {
    match e
    case DeploymentCreated(key, _) => kind == Creation && key == DeploymentKey(k)
    case DeploymentStamped(key) => kind == Roll && key == DeploymentKey(k)
    case SecretChanged(_, users) => kind == SecretMove && k in users
  }

  /** Entries of one kind in the audit log that concern one Agent. */
  function Count(audit: seq<Effect>, kind: Kind, k: Key): nat {
    if audit == [] then 0
    else Count(audit[..|audit| - 1], kind, k) + if IsOf(audit[|audit| - 1], kind, k) then 1 else 0
  }

  lemma CountOne(audit: seq<Effect>, e: Effect, kind: Kind, k: Key)
    ensures Count(audit + [e], kind, k) == Count(audit, kind, k) + if IsOf(e, kind, k) then 1 else 0
    ensures Count(audit + [], kind, k) == Count(audit, kind, k)
  {
    assert (audit + [e])[..|audit|] == audit && audit + [] == audit;
  }

  function Causes(audit: seq<Effect>, k: Key): nat {
    Count(audit, Creation, k) + Count(audit, SecretMove, k)
  }

  function SecretOf(o: Objects, a: Agent): Option<Secret> {
    Lookup(o.secrets, SecretKey(a.key, a.Spec()))
  }

  /** The next pass would roll: it observes, and the stamp is not the Secret's version. */
  predicate OutOfDate(o: Objects, k: Key) {
    && k in o.agents
    && (var a, d := o.agents[k], DeploymentOf(o, k);
        && a.status.deploymentRef != "" && a.status.observedGeneration == a.Generation() && d.Some?
        && SecretOf(o, a).Some? && d.value.Stamp() != Some(SecretOf(o, a).value.version))
  }

  /** The status will let a pass compare the stamp with the Secret. A `steady` ledger, kept by
      runs in which no edit switches the Secret under a pass about to compare, also follows
      such a pass when an edit has overtaken it. */
  predicate Tracked(s: System, k: Key, steady: bool)
    requires k in s.objects.agents
  {
    var a := s.objects.agents[k];
    (steady && Watching(s.pc, k)) || a.status.observedGeneration == a.Generation()
  }

  /** The Secret resolved for an Agent is there with another version than the stamp. */
  predicate Differs(o: Objects, a: Agent, d: Deployment) {
    SecretOf(o, a).Some? && d.Stamp() != Some(SecretOf(o, a).value.version)
  }

  /** Rolls that may still come without a further cause. */
  function Owed(s: System, k: Key, steady: bool): nat {
    var o := s.objects;
    if k !in o.agents || DeploymentOf(o, k).None? then 0
    else if o.agents[k].status.deploymentRef == "" then 1
    else if Tracked(s, k, steady) && Differs(o, o.agents[k], DeploymentOf(o, k).value) then 1
    else 0
  }

  /** The ledger, and what a pass that is about to roll has set aside for it. */
  predicate LedgerAt(s: System, k: Key, steady: bool) {
    && Count(s.audit, Roll, k) + Owed(s, k, steady) <= Causes(s.audit, k)
    && (steady && k in s.objects.agents && Watching(s.pc, k) ==>
          SecretKey(k, s.pc.a.Spec()) == SecretKey(k, s.objects.agents[k].Spec()))
    && (k in s.objects.agents && RunsFor(s.pc, k) && DeploymentOf(s.objects, k).Some? &&
        (steady || s.pc.a.revisions == s.objects.agents[k].revisions) ==>
          var d := DeploymentOf(s.objects, k).value;
          && (s.pc.ReadingSecret? ==> d.Stamp() == s.pc.d.Stamp())
          && (s.pc.Rolling? ==>
                var secret := SecretOf(s.objects, s.pc.a);
                var moved := secret.Some? && secret.value.version != s.pc.version;
                Count(s.audit, Roll, k) + 1 + (if moved then 1 else 0) <= Causes(s.audit, k)))
  }

  /** A step that has no cause left for what it does: it rolls, or it marks ready an Agent whose
      stamp is not its Secret's version, which makes the next pass roll. */
  predicate Unfunded(s: System, ev: Event, k: Key) {
    && ev.Work? && !ev.fault.Refused? && RunsFor(s.pc, k) && k in s.objects.agents
    && DeploymentOf(s.objects, k).Some? && Count(s.audit, Roll, k) == Causes(s.audit, k)
    && (var d := DeploymentOf(s.objects, k).value;
        || (s.pc.Rolling? && d.Stamp() != Some(s.pc.version))
        || (s.pc.MarkingReady? && Differs(s.objects, s.objects.agents[k], d)))
  }

  /** What a request adds to the log, as seen by one Agent. */
  lemma EffectsCounted(s: System, fault: Fault, now: Time, k: Key, kind: Kind)
    requires Basic(s) && AllShaped(s) && s.pc.Working()
    ensures var req, s' := RequestOf(s.pc, now), Advanced(s, fault, now);
            var d, d' := DeploymentOf(s.objects, k), DeploymentOf(s'.objects, k);
            Count(s'.audit, kind, k) == Count(s.audit, kind, k) +
            (if d != d' && ((kind == Creation && req.CreateDeployment?) || (kind == Roll && req.StampDeployment?))
             then 1 else 0)
  {
    hide RequestOf, Next, Respond, Serve;
    var req := RequestOf(s.pc, now);
    var r := Respond(s.objects, req, fault);
    if HasAgent(s.pc) { assert ShapedAt(s, s.pc.a.key); NamesInjective(s.pc.a.key, k); }
    DeploymentRequests(s.pc, now);
    RequestEffects(s.objects, req, fault);
    if req.CreateDeployment? || req.StampDeployment? { EffectAt(s.objects, req, fault, DeploymentKey(k)); }
    CountOne(s.audit, DeploymentStamped(DeploymentKey(k)), kind, k);
    if r.effects != [] { CountOne(s.audit, r.effects[0], kind, k); }
  }

  lemma RequestEffects(o: Objects, req: Request, fault: Fault)
    ensures var r := Respond(o, req, fault);
            && (r.effects == [] || (req.CreateDeployment? && r.effects == [DeploymentCreated(req.key, req.generation)])
                || (req.StampDeployment? && r.effects == [DeploymentStamped(req.key)]))
            && r.objects.secrets == o.secrets
  {
  }

  lemma StampedStamp(d: Deployment, version: string)
    ensures d.Stamped(version).Stamp() == Some(version)
    ensures d.Stamp() == Some(version) ==> d.Stamped(version) == d
  {
    if d.Stamp() == Some(version) {
      assert d.template.annotations[CREDENTIALS_VERSION_ANNOTATION := version] == d.template.annotations;
    }
  }

  lemma CreateEffect(o: Objects, k: Key, d: Deployment, generation: nat, key: Key)
    ensures var r := Serve(o, CreateDeployment(k, d, generation));
            Lookup(r.objects.deployments, key) != Lookup(o.deployments, key) <==> r.effects != [] && k == key
  {
  }

  lemma StampEffect(o: Objects, k: Key, version: string, key: Key)
    ensures var r := Serve(o, StampDeployment(k, version));
            Lookup(r.objects.deployments, key) != Lookup(o.deployments, key) <==> r.effects != [] && k == key
  {
    if k in o.deployments { StampedStamp(o.deployments[k], version); }
  }

  /** The log has an entry exactly when the Deployment was created or changed. */
  lemma EffectAt(o: Objects, req: Request, fault: Fault, key: Key)
    requires req.CreateDeployment? || req.StampDeployment?
    ensures var r := Respond(o, req, fault);
            Lookup(r.objects.deployments, key) != Lookup(o.deployments, key) <==> r.effects != [] && req.key == key
  {
    hide Serve;
    if req.CreateDeployment? { CreateEffect(o, req.key, req.deployment, req.generation, key); }
    else { StampEffect(o, req.key, req.version, key); }
  }

  /** A pass of another Agent, or a request that leaves this Agent's Deployment and status. */
  lemma QuietWorkKeepsLedger(s: System, fault: Fault, now: Time, k: Key, steady: bool)
    requires Sound(s, k) && LedgerAt(s, k, steady) && s.pc.Working()
    requires DeploymentOf(Advanced(s, fault, now).objects, k) == DeploymentOf(s.objects, k)
    requires k in s.objects.agents ==>
               k in Advanced(s, fault, now).objects.agents &&
               Advanced(s, fault, now).objects.agents[k] == s.objects.agents[k]
    ensures LedgerAt(Advanced(s, fault, now), k, steady)
  {
    hide RequestOf, Next, Respond, Serve, DeploymentName;
    var s' := Advanced(s, fault, now);
    var req := RequestOf(s.pc, now);
    forall kind ensures Count(s'.audit, kind, k) == Count(s.audit, kind, k) { EffectsCounted(s, fault, now, k, kind); }
    RequestEffects(s.objects, req, fault);
    OnlyStatusWritesTouchAgents(s.objects, req, fault);
    if k in s.objects.agents && RunsFor(s'.pc, k) { SnapshotTaken(s, fault, now, k); }
    assert Owed(s', k, steady) <= Owed(s, k, steady);
    if k in s.objects.agents && RunsFor(s'.pc, k) && DeploymentOf(s.objects, k).Some? &&
       (steady || s'.pc.a.revisions == s.objects.agents[k].revisions)
    {
      if s'.pc.ReadingSecret? { ReadingFollows(s, fault, now, k); }
      if s'.pc.Rolling? { RollingFollows(s, fault, now, k, steady); }
    }
  }

  lemma ReadingFollows(s: System, fault: Fault, now: Time, k: Key)
    requires Sound(s, k) && s.pc.Working() && RunsFor(Advanced(s, fault, now).pc, k)
    requires Advanced(s, fault, now).pc.ReadingSecret?
    ensures DeploymentOf(s.objects, k) == Some(Advanced(s, fault, now).pc.d)
    ensures s.pc == Observing(Advanced(s, fault, now).pc.a)
  {
    hide Next;
    var r := Respond(s.objects, RequestOf(s.pc, now), fault);
    StatusWriteEnds(s.pc, now, r.reply);
    ComesFrom(s.pc, r.reply);
    assert ShapedAt(s, k);
    assert RequestOf(s.pc, now) == GetDeployment(DeploymentKey(k));
  }

  lemma RollingFollows(s: System, fault: Fault, now: Time, k: Key, steady: bool)
    requires Sound(s, k) && LedgerAt(s, k, steady) && s.pc.Working() && RunsFor(Advanced(s, fault, now).pc, k)
    requires Advanced(s, fault, now).pc.Rolling? && k in s.objects.agents && DeploymentOf(s.objects, k).Some?
    requires steady || Advanced(s, fault, now).pc.a.revisions == s.objects.agents[k].revisions
    ensures SecretOf(s.objects, Advanced(s, fault, now).pc.a).Some?
    ensures SecretOf(s.objects, Advanced(s, fault, now).pc.a).value.version == Advanced(s, fault, now).pc.version
    ensures Count(s.audit, Roll, k) + 1 <= Causes(s.audit, k)
  {
    hide Next;
    var r := Respond(s.objects, RequestOf(s.pc, now), fault);
    StatusWriteEnds(s.pc, now, r.reply);
    ComesFrom(s.pc, r.reply);
    NextOk(s.pc, r.reply);
    assert RequestOf(s.pc, now) == GetSecret(SecretKey(k, s.pc.a.Spec()));
    assert Watching(s.pc, k) && Owed(s, k, steady) == 1;
  }

  lemma ChangesCounted(s: System, fault: Fault, now: Time, k: Key)
    requires Basic(s) && AllShaped(s) && s.pc.Working()
    requires DeploymentOf(Advanced(s, fault, now).objects, k) != DeploymentOf(s.objects, k)
    ensures RunsFor(s.pc, k) && (s.pc.Creating? || s.pc.DeletingOld? || s.pc.Rolling?)
    ensures var s' := Advanced(s, fault, now);
            && Count(s'.audit, Creation, k) == Count(s.audit, Creation, k) + (if s.pc.Creating? then 1 else 0)
            && Count(s'.audit, Roll, k) == Count(s.audit, Roll, k) + (if s.pc.Rolling? then 1 else 0)
            && Count(s'.audit, SecretMove, k) == Count(s.audit, SecretMove, k)
            && s'.objects.secrets == s.objects.secrets
            && !s'.pc.ReadingSecret? && !s'.pc.Rolling?
  {
    hide RequestOf, Next, Respond, Serve;
    var req := RequestOf(s.pc, now);
    if HasAgent(s.pc) { assert ShapedAt(s, s.pc.a.key); NamesInjective(s.pc.a.key, k); }
    DeploymentRequests(s.pc, now);
    DeploymentEffect(s.objects, req, fault, DeploymentKey(k));
    RequestEffects(s.objects, req, fault);
    EffectsCounted(s, fault, now, k, Creation);
    EffectsCounted(s, fault, now, k, Roll);
    EffectsCounted(s, fault, now, k, SecretMove);
    ComesFrom(s.pc, Respond(s.objects, req, fault).reply);
  }

  /** A request that does change this Agent's Deployment. */
  lemma DeploymentWorkKeepsLedger(s: System, fault: Fault, now: Time, k: Key, steady: bool)
    requires Sound(s, k) && LedgerAt(s, k, steady) && s.pc.Working() && k in s.objects.agents
    requires !Unfunded(s, Work(fault, now), k)
    requires DeploymentOf(Advanced(s, fault, now).objects, k) != DeploymentOf(s.objects, k)
    ensures LedgerAt(Advanced(s, fault, now), k, steady)
  {
    hide RequestOf, Next, Respond, Serve, Build, DeploymentName, Count;
    var s' := Advanced(s, fault, now);
    ChangesCounted(s, fault, now, k);
    WorkOn(s, fault, now, k);
    NotAStatusWrite(s.pc, now);
    StatusWriteEnds(s.pc, now, Respond(s.objects, RequestOf(s.pc, now), fault).reply);
    if s.pc.Rolling? {
      StampedStamp(DeploymentOf(s.objects, k).value, s.pc.version);
      CurrentOrBehind(s, k);
    }
  }

  lemma NotAStatusWrite(pc: Pc, now: Time)
    requires pc.Creating? || pc.DeletingOld? || pc.Rolling?
    ensures !RequestOf(pc, now).UpdateStatus?
  {
  }

  /** A status write for this Agent. */
  lemma StatusWorkKeepsLedger(s: System, fault: Fault, now: Time, k: Key, steady: bool)
    requires Sound(s, k) && LedgerAt(s, k, steady) && s.pc.Working() && k in s.objects.agents
    requires !Unfunded(s, Work(fault, now), k)
    requires RequestOf(s.pc, now).UpdateStatus? && RequestOf(s.pc, now).key == k
    ensures LedgerAt(Advanced(s, fault, now), k, steady)
  {
    hide RequestOf, Next, Respond, Serve, DeploymentName, Count, Build, CredentialsSecretFor;
    var s' := Advanced(s, fault, now);
    var req := RequestOf(s.pc, now);
    EffectsCounted(s, fault, now, k, Creation);
    EffectsCounted(s, fault, now, k, Roll);
    EffectsCounted(s, fault, now, k, SecretMove);
    RequestsAreTimely(s.pc, now);
    StatusUpdated(s.objects, req, fault, k);
    StatusWriteEnds(s.pc, now, Respond(s.objects, req, fault).reply);
    assert !Watching(s'.pc, k);
    assert Count(s.audit, Roll, k) + Owed(s', k, steady) <= Causes(s.audit, k);
  }

  lemma WorkKeepsLedger(s: System, fault: Fault, now: Time, k: Key, steady: bool)
    requires Sound(s, k) && LedgerAt(s, k, steady) && s.pc.Working()
    requires !Unfunded(s, Work(fault, now), k)
    ensures LedgerAt(Advanced(s, fault, now), k, steady)
  {
    hide RequestOf, Next, Respond, Serve, DeploymentName, Mutated, Count;
    var req := RequestOf(s.pc, now);
    OnlyStatusWritesTouchAgents(s.objects, req, fault);
    if k in s.objects.agents {
      WorkOn(s, fault, now, k);
      if DeploymentOf(Advanced(s, fault, now).objects, k) != DeploymentOf(s.objects, k) {
        DeploymentWorkKeepsLedger(s, fault, now, k, steady);
      } else if req.UpdateStatus? && req.key == k {
        StatusWorkKeepsLedger(s, fault, now, k, steady);
      } else {
        if req.UpdateStatus? { RequestsAreTimely(s.pc, now); }
        QuietWorkKeepsLedger(s, fault, now, k, steady);
      }
    } else {
      StrangerKeepsLedger(s, fault, now, k, steady);
    }
  }

  lemma StrangerKeepsLedger(s: System, fault: Fault, now: Time, k: Key, steady: bool)
    requires Sound(s, k) && LedgerAt(s, k, steady) && s.pc.Working() && k !in s.objects.agents
    ensures LedgerAt(Advanced(s, fault, now), k, steady)
  {
    hide RequestOf, Next, Respond, Serve, DeploymentName;
    var req := RequestOf(s.pc, now);
    OnlyStatusWritesTouchAgents(s.objects, req, fault);
    StatusWriteEnds(s.pc, now, Respond(s.objects, req, fault).reply);
    EffectsCounted(s, fault, now, k, Creation);
    EffectsCounted(s, fault, now, k, Roll);
    EffectsCounted(s, fault, now, k, SecretMove);
    var d' := DeploymentOf(Advanced(s, fault, now).objects, k);
    if d' != DeploymentOf(s.objects, k) { ChangesCounted(s, fault, now, k); }
  }

  lemma SecretWriteKeepsLedger(s: System, x: Outside, k: Key, steady: bool)
    requires Sound(s, k) && LedgerAt(s, k, steady) && x.SecretWrite?
    ensures LedgerAt(Disturbed(s, x), k, steady)
  {
    hide DeploymentName;
    var s' := Disturbed(s, x);
    var e := SecretChanged(x.key, UsersOf(s.objects, x.key));
    CountOne(s.audit, e, Creation, k);
    CountOne(s.audit, e, Roll, k);
    CountOne(s.audit, e, SecretMove, k);
    if k in s.objects.agents && SecretKey(k, s.objects.agents[k].Spec()) == x.key {
      assert IsOf(e, SecretMove, k);
    } else {
      assert Owed(s', k, steady) == Owed(s, k, steady);
    }
  }

  /** Not a spec edit that moves the Agent's resolved Secret under a pass that is on its way to
      compare stamps. */
  predicate KeepsSecret(s: System, ev: Event, k: Key) {
    Edits(s, ev, k) && Watching(s.pc, k) ==>
      SecretKey(k, ev.change.spec) == SecretKey(k, s.objects.agents[k].Spec())
  }

  lemma SpecEditKeepsLedger(s: System, x: Outside, k: Key, steady: bool)
    requires Sound(s, k) && LedgerAt(s, k, steady) && x.SpecEdit? && (steady ==> KeepsSecret(s, Environment(x), k))
    ensures LedgerAt(Disturbed(s, x), k, steady)
  {
    hide DeploymentName, CredentialsSecretFor, Count;
    var s' := Disturbed(s, x);
    assert s'.audit == s.audit;
    OutsideKeepsStatus(s.objects, x);
    if k in s.objects.agents { OutsideAgent(s.objects, x, k); }
    assert Owed(s', k, steady) <= Owed(s, k, steady);
  }

  lemma DisturbanceKeepsLedger(s: System, x: Outside, k: Key, steady: bool)
    requires Sound(s, k) && LedgerAt(s, k, steady) && (steady ==> KeepsSecret(s, Environment(x), k))
    ensures LedgerAt(Disturbed(s, x), k, steady)
  {
    hide DeploymentName, CredentialsSecretFor, Count, Sound;
    if x.SecretWrite? {
      SecretWriteKeepsLedger(s, x, k, steady);
    } else if x.SpecEdit? {
      SpecEditKeepsLedger(s, x, k, steady);
    } else {
      OtherDisturbanceKeepsLedger(s, x, k, steady);
    }
  }

  lemma OtherDisturbanceKeepsLedger(s: System, x: Outside, k: Key, steady: bool)
    requires LedgerAt(s, k, steady) && !x.SpecEdit? && !x.SecretWrite?
    ensures LedgerAt(Disturbed(s, x), k, steady)
  {
    hide DeploymentName, Changed, LedgerAt;
    assert Disturbed(s, x).audit == s.audit;
    OutsideDeployment(s.objects, x, DeploymentKey(k));
    OutsideKeepsStatus(s.objects, x);
    if k in s.objects.agents { OutsideAgent(s.objects, x, k); }
    forall key ensures Lookup(Changed(s.objects, x).secrets, key) in {None, Lookup(s.objects.secrets, key)} {
      OutsideSecrets(s.objects, x, key);
    }
    FewerSecretsKeepLedger(s, Disturbed(s, x), k, steady);
  }

  /** The same but for fewer Secrets, the readiness of the Deployment, or no Deployment. */
  lemma FewerSecretsKeepLedger(s: System, s': System, k: Key, steady: bool)
    requires LedgerAt(s, k, steady) && s'.pc == s.pc && s'.audit == s.audit
    requires k in s'.objects.agents ==>
               var o, o' := s.objects, s'.objects;
               && k in o.agents && o'.agents[k].status == o.agents[k].status && o'.agents[k].key == o.agents[k].key
               && o'.agents[k].revisions == o.agents[k].revisions
    requires var d, d' := DeploymentOf(s.objects, k), DeploymentOf(s'.objects, k);
             d'.Some? ==> d.Some? && d'.value.template == d.value.template
    requires forall key :: Lookup(s'.objects.secrets, key) in {None, Lookup(s.objects.secrets, key)}
    ensures LedgerAt(s', k, steady)
  {
    hide DeploymentName, CredentialsSecretFor, Count;
  }

  /** Rolls performed, plus one if the stamp is out of date, do not exceed their causes. */
  predicate Conserved(s: System, k: Key) {
    Count(s.audit, Roll, k) + (if OutOfDate(s.objects, k) then 1 else 0) <= Causes(s.audit, k)
  }

  lemma LedgerConserves(s: System, k: Key, steady: bool)
    requires LedgerAt(s, k, steady) && Basic(s)
    ensures Conserved(s, k)
  {
  }

  lemma StepKeepsLedger(s: System, ev: Event, k: Key, steady: bool)
    requires Sound(s, k) && LedgerAt(s, k, steady) && !Unfunded(s, ev, k) && (steady ==> KeepsSecret(s, ev, k))
    ensures LedgerAt(Step(s, ev), k, steady)
  {
    match ev {
      case Work(fault, now) => if s.pc.Working() { WorkKeepsLedger(s, fault, now, k, steady); }
      case Environment(x) => DisturbanceKeepsLedger(s, x, k, steady);
      case Start(_) =>
      case Crash =>
    }
  }

  lemma UnfundedBreaks(s: System, ev: Event, k: Key)
    requires Sound(s, k) && Unfunded(s, ev, k)
    ensures !Conserved(Step(s, ev), k)
  {
    hide Next, Respond, Serve, Build, DeploymentName, Count;
    var s' := Advanced(s, ev.fault, ev.now);
    assert ShapedAt(s, k);
    WorkOn(s, ev.fault, ev.now, k);
    EffectsCounted(s, ev.fault, ev.now, k, Creation);
    EffectsCounted(s, ev.fault, ev.now, k, Roll);
    EffectsCounted(s, ev.fault, ev.now, k, SecretMove);
    if s.pc.Rolling? {
      StampServed(s.objects, s.pc.version, ev.fault, DeploymentKey(k));
    }
  }

  lemma StampServed(o: Objects, version: string, fault: Fault, key: Key)
    requires key in o.deployments && !fault.Refused?
    ensures var d' := Lookup(Respond(o, StampDeployment(key, version), fault).objects.deployments, key);
            d'.Some? && d'.value.Stamp() == Some(version)
  {
  }

  /** Every step, exactly: one without a cause breaks conservation, and any other keeps the
      ledger, spec edits and changes of any Secret at any moment included. */
  lemma StepLedgerIff(s: System, ev: Event, k: Key)
    requires Sound(s, k) && LedgerAt(s, k, false)
    ensures if Unfunded(s, ev, k) then !Conserved(Step(s, ev), k) else LedgerAt(Step(s, ev), k, false)
  {
    if Unfunded(s, ev, k) { UnfundedBreaks(s, ev, k); } else { StepKeepsLedger(s, ev, k, false); }
  }

  // ---------------------------------------------------------------- over runs

  predicate AlwaysConserved(s: System, evs: seq<Event>, k: Key)
    decreases evs
  {
    Conserved(s, k) && (evs == [] || AlwaysConserved(Step(s, evs[0]), evs[1..], k))
  }

  predicate AllFunded(s: System, evs: seq<Event>, k: Key)
    decreases evs
  {
    evs == [] || (!Unfunded(s, evs[0], k) && AllFunded(Step(s, evs[0]), evs[1..], k))
  }

  predicate AllKeepSecret(s: System, evs: seq<Event>, k: Key)
    decreases evs
  {
    evs == [] || (KeepsSecret(s, evs[0], k) && AllKeepSecret(Step(s, evs[0]), evs[1..], k))
  }

  lemma {:induction false} ConservedIff(s: System, evs: seq<Event>, k: Key)
    requires Sound(s, k) && LedgerAt(s, k, false)
    ensures AlwaysConserved(s, evs, k) <==> AllFunded(s, evs, k)
    ensures AllFunded(s, evs, k) ==> Conserved(Run(s, evs), k)
    decreases evs
  {
    hide LedgerAt, Unfunded, Conserved, Step;
    LedgerConserves(s, k, false);
    if evs != [] {
      StepKeepsSound(s, evs[0], k);
      StepLedgerIff(s, evs[0], k);
      if Unfunded(s, evs[0], k) {
        assert !AlwaysConserved(Step(s, evs[0]), evs[1..], k);
      } else {
        ConservedIff(Step(s, evs[0]), evs[1..], k);
      }
    }
  }

  /** Rollout conservation over every run, with faults, crashes, spec edits and changes of any
      Secret at any moment: at every moment rolls performed, plus one if the stamp is out of
      date, do not exceed creations of the Deployment plus writes to the Secret the Agent used at
      the time, if and only if no step does without a cause. */
  lemma RolloutConservation(s: System, evs: seq<Event>, k: Key)
    requires Fresh(s)
    ensures AlwaysConserved(s, evs, k) <==> AllFunded(s, evs, k)
    ensures AllFunded(s, evs, k) ==> Conserved(Run(s, evs), k)
  {
    ConservedIff(s, evs, k);
  }

  /** A steady ledger always has a cause. */
  lemma SteadyIsFunded(s: System, ev: Event, k: Key)
    requires Sound(s, k) && LedgerAt(s, k, true)
    ensures !Unfunded(s, ev, k)
  {
  }

  lemma {:induction false} SteadyRunsAreFunded(s: System, evs: seq<Event>, k: Key)
    requires Sound(s, k) && LedgerAt(s, k, true) && AllKeepSecret(s, evs, k)
    ensures AllFunded(s, evs, k)
    decreases evs
  {
    hide Sound, LedgerAt, Unfunded, KeepsSecret, Step;
    if evs != [] {
      SteadyIsFunded(s, evs[0], k);
      StepKeepsSound(s, evs[0], k);
      StepKeepsLedger(s, evs[0], k, true);
      SteadyRunsAreFunded(Step(s, evs[0]), evs[1..], k);
    }
  }

  /** A caller can be sure of it who never switches the Secret of an Agent under a pass that is
      about to compare versions; all other edits, those that switch it between passes or inside
      a pass that rebuilds or creates included, are free. */
  lemma UnswitchedRunsConserve(s: System, evs: seq<Event>, k: Key)
    requires Fresh(s) && AllKeepSecret(s, evs, k)
    ensures AlwaysConserved(s, evs, k)
  {
    SteadyRunsAreFunded(s, evs, k);
    RolloutConservation(s, evs, k);
  }

  // ---------------------------------------------------------------- what a switch can do

  /** An edit just before the ready mark, with no cause left over: conservation breaks exactly if
      the mark gets through and the Secret it switches to is there with another version than
      the stamp. */
  lemma SwitchBeforeReadyMarkBreaksIff(s: System, spec: AgentSpec, fault: Fault, now: Time, k: Key)
    requires Sound(s, k) && LedgerAt(s, k, false) && k in s.objects.agents && RunsFor(s.pc, k) && s.pc.MarkingReady?
    requires DeploymentOf(s.objects, k).Some? && Count(s.audit, Roll, k) == Causes(s.audit, k)
    requires spec != s.objects.agents[k].Spec()
    ensures var secret := Lookup(s.objects.secrets, SecretKey(k, spec));
            Conserved(Run(s, [Environment(SpecEdit(k, spec)), Work(fault, now)]), k) <==>
            (fault.Refused? || secret.None? || DeploymentOf(s.objects, k).value.Stamp() == Some(secret.value.version))
  {
    hide Sound, LedgerAt, Conserved, Count, Build, DeploymentName, CredentialsSecretFor, Advanced;
    var evs, s1 := [Environment(SpecEdit(k, spec)), Work(fault, now)], Step(s, Environment(SpecEdit(k, spec)));
    Keys(s, k);
    StepKeepsSound(s, evs[0], k);
    StepLedgerIff(s, evs[0], k);
    assert s1.objects.agents[k] == s.objects.agents[k].Edited(spec) && s1.audit == s.audit && s1.pc == s.pc;
    assert Differs(s1.objects, s1.objects.agents[k], DeploymentOf(s.objects, k).value) <==>
      var secret := Lookup(s.objects.secrets, SecretKey(k, spec));
      secret.Some? && DeploymentOf(s.objects, k).value.Stamp() != Some(secret.value.version);
    StepKeepsSound(s1, evs[1], k);
    StepLedgerIff(s1, evs[1], k);
    if !Unfunded(s1, evs[1], k) { LedgerConserves(Step(s1, evs[1]), k, false); }
    assert evs[1..] == [evs[1]] && [evs[1]][1..] == [];
    assert Run(s, evs) == Run(s1, [evs[1]]) == Run(Step(s1, evs[1]), []);
  }

  lemma Keys(s: System, k: Key)
    requires Sound(s, k)
    ensures forall j :: j in s.objects.agents ==> s.objects.agents[j].key == j
    ensures Basic(Step(s, Crash))
  {
  }

  /** Nor does the switch have to be to a Secret that is there, or the pass to claim anything. A
      pass that has seen its Deployment goes on to read the Secret it resolved at its start. If
      an edit has meanwhile switched the Agent away from it, and somebody writes it, the pass
      rolls for a Secret the Agent no longer uses. */
  lemma OldSecretRollsWithoutCause(s: System, spec: AgentSpec, secret: Secret, now: Time, k: Key)
    requires Sound(s, k) && k in s.objects.agents && RunsFor(s.pc, k) && s.pc.ReadingSecret?
    requires s.pc.a.Spec() == s.objects.agents[k].Spec() && Count(s.audit, Roll, k) == Causes(s.audit, k)
    requires DeploymentOf(s.objects, k) == Some(s.pc.d) && s.pc.d.Stamp() != Some(secret.version)
    requires SecretKey(k, spec) != SecretKey(k, s.pc.a.Spec())
    ensures var old' := SecretKey(k, s.pc.a.Spec());
            var s' := Run(s, [Environment(SpecEdit(k, spec)), Environment(SecretWrite(old', secret)),
                              Work(NoFault, now), Work(NoFault, now)]);
            !Conserved(s', k)
  {
    hide Sound, Conserved, Count, Build, DeploymentName, CredentialsSecretFor, Advanced;
    var x, y := SpecEdit(k, spec), SecretWrite(SecretKey(k, s.pc.a.Spec()), secret);
    var evs := [Environment(x), Environment(y), Work(NoFault, now), Work(NoFault, now)];
    var s1 := Disturbed(s, x);
    var s2 := Disturbed(s1, y);
    var s3 := Advanced(s2, NoFault, now);
    StepKeepsSound(s, evs[0], k);
    StepKeepsSound(s1, evs[1], k);
    StepKeepsSound(s2, evs[2], k);
    Keys(s, k);
    SwitchedAway(s, x, y, k);
    ReadsOldSecret(s2, secret, now, k);
    UnfundedBreaks(s3, evs[3], k);
    assert evs[1..] == [evs[1], evs[2], evs[3]] && evs[1..][1..] == [evs[2], evs[3]];
    assert evs[1..][1..][1..] == [evs[3]] && evs[1..][1..][1..][1..] == [];
    assert Run(s, evs) == Run(s1, evs[1..]) == Run(s2, evs[1..][1..]) == Run(s3, evs[1..][1..][1..])
        == Run(Step(s3, evs[3]), []);
  }

  /** The write of a Secret the Agent no longer uses is no cause. */
  lemma SwitchedAway(s: System, x: Outside, y: Outside, k: Key)
    requires k in s.objects.agents && s.objects.agents[k].key == k && x.SpecEdit? && x.key == k && y.SecretWrite?
    requires SecretKey(k, x.spec) != y.key
    ensures var s2 := Disturbed(Disturbed(s, x), y);
            && Count(s2.audit, Roll, k) == Count(s.audit, Roll, k) && Causes(s2.audit, k) == Causes(s.audit, k)
            && s2.pc == s.pc && s2.objects.deployments == s.objects.deployments && k in s2.objects.agents
            && s2.objects.secrets == s.objects.secrets[y.key := y.secret]
  {
    hide CredentialsSecretFor;
    var s1 := Disturbed(s, x);
    assert s1.audit == s.audit && s1.objects.agents[k].Spec() == x.spec;
    var e := SecretChanged(y.key, UsersOf(s1.objects, y.key));
    CountOne(s1.audit, e, Roll, k);
    CountOne(s1.audit, e, Creation, k);
    CountOne(s1.audit, e, SecretMove, k);
  }

  lemma ReadsOldSecret(s: System, secret: Secret, now: Time, k: Key)
    requires Sound(s, k) && k in s.objects.agents && RunsFor(s.pc, k) && s.pc.ReadingSecret?
    requires SecretOf(s.objects, s.pc.a) == Some(secret) && s.pc.d.Stamp() != Some(secret.version)
    ensures var s' := Advanced(s, NoFault, now);
            s'.pc == Rolling(s.pc.a, s.pc.d, secret.version) && s'.objects == s.objects && s'.audit == s.audit
  {
    assert RequestOf(s.pc, now) == GetSecret(SecretKey(k, s.pc.a.Spec()));
  }
}
