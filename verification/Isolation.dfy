/** Passes for different Agents keep out of each other's way. */
module Isolation {
  import opened Wrappers
  import opened AgentTypes
  import opened Builder
  import opened StatusService
  import opened Cluster
  import opened Reconcile
  import opened StatusShape
  import opened Snapshot
  import Convergence

  /** Where the objects of one Agent live. */
  datatype Footprint = Footprint(
    agent: Key, account: Key, read: string, write: string, claim: Key, deployment: Key, service: Key)

  function FootprintOf(k: Key): Footprint {
    Footprint(k, AccountKey(k), ReadBinding(k), WriteBinding(k), ClaimKey(k), DeploymentKey(k), ServiceKey(k))
  }

  predicate Apart(f: Footprint, g: Footprint) {
    && f.agent != g.agent && f.account != g.account && f.claim != g.claim
    && f.deployment != g.deployment && f.service != g.service
    && {f.read, f.write} !! {g.read, g.write}
  }

  /** The objects of two Agents live apart exactly when the Agents' names differ. */
  lemma ApartIffNamesDiffer(j: Key, k: Key)
    ensures Apart(FootprintOf(j), FootprintOf(k)) <==> j.name != k.name
    ensures FootprintOf(j).read != FootprintOf(j).write
  {
    NamesInjective(j, k);
    ReadIsNotWrite(j, k);
    ReadIsNotWrite(k, j);
    ReadIsNotWrite(j, j);
  }

  /** The same objects in a footprint, and the same Secrets. */
  predicate Agree(o: Objects, p: Objects, f: Footprint) {
    && Lookup(o.agents, f.agent) == Lookup(p.agents, f.agent)
    && Lookup(o.accounts, f.account) == Lookup(p.accounts, f.account)
    && Lookup(o.bindings, f.read) == Lookup(p.bindings, f.read)
    && Lookup(o.bindings, f.write) == Lookup(p.bindings, f.write)
    && Lookup(o.claims, f.claim) == Lookup(p.claims, f.claim)
    && Lookup(o.deployments, f.deployment) == Lookup(p.deployments, f.deployment)
    && Lookup(o.services, f.service) == Lookup(p.services, f.service)
    && o.secrets == p.secrets
  }

  /** Two maps that differ at most in the keys listed. */
  ghost predicate SameBut<K(!new), V>(m: map<K, V>, m': map<K, V>, keys: set<K>) {
    forall x :: x !in keys ==> Lookup(m, x) == Lookup(m', x)
  }

  /** Objects that differ at most inside a footprint. */
  ghost predicate OnlyIn(o: Objects, p: Objects, f: Footprint) {
    && SameBut(o.agents, p.agents, {f.agent})
    && SameBut(o.accounts, p.accounts, {f.account})
    && SameBut(o.bindings, p.bindings, {f.read, f.write})
    && SameBut(o.claims, p.claims, {f.claim})
    && SameBut(o.deployments, p.deployments, {f.deployment})
    && SameBut(o.services, p.services, {f.service})
    && o.secrets == p.secrets
  }

  /** Requests on a footprint. */
  predicate Own(req: Request, f: Footprint) {
    match req
    case GetAgent(x) => x == f.agent
    case UpdateStatus(x, _) => x == f.agent
    case CreateAccount(x, _) => x == f.account
    case CreateBinding(n, _) => n == f.read || n == f.write
    case GetBinding(n) => n == f.read || n == f.write
    case DeleteBinding(n) => n == f.read || n == f.write
    case CreateClaim(x, _) => x == f.claim
    case DeleteClaim(x) => x == f.claim
    case CreateDeployment(x, _, _) => x == f.deployment
    case GetDeployment(x) => x == f.deployment
    case DeleteDeployment(x) => x == f.deployment
    case StampDeployment(x, _) => x == f.deployment
    case CreateService(x, _) => x == f.service
    case GetSecret(_) => true
  }

  lemma RequestsAreOwn(pc: Pc, now: Time)
    requires pc.Working() && PcOk(pc) && (HasAgent(pc) ==> NamedRef(pc.a))
    ensures Own(RequestOf(pc, now), FootprintOf(pc.Subject()))
  {
  }

  lemma OwnChangesOnlyOwn(o: Objects, req: Request, f: Footprint)
    requires Own(req, f)
    ensures OnlyIn(o, Serve(o, req).objects, f)
  {
  }

  /** An answer depends on the footprint alone. */
  lemma OwnRepliesAgree(o: Objects, p: Objects, req: Request, f: Footprint)
    requires Own(req, f) && Agree(o, p, f)
    ensures Serve(o, req).reply == Serve(p, req).reply
  {
    if req.CreateBinding? || req.DeleteBinding? || req.CreateAccount? {
      OwnRbacRepliesAgree(o, p, req, f);
    }
  }

  lemma OwnRbacRepliesAgree(o: Objects, p: Objects, req: Request, f: Footprint)
    requires Own(req, f) && Agree(o, p, f) && (req.CreateBinding? || req.DeleteBinding? || req.CreateAccount?)
    ensures Serve(o, req).reply == Serve(p, req).reply
  {
  }

  lemma OwnBindingsAgree(o: Objects, p: Objects, req: Request, f: Footprint)
    requires Own(req, f) && Agree(o, p, f) && f.read != f.write && (req.CreateBinding? || req.DeleteBinding?)
    ensures Agree(Serve(o, req).objects, Serve(p, req).objects, f)
  {
    if req.CreateBinding? { OwnBindingMadeAgrees(o, p, req, f); } else { OwnBindingGoneAgrees(o, p, req, f); }
  }

  lemma OwnBindingMadeAgrees(o: Objects, p: Objects, req: Request, f: Footprint)
    requires Own(req, f) && Agree(o, p, f) && f.read != f.write && req.CreateBinding?
    ensures Agree(Serve(o, req).objects, Serve(p, req).objects, f)
  {
  }

  lemma OwnBindingGoneAgrees(o: Objects, p: Objects, req: Request, f: Footprint)
    requires Own(req, f) && Agree(o, p, f) && f.read != f.write && req.DeleteBinding?
    ensures Agree(Serve(o, req).objects, Serve(p, req).objects, f)
  {
  }

  lemma OwnDeploymentsAgree(o: Objects, p: Objects, req: Request, f: Footprint)
    requires Own(req, f) && Agree(o, p, f)
    requires req.CreateDeployment? || req.DeleteDeployment? || req.StampDeployment?
    ensures Agree(Serve(o, req).objects, Serve(p, req).objects, f)
  {
  }

  /** And so does what it leaves there. */
  lemma OwnObjectsAgree(o: Objects, p: Objects, req: Request, f: Footprint)
    requires Own(req, f) && Agree(o, p, f) && f.read != f.write
    ensures Agree(Serve(o, req).objects, Serve(p, req).objects, f)
  {
    if req.CreateBinding? || req.DeleteBinding? {
      OwnBindingsAgree(o, p, req, f);
    } else if req.CreateDeployment? || req.DeleteDeployment? || req.StampDeployment? {
      OwnDeploymentsAgree(o, p, req, f);
    } else if req.UpdateStatus? {
      assert Lookup(o.agents, f.agent) == Lookup(p.agents, f.agent);
    }
  }

  lemma OwnAnswersAgree(o: Objects, p: Objects, req: Request, fault: Fault, f: Footprint)
    requires Own(req, f) && Agree(o, p, f) && f.read != f.write
    ensures var r, q := Respond(o, req, fault), Respond(p, req, fault);
            r.reply == q.reply && Agree(r.objects, q.objects, f)
  {
    OwnRepliesAgree(o, p, req, f);
    OwnObjectsAgree(o, p, req, f);
  }

  lemma OnlyInTrans(o: Objects, p: Objects, q: Objects, f: Footprint)
    requires OnlyIn(o, p, f) && OnlyIn(p, q, f)
    ensures OnlyIn(o, q, f)
  {
  }

  lemma ChangesApart(o: Objects, p: Objects, f: Footprint, g: Footprint)
    requires OnlyIn(o, p, f) && Apart(f, g)
    ensures Agree(o, p, g)
  {
    assert g.read !in {f.read, f.write} && g.write !in {f.read, f.write};
  }

  /** A worker step for a running pass. */
  lemma WorkIsOwn(s: System, fault: Fault, now: Time)
    requires Basic(s) && AllShaped(s) && s.pc.Working()
    ensures Own(RequestOf(s.pc, now), FootprintOf(s.pc.Subject()))
    ensures OnlyIn(s.objects, Advanced(s, fault, now).objects, FootprintOf(s.pc.Subject()))
    ensures var pc := Advanced(s, fault, now).pc; pc.Working() ==> pc.Subject() == s.pc.Subject()
    ensures Basic(Advanced(s, fault, now)) && AllShaped(Advanced(s, fault, now))
  {
    if HasAgent(s.pc) { assert ShapedAt(s, s.pc.a.key); }
    RequestsAreOwn(s.pc, now);
    OwnChangesOnlyOwn(s.objects, RequestOf(s.pc, now), FootprintOf(s.pc.Subject()));
    SubjectStays(s, fault, now);
    StepKeepsBasic(s, Work(fault, now));
    StepKeepsAllShaped(s, Work(fault, now));
  }

  lemma SubjectStays(s: System, fault: Fault, now: Time)
    requires Basic(s) && s.pc.Working()
    ensures var pc := Advanced(s, fault, now).pc; pc.Working() ==> pc.Subject() == s.pc.Subject()
  {
    StatusWriteEnds(s.pc, now, Respond(s.objects, RequestOf(s.pc, now), fault).reply);
  }

  /** Nobody else acts inside the pass. */
  predicate Alone(script: seq<Turn>) {
    forall t :: t in script ==> t.before == []
  }

  lemma {:induction false} PassChangesOnlyOwn(s: System, script: seq<Turn>, now: Time, j: Key)
    requires Basic(s) && AllShaped(s) && Alone(script) && (s.pc.Working() ==> s.pc.Subject() == j)
    ensures var s' := Finish(s, script, now).0;
            OnlyIn(s.objects, s'.objects, FootprintOf(j)) && Basic(s') && AllShaped(s')
    decreases Rank(s.pc)
  {
    if s.pc.Working() {
      var t := TurnAt(script, now);
      AdvancedRank(s, t.fault, t.now);
      WorkIsOwn(s, t.fault, t.now);
      var s1 := Advanced(s, t.fault, t.now);
      PassChangesOnlyOwn(s1, Rest(script), now, j);
      OnlyInTrans(s.objects, s1.objects, Finish(s1, Rest(script), now).0.objects, FootprintOf(j));
    }
  }

  lemma {:induction false} PassDependsOnlyOnOwn(s: System, t: System, script: seq<Turn>, now: Time, k: Key)
    requires Basic(s) && AllShaped(s) && Basic(t) && AllShaped(t) && Alone(script)
    requires s.pc == t.pc && (s.pc.Working() ==> s.pc.Subject() == k) && Agree(s.objects, t.objects, FootprintOf(k))
    ensures var s', t' := Finish(s, script, now).0, Finish(t, script, now).0;
            s'.pc == t'.pc && Agree(s'.objects, t'.objects, FootprintOf(k))
    decreases Rank(s.pc)
  {
    if s.pc.Working() {
      var turn := TurnAt(script, now);
      AdvancedRank(s, turn.fault, turn.now);
      WorkIsOwn(s, turn.fault, turn.now);
      WorkIsOwn(t, turn.fault, turn.now);
      ApartIffNamesDiffer(k, k);
      OwnAnswersAgree(s.objects, t.objects, RequestOf(s.pc, turn.now), turn.fault, FootprintOf(k));
      PassDependsOnlyOnOwn(Advanced(s, turn.fault, turn.now), Advanced(t, turn.fault, turn.now), Rest(script), now, k);
    }
  }

  // ---------------------------------------------------------------- main results

  ghost predicate Consistent(o: Objects) {
    Keyed(o) && forall k :: k in o.agents ==> Shaped(k, o.agents[k].status)
  }

  function Pass(o: Objects, k: Key, script: seq<Turn>, now: Time): System {
    Finish(System(o, [], Fetching(k)), script, now).0
  }

  lemma PassFrame(o: Objects, j: Key, script: seq<Turn>, now: Time)
    requires Consistent(o) && Alone(script)
    ensures OnlyIn(o, Pass(o, j, script, now).objects, FootprintOf(j)) && Consistent(Pass(o, j, script, now).objects)
  {
    var s := System(o, [], Fetching(j));
    assert forall k :: ShapedAt(s, k);
    PassChangesOnlyOwn(s, script, now, j);
    var s' := Pass(o, j, script, now);
    forall k | k in s'.objects.agents ensures Shaped(k, s'.objects.agents[k].status) { assert ShapedAt(s', k); }
  }

  /** Whatever fails in it, a pass for one Agent changes no object of an Agent of another name. */
  lemma PassLeavesOthersAlone(o: Objects, j: Key, k: Key, script: seq<Turn>, now: Time)
    requires Consistent(o) && Alone(script) && j.name != k.name
    ensures Agree(o, Pass(o, j, script, now).objects, FootprintOf(k))
  {
    PassFrame(o, j, script, now);
    ApartIffNamesDiffer(j, k);
    ChangesApart(o, Pass(o, j, script, now).objects, FootprintOf(j), FootprintOf(k));
  }

  lemma SameMaps<K(!new), V>(m: map<K, V>, m': map<K, V>)
    requires forall x :: Lookup(m, x) == Lookup(m', x)
    ensures m == m'
  {
    forall x ensures x in m <==> x in m' { assert Lookup(m, x) == Lookup(m', x); }
    forall x | x in m ensures m[x] == m'[x] { assert Lookup(m, x) == Lookup(m', x); }
  }

  /** One map of the cluster under the two orders: `mj` and `mk` after one pass, `mjk` and `mkj`
      after both. */
  lemma OrdersAgree<K(!new), V>(
    m: map<K, V>, mj: map<K, V>, mk: map<K, V>, mjk: map<K, V>, mkj: map<K, V>, js: set<K>, ks: set<K>)
    requires SameBut(m, mj, js) && SameBut(m, mk, ks) && SameBut(mj, mjk, ks) && SameBut(mk, mkj, js) && js !! ks
    requires forall x :: x in ks ==> Lookup(mk, x) == Lookup(mjk, x)
    requires forall x :: x in js ==> Lookup(mj, x) == Lookup(mkj, x)
    ensures mjk == mkj
  {
    forall x ensures Lookup(mjk, x) == Lookup(mkj, x) {
      if x in ks { assert x !in js; } else if x in js { assert x !in ks; }
    }
    SameMaps(mjk, mkj);
  }

  /** Passes for Agents of different names commute: the same objects in the end, and each pass
      ends alike whether it goes first or second. */
  lemma PassesCommute(o: Objects, j: Key, k: Key, a: seq<Turn>, b: seq<Turn>, now: Time, later: Time)
    requires Consistent(o) && Alone(a) && Alone(b) && j.name != k.name
    ensures var oj, ok := Pass(o, j, a, now), Pass(o, k, b, later);
            var ojk, okj := Pass(oj.objects, k, b, later), Pass(ok.objects, j, a, now);
            ojk.objects == okj.objects && ojk.pc == ok.pc && okj.pc == oj.pc
  {
    var oj, ok := Pass(o, j, a, now).objects, Pass(o, k, b, later).objects;
    PassFrame(o, j, a, now);
    PassFrame(o, k, b, later);
    PassFrame(oj, k, b, later);
    PassFrame(ok, j, a, now);
    ApartIffNamesDiffer(j, k);
    SecondPassSame(o, oj, j, k, b, later);
    SecondPassSame(o, ok, k, j, a, now);
    ObjectsCommute(o, oj, ok, Pass(oj, k, b, later).objects, Pass(ok, j, a, now).objects,
                   FootprintOf(j), FootprintOf(k));
  }

  /** The pass of `k` goes as it would have gone before the pass of `j`. */
  lemma SecondPassSame(o: Objects, oj: Objects, j: Key, k: Key, script: seq<Turn>, now: Time)
    requires Consistent(o) && Consistent(oj) && OnlyIn(o, oj, FootprintOf(j)) && Alone(script) && j.name != k.name
    ensures Pass(o, k, script, now).pc == Pass(oj, k, script, now).pc
    ensures Agree(Pass(o, k, script, now).objects, Pass(oj, k, script, now).objects, FootprintOf(k))
  {
    ApartIffNamesDiffer(j, k);
    ChangesApart(o, oj, FootprintOf(j), FootprintOf(k));
    var s, t := System(o, [], Fetching(k)), System(oj, [], Fetching(k));
    assert forall x :: ShapedAt(s, x);
    assert forall x :: ShapedAt(t, x);
    PassDependsOnlyOnOwn(s, t, script, now, k);
  }

  lemma KeyedOrdersAgree<K(!new), V>(
    m: map<K, V>, mf: map<K, V>, mg: map<K, V>, mfg: map<K, V>, mgf: map<K, V>, x: K, y: K)
    requires SameBut(m, mf, {x}) && SameBut(m, mg, {y}) && SameBut(mf, mfg, {y}) && SameBut(mg, mgf, {x}) && x != y
    requires Lookup(mg, y) == Lookup(mfg, y) && Lookup(mf, x) == Lookup(mgf, x)
    ensures mfg == mgf
  {
    OrdersAgree(m, mf, mg, mfg, mgf, {x}, {y});
  }

  lemma BindingsCommute(o: Objects, of: Objects, og: Objects, ofg: Objects, ogf: Objects, f: Footprint, g: Footprint)
    requires OnlyIn(o, of, f) && OnlyIn(o, og, g) && OnlyIn(of, ofg, g) && OnlyIn(og, ogf, f) && Apart(f, g)
    requires Agree(og, ofg, g) && Agree(of, ogf, f)
    ensures ofg.bindings == ogf.bindings
  {
    OrdersAgree(o.bindings, of.bindings, og.bindings, ofg.bindings, ogf.bindings, {f.read, f.write}, {g.read, g.write});
  }

  lemma ObjectsCommute(o: Objects, of: Objects, og: Objects, ofg: Objects, ogf: Objects, f: Footprint, g: Footprint)
    requires OnlyIn(o, of, f) && OnlyIn(o, og, g) && OnlyIn(of, ofg, g) && OnlyIn(og, ogf, f) && Apart(f, g)
    requires Agree(og, ofg, g) && Agree(of, ogf, f)
    ensures ofg == ogf
  {
    BindingsCommute(o, of, og, ofg, ogf, f, g);
    KeyedOrdersAgree(o.agents, of.agents, og.agents, ofg.agents, ogf.agents, f.agent, g.agent);
    KeyedOrdersAgree(o.accounts, of.accounts, og.accounts, ofg.accounts, ogf.accounts, f.account, g.account);
    KeyedOrdersAgree(o.claims, of.claims, og.claims, ofg.claims, ogf.claims, f.claim, g.claim);
    KeyedOrdersAgree(o.deployments, of.deployments, og.deployments, ofg.deployments, ogf.deployments,
                     f.deployment, g.deployment);
    KeyedOrdersAgree(o.services, of.services, og.services, ofg.services, ogf.services, f.service, g.service);
  }

  // ---------------------------------------------------------------- convergence among others

  /** What a worker does for all the Agents it looks after: a round for the Agent in question, or
      a pass for another one, with whatever faults. */
  datatype Visit = OwnRound(poll: Convergence.Poll) | OtherPass(j: Key, script: seq<Turn>, now: Time)

  function Visited(o: Objects, k: Key, v: Visit): Objects {
    match v
    case OwnRound(poll) => Convergence.Round(o, k, poll.ready, poll.now)
    case OtherPass(j, script, now) => Pass(o, j, script, now).objects
  }

  function Visits(o: Objects, k: Key, vs: seq<Visit>): Objects
    decreases vs
  {
    if vs == [] then o else Visits(Visited(o, k, vs[0]), k, vs[1..])
  }

  /** The rounds among the visits. */
  function OwnRounds(vs: seq<Visit>): seq<Convergence.Poll> {
    if vs == [] then []
    else (if vs[0].OwnRound? then [vs[0].poll] else []) + OwnRounds(vs[1..])
  }

  predicate ForOthers(v: Visit, k: Key) {
    v.OtherPass? ==> v.j.name != k.name && Alone(v.script)
  }

  lemma ReadyAgrees(o: Objects, p: Objects, k: Key, n: nat)
    requires Agree(o, p, FootprintOf(k)) && Consistent(o) && Consistent(p)
    ensures var o', p' := Convergence.WithReady(o, k, n), Convergence.WithReady(p, k, n);
            Agree(o', p', FootprintOf(k)) && Consistent(o') && Consistent(p')
  {
    hide Shaped;
    assert Lookup(o.deployments, DeploymentKey(k)) == Lookup(p.deployments, DeploymentKey(k));
  }

  /** A round depends only on what is the Agent's own. */
  lemma RoundAgrees(o: Objects, p: Objects, k: Key, n: nat, now: Time)
    requires Agree(o, p, FootprintOf(k)) && Consistent(o) && Consistent(p)
    ensures Agree(Convergence.Round(o, k, n, now), Convergence.Round(p, k, n, now), FootprintOf(k))
    ensures Consistent(Convergence.Round(o, k, n, now))
  {
    hide Agree, Consistent, FootprintOf, Finish, Convergence.Settle, Convergence.WithReady, DeploymentName;
    ReadyAgrees(o, p, k, n);
    var o', p' := Convergence.WithReady(o, k, n), Convergence.WithReady(p, k, n);
    var s, t := System(o', [], Fetching(k)), System(p', [], Fetching(k));
    ConsistentStart(o', k);
    ConsistentStart(p', k);
    PassDependsOnlyOnOwn(s, t, [], now, k);
    PassFrame(o', k, [], now);
    Convergence.FinishIsSettle(s, now);
    Convergence.FinishIsSettle(t, now);
  }

  lemma ConsistentStart(o: Objects, k: Key)
    requires Consistent(o)
    ensures Basic(System(o, [], Fetching(k))) && AllShaped(System(o, [], Fetching(k)))
  {
  }

  lemma AgreeAcross(o: Objects, p: Objects, q: Objects, f: Footprint)
    requires Agree(o, p, f) && Agree(p, q, f)
    ensures Agree(o, q, f)
  {
  }

  /** Passes for Agents of other names, wherever they come and whatever fails in them, leave the
      Agent where its own rounds alone would have brought it. */
  lemma {:induction false} VisitsAgree(o: Objects, p: Objects, k: Key, vs: seq<Visit>)
    requires Agree(o, p, FootprintOf(k)) && Consistent(o) && Consistent(p)
    requires forall v :: v in vs ==> ForOthers(v, k)
    ensures Agree(Visits(o, k, vs), Convergence.Rounds(p, k, OwnRounds(vs)), FootprintOf(k))
    decreases vs
  {
    hide Agree, Consistent, FootprintOf, Pass, Convergence.Round;
    if vs != [] {
      var v, o' := vs[0], Visited(o, k, vs[0]);
      match v {
        case OwnRound(poll) =>
          var p' := Convergence.Round(p, k, poll.ready, poll.now);
          RoundAgrees(o, p, k, poll.ready, poll.now);
          AgreeItself(o, p, k);
          RoundAgrees(p, o, k, poll.ready, poll.now);
          VisitsAgree(o', p', k, vs[1..]);
          var rest := OwnRounds(vs[1..]);
          assert OwnRounds(vs) == [poll] + rest && ([poll] + rest)[1..] == rest;
        case OtherPass(j, script, now) =>
          assert ForOthers(v, k);
          PassLeavesOthersAlone(o, j, k, script, now);
          PassFrame(o, j, script, now);
          AgreeItself(o, o', k);
          AgreeAcross(o', o, p, FootprintOf(k));
          VisitsAgree(o', p, k, vs[1..]);
          assert OwnRounds(vs) == OwnRounds(vs[1..]);
      }
    }
  }

  lemma AgreeItself(o: Objects, p: Objects, k: Key)
    requires Agree(o, p, FootprintOf(k))
    ensures Agree(p, o, FootprintOf(k))
  {
  }

  /** What is settled is the Agent's own. */
  lemma SettledIsOwn(o: Objects, p: Objects, k: Key, n: nat)
    requires Agree(o, p, FootprintOf(k)) && Convergence.Settled(p, k, n)
    ensures Convergence.Settled(o, k, n)
  {
    hide Shaped, Build, DeploymentName, ServiceName, HasHistoryEnv, HasHistoryMount, MountedClaims;
    assert Lookup(o.agents, k) == Lookup(p.agents, k) && Lookup(p.agents, k).Some?;
    assert o.agents[k] == p.agents[k] && DeploymentOf(o, k) == DeploymentOf(p, k);
    assert Lookup(o.accounts, AccountKey(k)) == Lookup(p.accounts, AccountKey(k));
    assert Lookup(o.bindings, ReadBinding(k)) == Lookup(p.bindings, ReadBinding(k));
    assert Lookup(o.bindings, WriteBinding(k)) == Lookup(p.bindings, WriteBinding(k));
    assert Lookup(o.claims, ClaimKey(k)) == Lookup(p.claims, ClaimKey(k));
    Convergence.BuiltDerives(o, k);
  }

  /** Convergence with other Agents around: passes for Agents of other names may come between the
      rounds, in any number, with any faults. */
  lemma ConvergenceAmongOthers(
    s: System, evs: seq<Event>, k: Key, vs: seq<Visit>, unsteady: seq<Convergence.Poll>,
    steady: seq<Convergence.Poll>, n: nat)
    requires Fresh(s)
    requires k in Run(s, evs).objects.agents && !Run(s, evs).objects.agents[k].deleting
    requires (forall v :: v in vs ==> ForOthers(v, k)) && OwnRounds(vs) == unsteady + steady
    requires n > 0 && |steady| >= 4 && forall p :: p in steady ==> p.ready == n
    ensures Convergence.Settled(Visits(Run(s, evs).objects, k, vs), k, n)
  {
    hide Agree, FootprintOf, Run, Convergence.Settled, Convergence.Rounds, Visits, Fresh;
    var o := Run(s, evs).objects;
    RunIsConsistent(s, evs);
    ItAgrees(o, k);
    VisitsAgree(o, o, k, vs);
    Convergence.Convergence(s, evs, k, unsteady, steady, n);
    SettledIsOwn(Visits(o, k, vs), Convergence.Rounds(o, k, unsteady + steady), k, n);
  }

  lemma ItAgrees(o: Objects, k: Key)
    ensures Agree(o, o, FootprintOf(k))
  {
  }

  lemma RunIsConsistent(s: System, evs: seq<Event>)
    requires Fresh(s)
    ensures Consistent(Run(s, evs).objects)
  {
    hide Run;
    RunKeepsBasic(s, evs);
    forall k | k in Run(s, evs).objects.agents ensures Shaped(k, Run(s, evs).objects.agents[k].status) {
      StatusShapeOverRuns(s, evs, k);
    }
  }

  /** Different names are needed: Agents of one name in two namespaces share their cluster-scoped
      bindings, so an undisturbed pass for one that may not write takes the other's write
      binding away, from any state a run can reach. */
  lemma SameNameSharesBindings(s: System, evs: seq<Event>, j: Key, k: Key, now: Time)
    requires Fresh(s) && j.name == k.name
    requires var o := Run(s, evs).objects;
             k in o.agents && !o.agents[k].deleting && !o.agents[k].Spec().writeEnabled
    ensures var p := Convergence.Settle(Run(s, evs).objects, Fetching(k), now).0;
            && WriteBinding(j) !in p.bindings
            && (j in p.agents && p.agents[j].Spec().writeEnabled ==> !Convergence.Derived(p, j))
  {
    hide Run, Convergence.Settle;
    var o := Run(s, evs).objects;
    Convergence.ReachableIsGood(s, evs, k);
    Convergence.PassAdvances(o, k, if DeploymentOf(o, k).Some? then DeploymentOf(o, k).value.readyReplicas else 0, now);
    NamesInjective(j, k);
  }

  /** Two namesakes of which one may write and the other may not can never both have what their
      specs ask for. */
  lemma NamesakesNeverAgree(o: Objects, j: Key, k: Key)
    requires j.name == k.name && j in o.agents && k in o.agents
    requires o.agents[j].Spec().writeEnabled != o.agents[k].Spec().writeEnabled
    ensures !(Convergence.Derived(o, j) && Convergence.Derived(o, k))
  {
    NamesInjective(j, k);
  }
}
