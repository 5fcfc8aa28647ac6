/** What the stored objects of an Agent contain, in every state a single worker can reach. */
module Contents {
  import opened Wrappers
  import opened AgentTypes
  import opened Builder
  import opened StatusService
  import opened Cluster
  import opened Reconcile
  import opened StatusShape
  import opened Snapshot
  import opened Freshness
  import Convergence

  /** A binding made for an Agent of that name, in whatever namespace. */
  predicate BindingMade(s: System, b: RoleBinding, role: string, name: string) {
    && Key(b.subject.namespace, name) in s.objects.agents
    && b == BuildBinding(Key(b.subject.namespace, name), role)
  }

  predicate ClaimMade(a: Agent, c: Claim) {
    exists i :: 0 <= i < |a.revisions| && c == BuildClaim(a.key, a.revisions[i])
  }

  predicate MadeAt(s: System, k: Key) {
    var o := s.objects;
    k in o.agents ==>
      && (ReadBinding(k) in o.bindings ==> BindingMade(s, o.bindings[ReadBinding(k)], READ_CLUSTER_ROLE, k.name))
      && (WriteBinding(k) in o.bindings ==> BindingMade(s, o.bindings[WriteBinding(k)], WRITE_CLUSTER_ROLE, k.name))
      && (ClaimKey(k) in o.claims ==> ClaimMade(o.agents[k], o.claims[ClaimKey(k)]))
      && (ServiceKey(k) in o.services ==> o.services[ServiceKey(k)] == BuildService(k))
      && (AccountKey(k) in o.accounts ==> o.accounts[AccountKey(k)].owner == k)
  }

  /** A request leaves an object alone, removes it, or makes it where there was none. */
  lemma ObjectsAfter(o: Objects, req: Request, fault: Fault, n: string, key: Key)
    ensures var o' := Respond(o, req, fault).objects;
            && (Lookup(o'.bindings, n) in {None, Lookup(o.bindings, n)} ||
                (req.CreateBinding? && req.name == n && Lookup(o'.bindings, n) == Some(req.binding)))
            && (Lookup(o'.claims, key) in {None, Lookup(o.claims, key)} ||
                (req.CreateClaim? && req.key == key && Lookup(o'.claims, key) == Some(req.claim)))
            && (Lookup(o'.services, key) == Lookup(o.services, key) ||
                (req.CreateService? && req.key == key && Lookup(o'.services, key) == Some(req.service)))
            && (Lookup(o'.accounts, key) == Lookup(o.accounts, key) ||
                (req.CreateAccount? && req.key == key && Lookup(o'.accounts, key) == Some(req.account)))
  {
  }

  /** What is made, and where. */
  lemma MakingRequests(pc: Pc, now: Time)
    requires pc.Working()
    ensures var req := RequestOf(pc, now);
            && (req.CreateBinding? || req.CreateClaim? || req.CreateService? || req.CreateAccount? ==> HasAgent(pc))
            && (req.CreateBinding? ==>
                  || (req.name == ReadBinding(pc.a.key) && req.binding == BuildBinding(pc.a.key, READ_CLUSTER_ROLE))
                  || (req.name == WriteBinding(pc.a.key) && req.binding == BuildBinding(pc.a.key, WRITE_CLUSTER_ROLE)))
            && (req.CreateClaim? ==>
                  req.key == ClaimKey(pc.a.key) && req.claim == BuildClaim(pc.a.key, pc.a.Spec()))
            && (req.CreateService? ==> req.key == ServiceKey(pc.a.key) && req.service == BuildService(pc.a.key))
            && (req.CreateAccount? ==> req.key == AccountKey(pc.a.key) && req.account == ServiceAccount(pc.a.key))
  {
  }

  lemma BindingStaysMade(s: System, s': System, b: RoleBinding, role: string, name: string)
    requires BindingMade(s, b, role, name) && s'.objects.agents.Keys == s.objects.agents.Keys
    ensures BindingMade(s', b, role, name)
  {
    var j := Key(b.subject.namespace, name);
    assert j in s'.objects.agents;
  }

  lemma NewBindingMade(s: System, j: Key, role: string)
    requires j in s.objects.agents
    ensures BindingMade(s, BuildBinding(j, role), role, j.name)
  {
    assert Key(j.namespace, j.name) == j;
  }

  lemma WorkKeepsBinding(s: System, fault: Fault, now: Time, k: Key, write: bool)
    requires Sound(s, k) && MadeAt(s, k) && s.pc.Working() && k in s.objects.agents
    ensures var s', n := Advanced(s, fault, now), if write then WriteBinding(k) else ReadBinding(k);
            n in s'.objects.bindings ==>
              BindingMade(s', s'.objects.bindings[n], if write then WRITE_CLUSTER_ROLE else READ_CLUSTER_ROLE, k.name)
  {
    hide RequestOf, Next, Respond, Serve, BuildBinding, BindingMade, BindingName;
    var s', n := Advanced(s, fault, now), if write then WriteBinding(k) else ReadBinding(k);
    var role := if write then WRITE_CLUSTER_ROLE else READ_CLUSTER_ROLE;
    var req := RequestOf(s.pc, now);
    ObjectsAfter(s.objects, req, fault, n, k);
    MakingRequests(s.pc, now);
    OnlyStatusWritesTouchAgents(s.objects, req, fault);
    if n in s'.objects.bindings {
      if Lookup(s'.objects.bindings, n) == Lookup(s.objects.bindings, n) {
        BindingStaysMade(s, s', s'.objects.bindings[n], role, k.name);
      } else {
        NamesInjective(s.pc.a.key, k);
        ReadIsNotWrite(s.pc.a.key, k);
        ReadIsNotWrite(k, s.pc.a.key);
        NewBindingMade(s', s.pc.a.key, role);
      }
    }
  }

  lemma ClaimStaysMade(a: Agent, a': Agent, c: Claim)
    requires ClaimMade(a, c) && a'.key == a.key && a.revisions <= a'.revisions
    ensures ClaimMade(a', c)
  {
    var i :| 0 <= i < |a.revisions| && c == BuildClaim(a.key, a.revisions[i]);
    assert a'.revisions[i] == a.revisions[i];
  }

  lemma WorkKeepsClaim(s: System, fault: Fault, now: Time, k: Key)
    requires Sound(s, k) && MadeAt(s, k) && s.pc.Working() && k in s.objects.agents
    ensures var s' := Advanced(s, fault, now);
            && k in s'.objects.agents
            && (ClaimKey(k) in s'.objects.claims ==> ClaimMade(s'.objects.agents[k], s'.objects.claims[ClaimKey(k)]))
            && (ServiceKey(k) in s'.objects.services ==> s'.objects.services[ServiceKey(k)] == BuildService(k))
            && (AccountKey(k) in s'.objects.accounts ==> s'.objects.accounts[AccountKey(k)].owner == k)
  {
    hide RequestOf, Next, Respond, Serve, BuildClaim, BuildService, ClaimMade;
    var s', req := Advanced(s, fault, now), RequestOf(s.pc, now);
    ObjectsAfter(s.objects, req, fault, "", ClaimKey(k));
    ObjectsAfter(s.objects, req, fault, "", ServiceKey(k));
    ObjectsAfter(s.objects, req, fault, "", AccountKey(k));
    MakingRequests(s.pc, now);
    OnlyStatusWritesTouchAgents(s.objects, req, fault);
    WorkOn(s, fault, now, k);
    if HasAgent(s.pc) { NamesInjective(s.pc.a.key, k); }
    if ClaimKey(k) in s'.objects.claims {
      var c := s'.objects.claims[ClaimKey(k)];
      if Lookup(s'.objects.claims, ClaimKey(k)) == Lookup(s.objects.claims, ClaimKey(k)) {
        ClaimStaysMade(s.objects.agents[k], s'.objects.agents[k], c);
      } else {
        NewClaimMade(s'.objects.agents[k], s.pc.a, c);
      }
    }
  }

  lemma NewClaimMade(a: Agent, read: Agent, c: Claim)
    requires read.key == a.key && read.revisions <= a.revisions && c == BuildClaim(read.key, read.Spec())
    ensures ClaimMade(a, c)
  {
    assert a.revisions[|read.revisions| - 1] == read.Spec();
  }

  lemma DisturbanceKeepsMade(s: System, x: Outside, k: Key)
    requires MadeAt(s, k)
    ensures MadeAt(Disturbed(s, x), k)
  {
    hide BindingMade, BuildService, ClaimMade, BindingName;
    var s' := Disturbed(s, x);
    OutsideKeepsStatus(s.objects, x);
    OutsideRemovesOnly(s.objects, x);
    if k in s.objects.agents {
      OutsideAgent(s.objects, x, k);
      if ReadBinding(k) in s'.objects.bindings {
        BindingStaysMade(s, s', s.objects.bindings[ReadBinding(k)], READ_CLUSTER_ROLE, k.name);
      }
      if WriteBinding(k) in s'.objects.bindings {
        BindingStaysMade(s, s', s.objects.bindings[WriteBinding(k)], WRITE_CLUSTER_ROLE, k.name);
      }
      if ClaimKey(k) in s'.objects.claims {
        ClaimStaysMade(s.objects.agents[k], s'.objects.agents[k], s.objects.claims[ClaimKey(k)]);
      }
    }
  }

  /** Others only ever remove these objects. */
  lemma OutsideRemovesOnly(o: Objects, x: Outside)
    ensures var o' := Changed(o, x);
            && (forall n :: n in o'.bindings ==> n in o.bindings && o'.bindings[n] == o.bindings[n])
            && (forall k :: k in o'.claims ==> k in o.claims && o'.claims[k] == o.claims[k])
            && (forall k :: k in o'.accounts ==> k in o.accounts && o'.accounts[k] == o.accounts[k])
            && o'.services == o.services
  {
  }

  lemma StepKeepsMade(s: System, ev: Event, k: Key)
    requires Sound(s, k) && MadeAt(s, k)
    ensures MadeAt(Step(s, ev), k)
  {
    hide BindingMade, BuildService, ClaimMade, BindingName, Advanced, Disturbed;
    match ev {
      case Work(fault, now) =>
        if s.pc.Working() {
          AdvancedAgents(s, fault, now);
          if k in s.objects.agents {
            WorkKeepsBinding(s, fault, now, k, false);
            WorkKeepsBinding(s, fault, now, k, true);
            WorkKeepsClaim(s, fault, now, k);
          }
        }
      case Environment(x) => DisturbanceKeepsMade(s, x, k);
      case Start(_) => SameObjectsMade(s, Step(s, ev), k);
      case Crash => SameObjectsMade(s, Step(s, ev), k);
    }
  }

  lemma AdvancedAgents(s: System, fault: Fault, now: Time)
    requires s.pc.Working()
    ensures Advanced(s, fault, now).objects.agents.Keys == s.objects.agents.Keys
  {
    OnlyStatusWritesTouchAgents(s.objects, RequestOf(s.pc, now), fault);
  }

  lemma SameObjectsMade(s: System, s': System, k: Key)
    requires MadeAt(s, k) && s'.objects == s.objects
    ensures MadeAt(s', k)
  {
  }

  lemma {:induction false} MadeKept(s: System, evs: seq<Event>, k: Key)
    requires Sound(s, k) && MadeAt(s, k)
    ensures MadeAt(Run(s, evs), k)
    decreases evs
  {
    hide Sound, MadeAt, Step;
    if evs != [] {
      StepKeepsSound(s, evs[0], k);
      StepKeepsMade(s, evs[0], k);
      MadeKept(Step(s, evs[0]), evs[1..], k);
    }
  }

  // ---------------------------------------------------------------- main results

  /** Over every run: a stored Deployment runs, and takes its environment from, exactly what the
      revision it was built from says, and the stored Service selects its pods. */
  lemma StoredDeploymentRuns(s: System, evs: seq<Event>, k: Key)
    requires Fresh(s)
    ensures var s' := Run(s, evs);
            k in s'.objects.agents && DeploymentOf(s'.objects, k).Some? ==>
              var a, d := s'.objects.agents[k], DeploymentOf(s'.objects, k).value;
              var b := LastBuilt(s'.audit, DeploymentKey(k));
              && 0 < b <= a.Generation() && RunsSpec(k, a.revisions[b - 1], d)
              && (ServiceKey(k) in s'.objects.services ==> Fronts(s'.objects.services[ServiceKey(k)], d))
  {
    hide Run, Build, LastBuilt, RunsSpec, DeploymentName, ServiceName, Fronts, BuildService;
    BuiltKept(s, evs, k);
    MadeKept(s, evs, k);
    var s' := Run(s, evs);
    if k in s'.objects.agents && DeploymentOf(s'.objects, k).Some? {
      var a, d := s'.objects.agents[k], DeploymentOf(s'.objects, k).value;
      var b := LastBuilt(s'.audit, DeploymentKey(k));
      BuiltRunsSpec(k, a.revisions[b - 1], d);
      OthersBuilt(k, a.revisions[b - 1]);
    }
  }

  /** Over every run: a stored binding grants its role to the account of an Agent of that name,
      which is this one if there is no other; and a stored claim is of the size and class of a
      spec the Agent has had. */
  lemma StoredObjectsServe(s: System, evs: seq<Event>, k: Key)
    requires Fresh(s) && k in Run(s, evs).objects.agents
    ensures var o := Run(s, evs).objects;
            && (ReadBinding(k) in o.bindings ==>
                  exists j :: j in o.agents && j.name == k.name &&
                              Grants(o.bindings[ReadBinding(k)], "agent-runtime", j))
            && (WriteBinding(k) in o.bindings ==>
                  exists j :: j in o.agents && j.name == k.name &&
                              Grants(o.bindings[WriteBinding(k)], "agent-runtime-write", j))
            && (ClaimKey(k) in o.claims ==>
                  exists i :: 0 <= i < |o.agents[k].revisions| &&
                              ClaimsFor(o.claims[ClaimKey(k)], k, o.agents[k].revisions[i]))
            && (AccountKey(k) in o.accounts ==> o.accounts[AccountKey(k)].owner == k)
  {
    hide Run, BuildBinding, BuildClaim, BuildService, Grants, ClaimsFor, BindingName;
    MadeKept(s, evs, k);
    SoundOverRuns(s, evs, k);
    var s', o := Run(s, evs), Run(s, evs).objects;
    if ReadBinding(k) in o.bindings {
      OthersBuilt(Key(o.bindings[ReadBinding(k)].subject.namespace, k.name), o.agents[k].Spec());
    }
    if WriteBinding(k) in o.bindings {
      OthersBuilt(Key(o.bindings[WriteBinding(k)].subject.namespace, k.name), o.agents[k].Spec());
    }
    if ClaimKey(k) in o.claims {
      var a, c := o.agents[k], o.claims[ClaimKey(k)];
      var i :| 0 <= i < |a.revisions| && c == BuildClaim(a.key, a.revisions[i]);
      OthersBuilt(k, a.revisions[i]);
    }
  }

  /** An undisturbed pass over the objects of a run is a longer run. */
  lemma PassIsARun(s: System, evs: seq<Event>, k: Key, now: Time) returns (more: seq<Event>)
    ensures Run(s, more).objects == Convergence.Settle(Run(s, evs).objects, Fetching(k), now).0
  {
    hide Finish, Events, Convergence.Settle, Run;
    var s1 := Run(s, evs);
    var s2 := s1.(pc := Fetching(k));
    RunTwo(s1, Crash, Start(k));
    FinishIsARun(s2, [], now);
    Convergence.FinishIsSettle(s2, now);
    RunAppend(s1, [Crash, Start(k)], Events(s2, [], now));
    more := evs + ([Crash, Start(k)] + Events(s2, [], now));
    RunAppend(s, evs, [Crash, Start(k)] + Events(s2, [], now));
  }

  /** After an undisturbed pass, from any reachable state, the pods of an Agent can do their work:
      the account they run as is there, the read binding gives it the read role, and the write
      binding the write role if writing is enabled. For this no other Agent may have the
      name, or the bindings may be the other's. */
  lemma PodsCanWork(s: System, evs: seq<Event>, k: Key, now: Time)
    requires Fresh(s)
    requires k in Run(s, evs).objects.agents && !Run(s, evs).objects.agents[k].deleting
    requires forall j :: j in Run(s, evs).objects.agents && j.name == k.name ==> j == k
    ensures var p := Convergence.Settle(Run(s, evs).objects, Fetching(k), now).0;
            && k in p.agents
            && Key(k.namespace, k.name + "-agent-runtime") in p.accounts
            && ReadBinding(k) in p.bindings && Grants(p.bindings[ReadBinding(k)], "agent-runtime", k)
            && (p.agents[k].Spec().writeEnabled ==>
                  WriteBinding(k) in p.bindings && Grants(p.bindings[WriteBinding(k)], "agent-runtime-write", k))
            && (DeploymentOf(p, k).Some? ==>
                  DeploymentOf(p, k).value.template.pod.serviceAccount == k.name + "-agent-runtime")
  {
    hide Run, Convergence.Settle, LastBuilt, Build, BuildBinding, Grants, BindingName, DeploymentName, BuildClaim;
    Convergence.DerivedAfterEveryPass(s, evs, k, now);
    var more := PassIsARun(s, evs, k, now);
    SameAgents(s, evs, k, now);
    StoredObjectsServe(s, more, k);
    StoredDeploymentRuns(s, more, k);
  }

  /** A pass neither makes nor removes Agents. */
  lemma SameAgents(s: System, evs: seq<Event>, k: Key, now: Time)
    ensures Convergence.Settle(Run(s, evs).objects, Fetching(k), now).0.agents.Keys == Run(s, evs).objects.agents.Keys
  {
    SettleKeepsAgents(Run(s, evs).objects, Fetching(k), now);
  }

  lemma {:induction false} SettleKeepsAgents(o: Objects, pc: Pc, now: Time)
    ensures Convergence.Settle(o, pc, now).0.agents.Keys == o.agents.Keys
    decreases Rank(pc)
  {
    hide RequestOf, Next, Serve;
    if pc.Working() {
      var r := Serve(o, RequestOf(pc, now));
      NextRank(pc, r.reply);
      OnlyStatusWritesTouchAgents(o, RequestOf(pc, now), NoFault);
      SettleKeepsAgents(r.objects, Next(pc, r.reply), now);
    }
  }
}
