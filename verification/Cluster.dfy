/** The API server as the operator sees it: stored objects, requests and replies, and what
    everybody else may do to the objects. */
module Cluster {
  import opened Wrappers
  import opened AgentTypes
  import opened Builder
  import opened StatusService

  datatype Secret = Secret(version: string, data: map<string, seq<bv8>>)

  datatype Objects = Objects(
    agents: map<Key, Agent>,
    accounts: map<Key, ServiceAccount>,
    bindings: map<string, RoleBinding>,
    claims: map<Key, Claim>,
    deployments: map<Key, Deployment>,
    services: map<Key, Service>,
    secrets: map<Key, Secret>)

  /** Requests of the operator. A status write and a stamp are a retried read-modify-write
      each; module Occ shows that such a loop acts on the newest version in one step. */
  datatype Request =
    | GetAgent(key: Key)
    | UpdateStatus(key: Key, mutation: Mutation)
    | CreateAccount(key: Key, account: ServiceAccount)
    | CreateBinding(name: string, binding: RoleBinding)
    | GetBinding(name: string)
    | DeleteBinding(name: string)
    | CreateClaim(key: Key, claim: Claim)
    | DeleteClaim(key: Key)
    | CreateDeployment(key: Key, deployment: Deployment, generation: nat)
    | GetDeployment(key: Key)
    | DeleteDeployment(key: Key)
    | StampDeployment(key: Key, version: string)
    | CreateService(key: Key, service: Service)
    | GetSecret(key: Key)

  datatype Reply =
    | Done
    | Unneeded
    | AlreadyExists
    | NotFound
    | Unavailable(message: string)
    | TheAgent(agent: Agent)
    | TheBinding(binding: RoleBinding)
    | TheDeployment(deployment: Deployment)
    | TheSecret(secret: Secret)

  /** What the audit log keeps. A creation is recorded with the generation it was built from,
      which is in the request for that purpose only; a Secret change with the Agents using it. */
  datatype Effect =
    | DeploymentCreated(key: Key, generation: nat)
    | DeploymentStamped(key: Key)
    | SecretChanged(key: Key, users: set<Key>)

  datatype Served = Served(objects: Objects, reply: Reply, effects: seq<Effect>)

  /** Creation of an object that may exist. */
  function Inserted<K, V>(m: map<K, V>, k: K, v: V): map<K, V> {
    if k in m then m else m[k := v]
  }

  function InsertReply<K, V>(m: map<K, V>, k: K): Reply {
    if k in m then AlreadyExists else Done
  }

  function Removed<K, V>(m: map<K, V>, k: K): map<K, V> {
    if k in m then m - {k} else m
  }

  function FoundReply<K, V>(m: map<K, V>, k: K): Reply {
    if k in m then Done else NotFound
  }

  function StatusSet(agents: map<Key, Agent>, k: Key, m: Mutation): map<Key, Agent> {
    if k !in agents then agents
    else agents[k := agents[k].(status := Mutated(k, agents[k].Generation(), agents[k].status, m))]
  }

  predicate NeedsStamp(deployments: map<Key, Deployment>, k: Key, version: string) {
    k in deployments && deployments[k].Stamp() != Some(version)
  }

  function StampSet(deployments: map<Key, Deployment>, k: Key, version: string): map<Key, Deployment> {
    if NeedsStamp(deployments, k, version) then deployments[k := deployments[k].Stamped(version)] else deployments
  }

  function StampReply(deployments: map<Key, Deployment>, k: Key, version: string): Reply {
    if k !in deployments then NotFound else if NeedsStamp(deployments, k, version) then Done else Unneeded
  }

  /** A server that answers. */
  function Serve(o: Objects, req: Request): Served {
    match req
    case GetAgent(k) => Served(o, if k in o.agents then TheAgent(o.agents[k]) else NotFound, [])
    case UpdateStatus(k, m) => Served(o.(agents := StatusSet(o.agents, k, m)), FoundReply(o.agents, k), [])
    case CreateAccount(k, x) => Served(o.(accounts := Inserted(o.accounts, k, x)), InsertReply(o.accounts, k), [])
    case CreateBinding(n, x) => Served(o.(bindings := Inserted(o.bindings, n, x)), InsertReply(o.bindings, n), [])
    case GetBinding(n) => Served(o, if n in o.bindings then TheBinding(o.bindings[n]) else NotFound, [])
    case DeleteBinding(n) => Served(o.(bindings := Removed(o.bindings, n)), FoundReply(o.bindings, n), [])
    case CreateClaim(k, x) => Served(o.(claims := Inserted(o.claims, k, x)), InsertReply(o.claims, k), [])
    case DeleteClaim(k) => Served(o.(claims := Removed(o.claims, k)), FoundReply(o.claims, k), [])
    case CreateDeployment(k, x, generation) =>
      Served(o.(deployments := Inserted(o.deployments, k, x)), InsertReply(o.deployments, k),
             if k in o.deployments then [] else [DeploymentCreated(k, generation)])
    case GetDeployment(k) =>
      Served(o, if k in o.deployments then TheDeployment(o.deployments[k]) else NotFound, [])
    case DeleteDeployment(k) =>
      Served(o.(deployments := Removed(o.deployments, k)), FoundReply(o.deployments, k), [])
    case StampDeployment(k, version) =>
      Served(o.(deployments := StampSet(o.deployments, k, version)), StampReply(o.deployments, k, version),
             if NeedsStamp(o.deployments, k, version) then [DeploymentStamped(k)] else [])
    case CreateService(k, x) => Served(o.(services := Inserted(o.services, k, x)), InsertReply(o.services, k), [])
    case GetSecret(k) => Served(o, if k in o.secrets then TheSecret(o.secrets[k]) else NotFound, [])
  }

  /** A request may be refused, or carried out with its answer lost. A worker that stops for
      good is one whose later requests are all refused. */
  datatype Fault = NoFault | Refused(message: string) | AnswerLost(message: string)

  function Respond(o: Objects, req: Request, fault: Fault): Served {
    match fault
    case NoFault => Serve(o, req)
    case Refused(message) => Served(o, Unavailable(message), [])
    case AnswerLost(message) => Serve(o, req).(reply := Unavailable(message))
  }

  /** Changes by everybody else. Nobody else writes Agent status or the pod template. */
  datatype Outside =
    | SpecEdit(key: Key, spec: AgentSpec)
    | AgentDeletion(key: Key)
    | SecretWrite(key: Key, secret: Secret)
    | SecretDeletion(key: Key)
    | AccountDeletion(key: Key)
    | BindingDeletion(name: string)
    | ClaimDeletion(key: Key)
    | DeploymentDeletion(key: Key)
    | ReadyChange(key: Key, readyReplicas: nat)

  /** The Agents whose resolved credentials Secret is `key`. */
  function UsersOf(o: Objects, key: Key): set<Key> {
    set k | k in o.agents && SecretKey(k, o.agents[k].Spec()) == key
  }

  function Changed(o: Objects, x: Outside): Objects {
    match x
    case SpecEdit(k, spec) => if k in o.agents then o.(agents := o.agents[k := o.agents[k].Edited(spec)]) else o
    case AgentDeletion(k) => if k in o.agents then o.(agents := o.agents[k := o.agents[k].(deleting := true)]) else o
    case SecretWrite(k, s) => o.(secrets := o.secrets[k := s])
    case SecretDeletion(k) => o.(secrets := o.secrets - {k})
    case AccountDeletion(k) => o.(accounts := o.accounts - {k})
    case BindingDeletion(n) => o.(bindings := o.bindings - {n})
    case ClaimDeletion(k) => o.(claims := o.claims - {k})
    case DeploymentDeletion(k) => o.(deployments := o.deployments - {k})
    case ReadyChange(k, n) =>
      if k in o.deployments then o.(deployments := o.deployments[k := o.deployments[k].(readyReplicas := n)]) else o
  }

  function EffectsOf(o: Objects, x: Outside): seq<Effect> {
    if x.SecretWrite? then [SecretChanged(x.key, UsersOf(o, x.key))] else []
  }
}
