/** The Agent custom resource: its spec, its status, and the object keys of the cluster. */
module AgentTypes {
  import opened Wrappers

  /** A point in time; only its identity matters here. */
  type Time = nat

  /** Namespace and name of a namespaced object. */
  datatype Key = Key(namespace: string, name: string)

  datatype HistorySpec = HistorySpec(enabled: bool, size: string, storageClassName: Option<string>)

  /** `unread` stands for the task and config fields, which the operator never reads
      although editing them moves the generation like any other spec edit. */
  datatype AgentSpec = AgentSpec(
    image: string,
    credentialsSecret: Option<string>,
    writeEnabled: bool,
    history: Option<HistorySpec>,
    unread: string)
  {
    predicate HistoryOn() {
      history.Some? && history.value.enabled
    }
  }

  datatype Phase = Unset | Pending | Running | Ready | Failed

  datatype Condition = Condition(kind: string, status: string, at: Time, reason: string, message: string)

  /** An empty string is an unset reference. */
  datatype AgentStatus = AgentStatus(
    phase: Phase,
    observedGeneration: nat,
    conditions: seq<Condition>,
    deploymentRef: string,
    serviceRef: string,
    readyReplicas: nat,
    startedAt: Option<Time>)

  const NEW_STATUS := AgentStatus(Unset, 0, [], "", "", 0, None)

  /** Every spec an Agent has had, oldest first. */
  type Revisions = r: seq<AgentSpec> | |r| > 0 witness [AgentSpec("", None, false, None, "")]

  /** An Agent object. The API server keeps only the newest revision and counts the rest as
      the generation; the model keeps them all, so that a status can be compared with the
      spec its observed generation stands for. */
  datatype Agent = Agent(key: Key, revisions: Revisions, deleting: bool, status: AgentStatus)
  {
    function Generation(): nat {
      |revisions|
    }

    function Spec(): AgentSpec {
      revisions[|revisions| - 1]
    }

    /** The API server moves the generation only when the spec really differs. */
    function Edited(spec: AgentSpec): Agent {
      if spec == Spec() then this else this.(revisions := revisions + [spec])
    }
  }
}
