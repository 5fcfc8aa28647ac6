/** Names and contents of the objects derived from an Agent (builder.go). */
module Builder {
  import opened Wrappers
  import opened AgentTypes

  const CREDENTIALS_VERSION_ANNOTATION := "agent.demo.io/credentials-version"
  const ROLE_ANNOTATION_KEY := "agent.demo.io/role"
  const AGENT_LABEL_KEY := "agent.demo.io/agent"
  const COMPONENT_LABEL_KEY := "agent.demo.io/component"
  const COMPONENT_VALUE := "runtime"
  const CONTAINER_NAME := "agent"
  const PORT: int := 8080
  const HISTORY_MOUNT_PATH := "/var/lib/agent-runtime/history"
  const HISTORY_VOLUME_NAME := "history"
  const RUNTIME_HISTORY_DIR_ENV_VAR := "RUNTIME_HISTORY_DIR"
  const DEFAULT_HISTORY_SIZE := "1Gi"
  const READ_BINDING_SUFFIX := "read"
  const WRITE_BINDING_SUFFIX := "write"
  const READ_CLUSTER_ROLE := "agent-runtime"
  const WRITE_CLUSTER_ROLE := "agent-runtime-write"

  /** The operator-wide default set in main.go. */
  const DEFAULT_CREDENTIALS_SECRET := "minimax-credentials"

  type Labels = map<string, string>

  datatype EnvVar = EnvVar(name: string, value: string)
  datatype VolumeMount = VolumeMount(name: string, mountPath: string)
  datatype Volume = Volume(name: string, claimName: string)
  datatype Container = Container(
    name: string, image: string, envFrom: seq<string>, env: seq<EnvVar>, mounts: seq<VolumeMount>)
  datatype PodSpec = PodSpec(serviceAccount: string, containers: seq<Container>, volumes: seq<Volume>)
  datatype PodTemplate = PodTemplate(labels: Labels, annotations: map<string, string>, pod: PodSpec)
  datatype Deployment = Deployment(
    labels: Labels, replicas: int, selector: Labels, template: PodTemplate, owner: Key, readyReplicas: nat)
  {
    /** The credentials version stamped on the pod template, if any. */
    function Stamp(): Option<string> {
      Lookup(template.annotations, CREDENTIALS_VERSION_ANNOTATION)
    }

    function Stamped(version: string): Deployment {
      this.(template := template.(annotations := template.annotations[CREDENTIALS_VERSION_ANNOTATION := version]))
    }

    /** The Deployment without its credentials stamp and its observed readiness. */
    function Core(): Deployment {
      this.(template := template.(annotations := template.annotations - {CREDENTIALS_VERSION_ANNOTATION}),
      readyReplicas := 0)
    }
  }
  datatype Service = Service(labels: Labels, selector: Labels, port: int, owner: Key)
  datatype ServiceAccount = ServiceAccount(owner: Key)
  datatype RoleBinding = RoleBinding(
    labels: Labels, annotations: map<string, string>, clusterRole: string, subject: Key)
  datatype Claim = Claim(labels: Labels, size: string, storageClass: Option<string>, owner: Key)

  // ---------------------------------------------------------------- names

  function CredentialsSecretFor(spec: AgentSpec, defaultName: string): string {
    if spec.credentialsSecret.Some? && spec.credentialsSecret.value != "" then spec.credentialsSecret.value
    else defaultName
  }

  function AccountKey(k: Key): Key { Key(k.namespace, k.name + "-agent-runtime") }

  function ClaimKey(k: Key): Key { Key(k.namespace, k.name + "-history") }

  /** ClusterRoleBindings are cluster scoped: the namespace takes no part in the name. */
  function BindingName(k: Key, suffix: string): string { k.name + "-agent-runtime-" + suffix }

  function DeploymentName(k: Key): string { k.name + "-runtime" }

  function ServiceName(k: Key): string { k.name + "-runtime" }

  function DeploymentKey(k: Key): Key { Key(k.namespace, DeploymentName(k)) }

  function ServiceKey(k: Key): Key { Key(k.namespace, ServiceName(k)) }

  function SecretKey(k: Key, spec: AgentSpec): Key {
    Key(k.namespace, CredentialsSecretFor(spec, DEFAULT_CREDENTIALS_SECRET))
  }

  function ReadBinding(k: Key): string { BindingName(k, READ_BINDING_SUFFIX) }

  function WriteBinding(k: Key): string { BindingName(k, WRITE_BINDING_SUFFIX) }

  lemma SuffixInjective(a: string, b: string, suffix: string)
    ensures a + suffix == b + suffix <==> a == b
  {
    if a + suffix == b + suffix {
      assert |a| == |b|;
      assert a == (a + suffix)[..|a|] == (b + suffix)[..|b|] == b;
    }
  }

  /** A read binding is never a write binding, whatever Agents they belong to: the
      names end in different letters. */
  lemma ReadIsNotWrite(j: Key, k: Key)
    ensures ReadBinding(j) != WriteBinding(k)
  {
    var r, w := ReadBinding(j), WriteBinding(k);
    assert r[|r| - 1] == 'd' && w[|w| - 1] == 'e';
  }

  /** Every name function is injective. Namespaced keys tell any two Agents apart;
      binding names tell two Agents apart exactly when their names differ. */
  lemma NamesInjective(j: Key, k: Key)
    ensures DeploymentKey(j) == DeploymentKey(k) <==> j == k
    ensures ServiceKey(j) == ServiceKey(k) <==> j == k
    ensures AccountKey(j) == AccountKey(k) <==> j == k
    ensures ClaimKey(j) == ClaimKey(k) <==> j == k
    ensures ReadBinding(j) == ReadBinding(k) <==> j.name == k.name
    ensures WriteBinding(j) == WriteBinding(k) <==> j.name == k.name
    ensures DeploymentName(j) != ""
  {
    SuffixInjective(j.name, k.name, "-runtime");
    SuffixInjective(j.name, k.name, "-agent-runtime");
    SuffixInjective(j.name, k.name, "-history");
    SuffixInjective(j.name, k.name, "-agent-runtime-" + READ_BINDING_SUFFIX);
    SuffixInjective(j.name, k.name, "-agent-runtime-" + WRITE_BINDING_SUFFIX);
    assert forall n: string :: (n + "-agent-runtime-") + "read" == n + ("-agent-runtime-" + "read");
    assert forall n: string :: (n + "-agent-runtime-") + "write" == n + ("-agent-runtime-" + "write");
    assert |DeploymentName(j)| >= 8;
  }

  // ---------------------------------------------------------------- objects

  function LabelsFor(k: Key): Labels {
    map[AGENT_LABEL_KEY := k.name, COMPONENT_LABEL_KEY := COMPONENT_VALUE]
  }

  function EnvFromSecret(name: string): seq<string> {
    if name == "" then [] else [name]
  }

  function BuildContainer(spec: AgentSpec, credentialsSecret: string): Container {
    Container(CONTAINER_NAME, spec.image, EnvFromSecret(credentialsSecret), [], [])
  }

  function WiredContainer(c: Container): Container {
    if c.name != CONTAINER_NAME then c
    else c.(env := c.env + [EnvVar(RUNTIME_HISTORY_DIR_ENV_VAR, HISTORY_MOUNT_PATH)],
    mounts := c.mounts + [VolumeMount(HISTORY_VOLUME_NAME, HISTORY_MOUNT_PATH)])
  }

  function Wired(k: Key, pod: PodSpec): PodSpec {
    pod.(containers := seq(|pod.containers|, i requires 0 <= i < |pod.containers| => WiredContainer(pod.containers[i])),
    volumes := pod.volumes + [Volume(HISTORY_VOLUME_NAME, ClaimKey(k).name)])
  }

  function BuildPod(k: Key, spec: AgentSpec): PodSpec {
    var pod := PodSpec(AccountKey(k).name,
                       [BuildContainer(spec, CredentialsSecretFor(spec, DEFAULT_CREDENTIALS_SECRET))], []);
    if spec.HistoryOn() then Wired(k, pod) else pod
  }

  /** The Deployment the operator wants for a spec; it carries no credentials stamp. */
  function Build(k: Key, spec: AgentSpec): Deployment {
    Deployment(LabelsFor(k), 1, LabelsFor(k), PodTemplate(LabelsFor(k), map[], BuildPod(k, spec)), k, 0)
  }

  function BuildService(k: Key): Service {
    Service(LabelsFor(k), LabelsFor(k), PORT, k)
  }

  function BuildBinding(k: Key, role: string): RoleBinding {
    RoleBinding(LabelsFor(k), map[ROLE_ANNOTATION_KEY := role], role, AccountKey(k))
  }

  function BuildClaim(k: Key, spec: AgentSpec): Claim {
    var size := if spec.history.Some? && spec.history.value.size != "" then spec.history.value.size
                else DEFAULT_HISTORY_SIZE;
    var sc := if spec.history.Some? && spec.history.value.storageClassName.Some?
              then spec.history.value.storageClassName.value else "";
    Claim(LabelsFor(k), size, if sc != "" then Some(sc) else None, k)
  }

  // ---------------------------------------------------------------- applyHistory

  predicate HasHistoryEnv(d: Deployment) {
    exists c, e :: c in d.template.pod.containers && e in c.env && e.name == RUNTIME_HISTORY_DIR_ENV_VAR
  }

  predicate HasHistoryMount(d: Deployment) {
    exists c, m :: c in d.template.pod.containers && m in c.mounts && m.name == HISTORY_VOLUME_NAME
  }

  /** Names of the claims a Deployment mounts. */
  function MountedClaims(d: Deployment): set<string> {
    set v | v in d.template.pod.volumes :: v.claimName
  }

  /** Wires the history claim into a pod, container by container. */
  method ApplyHistory(k: Key, pod: PodSpec) returns (wired: PodSpec)
    ensures wired == Wired(k, pod)
  {
    var containers := pod.containers;
    for i := 0 to |pod.containers|
      invariant |containers| == |pod.containers|
      invariant forall j :: 0 <= j < i ==> containers[j] == WiredContainer(pod.containers[j])
      invariant forall j :: i <= j < |containers| ==> containers[j] == pod.containers[j]
    {
      if containers[i].name != CONTAINER_NAME { continue; }
      containers := containers[i := containers[i].(
        env := containers[i].env + [EnvVar(RUNTIME_HISTORY_DIR_ENV_VAR, HISTORY_MOUNT_PATH)],
        mounts := containers[i].mounts + [VolumeMount(HISTORY_VOLUME_NAME, HISTORY_MOUNT_PATH)])];
    }
    wired := pod.(containers := containers,
    volumes := pod.volumes + [Volume(HISTORY_VOLUME_NAME, ClaimKey(k).name)]);
    assert wired.containers == Wired(k, pod).containers;
  }

  method BuildDeployment(k: Key, spec: AgentSpec) returns (d: Deployment)
    ensures d == Build(k, spec)
  {
    var credName := CredentialsSecretFor(spec, DEFAULT_CREDENTIALS_SECRET);
    var pod := PodSpec(AccountKey(k).name, [BuildContainer(spec, credName)], []);
    if spec.HistoryOn() {
      pod := ApplyHistory(k, pod);
    }
    d := Deployment(LabelsFor(k), 1, LabelsFor(k), PodTemplate(LabelsFor(k), map[], pod), k, 0);
  }

  /** The environment variable, the mount and the claim come together or not at all,
      in every Deployment that is the builder's output up to stamp and readiness. */
  lemma HistoryWiring(k: Key, spec: AgentSpec, d: Deployment)
    requires d.Core() == Build(k, spec)
    ensures HasHistoryEnv(d) == HasHistoryMount(d) == spec.HistoryOn()
    ensures MountedClaims(d) == if spec.HistoryOn() then {ClaimKey(k).name} else {}
  {
    var pod := d.template.pod;
    assert pod == d.Core().template.pod == BuildPod(k, spec);
    assert |pod.containers| == 1;
    var c := pod.containers[0];
    if spec.HistoryOn() {
      assert c in pod.containers && c.env[0] in c.env && c.mounts[0] in c.mounts;
      assert pod.volumes == [Volume(HISTORY_VOLUME_NAME, ClaimKey(k).name)];
      assert pod.volumes[0] in pod.volumes;
    } else {
      assert c.env == [] && c.mounts == [] && pod.volumes == [];
    }
  }

  // ---------------------------------------------------------------- what is built

  /** The Secret an Agent uses: the one its spec names, and the operator's default if it names
      none. */
  lemma SecretOfSpec(k: Key, spec: AgentSpec)
    ensures SecretKey(k, spec) ==
            Key(k.namespace,
                match spec.credentialsSecret
                case Some(name) => if name == "" then "minimax-credentials" else name
                case None => "minimax-credentials")
  {
  }

  /** The names of the objects, spelled out. */
  lemma NamesSpelled(k: Key)
    ensures DeploymentKey(k) == ServiceKey(k) == Key(k.namespace, k.name + "-runtime")
    ensures AccountKey(k) == Key(k.namespace, k.name + "-agent-runtime")
    ensures ClaimKey(k) == Key(k.namespace, k.name + "-history")
    ensures ReadBinding(k) == k.name + "-agent-runtime-read"
    ensures WriteBinding(k) == k.name + "-agent-runtime-write"
  {
    assert "-agent-runtime-" + "read" == "-agent-runtime-read" && "-agent-runtime-" + "write" == "-agent-runtime-write";
    assert (k.name + "-agent-runtime-") + "read" == k.name + ("-agent-runtime-" + "read");
    assert (k.name + "-agent-runtime-") + "write" == k.name + ("-agent-runtime-" + "write");
  }

  function StandardLabels(k: Key): Labels {
    map["agent.demo.io/agent" := k.name, "agent.demo.io/component" := "runtime"]
  }

  /** A Deployment runs one replica of a spec's image, as the Agent's account, with the
      environment of exactly the Secret the spec resolves to, and selects its own pods. With
      history on it mounts the Agent's claim where the runtime is told to look. */
  predicate RunsSpec(k: Key, spec: AgentSpec, d: Deployment) {
    && d.replicas == 1 && d.owner == k && d.selector == d.template.labels
    && d.selector == StandardLabels(k) && d.labels == StandardLabels(k)
    && d.template.pod.serviceAccount == k.name + "-agent-runtime"
    && |d.template.pod.containers| == 1
    && (var c := d.template.pod.containers[0];
        && c.name == "agent" && c.image == spec.image && c.envFrom == [SecretKey(k, spec).name]
        && (var path := "/var/lib/agent-runtime/history";
            if spec.HistoryOn() then
              && c.env == [EnvVar("RUNTIME_HISTORY_DIR", path)] && c.mounts == [VolumeMount("history", path)]
              && d.template.pod.volumes == [Volume("history", k.name + "-history")]
            else c.env == [] && c.mounts == [] && d.template.pod.volumes == []))
  }

  lemma BuiltRunsSpec(k: Key, spec: AgentSpec, d: Deployment)
    requires d.Core() == Build(k, spec)
    ensures RunsSpec(k, spec, d)
  {
    var pod := d.template.pod;
    assert pod == d.Core().template.pod == BuildPod(k, spec);
    assert d.selector == d.Core().selector && d.labels == d.Core().labels;
    assert d.template.labels == d.Core().template.labels;
    assert SecretKey(k, spec).name != "";
  }

  /** What the builder takes from a spec: its image, the Secret it resolves to, and whether history
      is on; nothing less, and nothing more. */
  lemma BuildIff(k: Key, a: AgentSpec, b: AgentSpec)
    ensures Build(k, a) == Build(k, b) <==>
            a.image == b.image && SecretKey(k, a) == SecretKey(k, b) && a.HistoryOn() == b.HistoryOn()
  {
    if Build(k, a) == Build(k, b) {
      CoreOfBuild(k, a);
      BuiltRunsSpec(k, a, Build(k, a));
      BuiltRunsSpec(k, b, Build(k, a)) by { CoreOfBuild(k, b); }
      HistoryWiring(k, a, Build(k, a));
      HistoryWiring(k, b, Build(k, a)) by { CoreOfBuild(k, b); }
    }
  }

  lemma CoreOfBuild(k: Key, spec: AgentSpec)
    ensures Build(k, spec).Core() == Build(k, spec)
  {
    assert Build(k, spec).template.annotations - {CREDENTIALS_VERSION_ANNOTATION} == map[];
  }

  /** A binding that gives the account of an Agent a cluster role. */
  predicate Grants(b: RoleBinding, role: string, k: Key) {
    && b.clusterRole == role && b.subject == Key(k.namespace, k.name + "-agent-runtime")
    && b.annotations == map["agent.demo.io/role" := role] && b.labels == StandardLabels(k)
  }

  /** A claim of the size and class a spec asks for, or of the defaults. */
  predicate ClaimsFor(c: Claim, k: Key, spec: AgentSpec) {
    && c.owner == k && c.labels == StandardLabels(k)
    && (match spec.history
        case None => c.size == "1Gi" && c.storageClass == None
        case Some(h) =>
          && c.size == (if h.size == "" then "1Gi" else h.size)
          && c.storageClass == (if h.storageClassName == Some("") then None else h.storageClassName))
  }

  /** A Service in front of the pods of a Deployment. */
  predicate Fronts(svc: Service, d: Deployment) {
    svc.selector == d.template.labels && svc.port == 8080
  }

  lemma OthersBuilt(k: Key, spec: AgentSpec)
    ensures Grants(BuildBinding(k, READ_CLUSTER_ROLE), "agent-runtime", k)
    ensures Grants(BuildBinding(k, WRITE_CLUSTER_ROLE), "agent-runtime-write", k)
    ensures ClaimsFor(BuildClaim(k, spec), k, spec)
    ensures BuildService(k).owner == k && BuildService(k).labels == StandardLabels(k)
    ensures forall d :: RunsSpec(k, spec, d) ==> Fronts(BuildService(k), d)
  {
  }
}
