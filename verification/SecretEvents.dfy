/** From Secret events to reconcile requests (predicates.go, secretToAgents). */
module SecretEvents {
  import opened Selections
  import opened Wrappers
  import opened AgentTypes
  import opened Builder
  import opened Cluster
  import opened Reconcile
  import opened Snapshot
  import opened Rollouts
  import opened Convergence

  type Bytes = seq<bv8>

  /** One version of a Secret as an event carries it. `stringData` is a write-only field that
      the API server never returns. */
  datatype SecretVersion = SecretVersion(
    key: Key, version: string, data: map<string, Bytes>, stringData: map<string, string>)

  /** An event's object: none, a Secret, or something else. */
  datatype EventObject = Missing | SecretObject(secret: SecretVersion) | OtherObject

  /** A Go map lookup: the zero value for a missing key. */
  function OrEmpty(m: map<string, string>, k: string): string {
    if k in m then m[k] else ""
  }

  /** Visits the keys in any order and stops at the first difference. */
  method EqualByteMap(a: map<string, Bytes>, b: map<string, Bytes>) returns (r: bool)
    ensures r <==> a == b
  {
    if |a| != |b| { return false; }
    var left := a.Keys;
    while left != {}
      invariant left <= a.Keys
      invariant forall k :: k in a && k !in left ==> k in b && a[k] == b[k]
      decreases left
    {
      var k :| k in left;
      if k !in b { return false; }
      if a[k] != b[k] { return false; }
      left := left - {k};
    }
    SubmapOfSameSize(a, b);
    return true;
  }

  lemma SubmapOfSameSize<K, V>(a: map<K, V>, b: map<K, V>)
    requires |a| == |b| && forall k :: k in a ==> k in b && a[k] == b[k]
    ensures a == b
  {
    assert a.Keys <= b.Keys;
    if a.Keys != b.Keys {
      var k :| k in b.Keys && k !in a.Keys;
      SubsetCardinality(a.Keys, b.Keys - {k});
    }
  }

  lemma SubsetCardinality<T>(s: set<T>, t: set<T>)
    requires s <= t
    ensures |s| <= |t|
  {
    assert t == s + (t - s);
  }

  method EqualStringMap(a: map<string, string>, b: map<string, string>) returns (r: bool)
    ensures r <==> LooksEqual(a, b)
  {
    if |a| != |b| { return false; }
    var left := a.Keys;
    while left != {}
      invariant left <= a.Keys
      invariant forall k :: k in a && k !in left ==> OrEmpty(b, k) == a[k]
      decreases left
    {
      var k :| k in left;
      if OrEmpty(b, k) != a[k] { return false; }
      left := left - {k};
    }
    return true;
  }

  /** What the string comparison really compares. */
  predicate LooksEqual(a: map<string, string>, b: map<string, string>) {
    |a| == |b| && forall k :: k in a ==> OrEmpty(b, k) == a[k]
  }

  /** The same number of keys, the same non-empty values, and yet an empty value of `a` under a
      key that `b` does not have. */
  predicate Confusable(a: map<string, string>, b: map<string, string>) {
    && |a| == |b|
    && (forall k :: k in a && k in b ==> a[k] == b[k])
    && (forall k :: k in a && k !in b ==> a[k] == "")
    && (exists k :: k in a && k !in b)
  }

  /** The string comparison is map equality exactly on the maps that are not so; in particular
      whenever `a` has no empty values. */
  lemma LooksEqualIffEqual(a: map<string, string>, b: map<string, string>)
    ensures (LooksEqual(a, b) <==> a == b) <==> !Confusable(a, b)
    ensures "" !in a.Values ==> (LooksEqual(a, b) <==> a == b)
  {
    if LooksEqual(a, b) && !Confusable(a, b) {
      forall k | k in a ensures k in b && a[k] == b[k] {
        assert OrEmpty(b, k) == a[k];
      }
      SubmapOfSameSize(a, b);
    }
    if "" !in a.Values {
      forall k | k in a ensures a[k] != "" { assert a[k] in a.Values; }
    }
  }

  /** A key with an empty value passes for a key that is not there. */
  lemma EmptyValuesLookMissing()
    ensures var a, b := map["token" := ""], map["key" := "v"]; LooksEqual(a, b) && a != b && Confusable(a, b)
  {
    var a, b := map["token" := ""], map["key" := "v"];
    assert |a| == 1 && |b| == 1;
    assert "token" in a && "token" !in b;
  }

  // ---------------------------------------------------------------- the filter

  /** An update fires when both versions are Secrets, the resourceVersion moved, and the data
      differ, or the write-only strings look different. */
  predicate Fires(before: EventObject, after: EventObject) {
    && before.SecretObject? && after.SecretObject? && before.secret.version != after.secret.version
    && (before.secret.data != after.secret.data ||
        !LooksEqual(before.secret.stringData, after.secret.stringData))
  }

  method OnUpdate(before: EventObject, after: EventObject) returns (fire: bool)
    ensures fire <==> Fires(before, after)
  {
    if before.Missing? || after.Missing? { return false; }
    if !before.SecretObject? || !after.SecretObject? { return false; }
    var o, n := before.secret, after.secret;
    if o.version == n.version { return false; }
    var sameData := EqualByteMap(o.data, n.data);
    if !sameData { return true; }
    var sameStrings := EqualStringMap(o.stringData, n.stringData);
    return !sameStrings;
  }

  /** What the API server shows of a stored Secret. */
  function Shown(key: Key, s: Secret): EventObject {
    SecretObject(SecretVersion(key, s.version, s.data, map[]))
  }

  /** Of two stored versions of a Secret the filter reports exactly those that differ in
      resourceVersion and in data; and it never mistakes another object for a Secret. */
  lemma FiresIffDataMoves(key: Key, before: Secret, after: Secret)
    ensures Fires(Shown(key, before), Shown(key, after)) <==>
            before.version != after.version && before.data != after.data
    ensures !Fires(OtherObject, Shown(key, after)) && !Fires(Shown(key, before), OtherObject)
    ensures !Fires(Missing, Shown(key, after)) && !Fires(Shown(key, before), Missing)
  {
    assert LooksEqual(map[], map[]);
  }

  /** An update that brings no new data is not reported, and rolls the pods all the same: the
      next pass over a settled Agent compares resourceVersions. */
  lemma QuietUpdateStillRolls(o: Objects, k: Key, n: nat, update: Secret, now: Time)
    requires Settled(o, k, n) && SecretOf(o, o.agents[k]).Some?
    requires update.data == SecretOf(o, o.agents[k]).value.data
    requires update.version != SecretOf(o, o.agents[k]).value.version
    ensures var key := SecretKey(k, o.agents[k].Spec());
            var o' := Changed(o, SecretWrite(key, update));
            var (p, pc) := Settle(o', Fetching(k), now);
            && !Fires(Shown(key, SecretOf(o, o.agents[k]).value), Shown(key, update))
            && DeploymentOf(p, k) == Some(DeploymentOf(o, k).value.Stamped(update.version))
            && pc == Ended(RequeueAfter(REQUEUE_AFTER_CREDENTIAL_ROLL))
  {
    hide Settle, Build, DeploymentName, Derived, RequestOf, Next, Serve;
    var a, d := o.agents[k], DeploymentOf(o, k).value;
    var o' := Changed(o, SecretWrite(SecretKey(k, a.Spec()), update));
    SettlePass(o', k, now);
    var prepared := WithClaim(WithBindings(o', a), a);
    assert prepared.agents == o.agents && prepared.deployments == o.deployments && prepared.secrets == o'.secrets;
    assert AfterClaim(a) == Observing(a) by { NamesInjective(k, k); }
    SettleObserve(prepared, a, now);
  }

  // ---------------------------------------------------------------- the mapper

  /** The Agents of a list that use a Secret, in list order. */
  function Using(agents: seq<Agent>, secret: Key): seq<Key> {
    if agents == [] then []
    else
      var rest := Using(agents[..|agents| - 1], secret);
      var a := agents[|agents| - 1];
      if a.key.namespace == secret.namespace && SecretKey(a.key, a.Spec()) == secret then rest + [a.key] else rest
  }

  /** The listing: the Agents of a namespace. */
  function InNamespace(agents: seq<Agent>, namespace: string): seq<Agent> {
    if agents == [] then []
    else
      var rest := InNamespace(agents[..|agents| - 1], namespace);
      var a := agents[|agents| - 1];
      if a.key.namespace == namespace then rest + [a] else rest
  }

  /** A listing that fails enqueues nothing. */
  method SecretToAgents(obj: EventObject, agents: seq<Agent>, listFails: bool) returns (reqs: seq<Key>)
    ensures reqs == if obj.SecretObject? && !listFails then Using(agents, obj.secret.key) else []
  {
    reqs := [];
    if !obj.SecretObject? || listFails { return; }
    var secret := obj.secret.key;
    var items := InNamespace(agents, secret.namespace);
    for i := 0 to |items|
      invariant reqs == Using(items[..i], secret)
    {
      var a := items[i];
      assert items[..i + 1][..i] == items[..i];
      if CredentialsSecretFor(a.Spec(), DEFAULT_CREDENTIALS_SECRET) != secret.name {
        ListedInNamespace(agents, secret.namespace);
        continue;
      }
      ListedInNamespace(agents, secret.namespace);
      reqs := reqs + [a.key];
    }
    assert items[..|items|] == items;
    UsingListed(agents, secret);
  }

  lemma {:induction false} ListedInNamespace(agents: seq<Agent>, namespace: string)
    ensures forall a :: a in InNamespace(agents, namespace) ==> a in agents && a.key.namespace == namespace
  {
    if agents != [] { ListedInNamespace(agents[..|agents| - 1], namespace); }
  }

  lemma {:induction false} UsingListed(agents: seq<Agent>, secret: Key)
    ensures Using(InNamespace(agents, secret.namespace), secret) == Using(agents, secret)
  {
    if agents != [] {
      var before, a := agents[..|agents| - 1], agents[|agents| - 1];
      UsingListed(before, secret);
      var listed := InNamespace(before, secret.namespace);
      if a.key.namespace == secret.namespace {
        assert (listed + [a])[..|listed|] == listed;
      }
    }
  }

  function Uses(secret: Key): Agent -> bool {
    (a: Agent) => a.key.namespace == secret.namespace && SecretKey(a.key, a.Spec()).name == secret.name
  }

  function KeyOf(a: Agent): Key {
    a.key
  }

  /** Exactly the Agents of the namespace whose Secret has that name, in list order. */
  lemma {:induction false} UsingIsSelection(agents: seq<Agent>, secret: Key)
    ensures Selection(agents, Uses(secret), KeyOf, Using(agents, secret))
  {
    hide Selection;
    if agents == [] {
      NoSelection(Uses(secret), KeyOf);
    } else {
      var before, a := agents[..|agents| - 1], agents[|agents| - 1];
      UsingIsSelection(before, secret);
      SelectionMore(before, a, Uses(secret), KeyOf, Using(before, secret));
      assert Using(agents, secret) == Using(before, secret) + if Uses(secret)(a) then [KeyOf(a)] else [];
      assert before + [a] == agents;
    }
  }

  ghost predicate DistinctKeys(agents: seq<Agent>) {
    forall i, j :: 0 <= i < j < |agents| ==> agents[i].key != agents[j].key
  }

  lemma {:induction false} UsingMembers(agents: seq<Agent>, secret: Key)
    ensures forall k :: k in Using(agents, secret) <==>
                        exists a :: a in agents && a.key == k && SecretKey(a.key, a.Spec()) == secret
  {
    if agents != [] {
      var before, last := agents[..|agents| - 1], agents[|agents| - 1];
      UsingMembers(before, secret);
      assert agents == before + [last];
      assert last in agents;
    }
  }

  ghost predicate NoRepeats(ks: seq<Key>) {
    forall i, j :: 0 <= i < j < |ks| ==> ks[i] != ks[j]
  }

  lemma {:induction false} UsingDistinct(agents: seq<Agent>, secret: Key)
    requires DistinctKeys(agents)
    ensures NoRepeats(Using(agents, secret))
  {
    if agents != [] {
      var before, last := agents[..|agents| - 1], agents[|agents| - 1];
      UsingDistinct(before, secret);
      UsingMembers(before, secret);
      assert last.key !in Using(before, secret);
    }
  }

  /** Routing is exact: for a list of all Agents of the cluster, the mapper enqueues, once each,
      exactly the Agents whose next pass looks at that Secret. */
  lemma RoutingIsExact(o: Objects, agents: seq<Agent>, secret: Key)
    requires DistinctKeys(agents)
    requires forall a :: a in agents <==> a.key in o.agents && o.agents[a.key] == a
    requires forall k :: k in o.agents ==> o.agents[k].key == k
    ensures var ks := Using(agents, secret);
            && NoRepeats(ks)
            && (forall k :: k in ks <==> k in UsersOf(o, secret))
  {
    UsingMembers(agents, secret);
    UsingDistinct(agents, secret);
    forall k | k in UsersOf(o, secret) ensures k in Using(agents, secret) {
      assert o.agents[k] in agents;
    }
  }
}
