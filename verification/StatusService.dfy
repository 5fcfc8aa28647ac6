/** The status writes of status_service.go, and what a whole log of them amounts to. */
module StatusService {
  import opened Wrappers
  import opened AgentTypes
  import opened Builder

  /** A status write with the time taken when it was asked for. */
  datatype Mutation =
    | MarkPending(pendingReason: string, now: Time)
    | MarkRunning(depName: string, now: Time)
    | MarkReady(replicas: nat, now: Time)
    | MarkFailed(failure: string, now: Time)
    | ResetForRerun

  function Decimal(n: nat): string {
    if n < 10 then ["0123456789"[n]] else Decimal(n / 10) + ["0123456789"[n % 10]]
  }

  /** The list with `c` in place of the first entry of its kind, or appended. */
  function Upsert(conditions: seq<Condition>, c: Condition): seq<Condition> {
    if conditions == [] then [c]
    else if conditions[0].kind == c.kind then [c] + conditions[1..]
    else [conditions[0]] + Upsert(conditions[1..], c)
  }

  lemma {:induction false} UpsertAt(conditions: seq<Condition>, c: Condition, i: nat)
    requires i < |conditions| && conditions[i].kind == c.kind
    requires forall j :: 0 <= j < i ==> conditions[j].kind != c.kind
    ensures Upsert(conditions, c) == conditions[i := c]
  {
    if i > 0 {
      UpsertAt(conditions[1..], c, i - 1);
      assert conditions == [conditions[0]] + conditions[1..];
    } else {
      assert conditions[0 := c] == [c] + conditions[1..];
    }
  }

  lemma {:induction false} UpsertNew(conditions: seq<Condition>, c: Condition)
    requires forall j :: 0 <= j < |conditions| ==> conditions[j].kind != c.kind
    ensures Upsert(conditions, c) == conditions + [c]
  {
    if conditions != [] {
      UpsertNew(conditions[1..], c);
      assert conditions + [c] == [conditions[0]] + (conditions[1..] + [c]);
    }
  }

  method AppendOrReplaceCondition(conditions: seq<Condition>, c: Condition) returns (r: seq<Condition>)
    ensures r == Upsert(conditions, c)
  {
    r := conditions;
    for i := 0 to |conditions|
      invariant r == conditions
      invariant forall j :: 0 <= j < i ==> conditions[j].kind != c.kind
    {
      if conditions[i].kind == c.kind {
        UpsertAt(conditions, c, i);
        r := r[i := c];
        return;
      }
    }
    UpsertNew(conditions, c);
    r := r + [c];
  }

  /** The condition a status write records, given the generation it finds. */
  function ConditionOf(m: Mutation, generation: nat): Option<Condition> {
    match m
    case MarkPending(reason, now) => Some(Condition("Pending", "True", now, "Pending", reason))
    case MarkRunning(depName, now) =>
      Some(Condition("Running", "True", now, "DeploymentCreated",
                     "created deployment " + depName + " for generation " + Decimal(generation)))
    case MarkReady(n, now) =>
      Some(Condition("Ready", "True", now, "DeploymentReady",
                     Decimal(n) + " pod(s) ready, chat server accepting requests"))
    case MarkFailed(reason, now) => Some(Condition("Failed", "True", now, "DeploymentFailed", reason))
    case ResetForRerun => None
  }

  function Recorded(conditions: seq<Condition>, m: Mutation, generation: nat): seq<Condition> {
    match ConditionOf(m, generation)
    case Some(c) => Upsert(conditions, c)
    case None => conditions
  }

  /** What a status write does to the status it finds. */
  function Mutated(k: Key, generation: nat, st: AgentStatus, m: Mutation): AgentStatus {
    var cs := Recorded(st.conditions, m, generation);
    match m
    case MarkPending(_, _) => st.(phase := Pending, observedGeneration := generation, conditions := cs)
    case MarkRunning(depName, _) =>
      st.(phase := Running, deploymentRef := depName, serviceRef := ServiceName(k),
      observedGeneration := generation, conditions := cs)
    case MarkReady(n, now) =>
      st.(phase := Ready, readyReplicas := n, observedGeneration := generation,
      startedAt := if st.startedAt.None? then Some(now) else st.startedAt, conditions := cs)
    case MarkFailed(_, _) => st.(phase := Failed, observedGeneration := generation, conditions := cs)
    case ResetForRerun =>
      st.(phase := Pending, deploymentRef := "", serviceRef := "", readyReplicas := 0,
      observedGeneration := 0, startedAt := None)
  }

  /** The closure a status write runs on the Agent it has just read, field by field. */
  method MutateInPlace(agent: Agent, m: Mutation) returns (r: Agent)
    ensures r == agent.(status := Mutated(agent.key, agent.Generation(), agent.status, m))
  {
    var st := agent.status;
    match m {
      case MarkPending(_, _) =>
        st := st.(phase := Pending);
        st := st.(observedGeneration := agent.Generation());
      case MarkRunning(depName, _) =>
        st := st.(phase := Running);
        st := st.(deploymentRef := depName);
        st := st.(serviceRef := ServiceName(agent.key));
        st := st.(observedGeneration := agent.Generation());
      case MarkReady(replicas, now) =>
        st := st.(phase := Ready);
        st := st.(readyReplicas := replicas);
        st := st.(observedGeneration := agent.Generation());
        if st.startedAt == None {
          st := st.(startedAt := Some(now));
        }
      case MarkFailed(_, _) =>
        st := st.(phase := Failed);
        st := st.(observedGeneration := agent.Generation());
      case ResetForRerun =>
        st := st.(phase := Pending);
        st := st.(deploymentRef := "");
        st := st.(serviceRef := "");
        st := st.(readyReplicas := 0);
        st := st.(observedGeneration := 0);
        st := st.(startedAt := None);
    }
    var c := ConditionOf(m, agent.Generation());
    if c.Some? {
      var cs := AppendOrReplaceCondition(st.conditions, c.value);
      st := st.(conditions := cs);
    }
    r := agent.(status := st);
  }

  // ---------------------------------------------------------------- logs of status writes

  /** A committed status write and the generation it found. */
  datatype StatusCommit = StatusCommit(mutation: Mutation, generation: nat)

  function StatusAfter(k: Key, st: AgentStatus, log: seq<StatusCommit>): AgentStatus {
    if log == [] then st
    else
      var last := log[|log| - 1];
      Mutated(k, last.generation, StatusAfter(k, st, log[..|log| - 1]), last.mutation)
  }

  /** Position just after the last reset. */
  function LastReset(log: seq<StatusCommit>): (i: nat)
    ensures i <= |log|
  {
    if log == [] then 0
    else if log[|log| - 1].mutation.ResetForRerun? then |log|
    else LastReset(log[..|log| - 1])
  }

  /** Time carried by the first ready mark of a log. */
  function FirstReady(log: seq<StatusCommit>): Option<Time> {
    if log == [] then None
    else if log[0].mutation.MarkReady? then Some(log[0].mutation.now)
    else FirstReady(log[1..])
  }

  lemma {:induction false} FirstReadyAppend(log: seq<StatusCommit>, c: StatusCommit)
    ensures FirstReady(log + [c]) ==
            if FirstReady(log).Some? then FirstReady(log)
            else if c.mutation.MarkReady? then Some(c.mutation.now) else None
  {
    if log != [] {
      FirstReadyAppend(log[1..], c);
      assert (log + [c])[1..] == log[1..] + [c];
    } else {
      assert (log + [c])[1..] == [];
    }
  }

  /** StartedAt over a whole log: it is set exactly when some ready mark was committed since
      the last reset, and then it is the time of the first of them. */
  lemma {:induction false} StartedAtIsFirstReady(k: Key, st: AgentStatus, log: seq<StatusCommit>)
    requires st.startedAt.None?
    ensures StatusAfter(k, st, log).startedAt == FirstReady(log[LastReset(log)..])
  {
    if log != [] {
      var before, last := log[..|log| - 1], log[|log| - 1];
      StartedAtIsFirstReady(k, st, before);
      if last.mutation.ResetForRerun? {
        assert log[|log|..] == [];
      } else {
        var i := LastReset(before);
        assert log[i..] == before[i..] + [last];
        FirstReadyAppend(before[i..], last);
      }
    }
  }

  // ---------------------------------------------------------------- conditions as an ordered map

  /** Conditions written by a log, in order. */
  function Written(log: seq<StatusCommit>): seq<Condition> {
    if log == [] then []
    else
      var last := log[|log| - 1];
      var c := ConditionOf(last.mutation, last.generation);
      Written(log[..|log| - 1]) + if c.Some? then [c.value] else []
  }

  function Upserts(log: seq<Condition>): seq<Condition> {
    if log == [] then [] else Upsert(Upserts(log[..|log| - 1]), log[|log| - 1])
  }

  /** The kinds of a log in order of first appearance. */
  function KindsInOrder(log: seq<Condition>): seq<string> {
    if log == [] then []
    else
      var ks := KindsInOrder(log[..|log| - 1]);
      if log[|log| - 1].kind in ks then ks else ks + [log[|log| - 1].kind]
  }

  /** The last entry of a kind. */
  function Latest(log: seq<Condition>, kind: string): Option<Condition> {
    if log == [] then None
    else if log[|log| - 1].kind == kind then Some(log[|log| - 1])
    else Latest(log[..|log| - 1], kind)
  }

  ghost predicate Distinct(ks: seq<string>) {
    forall i, j :: 0 <= i < j < |ks| ==> ks[i] != ks[j]
  }

  /** The list kept by replacement in place is an ordered map of the log: one entry a kind,
      the latest one, and kinds in order of first write. */
  lemma {:induction false} ConditionsAreAnOrderedMap(log: seq<Condition>)
    ensures var ks, cs := KindsInOrder(log), Upserts(log);
            && Distinct(ks) && |cs| == |ks|
            && (forall i :: 0 <= i < |cs| ==> cs[i].kind == ks[i] && Latest(log, ks[i]) == Some(cs[i]))
            && (forall kind :: Latest(log, kind).Some? <==> kind in ks)
  {
    if log != [] {
      var before, c := log[..|log| - 1], log[|log| - 1];
      ConditionsAreAnOrderedMap(before);
      var ks, cs := KindsInOrder(before), Upserts(before);
      if c.kind in ks {
        var i :| 0 <= i < |ks| && ks[i] == c.kind;
        UpsertAt(cs, c, i);
      } else {
        UpsertNew(cs, c);
      }
    }
  }

  /** The conditions of a status are the ordered map of everything its log wrote. */
  lemma {:induction false} ConditionsFollowTheLog(k: Key, st: AgentStatus, log: seq<StatusCommit>)
    requires st.conditions == []
    ensures StatusAfter(k, st, log).conditions == Upserts(Written(log))
  {
    if log != [] {
      var before, last := log[..|log| - 1], log[|log| - 1];
      ConditionsFollowTheLog(k, st, before);
      var c := ConditionOf(last.mutation, last.generation);
      if c.Some? {
        assert Written(log)[..|Written(log)| - 1] == Written(before);
      } else {
        assert Written(log) == Written(before);
      }
    }
  }

  // ---------------------------------------------------------------- what the conditions say

  /** The write that a kind of condition stands for; a reset stands for none. */
  predicate Writes(m: Mutation, kind: string) {
    || (m.MarkPending? && kind == "Pending")
    || (m.MarkRunning? && kind == "Running")
    || (m.MarkReady? && kind == "Ready")
    || (m.MarkFailed? && kind == "Failed")
  }

  function LastWrite(log: seq<StatusCommit>, kind: string): (r: Option<StatusCommit>)
    ensures r.Some? ==> Writes(r.value.mutation, kind) && r.value in log
  {
    if log == [] then None
    else if Writes(log[|log| - 1].mutation, kind) then Some(log[|log| - 1])
    else LastWrite(log[..|log| - 1], kind)
  }

  /** A condition that holds, since the time of a write, for the reason the write was given. */
  predicate Tells(c: Condition, w: StatusCommit) {
    && Writes(w.mutation, c.kind) && c.status == "True"
    && (match w.mutation
        case MarkPending(reason, now) => c.at == now && c.reason == "Pending" && c.message == reason
        case MarkRunning(name, now) =>
          c.at == now && c.reason == "DeploymentCreated" &&
          c.message == "created deployment " + name + " for generation " + Decimal(w.generation)
        case MarkReady(n, now) =>
          c.at == now && c.reason == "DeploymentReady" && Decimal(n) <= c.message
        case MarkFailed(failure, now) => c.at == now && c.reason == "DeploymentFailed" && c.message == failure
        case ResetForRerun => false)
  }

  lemma {:induction false} LatestIsLastWrite(log: seq<StatusCommit>, kind: string)
    ensures var c, w := Latest(Written(log), kind), LastWrite(log, kind);
            && (c.Some? <==> w.Some?)
            && (c.Some? ==> Tells(c.value, w.value))
  {
    if log != [] {
      var before, last := log[..|log| - 1], log[|log| - 1];
      LatestIsLastWrite(before, kind);
      var c := ConditionOf(last.mutation, last.generation);
      if c.Some? {
        assert Written(log)[..|Written(log)| - 1] == Written(before);
      } else {
        assert Written(log) == Written(before);
      }
    }
  }

  /** After any log from an empty list: there is a condition of a kind exactly if the status write
      of that kind is in the log, and it holds since the time, and for the reason, of the last
      such write. There are no other conditions, and no two of one kind. */
  lemma ConditionsTellTheLog(k: Key, st: AgentStatus, log: seq<StatusCommit>)
    requires st.conditions == []
    ensures var cs := StatusAfter(k, st, log).conditions;
            && (forall kind :: (exists i :: 0 <= i < |cs| && cs[i].kind == kind) <==> LastWrite(log, kind).Some?)
            && (forall i :: 0 <= i < |cs| ==>
                              LastWrite(log, cs[i].kind).Some? && Tells(cs[i], LastWrite(log, cs[i].kind).value))
            && (forall i, j :: 0 <= i < j < |cs| ==> cs[i].kind != cs[j].kind)
  {
    ConditionsFollowTheLog(k, st, log);
    ConditionsAreAnOrderedMap(Written(log));
    var cs, ks := StatusAfter(k, st, log).conditions, KindsInOrder(Written(log));
    forall kind ensures (exists i :: 0 <= i < |cs| && cs[i].kind == kind) <==> LastWrite(log, kind).Some? {
      LatestIsLastWrite(log, kind);
      if kind in ks {
        var i :| 0 <= i < |ks| && ks[i] == kind;
        assert cs[i].kind == kind;
      }
    }
    forall i | 0 <= i < |cs|
      ensures LastWrite(log, cs[i].kind).Some? && Tells(cs[i], LastWrite(log, cs[i].kind).value)
    {
      LatestIsLastWrite(log, ks[i]);
    }
  }

  /** Phase, observed generation, ready count and references are those of the last write. */
  lemma LastWriteDecides(k: Key, st: AgentStatus, log: seq<StatusCommit>)
    requires log != []
    ensures var w, r := log[|log| - 1], StatusAfter(k, st, log);
            && (r.phase == Ready <==> w.mutation.MarkReady?) && (r.phase == Running <==> w.mutation.MarkRunning?)
            && (r.phase == Failed <==> w.mutation.MarkFailed?)
            && (r.phase == Pending <==> w.mutation.MarkPending? || w.mutation.ResetForRerun?)
            && (!w.mutation.ResetForRerun? ==> r.observedGeneration == w.generation)
            && (w.mutation.MarkReady? ==> r.readyReplicas == w.mutation.replicas)
            && (w.mutation.MarkRunning? ==>
                  r.deploymentRef == w.mutation.depName && r.serviceRef == k.name + "-runtime")
            && (w.mutation.ResetForRerun? ==>
                  r.deploymentRef == "" && r.serviceRef == "" && r.readyReplicas == 0 && r.observedGeneration == 0)
  {
  }

  /** A number is read back from its digits. */
  function Number(digits: string): nat {
    if digits == "" then 0
    else 10 * Number(digits[..|digits| - 1]) + DigitOf(digits[|digits| - 1])
  }

  function DigitOf(c: char): nat {
    if '0' <= c <= '9' then (c - '0') as nat else 0
  }

  lemma {:induction false} DecimalReads(n: nat)
    ensures Number(Decimal(n)) == n
  {
    if n < 10 {
      assert Decimal(n)[..0] == "" && DigitOf("0123456789"[n]) == n;
    } else {
      DecimalReads(n / 10);
      assert Decimal(n)[..|Decimal(n)| - 1] == Decimal(n / 10) && DigitOf("0123456789"[n % 10]) == n % 10;
    }
  }

  /** The list says that something is the case. */
  predicate Says(conditions: seq<Condition>, kind: string) {
    exists i :: 0 <= i < |conditions| && conditions[i].kind == kind && conditions[i].status == "True"
  }

  /** An upsert of what is the case says so, and takes back nothing. */
  lemma {:induction false} UpsertSays(conditions: seq<Condition>, c: Condition, kind: string)
    requires c.status == "True"
    ensures Says(Upsert(conditions, c), c.kind)
    ensures Says(conditions, kind) ==> Says(Upsert(conditions, c), kind)
  {
    var r := Upsert(conditions, c);
    if conditions == [] || conditions[0].kind == c.kind {
      assert r[0] == c;
      if Says(conditions, kind) {
        var i :| 0 <= i < |conditions| && conditions[i].kind == kind && conditions[i].status == "True";
        if i > 0 { assert r[i] == conditions[i]; }
      }
    } else {
      UpsertSays(conditions[1..], c, kind);
      var rest := Upsert(conditions[1..], c);
      var j :| 0 <= j < |rest| && rest[j].kind == c.kind && rest[j].status == "True";
      assert r[j + 1] == rest[j];
      if Says(conditions, kind) {
        var i :| 0 <= i < |conditions| && conditions[i].kind == kind && conditions[i].status == "True";
        if i == 0 {
          assert r[0] == conditions[0];
        } else {
          assert conditions[1..][i - 1] == conditions[i];
          assert Says(conditions[1..], kind);
          var m :| 0 <= m < |rest| && rest[m].kind == kind && rest[m].status == "True";
          assert r[m + 1] == rest[m];
        }
      }
    }
  }

  lemma {:induction false} UpsertHas(conditions: seq<Condition>, c: Condition)
    ensures exists i :: 0 <= i < |Upsert(conditions, c)| && Upsert(conditions, c)[i] == c
  {
    var r := Upsert(conditions, c);
    if conditions == [] || conditions[0].kind == c.kind {
      assert r[0] == c;
    } else {
      UpsertHas(conditions[1..], c);
      var rest := Upsert(conditions[1..], c);
      var i :| 0 <= i < |rest| && rest[i] == c;
      assert r[i + 1] == c;
    }
  }
}
