/** Read-modify-write against an API server with optimistic concurrency (retry.go).

    One stored object is kept as the history of its versions; the index of a version is its
    resourceVersion. A write names the version it was computed from and is refused unless that
    version is still the newest. `V` is the object, `M` the type of changes, and `sem` says what
    a change does to a version: nothing to do, or a new value to send. */
module Occ {
  import opened Wrappers

  datatype Attempt<+V> = Skip | Write(value: V)

  datatype Outcome = Updated | Unchanged | Conflicted | Errored

  /** A running call has still to read, or holds a copy of a version, or has returned. */
  datatype Phase = Reading | Holding(version: nat) | Finished(outcome: Outcome)

  /** `left` counts the attempts not used up, `born` is the number of commits at the call. */
  datatype Client<+M> = Client(op: M, budget: nat, left: nat, born: nat, phase: Phase)

  datatype Commit<+M> = Commit(writer: Option<nat>, base: nat, op: M)

  datatype World<+V, +M> = World(history: seq<V>, log: seq<Commit<M>>, clients: map<nat, Client<M>>)

  /** The server answers; or fails before the write; or writes and its answer is lost. */
  datatype Reply = Answered | Rejected | ReplyLost

  datatype Event<+M> =
    | Outside(op: M)
    | Begin(id: nat, op: M, budget: nat)
    | Get(id: nat, version: nat)
    | GetFails(id: nat)
    | Put(id: nat, reply: Reply)

  function Newest<V>(history: seq<V>): V
    requires history != []
  {
    history[|history| - 1]
  }

  function Changed<V, M>(sem: (M, V) -> Attempt<V>, op: M, v: V): V {
    match sem(op, v)
    case Skip => v
    case Write(x) => x
  }

  /** A write based on a version: what becomes the newest is that version changed, whatever
      version it is. Only the check made before it can tell that nothing is lost. */
  function Committed<V, M>(
    sem: (M, V) -> Attempt<V>, w: World<V, M>, writer: Option<nat>, base: nat, op: M): (r: World<V, M>)
    requires base < |w.history|
    ensures |r.history| == |w.history| + 1
  {
    w.(history := w.history + [Changed(sem, op, w.history[base])],
    log := w.log + [Commit(writer, base, op)])
  }

  function WithPhase<V, M>(w: World<V, M>, id: nat, phase: Phase): World<V, M>
    requires id in w.clients
  {
    w.(clients := w.clients[id := w.clients[id].(phase := phase)])
  }

  /** One event; an event that is not enabled changes nothing. A read may return any version,
      since the reader is a cache. */
  function Step<V, M>(sem: (M, V) -> Attempt<V>, w: World<V, M>, ev: Event<M>): (r: World<V, M>)
    requires w.history != []
    ensures r.history != []
  {
    match ev
    case Outside(op) => if sem(op, Newest(w.history)).Skip? then w else Committed(sem, w, None, |w.history| - 1, op)
    case Begin(id, op, budget) =>
      if id in w.clients || budget == 0 then w
      else w.(clients := w.clients[id := Client(op, budget, budget, |w.log|, Reading)])
    case Get(id, version) =>
      if id !in w.clients || !w.clients[id].phase.Reading? || version >= |w.history| then w
      else if sem(w.clients[id].op, w.history[version]).Skip? then WithPhase(w, id, Finished(Unchanged))
      else WithPhase(w, id, Holding(version))
    case GetFails(id) =>
      if id !in w.clients || !w.clients[id].phase.Reading? then w else WithPhase(w, id, Finished(Errored))
    case Put(id, reply) =>
      if id !in w.clients || !w.clients[id].phase.Holding? then w
      else
        var c := w.clients[id];
        if reply == Rejected then WithPhase(w, id, Finished(Errored))
        else if c.phase.version == |w.history| - 1 then
          WithPhase(Committed(sem, w, Some(id), c.phase.version, c.op), id,
                    Finished(if reply == Answered then Updated else Errored))
        else if reply == ReplyLost then WithPhase(w, id, Finished(Errored))
        else if c.left <= 1 then WithPhase(w, id, Finished(Conflicted))
        else w.(clients := w.clients[id := c.(left := c.left - 1, phase := Reading)])
  }

  function Run<V, M>(sem: (M, V) -> Attempt<V>, w: World<V, M>, evs: seq<Event<M>>): (r: World<V, M>)
    requires w.history != []
    ensures r.history != []
    decreases evs
  {
    if evs == [] then w else Run(sem, Step(sem, w, evs[0]), evs[1..])
  }

  lemma {:induction false} RunAppend<V, M>(
    sem: (M, V) -> Attempt<V>, w: World<V, M>, a: seq<Event<M>>, b: seq<Event<M>>)
    requires w.history != []
    ensures Run(sem, w, a + b) == Run(sem, Run(sem, w, a), b)
    decreases a
  {
    if a == [] {
      assert a + b == b;
    } else {
      assert (a + b)[1..] == a[1..] + b;
      RunAppend(sem, Step(sem, w, a[0]), a[1..], b);
    }
  }

  function Initial<V, M>(v: V): World<V, M> {
    World([v], [], map[])
  }

  /** Commits made by one client. */
  function Commits<M>(log: seq<Commit<M>>, id: nat): nat {
    if log == [] then 0
    else Commits(log[..|log| - 1], id) + if log[|log| - 1].writer == Some(id) then 1 else 0
  }

  /** The committed changes applied in commit order. */
  function Replay<V, M>(sem: (M, V) -> Attempt<V>, v: V, log: seq<Commit<M>>): V {
    if log == [] then v
    else Changed(sem, log[|log| - 1].op, Replay(sem, v, log[..|log| - 1]))
  }

  /** The one limit on runs some results need: the call `honest`, if given, loses no answer.
      Other calls are free. */
  predicate Admits<M>(honest: Option<nat>, ev: Event<M>) {
    ev.Put? && honest == Some(ev.id) ==> ev.reply != ReplyLost
  }

  predicate Admissible<M>(honest: Option<nat>, evs: seq<Event<M>>) {
    forall i :: 0 <= i < |evs| ==> Admits(honest, evs[i])
  }

  // ---------------------------------------------------------------- the invariant

  ghost predicate LogMatches<V, M>(sem: (M, V) -> Attempt<V>, w: World<V, M>) {
    && |w.history| == |w.log| + 1
    && forall i :: 0 <= i < |w.log| ==>
                     && w.log[i].base == i
                     && sem(w.log[i].op, w.history[i]) == Write(w.history[i + 1])
                     && (w.log[i].writer.Some? ==>
                           w.log[i].writer.value in w.clients && w.clients[w.log[i].writer.value].op == w.log[i].op)
  }

  ghost predicate ClientOk<V, M>(
    sem: (M, V) -> Attempt<V>, honest: Option<nat>, w: World<V, M>, id: nat, c: Client<M>)
  {
    && 1 <= c.left <= c.budget && c.born <= |w.log|
    && (match c.phase
        case Reading => Commits(w.log, id) == 0
        case Holding(v) => v < |w.history| && sem(c.op, w.history[v]).Write? && Commits(w.log, id) == 0
        case Finished(Updated) => Commits(w.log, id) == 1
        case Finished(Errored) => Commits(w.log, id) <= if honest == Some(id) then 0 else 1
        case Finished(_) => Commits(w.log, id) == 0)
  }

  ghost predicate Inv<V, M>(sem: (M, V) -> Attempt<V>, honest: Option<nat>, w: World<V, M>) {
    && LogMatches(sem, w)
    && (forall id :: id in w.clients ==> ClientOk(sem, honest, w, id, w.clients[id]))
    && (forall id :: id !in w.clients ==> Commits(w.log, id) == 0)
  }

  lemma CommitCounts<V, M>(
    sem: (M, V) -> Attempt<V>, w: World<V, M>, writer: Option<nat>, base: nat, op: M, id: nat)
    requires base < |w.history|
    ensures Commits(Committed(sem, w, writer, base, op).log, id) ==
            Commits(w.log, id) + if writer == Some(id) then 1 else 0
  {
    var log := Committed(sem, w, writer, base, op).log;
    assert log[..|log| - 1] == w.log;
  }

  /** Replacing one client by a good one, with the same change to make, keeps the invariant. */
  lemma SetClientKeepsInv<V, M>(
    sem: (M, V) -> Attempt<V>, honest: Option<nat>, w: World<V, M>, id: nat, c: Client<M>)
    requires Inv(sem, honest, w) && ClientOk(sem, honest, w, id, c)
    requires id in w.clients ==> w.clients[id].op == c.op
    ensures Inv(sem, honest, w.(clients := w.clients[id := c]))
  {
    var w' := w.(clients := w.clients[id := c]);
    forall i | i in w'.clients ensures ClientOk(sem, honest, w', i, w'.clients[i]) {
      if i != id { assert ClientOk(sem, honest, w, i, w.clients[i]); }
    }
  }

  /** The commit that matches its log is the one based on the newest version. */
  lemma CommitMatches<V, M>(sem: (M, V) -> Attempt<V>, w: World<V, M>, writer: Option<nat>, base: nat, op: M)
    requires base < |w.history| && LogMatches(sem, w) && sem(op, w.history[base]).Write?
    requires writer.Some? ==> writer.value in w.clients && w.clients[writer.value].op == op
    ensures LogMatches(sem, Committed(sem, w, writer, base, op)) <==> base == |w.history| - 1
  {
    var w' := Committed(sem, w, writer, base, op);
    assert w'.log[|w.log|] == Commit(writer, base, op);
  }

  lemma OutsideKeepsInv<V, M>(
    sem: (M, V) -> Attempt<V>, honest: Option<nat>, w: World<V, M>, op: M)
    requires w.history != [] && Inv(sem, honest, w) && sem(op, Newest(w.history)).Write?
    ensures Inv(sem, honest, Committed(sem, w, None, |w.history| - 1, op))
  {
    CommitMatches(sem, w, None, |w.history| - 1, op);
    var w' := Committed(sem, w, None, |w.history| - 1, op);
    forall i: nat ensures Commits(w'.log, i) == Commits(w.log, i) {
      CommitCounts(sem, w, None, |w.history| - 1, op, i);
    }
    forall i | i in w'.clients ensures ClientOk(sem, honest, w', i, w'.clients[i]) {
      assert ClientOk(sem, honest, w, i, w.clients[i]);
    }
  }

  lemma ClientCommitKeepsInv<V, M>(
    sem: (M, V) -> Attempt<V>, honest: Option<nat>, w: World<V, M>, id: nat, outcome: Outcome)
    requires w.history != [] && Inv(sem, honest, w)
    requires id in w.clients && w.clients[id].phase == Holding(|w.history| - 1)
    requires outcome == Updated || (outcome == Errored && honest != Some(id))
    ensures Inv(sem, honest,
                WithPhase(Committed(sem, w, Some(id), w.clients[id].phase.version, w.clients[id].op), id,
                          Finished(outcome)))
  {
    var c := w.clients[id];
    assert ClientOk(sem, honest, w, id, c);
    CommitMatches(sem, w, Some(id), c.phase.version, c.op);
    var w1 := Committed(sem, w, Some(id), c.phase.version, c.op);
    var w' := WithPhase(w1, id, Finished(outcome));
    assert LogMatches(sem, w');
    forall i: nat ensures Commits(w'.log, i) == Commits(w.log, i) + if i == id then 1 else 0 {
      CommitCounts(sem, w, Some(id), c.phase.version, c.op, i);
    }
    forall i | i in w'.clients ensures ClientOk(sem, honest, w', i, w'.clients[i]) {
      assert ClientOk(sem, honest, w, i, w.clients[i]);
    }
  }

  lemma StepKeepsInv<V, M>(
    sem: (M, V) -> Attempt<V>, honest: Option<nat>, w: World<V, M>, ev: Event<M>)
    requires w.history != [] && Inv(sem, honest, w) && Admits(honest, ev)
    ensures Inv(sem, honest, Step(sem, w, ev))
  {
    var w' := Step(sem, w, ev);
    if ev.Outside? {
      if w' != w { OutsideKeepsInv(sem, honest, w, ev.op); }
    } else if w' != w {
      if ev.id in w.clients { assert ClientOk(sem, honest, w, ev.id, w.clients[ev.id]); }
      if ev.Put? && w'.log != w.log {
        ClientCommitKeepsInv(sem, honest, w, ev.id, w'.clients[ev.id].phase.outcome);
      } else {
        SetClientKeepsInv(sem, honest, w, ev.id, w'.clients[ev.id]);
      }
    }
  }

  lemma {:induction false} RunKeepsInv<V, M>(
    sem: (M, V) -> Attempt<V>, honest: Option<nat>, w: World<V, M>, evs: seq<Event<M>>)
    requires w.history != [] && Inv(sem, honest, w) && Admissible(honest, evs)
    ensures Inv(sem, honest, Run(sem, w, evs))
    decreases evs
  {
    if evs != [] {
      StepKeepsInv(sem, honest, w, evs[0]);
      RunKeepsInv(sem, honest, Step(sem, w, evs[0]), evs[1..]);
    }
  }

  lemma {:induction false} ReplayIsHistory<V, M>(sem: (M, V) -> Attempt<V>, w: World<V, M>, n: nat)
    requires LogMatches(sem, w) && n < |w.history|
    ensures Replay(sem, w.history[0], w.log[..n]) == w.history[n]
  {
    if n > 0 {
      ReplayIsHistory(sem, w, n - 1);
      assert w.log[..n][..n - 1] == w.log[..n - 1];
    }
  }

  lemma {:induction false} FirstVersionStays<V, M>(sem: (M, V) -> Attempt<V>, w: World<V, M>, evs: seq<Event<M>>)
    requires w.history != []
    ensures w.history <= Run(sem, w, evs).history
    decreases evs
  {
    if evs != [] { FirstVersionStays(sem, Step(sem, w, evs[0]), evs[1..]); }
  }

  // ---------------------------------------------------------------- main results

  /** For any number of writers, any interleaving and any stale reads: the stored object is the
      fold of the committed changes in commit order; every commit was computed from the very
      version it replaced; and every client commits as often as its outcome says. */
  lemma NoLostUpdates<V, M>(sem: (M, V) -> Attempt<V>, v: V, evs: seq<Event<M>>)
    ensures var w := Run(sem, Initial(v), evs);
            && |w.history| == |w.log| + 1
            && Newest(w.history) == Replay(sem, v, w.log)
            && (forall i :: 0 <= i < |w.log| ==>
                              w.log[i].base == i && sem(w.log[i].op, w.history[i]) == Write(w.history[i + 1]))
            && (forall id :: id in w.clients ==>
                               match w.clients[id].phase
                               case Finished(Updated) => Commits(w.log, id) == 1
                               case Finished(Errored) => Commits(w.log, id) <= 1
                               case _ => Commits(w.log, id) == 0)
  {
    var w0 := Initial<V, M>(v);
    var w := Run(sem, w0, evs);
    RunKeepsInv(sem, None, w0, evs);
    FirstVersionStays(sem, w0, evs);
    ReplayIsHistory(sem, w, |w.log|);
    assert w.log[..|w.log|] == w.log;
    forall id | id in w.clients
      ensures match w.clients[id].phase
              case Finished(Updated) => Commits(w.log, id) == 1
              case Finished(Errored) => Commits(w.log, id) <= 1
              case _ => Commits(w.log, id) == 0
    {
      assert ClientOk(sem, None, w, id, w.clients[id]);
    }
  }

  /** A call that loses no answer, whatever other calls lose, reports an update exactly when it
      committed, and then it committed once. */
  lemma UpdatedIffCommitted<V, M>(sem: (M, V) -> Attempt<V>, v: V, evs: seq<Event<M>>, id: nat)
    requires Admissible(Some(id), evs)
    ensures var w := Run(sem, Initial(v), evs);
            id in w.clients && w.clients[id].phase.Finished? ==>
              (w.clients[id].phase.outcome == Updated <==> Commits(w.log, id) == 1) &&
              (w.clients[id].phase.outcome != Updated <==> Commits(w.log, id) == 0)
  {
    var w := Run(sem, Initial<V, M>(v), evs);
    RunKeepsInv(sem, Some(id), Initial(v), evs);
    if id in w.clients { assert ClientOk(sem, Some(id), w, id, w.clients[id]); }
  }

  /** A lost answer breaks this: the call reports an error although it committed. */
  lemma LostAnswerHidesACommit<V, M>(sem: (M, V) -> Attempt<V>, w: World<V, M>, id: nat)
    requires Inv(sem, None, w) && w.history != [] && id in w.clients
    requires w.clients[id].phase == Holding(|w.history| - 1)
    ensures var w' := Step(sem, w, Put(id, ReplyLost));
            id in w'.clients && w'.clients[id].phase == Finished(Errored) && Commits(w'.log, id) == 1
  {
    var c := w.clients[id];
    assert ClientOk(sem, None, w, id, c);
    CommitCounts(sem, w, Some(id), c.phase.version, c.op, id);
  }

  /** A read by a running call that returns an old version. */
  predicate ReadsStale<V, M>(w: World<V, M>, ev: Event<M>, id: nat) {
    && ev.Get? && ev.id == id && id in w.clients && w.clients[id].phase.Reading?
    && ev.version + 1 < |w.history|
  }

  function StaleReads<V, M>(sem: (M, V) -> Attempt<V>, w: World<V, M>, evs: seq<Event<M>>, id: nat): nat
    requires w.history != []
    decreases evs
  {
    if evs == [] then 0
    else (if ReadsStale(w, evs[0], id) then 1 else 0) + StaleReads(sem, Step(sem, w, evs[0]), evs[1..], id)
  }

  /** Every attempt a call has used up is accounted for by one of `stale` reads of its own or by
      a commit since it began. */
  predicate Accounted<V, M>(w: World<V, M>, id: nat, stale: nat) {
    |w.history| == |w.log| + 1 &&
    (id in w.clients ==>
       var c := w.clients[id];
       && c.left <= c.budget && c.born <= |w.log|
       && (c.phase.Reading? ==> c.born + (c.budget - c.left) <= stale + |w.log|)
       && (c.phase.Holding? ==>
             c.phase.version <= |w.log| &&
             c.born + (c.budget - c.left) + (if c.phase.version < |w.log| then 1 else 0) <= stale + |w.log|)
       && (c.phase == Finished(Conflicted) ==> c.born + c.budget <= stale + |w.log|))
  }

  lemma StepAccounts<V, M>(sem: (M, V) -> Attempt<V>, w: World<V, M>, ev: Event<M>, id: nat, stale: nat)
    requires w.history != [] && Accounted(w, id, stale)
    ensures Accounted(Step(sem, w, ev), id, stale + if ReadsStale(w, ev, id) then 1 else 0)
  {
  }

  lemma {:induction false} RunAccounts<V, M>(
    sem: (M, V) -> Attempt<V>, w: World<V, M>, evs: seq<Event<M>>, id: nat, stale: nat)
    requires w.history != [] && Accounted(w, id, stale)
    ensures Accounted(Run(sem, w, evs), id, stale + StaleReads(sem, w, evs, id))
    decreases evs
  {
    hide Accounted, ReadsStale, Step;
    if evs != [] {
      StepAccounts(sem, w, evs[0], id, stale);
      RunAccounts(sem, Step(sem, w, evs[0]), evs[1..], id, stale + if ReadsStale(w, evs[0], id) then 1 else 0);
    }
  }

  /** Over every run: a call gives up only when its own stale reads and the commits of others
      since it began make up its budget. With fresh reads contention, and nothing else, makes it
      fail. */
  lemma ConflictNeedsContention<V, M>(sem: (M, V) -> Attempt<V>, v: V, evs: seq<Event<M>>, id: nat)
    requires var w := Run(sem, Initial(v), evs); id in w.clients && w.clients[id].phase == Finished(Conflicted)
    ensures var w := Run(sem, Initial(v), evs);
            && w.clients[id].budget <= StaleReads(sem, Initial(v), evs, id) + (|w.log| - w.clients[id].born)
            && Commits(w.log, id) == 0
  {
    var w := Run(sem, Initial<V, M>(v), evs);
    RunKeepsInv(sem, None, Initial(v), evs);
    assert ClientOk(sem, None, w, id, w.clients[id]);
    RunAccounts(sem, Initial(v), evs, id, 0);
  }

  function StaleAttempts<M>(id: nat, n: nat): seq<Event<M>> {
    if n == 0 then [] else [Get(id, 0), Put(id, Answered)] + StaleAttempts(id, n - 1)
  }

  /** Stale reads alone can do it: a cache that keeps returning an old version uses up
      any budget although nothing else is committed. */
  lemma {:induction false} StaleReadsExhaustTheBudget<V, M>(sem: (M, V) -> Attempt<V>, w: World<V, M>, id: nat, n: nat)
    requires |w.history| >= 2 && id in w.clients && n >= 1
    requires w.clients[id].phase == Reading && w.clients[id].left == n
    requires sem(w.clients[id].op, w.history[0]).Write?
    ensures var w' := Run(sem, w, StaleAttempts(id, n));
            id in w'.clients && w'.clients[id].phase == Finished(Conflicted) && w'.log == w.log
    decreases n
  {
    var evs := StaleAttempts<M>(id, n);
    var w1 := Step(sem, w, evs[0]);
    var w2 := Step(sem, w1, evs[1]);
    assert evs[1..][1..] == StaleAttempts<M>(id, n - 1);
    assert Run(sem, w, evs) == Run(sem, w2, StaleAttempts(id, n - 1));
    if n > 1 { StaleReadsExhaustTheBudget(sem, w2, id, n - 1); }
  }

  // ---------------------------------------------------------------- one call, as a loop

  /** What happens around one attempt of a call: changes by others before its read and between
      its read and its write, the version its read returns, and how the server answers. */
  datatype Turn<+M> = Turn(before: seq<M>, readFails: bool, version: nat, between: seq<M>, reply: Reply)

  function Edited<V, M>(sem: (M, V) -> Attempt<V>, history: seq<V>, ops: seq<M>): (r: seq<V>)
    requires history != []
    ensures r != []
    decreases ops
  {
    if ops == [] then history
    else
      var next := match sem(ops[0], Newest(history))
                  case Skip => history
                  case Write(x) => history + [x];
      Edited(sem, next, ops[1..])
  }

  /** A read returns some version that exists. */
  function Cached(version: nat, n: nat): (r: nat)
    requires n > 0
    ensures r < n
  {
    if version < n then version else n - 1
  }

  /** The versions after a whole call, and what it returns. */
  function Retry<V, M>(
    sem: (M, V) -> Attempt<V>, history: seq<V>, op: M, left: nat, turns: seq<Turn<M>>): (seq<V>, Outcome)
    requires history != [] && 1 <= left <= |turns|
    decreases left
  {
    var t := turns[0];
    var h1 := Edited(sem, history, t.before);
    if t.readFails then (h1, Errored)
    else
      var version := Cached(t.version, |h1|);
      match sem(op, h1[version])
      case Skip => (h1, Unchanged)
      case Write(x) =>
        var h2 := Edited(sem, h1, t.between);
        if t.reply == Rejected then (h2, Errored)
        else if version == |h2| - 1 then (h2 + [x], if t.reply == Answered then Updated else Errored)
        else if t.reply == ReplyLost then (h2, Errored)
        else if left == 1 then (h2, Conflicted)
        else Retry(sem, h2, op, left - 1, turns[1..])
  }

  lemma {:induction false} EditedGrows<V, M>(sem: (M, V) -> Attempt<V>, history: seq<V>, ops: seq<M>)
    requires history != []
    ensures history <= Edited(sem, history, ops)
    decreases ops
  {
    if ops != [] {
      var next := match sem(ops[0], Newest(history)) case Skip => history case Write(x) => history + [x];
      EditedGrows(sem, next, ops[1..]);
    }
  }

  /** However a call is interleaved, it acts in one step: if it reports an update, then on the
      version that was the newest just before; if it finds nothing to do, then on some version. */
  lemma {:induction false} CallActsInOneStep<V, M>(
    sem: (M, V) -> Attempt<V>, history: seq<V>, op: M, left: nat, turns: seq<Turn<M>>)
    requires history != [] && 1 <= left <= |turns|
    ensures var (h, outcome) := Retry(sem, history, op, left, turns);
            && history <= h
            && (outcome == Updated ==> |h| >= 2 && sem(op, h[|h| - 2]) == Write(Newest(h)))
            && (outcome == Unchanged ==> exists i :: 0 <= i < |h| && sem(op, h[i]).Skip?)
    decreases left
  {
    var t := turns[0];
    var h1 := Edited(sem, history, t.before);
    EditedGrows(sem, history, t.before);
    if !t.readFails {
      var version := Cached(t.version, |h1|);
      if sem(op, h1[version]).Write? {
        var h2 := Edited(sem, h1, t.between);
        EditedGrows(sem, h1, t.between);
        assert version == |h2| - 1 ==> h2 == h1;
        if t.reply == Answered && version != |h2| - 1 && left > 1 {
          CallActsInOneStep(sem, h2, op, left - 1, turns[1..]);
        }
      }
    }
  }

  /** The stored object with its version history, as the clients of the server see it. */
  class ApiObject<!V(0), !M(0)> {
    const sem: (M, V) -> Attempt<V>
    var versions: seq<V>

    ghost predicate Valid()
      reads this
    {
      versions != []
    }

    constructor (sem: (M, V) -> Attempt<V>, v: V)
      ensures Valid() && versions == [v] && this.sem == sem
    {
      this.sem := sem;
      this.versions := [v];
    }

    method Interfere(ops: seq<M>)
      requires Valid()
      modifies this
      ensures Valid() && versions == Edited(sem, old(versions), ops)
    {
      for i := 0 to |ops|
        invariant Valid() && Edited(sem, versions, ops[i..]) == Edited(sem, old(versions), ops)
      {
        assert ops[i..][1..] == ops[i + 1..];
        var next := sem(ops[i], versions[|versions| - 1]);
        if next.Write? { versions := versions + [next.value]; }
      }
    }

    /** Reads through the cache: the copy and the version it is a copy of. */
    method Read(version: nat) returns (resourceVersion: nat, copy: V)
      requires Valid()
      ensures resourceVersion == Cached(version, |versions|) && copy == versions[resourceVersion]
    {
      resourceVersion := if version < |versions| then version else |versions| - 1;
      copy := versions[resourceVersion];
    }

    /** Writes unless the version has moved on. */
    method Update(resourceVersion: nat, value: V) returns (ok: bool)
      requires Valid()
      modifies this
      ensures Valid() && ok == (resourceVersion == |old(versions)| - 1)
      ensures versions == if ok then old(versions) + [value] else old(versions)
    {
      ok := resourceVersion == |versions| - 1;
      if ok { versions := versions + [value]; }
    }

    method RetryOnConflict(op: M, budget: nat, turns: seq<Turn<M>>) returns (outcome: Outcome)
      requires Valid() && 1 <= budget <= |turns|
      modifies this
      ensures Valid() && (versions, outcome) == Retry(sem, old(versions), op, budget, turns)
    {
      var i := 0;
      while i < budget
        invariant Valid() && 0 <= i <= budget
        invariant i < budget ==>
                    Retry(sem, versions, op, budget - i, turns[i..]) == Retry(sem, old(versions), op, budget, turns)
        invariant i == budget ==> (versions, Conflicted) == Retry(sem, old(versions), op, budget, turns)
      {
        var t := turns[i];
        assert turns[i..][1..] == turns[i + 1..];
        Interfere(t.before);
        if t.readFails { return Errored; }
        var rv, copy := Read(t.version);
        var next := sem(op, copy);
        if next.Skip? { return Unchanged; }
        Interfere(t.between);
        if t.reply == Rejected { return Errored; }
        var ok := Update(rv, next.value);
        if t.reply == ReplyLost { return Errored; }
        if ok { return Updated; }
        i := i + 1;
      }
      outcome := Conflicted;
    }
  }

  // ---------------------------------------------------------------- the loop is a run of the machine

  function OutsideEvents<M>(ops: seq<M>): seq<Event<M>> {
    if ops == [] then [] else [Outside(ops[0])] + OutsideEvents(ops[1..])
  }

  /** The events of a call that has `left` attempts to go. */
  function RetryEvents<V, M>(
    sem: (M, V) -> Attempt<V>, history: seq<V>, id: nat, op: M, left: nat, turns: seq<Turn<M>>): seq<Event<M>>
    requires history != [] && 1 <= left <= |turns|
    decreases left
  {
    var t := turns[0];
    var h1 := Edited(sem, history, t.before);
    if t.readFails then OutsideEvents(t.before) + [GetFails(id)]
    else
      var version := Cached(t.version, |h1|);
      var readEvents := OutsideEvents(t.before) + [Get(id, version)];
      if sem(op, h1[version]).Skip? then readEvents
      else
        var h2 := Edited(sem, h1, t.between);
        var putEvents := readEvents + (OutsideEvents(t.between) + [Put(id, t.reply)]);
        if t.reply == Answered && version != |h2| - 1 && left > 1 then
          putEvents + RetryEvents(sem, h2, id, op, left - 1, turns[1..])
        else putEvents
  }

  lemma {:induction false} OutsideRun<V, M>(sem: (M, V) -> Attempt<V>, w: World<V, M>, ops: seq<M>)
    requires w.history != []
    ensures var w' := Run(sem, w, OutsideEvents(ops));
            w'.history == Edited(sem, w.history, ops) && w'.clients == w.clients
    decreases ops
  {
    if ops != [] {
      var evs := OutsideEvents(ops);
      assert evs[0] == Outside(ops[0]) && evs[1..] == OutsideEvents(ops[1..]);
      OutsideRun(sem, Step(sem, w, evs[0]), ops[1..]);
    }
  }

  /** Runs outside changes, then one event of the call. */
  lemma OutsideThen<V, M>(sem: (M, V) -> Attempt<V>, w: World<V, M>, ops: seq<M>, ev: Event<M>)
    returns (mid: World<V, M>)
    requires w.history != []
    ensures mid.history == Edited(sem, w.history, ops) && mid.clients == w.clients
    ensures Run(sem, w, OutsideEvents(ops) + [ev]) == Step(sem, mid, ev)
  {
    OutsideRun(sem, w, ops);
    mid := Run(sem, w, OutsideEvents(ops));
    RunAppend(sem, w, OutsideEvents(ops), [ev]);
    assert Run(sem, mid, [ev]) == Run(sem, Step(sem, mid, ev), [ev][1..]);
  }

  /** One attempt that reads and writes, up to and including its write. */
  lemma AttemptRun<V, M>(
    sem: (M, V) -> Attempt<V>, w: World<V, M>, id: nat, t: Turn<M>) returns (mid: World<V, M>)
    requires w.history != [] && id in w.clients && w.clients[id].phase == Reading
    requires var h1 := Edited(sem, w.history, t.before);
             sem(w.clients[id].op, h1[Cached(t.version, |h1|)]).Write?
    ensures var h1 := Edited(sem, w.history, t.before);
            && id in mid.clients && mid.history == Edited(sem, h1, t.between)
            && mid.clients[id] == w.clients[id].(phase := Holding(Cached(t.version, |h1|)))
            && h1 <= mid.history
            && Run(sem, w, (OutsideEvents(t.before) + [Get(id, Cached(t.version, |h1|))]) +
                           (OutsideEvents(t.between) + [Put(id, t.reply)])) == Step(sem, mid, Put(id, t.reply))
  {
    var version := Cached(t.version, |Edited(sem, w.history, t.before)|);
    var readEvents := OutsideEvents(t.before) + [Get(id, version)];
    var _ := OutsideThen(sem, w, t.before, Get(id, version));
    var w1 := Run(sem, w, readEvents);
    RunAppend(sem, w, readEvents, OutsideEvents(t.between) + [Put(id, t.reply)]);
    FirstVersionStays(sem, w1, OutsideEvents(t.between));
    OutsideRun(sem, w1, t.between);
    mid := OutsideThen(sem, w1, t.between, Put(id, t.reply));
  }

  /** The loop refines the machine: what one call does amid any interference is a run in which
      the client ends with the outcome the loop returns and the history the loop leaves. So all
      results about runs hold of the loop. */
  lemma {:induction false} RetryIsARun<V, M>(
    sem: (M, V) -> Attempt<V>, w: World<V, M>, id: nat, op: M, left: nat, turns: seq<Turn<M>>)
    requires w.history != [] && 1 <= left <= |turns|
    requires id in w.clients && w.clients[id].op == op && w.clients[id].left == left && w.clients[id].phase == Reading
    ensures var w' := Run(sem, w, RetryEvents(sem, w.history, id, op, left, turns));
            && id in w'.clients
            && (w'.history, w'.clients[id].phase) ==
               (Retry(sem, w.history, op, left, turns).0, Finished(Retry(sem, w.history, op, left, turns).1))
    decreases left
  {
    hide OutsideEvents, Edited, Run;
    var t := turns[0];
    var h1 := Edited(sem, w.history, t.before);
    if t.readFails {
      var _ := OutsideThen(sem, w, t.before, GetFails(id));
    } else {
      var version := Cached(t.version, |h1|);
      var readEvents := OutsideEvents(t.before) + [Get(id, version)];
      if sem(op, h1[version]).Skip? {
        var _ := OutsideThen(sem, w, t.before, Get(id, version));
      } else {
        var mid := AttemptRun(sem, w, id, t);
        var events := readEvents + (OutsideEvents(t.between) + [Put(id, t.reply)]);
        if t.reply == Answered && version != |mid.history| - 1 && left > 1 {
          var w2 := Step(sem, mid, Put(id, t.reply));
          RetryIsARun(sem, w2, id, op, left - 1, turns[1..]);
          RunAppend(sem, w, events, RetryEvents(sem, w2.history, id, op, left - 1, turns[1..]));
        }
      }
    }
  }
}
