/** demandMatch (scheduler/demand_match.go): pending jobs are grouped by selector and each
    group is served from its fair queue while slots last.

    `Serve`, `ServeSelector` and `ServeAll` are the specification; the methods at the end
    carry the source's loops.  Everything outside the process is an argument: candidate
    runner names, GitHub's answers and the API server's, one `Answer` per attempt. */
module Allocator {
  import opened Base
  import opened Jobs
  import opened Cluster
  import opened FairQueue
  import opened Router
  import Labels
  import W = Workers

  datatype GitHubAnswer = RateLimited | GitHubError | JitIssued

  datatype Answer = Answer(candidates: nat -> string, github: GitHubAnswer, create: CreateAnswer)

  /** The tables and the pods; `requested` lists every name passed to ProvisionRunner. */
  datatype Store = Store(workers: W.Rows, jobs: map<Id, Job>, pods: Pods, requested: seq<string>)

  datatype Env = Env(
    configs: map<Id, Option<nat>>, now: int, nodes: seq<Node>,
    slotsKnown: NodeSelector -> bool, answers: nat -> Answer)

  datatype Verdict = Skipped | BackedOff | Consumed

  /** One call of tryProvision. */
  datatype Attempt = Attempt(job: Job, answer: Answer, verdict: Verdict)

  const NAME_TRIES := 5

  // ---- one attempt ----

  /** Active jobs of a pool, the demand side of GetPoolDemand. */
  function JobsInPool(jobs: map<Id, Job>, entity: Id, key: seq<string>): set<Id> {
    set id | id in jobs && jobs[id].entity == entity && jobs[id].labels == key && jobs[id].status.Active()
  }

  /** The first of the remaining candidates that no worker row uses. */
  function FreeName(rows: W.Rows, candidates: nat -> string, i: nat): Option<string>
    decreases NAME_TRIES - i
  {
    if i >= NAME_TRIES then None
    else if candidates(i) !in rows then Some(candidates(i))
    else FreeName(rows, candidates, i + 1)
  }

  function NewWorker(j: Job): W.Worker
    requires j.kind.Some?
  {
    W.Worker(j.entity, j.kind.value, j.entityName, j.installation,
             if j.kind.value.User? then Some(j.repo) else None,
             Labels.Canonical(j.labels), j.selector, j.image, None, Pending, None, None, None)
  }

  function FailedWorker(j: Job, reason: W.Reason, now: int): W.Worker
    requires j.kind.Some?
  {
    W.Apply(NewWorker(j), W.MarkFailed("", reason, None, now))
  }

  /** Demand unmet, limit not reached and a name free: the attempt gets to insert a row. */
  predicate Admitted(st: Store, j: Job, configs: map<Id, Option<nat>>, candidates: nat -> string) {
    j.kind.Some? && HasRoom(st.workers, st.jobs, j, configs) && FreeName(st.workers, candidates, 0).Some?
  }

  predicate HasRoom(workers: W.Rows, jobs: map<Id, Job>, j: Job, configs: map<Id, Option<nat>>) {
    var key, limit := Labels.Canonical(j.labels), WorkerLimit(configs, j.entity);
    && |JobsInPool(jobs, j.entity, key)| > |W.ActiveInPool(workers, j.entity, key)|
    && (limit.Some? ==> |W.ActiveOf(workers, j.entity)| < limit.value)
  }

  predicate Live(s: Status) { s == Pending || s == Running }

  ghost function LiveJobs(jobs: map<Id, Job>, e: Id, key: seq<string>): set<Id> {
    set id | id in jobs && jobs[id].entity == e && jobs[id].labels == key && Live(jobs[id].status)
  }

  ghost function LiveWorkers(workers: W.Rows, e: Id): set<string> {
    set n | n in workers && workers[n].entity == e && Live(workers[n].status)
  }

  /** The pool has as many active workers as active jobs, or more. */
  ghost predicate DemandMet(workers: W.Rows, jobs: map<Id, Job>, e: Id, key: seq<string>) {
    |LiveJobs(jobs, e, key)| <= |set n | n in LiveWorkers(workers, e) && workers[n].labels == key|
  }

  /** The entity has as many active workers as its limit, 20 unless configured, or more. */
  ghost predicate AtLimit(workers: W.Rows, configs: map<Id, Option<nat>>, e: Id) {
    if e in configs then configs[e].Some? && |LiveWorkers(workers, e)| >= configs[e].value
    else |LiveWorkers(workers, e)| >= 20
  }

  lemma RoomIff(workers: W.Rows, jobs: map<Id, Job>, j: Job, configs: map<Id, Option<nat>>)
    ensures HasRoom(workers, jobs, j, configs) <==>
            !DemandMet(workers, jobs, j.entity, Labels.Canonical(j.labels)) && !AtLimit(workers, configs, j.entity)
  {
    var key := Labels.Canonical(j.labels);
    assert JobsInPool(jobs, j.entity, key) == LiveJobs(jobs, j.entity, key);
    assert W.ActiveOf(workers, j.entity) == LiveWorkers(workers, j.entity);
    assert W.ActiveInPool(workers, j.entity, key) ==
           set n | n in LiveWorkers(workers, j.entity) && workers[n].labels == key;
  }

  predicate PodCreated(st: Store, j: Job, name: string, a: Answer) {
    a.github.JitIssued? && j.selector.Valid() && name !in st.pods && a.create.Created?
  }

  function RowFor(st: Store, j: Job, name: string, now: int, a: Answer): W.Worker
    requires j.kind.Some?
  {
    if PodCreated(st, j, name, a) then NewWorker(j)
    else FailedWorker(j, if a.github.RateLimited? then W.RateLimited else W.PodAllocationFailure, now)
  }

  function Try(st: Store, j: Job, configs: map<Id, Option<nat>>, now: int, a: Answer): (Store, Verdict) {
    if !Admitted(st, j, configs, a.candidates) then (st, Skipped)
    else
      var name := FreeName(st.workers, a.candidates, 0).value;
      var workers := st.workers[name := RowFor(st, j, name, now, a)];
      if !a.github.JitIssued? then
        (st.(workers := workers), if a.github.RateLimited? then BackedOff else Consumed)
      else
        (Store(workers, st.jobs, CreatePod(st.pods, name, j.selector, j.entity, now, a.create), st.requested + [name]),
         Consumed)
  }

  lemma RowForIsWellFormed(st: Store, j: Job, name: string, now: int, a: Answer)
    requires j.kind.Some?
    ensures var w := RowFor(st, j, name, now, a);
      && W.RowOk(w)
      && w.entity == j.entity && w.labels == Labels.Canonical(j.labels)
      && w.selector == j.selector && w.image == j.image
      && (w.Active() <==> PodCreated(st, j, name, a))
  {
  }

  lemma {:induction false} FreeNameIsFresh(rows: W.Rows, candidates: nat -> string, i: nat)
    ensures FreeName(rows, candidates, i).Some? ==>
              FreeName(rows, candidates, i).value !in rows
              && exists k: nat :: i <= k < NAME_TRIES && FreeName(rows, candidates, i).value == candidates(k)
    ensures FreeName(rows, candidates, i).None? <==> forall k :: i <= k < NAME_TRIES ==> candidates(k) in rows
    decreases NAME_TRIES - i
  {
    if i < NAME_TRIES && candidates(i) in rows {
      FreeNameIsFresh(rows, candidates, i + 1);
    }
  }

  // ---- the loops ----

  /** State shared by all selectors of one tick. */
  datatype Demand = Demand(st: Store, limited: set<Id>, log: seq<Attempt>)

  /** State of the loop for one selector. */
  datatype Loop = Loop(slots: int, load: map<Id, int>, d: Demand)

  function Step(l: Loop, j: Job, env: Env): Loop {
    if j.entity in l.d.limited then l
    else
      var a := env.answers(|l.d.log|);
      var (st, v) := Try(l.d.st, j, env.configs, env.now, a);
      var log := l.d.log + [Attempt(j, a, v)];
      match v
      case Skipped => l.(d := Demand(st, l.d.limited, log))
      case BackedOff => l.(d := Demand(st, l.d.limited + {j.entity}, log))
      case Consumed => Loop(l.slots - 1, l.load[j.entity := At(l.load, j.entity) + 1], Demand(st, l.d.limited, log))
  }

  /** Jobs left in the queue and the loop state when it stops. */
  function Serve(rest: seq<Job>, l: Loop, env: Env): (seq<Job>, Loop)
    decreases |rest|
  {
    if rest == [] || l.slots <= 0 then (rest, l)
    else
      var i := PopIndex(rest, l.load);
      Serve(Remove(rest, i), Step(l, rest[i], env), env)
  }

  function InitialLoop(sel: NodeSelector, d: Demand, env: Env): Loop {
    Loop(Total(env.nodes, sel) - |ActivePods(d.st.pods, env.nodes, sel)|, Loads(d.st.pods, env.nodes, sel), d)
  }

  function ServeSelector(sel: NodeSelector, jobs: seq<Job>, d: Demand, env: Env): Demand {
    if !sel.Valid() || !env.slotsKnown(sel) then d
    else Serve(jobs, InitialLoop(sel, d, env), env).1.d
  }

  function ForSelector(jobs: seq<Job>, sel: NodeSelector): seq<Job> {
    if jobs == [] then []
    else ForSelector(jobs[..|jobs| - 1], sel) +
         if jobs[|jobs| - 1].selector == sel then [jobs[|jobs| - 1]] else []
  }

  /** `order` is the order in which the grouping map happened to be ranged over. */
  function ServeAll(order: seq<NodeSelector>, pending: seq<Job>, d: Demand, env: Env): Demand
    decreases |order|
  {
    if order == [] then d
    else ServeAll(order[1..], pending, ServeSelector(order[0], ForSelector(pending, order[0]), d, env), env)
  }

  // ---- what the loops do to the store is a sequence of attempts ----

  function Replay(st: Store, log: seq<Attempt>, env: Env): Store {
    if log == [] then st
    else
      var last := log[|log| - 1];
      Try(Replay(st, log[..|log| - 1], env), last.job, env.configs, env.now, last.answer).0
  }

  ghost predicate Replayed(st0: Store, from: nat, d: Demand, env: Env) {
    from <= |d.log| && d.st == Replay(st0, d.log[from..], env)
  }

  lemma StepUnfolds(l: Loop, j: Job, env: Env, a: Answer)
    requires j.entity !in l.d.limited && a == env.answers(|l.d.log|)
    ensures var (st, v) := Try(l.d.st, j, env.configs, env.now, a);
      var log := l.d.log + [Attempt(j, a, v)];
      Step(l, j, env) ==
      if v.Consumed? then Loop(l.slots - 1, l.load[j.entity := At(l.load, j.entity) + 1], Demand(st, l.d.limited, log))
      else if v.BackedOff? then l.(d := Demand(st, l.d.limited + {j.entity}, log))
      else l.(d := Demand(st, l.d.limited, log))
  {
  }

  lemma StepReplays(st0: Store, from: nat, l: Loop, j: Job, env: Env)
    requires Replayed(st0, from, l.d, env)
    ensures Replayed(st0, from, Step(l, j, env).d, env)
  {
    if j.entity !in l.d.limited {
      var a := env.answers(|l.d.log|);
      var attempt := Attempt(j, a, Try(l.d.st, j, env.configs, env.now, a).1);
      StepUnfolds(l, j, env, a);
      SuffixAppends(l.d.log, attempt, from);
      ReplayAppends(st0, l.d.log[from..], attempt, env);
    }
  }

  lemma SuffixAppends(log: seq<Attempt>, a: Attempt, from: nat)
    requires from <= |log|
    ensures (log + [a])[from..] == log[from..] + [a]
  {
  }

  lemma ReplayAppends(st0: Store, log: seq<Attempt>, a: Attempt, env: Env)
    ensures Replay(st0, log + [a], env) == Try(Replay(st0, log, env), a.job, env.configs, env.now, a.answer).0
  {
  }

  lemma {:induction false} ServeReplays(st0: Store, from: nat, rest: seq<Job>, l: Loop, env: Env)
    requires Replayed(st0, from, l.d, env)
    ensures Replayed(st0, from, Serve(rest, l, env).1.d, env)
    decreases |rest|
  {
    if rest != [] && l.slots > 0 {
      var i := PopIndex(rest, l.load);
      StepReplays(st0, from, l, rest[i], env);
      ServeReplays(st0, from, Remove(rest, i), Step(l, rest[i], env), env);
    }
  }

  lemma {:induction false} ServeAllReplays(
    st0: Store, from: nat, order: seq<NodeSelector>, pending: seq<Job>, d: Demand, env: Env)
    requires Replayed(st0, from, d, env)
    ensures Replayed(st0, from, ServeAll(order, pending, d, env), env)
    decreases |order|
  {
    if order != [] {
      var sel, jobs := order[0], ForSelector(pending, order[0]);
      ServeReplays(st0, from, jobs, InitialLoop(sel, d, env), env);
      ServeAllReplays(st0, from, order[1..], pending, ServeSelector(sel, jobs, d, env), env);
    }
  }

  // ---- limits and demand ----

  /** The limit an entity keeps, given where it started. */
  ghost predicate WithinLimit(before: nat, after: nat, limit: Option<nat>) {
    limit.Some? ==> after <= Max(before, limit.value)
  }

  /** An admitted attempt inserts one row under a fresh name, and at most one pod of that name. */
  lemma TryShape(st: Store, j: Job, configs: map<Id, Option<nat>>, now: int, a: Answer)
    returns (name: string, w: W.Worker)
    requires Admitted(st, j, configs, a.candidates)
    ensures name !in st.workers && W.RowOk(w)
    ensures w.entity == j.entity && w.labels == Labels.Canonical(j.labels)
    ensures w.selector == j.selector && w.image == j.image
    ensures var st' := Try(st, j, configs, now, a).0;
      && st'.jobs == st.jobs
      && st'.workers == st.workers[name := w]
      && (st'.pods == st.pods
          || (name !in st.pods && j.selector.Valid() && st'.pods == st.pods[name := NewPod(j.selector, j.entity, now)]))
      && (st'.requested == st.requested || st'.requested == st.requested + [name])
      && (st'.pods != st.pods ==> Try(st, j, configs, now, a).1.Consumed?)
  {
    FreeNameIsFresh(st.workers, a.candidates, 0);
    name := FreeName(st.workers, a.candidates, 0).value;
    w := RowFor(st, j, name, now, a);
    RowForIsWellFormed(st, j, name, now, a);
  }

  lemma TryKeepsLimit(st: Store, j: Job, configs: map<Id, Option<nat>>, now: int, a: Answer, e: Id)
    ensures var st' := Try(st, j, configs, now, a).0;
      WithinLimit(|W.ActiveOf(st.workers, e)|, |W.ActiveOf(st'.workers, e)|, WorkerLimit(configs, e))
  {
    if Admitted(st, j, configs, a.candidates) {
      var name, w := TryShape(st, j, configs, now, a);
      if w.Active() {
        W.AddCounts(st.workers, name, w, e);
      } else {
        W.RetiringCounts(st.workers, st.workers[name := w]);
      }
    }
  }

  lemma TryKeepsDemand(st: Store, j: Job, configs: map<Id, Option<nat>>, now: int, a: Answer, e: Id, k: seq<string>)
    ensures var st' := Try(st, j, configs, now, a).0;
      && st'.jobs == st.jobs
      && |W.ActiveInPool(st'.workers, e, k)| <= Max(|W.ActiveInPool(st.workers, e, k)|, |JobsInPool(st.jobs, e, k)|)
  {
    if Admitted(st, j, configs, a.candidates) {
      var name, w := TryShape(st, j, configs, now, a);
      if w.Active() {
        W.AddPoolCounts(st.workers, name, w, e, k);
      } else {
        W.RetiringCounts(st.workers, st.workers[name := w]);
      }
    }
  }

  /** However a tick's attempts go, no entity exceeds its limit and no pool its demand,
      beyond what they already had when the tick began. */
  lemma {:induction false} LimitsAndDemand(st: Store, log: seq<Attempt>, env: Env, e: Id, k: seq<string>)
    ensures var st' := Replay(st, log, env);
      && st'.jobs == st.jobs
      && WithinLimit(|W.ActiveOf(st.workers, e)|, |W.ActiveOf(st'.workers, e)|, WorkerLimit(env.configs, e))
      && |W.ActiveInPool(st'.workers, e, k)| <= Max(|W.ActiveInPool(st.workers, e, k)|, |JobsInPool(st.jobs, e, k)|)
  {
    if log != [] {
      var last := log[|log| - 1];
      LimitsAndDemand(st, log[..|log| - 1], env, e, k);
      var before := Replay(st, log[..|log| - 1], env);
      TryKeepsLimit(before, last.job, env.configs, env.now, last.answer, e);
      TryKeepsDemand(before, last.job, env.configs, env.now, last.answer, e, k);
    }
  }

  // ---- rows and names ----

  ghost predicate NamesOk(st: Store) {
    && (forall i, k :: 0 <= i < k < |st.requested| ==> st.requested[i] != st.requested[k])
    && (forall n :: n in st.requested ==> n in st.workers)
  }

  /** Old rows and pods stay as they are; new rows are well formed copies of their job. */
  ghost predicate Grows(st: Store, st': Store) {
    && st'.jobs == st.jobs
    && st.workers.Keys <= st'.workers.Keys && st.pods.Keys <= st'.pods.Keys
    && (forall n :: n in st.workers ==> st'.workers[n] == st.workers[n])
    && (forall n :: n in st.pods ==> st'.pods[n] == st.pods[n])
    && (forall n :: n in st'.workers && n !in st.workers ==> W.RowOk(st'.workers[n]))
    && (forall n :: n in st'.pods && n !in st.pods ==> n in st'.workers && n !in st.workers)
  }

  lemma TryGrows(st: Store, j: Job, configs: map<Id, Option<nat>>, now: int, a: Answer)
    requires NamesOk(st)
    ensures Grows(st, Try(st, j, configs, now, a).0) && NamesOk(Try(st, j, configs, now, a).0)
  {
    if Admitted(st, j, configs, a.candidates) {
      var name, w := TryShape(st, j, configs, now, a);
    }
  }

  /** No name reaches ProvisionRunner twice, no existing row or pod is touched. */
  lemma {:induction false} ReplayGrows(st: Store, log: seq<Attempt>, env: Env)
    requires NamesOk(st)
    ensures Grows(st, Replay(st, log, env)) && NamesOk(Replay(st, log, env))
  {
    if log != [] {
      var last := log[|log| - 1];
      ReplayGrows(st, log[..|log| - 1], env);
      TryGrows(Replay(st, log[..|log| - 1], env), last.job, env.configs, env.now, last.answer);
    }
  }

  // ---- fairness inside one selector ----

  /** Whoever got a slot since `from` is at most one ahead of everyone still queued. */
  ghost predicate Fair(l: Loop, rest: seq<Job>, from: nat) {
    forall k, j :: from <= k < |l.d.log| && l.d.log[k].verdict.Consumed? && j in rest ==>
      At(l.load, l.d.log[k].job.entity) <= At(l.load, j.entity) + 1
  }

  /** What one round may change that fairness depends on. */
  ghost predicate Advances(l: Loop, l': Loop, j: Job) {
    || (l'.d.log == l.d.log && l'.load == l.load)
    || (&& |l'.d.log| == |l.d.log| + 1 && l.d.log <= l'.d.log && l'.d.log[|l.d.log|].job == j
        && l'.load == if l'.d.log[|l.d.log|].verdict.Consumed? then l.load[j.entity := At(l.load, j.entity) + 1] else l.load)
  }

  lemma StepAdvances(l: Loop, j: Job, env: Env)
    ensures Advances(l, Step(l, j, env), j)
  {
    if j.entity !in l.d.limited {
      StepUnfolds(l, j, env, env.answers(|l.d.log|));
    }
  }

  lemma AdvanceFair(l: Loop, l': Loop, rest: seq<Job>, i: nat, from: nat)
    requires i < |rest| && IsLeast(rest, l.load, i) && from <= |l.d.log| && Fair(l, rest, from)
    requires Advances(l, l', rest[i])
    ensures Fair(l', Remove(rest, i), from)
  {
    var rest' := Remove(rest, i);
    forall k, j | from <= k < |l'.d.log| && l'.d.log[k].verdict.Consumed? && j in rest'
      ensures At(l'.load, l'.d.log[k].job.entity) <= At(l'.load, j.entity) + 1
    {
      var m :| 0 <= m < |rest'| && rest'[m] == j;
      var m' := if m < i then m else m + 1;
      assert rest[m'] == j && Before(l.load, rest[i], rest[m']);
      if k < |l.d.log| {
        assert l'.d.log[k] == l.d.log[k];
        assert At(l.load, l.d.log[k].job.entity) <= At(l.load, rest[i].entity) + 1;
      }
    }
  }

  lemma {:induction false} ServeStaysFair(rest: seq<Job>, l: Loop, env: Env, from: nat)
    requires InOrder(rest) && from <= |l.d.log| && Fair(l, rest, from)
    ensures var (rest', l') := Serve(rest, l, env);
      from <= |l'.d.log| && Fair(l', rest', from)
    decreases |rest|
  {
    if rest != [] && l.slots > 0 {
      var i := PopIndex(rest, l.load);
      PopIndexIsLeast(rest, l.load);
      RemoveKeepsOrder(rest, i);
      StepAdvances(l, rest[i], env);
      AdvanceFair(l, Step(l, rest[i], env), rest, i, from);
      ServeStaysFair(Remove(rest, i), Step(l, rest[i], env), env, from);
    }
  }

  /** Max-min fairness: whatever mix of consumed, skipped and rate-limited attempts happened,
      an entity that got a slot is at most one ahead of any entity that still has a job queued. */
  lemma MaxMinFairness(rest: seq<Job>, l: Loop, env: Env)
    requires InOrder(rest)
    ensures var (rest', l') := Serve(rest, l, env);
      forall k, j :: |l.d.log| <= k < |l'.d.log| && l'.d.log[k].verdict.Consumed? && j in rest' ==>
        At(l'.load, l'.d.log[k].job.entity) <= At(l'.load, j.entity) + 1
  {
    ServeStaysFair(rest, l, env, |l.d.log|);
  }

  function ConsumedBy(log: seq<Attempt>, e: Id): nat {
    if log == [] then 0
    else
      var last := log[|log| - 1];
      ConsumedBy(log[..|log| - 1], e) + if last.verdict.Consumed? && last.job.entity == e then 1 else 0
  }

  lemma AdvanceCounts(l: Loop, l': Loop, j: Job, e: Id)
    requires Advances(l, l', j)
    ensures At(l'.load, e) - At(l.load, e) == ConsumedBy(l'.d.log, e) - ConsumedBy(l.d.log, e)
  {
    if l'.d.log != l.d.log {
      assert l'.d.log[..|l'.d.log| - 1] == l.d.log;
    }
  }

  /** The load the queue compares is what the entity had plus what it consumed. */
  lemma {:induction false} ServeCountsLoad(rest: seq<Job>, l: Loop, env: Env, e: Id)
    ensures var l' := Serve(rest, l, env).1;
      At(l'.load, e) - At(l.load, e) == ConsumedBy(l'.d.log, e) - ConsumedBy(l.d.log, e)
    decreases |rest|
  {
    if rest != [] && l.slots > 0 {
      var i := PopIndex(rest, l.load);
      StepAdvances(l, rest[i], env);
      AdvanceCounts(l, Step(l, rest[i], env), rest[i], e);
      ServeCountsLoad(Remove(rest, i), Step(l, rest[i], env), env, e);
    }
  }

  lemma LoadIsActivePods(pods: Pods, nodes: seq<Node>, sel: NodeSelector, e: Id)
    ensures At(Loads(pods, nodes, sel), e) == |ActivePodsOf(pods, nodes, sel, e)|
  {
    if n :| n in ActivePodsOf(pods, nodes, sel, e) {
      assert n in ActivePods(pods, nodes, sel) && e in Owners(pods, ActivePods(pods, nodes, sel));
    } else {
      assert ActivePodsOf(pods, nodes, sel, e) == {};
    }
  }

  /** Active pods of an entity in the pool when its loop began, and slots it consumed since. */
  function PoolShare(d: Demand, d': Demand, nodes: seq<Node>, sel: NodeSelector, e: Id): int {
    |ActivePodsOf(d.st.pods, nodes, sel, e)| + ConsumedBy(d'.log, e) - ConsumedBy(d.log, e)
  }

  /** The same fairness in terms of pods and slots, for the whole treatment of one selector. */
  lemma SelectorIsFair(sel: NodeSelector, queued: seq<Job>, d: Demand, env: Env, k: nat, j: Job)
    requires InOrder(queued) && sel.Valid() && env.slotsKnown(sel)
    requires var (rest, l) := Serve(queued, InitialLoop(sel, d, env), env);
      |d.log| <= k < |l.d.log| && l.d.log[k].verdict.Consumed? && j in rest
    ensures var d' := ServeSelector(sel, queued, d, env);
      k < |d'.log| && PoolShare(d, d', env.nodes, sel, d'.log[k].job.entity) <=
                      PoolShare(d, d', env.nodes, sel, j.entity) + 1
  {
    var l := InitialLoop(sel, d, env);
    var b := Serve(queued, l, env).1.d.log[k].job.entity;
    MaxMinFairness(queued, l, env);
    ServeCountsLoad(queued, l, env, b);
    ServeCountsLoad(queued, l, env, j.entity);
    LoadIsActivePods(d.st.pods, env.nodes, sel, b);
    LoadIsActivePods(d.st.pods, env.nodes, sel, j.entity);
  }

  /** The job is still queued, its entity is backed off, or it was attempted since `from`. */
  ghost predicate Reached(j: Job, rest: seq<Job>, d: Demand, from: nat) {
    j in rest || j.entity in d.limited || exists k :: from <= k < |d.log| && d.log[k].job == j
  }

  lemma StepReaches(l: Loop, j: Job, env: Env)
    ensures var d := Step(l, j, env).d;
      && l.d.log <= d.log && l.d.limited <= d.limited
      && Reached(j, [], d, |l.d.log|)
  {
    if j.entity !in l.d.limited {
      assert Step(l, j, env).d.log[|l.d.log|].job == j;
    }
  }

  lemma ReachedLater(j: Job, rest: seq<Job>, d: Demand, from: nat, d': Demand)
    requires Reached(j, [], d, from) && d.log <= d'.log && d.limited <= d'.limited
    ensures Reached(j, rest, d', from)
  {
  }

  /** Nobody is forgotten: the loop stops only out of jobs or out of slots, and every job
      that left the queue was attempted or belongs to an entity that is backed off. */
  lemma {:induction false} ServeReachesEveryJob(rest: seq<Job>, l: Loop, env: Env)
    requires InOrder(rest)
    ensures var (rest', l') := Serve(rest, l, env);
      && (rest' == [] || l'.slots <= 0)
      && l.d.log <= l'.d.log && l.d.limited <= l'.d.limited
      && forall j :: j in rest ==> Reached(j, rest', l'.d, |l.d.log|)
    decreases |rest|
  {
    if rest != [] && l.slots > 0 {
      var i := PopIndex(rest, l.load);
      var l1 := Step(l, rest[i], env);
      var (rest', l') := Serve(rest, l, env);
      RemoveKeepsOrder(rest, i);
      StepReaches(l, rest[i], env);
      ServeReachesEveryJob(Remove(rest, i), l1, env);
      forall j | j in rest ensures Reached(j, rest', l'.d, |l.d.log|) {
        if j == rest[i] {
          ReachedLater(j, rest', l1.d, |l.d.log|, l'.d);
        } else {
          assert j in Remove(rest, i) && Reached(j, rest', l'.d, |l1.d.log|);
        }
      }
    }
  }

  // ---- nobody is passed over without a reason ----

  /** Attempts add rows and change nothing else that admission looks at. */
  ghost predicate OnlyAdds(st: Store, st': Store) {
    st'.jobs == st.jobs && forall n :: n in st.workers ==> n in st'.workers && st'.workers[n] == st.workers[n]
  }

  lemma TryOnlyAdds(st: Store, j: Job, configs: map<Id, Option<nat>>, now: int, a: Answer)
    ensures OnlyAdds(st, Try(st, j, configs, now, a).0)
  {
    if Admitted(st, j, configs, a.candidates) {
      var name, w := TryShape(st, j, configs, now, a);
    }
  }

  /** Room once gone does not come back during a tick. */
  lemma NoRoomStays(st: Store, st': Store, j: Job, configs: map<Id, Option<nat>>)
    requires OnlyAdds(st, st') && !HasRoom(st.workers, st.jobs, j, configs)
    ensures !HasRoom(st'.workers, st'.jobs, j, configs)
  {
    var key := Labels.Canonical(j.labels);
    SubsetCount(W.ActiveInPool(st.workers, j.entity, key), W.ActiveInPool(st'.workers, j.entity, key));
    SubsetCount(W.ActiveOf(st.workers, j.entity), W.ActiveOf(st'.workers, j.entity));
  }

  /** Why a job needs no further attempt: its entity is backed off, its entity type is unknown,
      its pool's active workers match its active jobs, its entity is at the limit, or an attempt
      since `from` consumed a slot
      for it or found all its candidate names in use. */
  ghost predicate Justified(j: Job, d: Demand, from: nat, configs: map<Id, Option<nat>>) {
    || j.entity in d.limited
    || j.kind.None?
    || DemandMet(d.st.workers, d.st.jobs, j.entity, Labels.Canonical(j.labels))
    || AtLimit(d.st.workers, configs, j.entity)
    || exists k :: from <= k < |d.log| && Answered(j, d, k)
  }

  ghost predicate Answered(j: Job, d: Demand, k: nat)
    requires k < |d.log|
  {
    && d.log[k].job == j
    && (d.log[k].verdict.Consumed?
        || forall i: nat :: i < NAME_TRIES ==> d.log[k].answer.candidates(i) in d.st.workers)
  }

  lemma JustifiedStays(j: Job, d: Demand, d': Demand, from: nat, from': nat, configs: map<Id, Option<nat>>)
    requires Justified(j, d, from, configs) && from' <= from
    requires d.log <= d'.log && d.limited <= d'.limited && OnlyAdds(d.st, d'.st)
    ensures Justified(j, d', from', configs)
  {
    RoomIff(d.st.workers, d.st.jobs, j, configs);
    RoomIff(d'.st.workers, d'.st.jobs, j, configs);
    if !HasRoom(d.st.workers, d.st.jobs, j, configs) {
      NoRoomStays(d.st, d'.st, j, configs);
    } else if k :| from <= k < |d.log| && Answered(j, d, k) {
      assert d'.log[k] == d.log[k] && Answered(j, d', k);
    }
  }

  lemma StepJustifies(l: Loop, j: Job, env: Env)
    ensures var d := Step(l, j, env).d;
      && l.d.log <= d.log && l.d.limited <= d.limited && OnlyAdds(l.d.st, d.st)
      && Justified(j, d, |l.d.log|, env.configs)
  {
    if j.entity !in l.d.limited {
      var a := env.answers(|l.d.log|);
      StepUnfolds(l, j, env, a);
      TryOnlyAdds(l.d.st, j, env.configs, env.now, a);
      TryJustifies(l.d.st, j, env, a, l.d.log, Step(l, j, env).d);
    }
  }

  lemma TryJustifies(st: Store, j: Job, env: Env, a: Answer, log: seq<Attempt>, d: Demand)
    requires var (st', v) := Try(st, j, env.configs, env.now, a);
      && d.st == st' && d.log == log + [Attempt(j, a, v)] && (v.BackedOff? ==> j.entity in d.limited)
    ensures Justified(j, d, |log|, env.configs)
  {
    var v := Try(st, j, env.configs, env.now, a).1;
    assert d.log[|log|] == Attempt(j, a, v);
    RoomIff(st.workers, st.jobs, j, env.configs);
    if v.Skipped? {
      FreeNameIsFresh(st.workers, a.candidates, 0);
      assert FreeName(st.workers, a.candidates, 0).None? ==> Answered(j, d, |log|);
    } else if v.Consumed? {
      assert Answered(j, d, |log|);
    }
  }

  /** When a selector's loop ends with slots left, no job of it was passed over: each one has,
      in the final store, its reason to need no further attempt. */
  lemma {:induction false} ServeJustifiesEveryJob(rest: seq<Job>, l: Loop, env: Env)
    requires InOrder(rest)
    ensures var l' := Serve(rest, l, env).1;
      && l.d.log <= l'.d.log && l.d.limited <= l'.d.limited && OnlyAdds(l.d.st, l'.d.st)
      && (l'.slots > 0 ==> forall j :: j in rest ==> Justified(j, l'.d, |l.d.log|, env.configs))
    decreases |rest|
  {
    if rest != [] && l.slots > 0 {
      var i := PopIndex(rest, l.load);
      var l1, l' := Step(l, rest[i], env), Serve(rest, l, env).1;
      RemoveKeepsOrder(rest, i);
      StepJustifies(l, rest[i], env);
      ServeJustifiesEveryJob(Remove(rest, i), l1, env);
      if l'.slots > 0 {
        forall j | j in rest ensures Justified(j, l'.d, |l.d.log|, env.configs) {
          if j == rest[i] {
            JustifiedStays(j, l1.d, l'.d, |l.d.log|, |l.d.log|, env.configs);
          } else {
            JustifiedStays(j, l'.d, l'.d, |l1.d.log|, |l.d.log|, env.configs);
          }
        }
      }
    }
  }

  // ---- capacity ----

  lemma StepCapacity(l: Loop, j: Job, env: Env, b: NodeSelector)
    requires Separate(j.selector, b)
    ensures var l' := Step(l, j, env);
      var n, n' := |ActivePods(l.d.st.pods, env.nodes, b)|, |ActivePods(l'.d.st.pods, env.nodes, b)|;
      && (b != j.selector ==> n' == n)
      && (b == j.selector ==> n' - n <= l.slots - l'.slots)
      && l'.slots <= l.slots
  {
    var a := env.answers(|l.d.log|);
    if j.entity !in l.d.limited && Admitted(l.d.st, j, env.configs, a.candidates) {
      var name, w := TryShape(l.d.st, j, env.configs, env.now, a);
      if name !in l.d.st.pods {
        CreationCounts(l.d.st.pods, env.nodes, name, j.selector, b, j.entity, env.now);
      }
    }
  }

  lemma {:induction false} ServeCapacity(rest: seq<Job>, l: Loop, env: Env, sel: NodeSelector, b: NodeSelector)
    requires Separate(sel, b) && forall j :: j in rest ==> j.selector == sel
    requires b == sel ==> |ActivePods(l.d.st.pods, env.nodes, b)| + Max(0, l.slots) <=
                          Max(|ActivePods(l.d.st.pods, env.nodes, b)|, Total(env.nodes, b))
    ensures var l' := Serve(rest, l, env).1;
      |ActivePods(l'.d.st.pods, env.nodes, b)| <= Max(|ActivePods(l.d.st.pods, env.nodes, b)|, Total(env.nodes, b))
    decreases |rest|
  {
    if rest != [] && l.slots > 0 {
      var i := PopIndex(rest, l.load);
      var j := rest[i];
      assert j in rest;
      assert forall x :: x in Remove(rest, i) ==> x in rest;
      StepCapacity(l, j, env, b);
      ServeCapacity(Remove(rest, i), Step(l, j, env), env, sel, b);
    }
  }

  lemma {:induction false} ForSelectorMembers(jobs: seq<Job>, sel: NodeSelector)
    ensures forall j :: j in ForSelector(jobs, sel) <==> j in jobs && j.selector == sel
    ensures InOrder(jobs) ==> InOrder(ForSelector(jobs, sel))
  {
    if jobs != [] {
      var before, last := jobs[..|jobs| - 1], jobs[|jobs| - 1];
      ForSelectorMembers(before, sel);
      assert jobs == before + [last];
      if InOrder(jobs) {
        var fs := ForSelector(before, sel);
        forall k | 0 <= k < |fs| ensures Older(fs[k], last) {
          assert fs[k] in before;
          var m :| 0 <= m < |before| && before[m] == fs[k];
          assert Older(jobs[m], jobs[|jobs| - 1]);
        }
      }
    }
  }

  /** A tick never takes a pool past its total, nor past what it already held, as long as no
      pending selector charges another's unscheduled pods. */
  lemma {:induction false} TickCapacity(order: seq<NodeSelector>, pending: seq<Job>, d: Demand, env: Env, b: NodeSelector)
    requires forall j :: j in pending ==> Separate(j.selector, b)
    ensures |ActivePods(ServeAll(order, pending, d, env).st.pods, env.nodes, b)| <=
            Max(|ActivePods(d.st.pods, env.nodes, b)|, Total(env.nodes, b))
    decreases |order|
  {
    if order != [] {
      var sel, jobs := order[0], ForSelector(pending, order[0]);
      var d' := ServeSelector(sel, jobs, d, env);
      ForSelectorMembers(pending, sel);
      if jobs == [] {
      } else {
        assert jobs[0] in jobs;
        ServeCapacity(jobs, InitialLoop(sel, d, env), env, sel, b);
      }
      TickCapacity(order[1..], pending, d', env, b);
    }
  }

  // ---- back-off ----

  /** No attempt for an entity follows its first rate-limited one. */
  ghost predicate BackOffKept(d: Demand) {
    && (forall i, k :: 0 <= i < k < |d.log| && d.log[i].verdict.BackedOff? ==>
          d.log[k].job.entity != d.log[i].job.entity)
    && (forall i :: 0 <= i < |d.log| && d.log[i].verdict.BackedOff? ==> d.log[i].job.entity in d.limited)
  }

  lemma {:induction false} ServeBacksOff(rest: seq<Job>, l: Loop, env: Env)
    requires BackOffKept(l.d)
    ensures BackOffKept(Serve(rest, l, env).1.d)
    decreases |rest|
  {
    if rest != [] && l.slots > 0 {
      var i := PopIndex(rest, l.load);
      ServeBacksOff(Remove(rest, i), Step(l, rest[i], env), env);
    }
  }

  lemma {:induction false} TickBacksOff(order: seq<NodeSelector>, pending: seq<Job>, d: Demand, env: Env)
    requires BackOffKept(d)
    ensures BackOffKept(ServeAll(order, pending, d, env))
    decreases |order|
  {
    if order != [] {
      var sel, jobs := order[0], ForSelector(pending, order[0]);
      ServeBacksOff(jobs, InitialLoop(sel, d, env), env);
      TickBacksOff(order[1..], pending, ServeSelector(sel, jobs, d, env), env);
    }
  }

  // ---- the methods ----

  ghost function View(workers: W.WorkerTable, jobs: JobTable, k8s: KubeClient): Store
    reads workers, jobs, k8s
  {
    Store(workers.rows, jobs.rows, k8s.pods, k8s.requested)
  }

  /** GetPoolDemand */
  method GetPoolDemand(workers: W.WorkerTable, jobs: JobTable, entity: Id, labels: seq<string>)
    returns (jobCount: nat, workerCount: nat)
    ensures jobCount == |JobsInPool(jobs.rows, entity, Labels.Canonical(labels))|
    ensures workerCount == |W.ActiveInPool(workers.rows, entity, Labels.Canonical(labels))|
  {
    var key := Labels.SortedJSON(labels);
    jobCount := |JobsInPool(jobs.rows, entity, key)|;
    workerCount := |W.ActiveInPool(workers.rows, entity, key)|;
  }

  method ReserveRunnerName(workers: W.WorkerTable, j: Job, labels: seq<string>, candidates: nat -> string)
    returns (name: Option<string>)
    requires j.kind.Some? && labels == j.labels
    modifies workers
    ensures name == FreeName(old(workers.rows), candidates, 0)
    ensures workers.rows == if name.Some? then old(workers.rows)[name.value := NewWorker(j)] else old(workers.rows)
  {
    var key := Labels.SortedJSON(labels);
    var repo := if j.kind.value.User? then Some(j.repo) else None;
    for i := 0 to NAME_TRIES
      invariant workers.rows == old(workers.rows)
      invariant FreeName(workers.rows, candidates, 0) == FreeName(workers.rows, candidates, i)
    {
      var w := W.Worker(j.entity, j.kind.value, j.entityName, j.installation, repo, key,
                        j.selector, j.image, None, Pending, None, None, None);
      var added := workers.AddWorker(candidates(i), w);
      if added {
        return Some(candidates(i));
      }
    }
    name := None;
  }

  /** The demand test and the entity's worker limit. */
  method CheckRoom(workers: W.WorkerTable, jobs: JobTable, j: Job, labels: seq<string>, configs: map<Id, Option<nat>>)
    returns (room: bool)
    requires labels == j.labels
    ensures room == HasRoom(workers.rows, jobs.rows, j, configs)
    ensures room <==> !DemandMet(workers.rows, jobs.rows, j.entity, Labels.Canonical(labels))
                      && !AtLimit(workers.rows, configs, j.entity)
  {
    RoomIff(workers.rows, jobs.rows, j, configs);
    var jobCount, workerCount := GetPoolDemand(workers, jobs, j.entity, labels);
    if jobCount <= workerCount {
      return false;
    }
    var maxWorkers := DEFAULT_MAX_WORKERS;
    if j.entity in configs && configs[j.entity].Some? {
      maxWorkers := configs[j.entity].value;
    }
    if j.entity !in configs || configs[j.entity].Some? {
      if workers.TotalForEntity(j.entity) >= maxWorkers {
        return false;
      }
    }
    return true;
  }

  /** From the reserved row on: ask GitHub, then Kubernetes; a failure retires the row. */
  method Launch(workers: W.WorkerTable, k8s: KubeClient, j: Job, name: string, now: int, a: Answer)
    returns (consumed: bool, limited: bool)
    requires j.kind.Some? && name in workers.rows && workers.rows[name] == NewWorker(j)
    modifies workers, k8s
    ensures var created := a.github.JitIssued? && j.selector.Valid() && name !in old(k8s.pods) && a.create.Created?;
      workers.rows == old(workers.rows)[name :=
        if created then NewWorker(j)
        else FailedWorker(j, if a.github.RateLimited? then W.RateLimited else W.PodAllocationFailure, now)]
    ensures k8s.pods == if a.github.JitIssued? then CreatePod(old(k8s.pods), name, j.selector, j.entity, now, a.create)
                        else old(k8s.pods)
    ensures k8s.requested == old(k8s.requested) + if a.github.JitIssued? then [name] else []
    ensures limited == a.github.RateLimited? && consumed == !limited
  {
    if a.github.RateLimited? {
      workers.MarkWorkerFailed(name, "", W.RateLimited, None, now);
      return false, true;
    }
    var ok := false;
    if a.github.JitIssued? {
      ok := k8s.ProvisionRunner(name, j.selector, j.entity, now, a.create);
    }
    if !ok {
      workers.MarkWorkerFailed(name, "", W.PodAllocationFailure, None, now);
    }
    return true, false;
  }

  /** `limited` is the non-nil error of the source: this entity's token is rate limited. */
  method TryProvision(workers: W.WorkerTable, jobs: JobTable, k8s: KubeClient, j: Job, env: Env, a: Answer)
    returns (consumed: bool, limited: bool)
    modifies workers, k8s
    ensures View(workers, jobs, k8s) == Try(old(View(workers, jobs, k8s)), j, env.configs, env.now, a).0
    ensures var v := Try(old(View(workers, jobs, k8s)), j, env.configs, env.now, a).1;
      consumed == v.Consumed? && limited == v.BackedOff?
  {
    var labels := j.labels;
    if j.kind.None? {
      return false, false;
    }
    var room := CheckRoom(workers, jobs, j, labels, env.configs);
    if !room {
      return false, false;
    }
    var name := ReserveRunnerName(workers, j, labels, a.candidates);
    if name.None? {
      return false, false;
    }
    consumed, limited := Launch(workers, k8s, j, name.value, env.now, a);
  }

  /** One round of the inner loop after the pop: honour the back-off, try, account. */
  method Attend(workers: W.WorkerTable, jobs: JobTable, k8s: KubeClient, j: Job,
                slots: int, load: map<Id, int>, limited: set<Id>, ghost log: seq<Attempt>, attempts: nat, env: Env)
    returns (slots': int, load': map<Id, int>, limited': set<Id>, ghost log': seq<Attempt>, attempts': nat)
    requires attempts == |log|
    modifies workers, k8s
    ensures attempts' == |log'|
    ensures Loop(slots', load', Demand(View(workers, jobs, k8s), limited', log')) ==
            Step(Loop(slots, load, Demand(old(View(workers, jobs, k8s)), limited, log)), j, env)
  {
    slots', load', limited', log', attempts' := slots, load, limited, log, attempts;
    ghost var l := Loop(slots, load, Demand(View(workers, jobs, k8s), limited, log));
    if j.entity in limited {
      return;
    }
    var a := env.answers(attempts);
    StepUnfolds(l, j, env, a);
    log' := log + [Attempt(j, a, Try(View(workers, jobs, k8s), j, env.configs, env.now, a).1)];
    attempts' := attempts + 1;
    var consumed, backOff := TryProvision(workers, jobs, k8s, j, env, a);
    if backOff {
      limited' := limited + {j.entity};
      return;
    }
    if consumed {
      slots' := slots - 1;
      load' := load[j.entity := At(load, j.entity) + 1];
    }
  }

  /** The loop for one selector; `log` is the ghost record of the attempts of this tick. */
  method ServeOne(workers: W.WorkerTable, jobs: JobTable, k8s: KubeClient, sel: NodeSelector, queued: seq<Job>,
                  limited: set<Id>, ghost log: seq<Attempt>, attempts: nat, env: Env)
    returns (limited': set<Id>, ghost log': seq<Attempt>, attempts': nat)
    requires InOrder(queued) && k8s.nodes == env.nodes && attempts == |log|
    modifies workers, k8s
    ensures Demand(View(workers, jobs, k8s), limited', log') ==
            ServeSelector(sel, queued, Demand(old(View(workers, jobs, k8s)), limited, log), env)
    ensures attempts' == |log'|
  {
    limited', log', attempts' := limited, log, attempts;
    if !env.slotsKnown(sel) {
      return;
    }
    var cap := k8s.AvailableSlots(sel);
    if cap.None? {
      return;
    }
    var slots, load := cap.value.available, cap.value.activeByEntity;
    ghost var start := InitialLoop(sel, Demand(View(workers, jobs, k8s), limited, log), env);
    ghost var l := start;
    var queue := new FairJobQueue(queued);
    while queue.len > 0
      invariant queue.Valid() && fresh(queue)
      invariant attempts' == |log'|
      invariant l == Loop(slots, load, Demand(View(workers, jobs, k8s), limited', log'))
      invariant Serve(queued, start, env) == Serve(queue.rest, l, env)
      decreases queue.len
    {
      if slots <= 0 {
        break;
      }
      ServeUnfolds(queue.rest, l, env);
      l := Step(l, queue.rest[PopIndex(queue.rest, load)], env);
      var j := queue.Pop(load);
      slots, load, limited', log', attempts' :=
        Attend(workers, jobs, k8s, j, slots, load, limited', log', attempts', env);
    }
  }

  lemma ServeUnfolds(rest: seq<Job>, l: Loop, env: Env)
    requires rest != [] && l.slots > 0
    ensures var i := PopIndex(rest, l.load);
      Serve(rest, l, env) == Serve(Remove(rest, i), Step(l, rest[i], env), env)
  {
  }

  method GroupBySelector(pending: seq<Job>) returns (jobsBySel: map<NodeSelector, seq<Job>>)
    ensures forall sel :: sel in jobsBySel <==> ForSelector(pending, sel) != []
    ensures forall sel :: sel in jobsBySel ==> jobsBySel[sel] == ForSelector(pending, sel)
  {
    jobsBySel := map[];
    for i := 0 to |pending|
      invariant forall sel :: sel in jobsBySel <==> ForSelector(pending[..i], sel) != []
      invariant forall sel :: sel in jobsBySel ==> jobsBySel[sel] == ForSelector(pending[..i], sel)
    {
      var j := pending[i];
      assert pending[..i + 1][..i] == pending[..i];
      jobsBySel := jobsBySel[j.selector := (if j.selector in jobsBySel then jobsBySel[j.selector] else []) + [j]];
    }
    assert pending[..|pending|] == pending;
  }

  method DemandMatch(workers: W.WorkerTable, jobs: JobTable, k8s: KubeClient, env: Env)
    returns (ghost order: seq<NodeSelector>, ghost d: Demand)
    requires Keyed(jobs.rows) && k8s.nodes == env.nodes
    modifies workers, k8s
    ensures d == ServeAll(order, PendingJobs(jobs.rows), Demand(old(View(workers, jobs, k8s)), {}, []), env)
    ensures View(workers, jobs, k8s) == d.st
    ensures forall sel :: sel in order <==> ForSelector(PendingJobs(jobs.rows), sel) != []
    ensures forall i, k :: 0 <= i < k < |order| ==> order[i] != order[k]
  {
    var pending := jobs.GetPendingJobs();
    OldestFirstSorts(PendingSet(jobs.rows));
    var jobsBySel := GroupBySelector(pending);
    var limited, attempts := {}, 0;
    ghost var log: seq<Attempt> := [];
    ghost var d0 := Demand(View(workers, jobs, k8s), {}, []);
    order := [];
    var todo := jobsBySel.Keys;
    while todo != {}
      invariant todo <= jobsBySel.Keys && attempts == |log|
      invariant forall sel :: sel in order <==> sel in jobsBySel && sel !in todo
      invariant forall i, k :: 0 <= i < k < |order| ==> order[i] != order[k]
      invariant Demand(View(workers, jobs, k8s), limited, log) == ServeAll(order, pending, d0, env)
      decreases |todo|
    {
      var sel :| sel in todo;
      ForSelectorMembers(pending, sel);
      ServeAllAppend(order, sel, pending, d0, env);
      limited, log, attempts := ServeOne(workers, jobs, k8s, sel, jobsBySel[sel], limited, log, attempts, env);
      order := order + [sel];
      todo := todo - {sel};
    }
    d := Demand(View(workers, jobs, k8s), limited, log);
  }

  lemma {:induction false} ServeAllAppend(
    order: seq<NodeSelector>, sel: NodeSelector, pending: seq<Job>, d: Demand, env: Env)
    ensures ServeAll(order + [sel], pending, d, env) ==
            ServeSelector(sel, ForSelector(pending, sel), ServeAll(order, pending, d, env), env)
    decreases |order|
  {
    if order == [] {
      assert [sel][1..] == [];
    } else {
      assert (order + [sel])[1..] == order[1..] + [sel];
      ServeAllAppend(order[1..], sel, pending, ServeSelector(order[0], ForSelector(pending, order[0]), d, env), env);
    }
  }
}
